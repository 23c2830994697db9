// The concrete calls made by the driver Project1/main.cpp, with the values
// it reports, derived from the library's contracts alone, and one call of
// multiply that leaves out the defaulted third factor.

module Driver {
  import opened Utils

  /** max(9, 7) and max(9, 15, 71). */
  lemma MaxExamples()
    ensures MaxOfTwo(9, 7) == 9
    ensures MaxOfThree(9, 15, 71) == 71
  {
  }

  /** max over {10, 2, 30, 4, 51}, and over it together with {8, 70, 16, 15, 41}. */
  method ArrayMaxExamples() returns (maxOne: Int32, maxBoth: Int32)
    ensures maxOne == 51
    ensures maxBoth == 70
  {
    var arrayOne := new Int32[ARRAY_LENGTH] [10, 2, 30, 4, 51];
    var arrayTwo := new Int32[ARRAY_LENGTH] [8, 70, 16, 15, 41];
    maxOne := MaxOfArray(arrayOne);
    maxBoth := MaxOfTwoArrays(arrayOne, arrayTwo);
  }

  /**
   * num1 = 12, num2 = 51 are exchanged by the pointer swap and exchanged
   * back by the reference swap.
   */
  method SwapIntsExample() returns (afterFirst: (Int32, Int32), afterSecond: (Int32, Int32))
    ensures afterFirst == (51, 12)
    ensures afterSecond == (12, 51)
  {
    var nums := new Int32[2] [12, 51];
    SwapInts(nums, 0, 1);
    afterFirst := (nums[0], nums[1]);
    SwapInts(nums, 0, 1);
    afterSecond := (nums[0], nums[1]);
  }

  /**
   * location1 = (25, 40) and location2 = (50, 80) trade places under the
   * pointer swap and trade back under the reference swap.
   */
  method SwapLocationsExample() returns (afterFirst: ((real, real), (real, real)), afterSecond: ((real, real), (real, real)))
    ensures afterFirst == ((50.0, 80.0), (25.0, 40.0))
    ensures afterSecond == ((25.0, 40.0), (50.0, 80.0))
  {
    var location1 := new Location(25.0, 40.0);
    var location2 := new Location(50.0, 80.0);
    SwapLocations(location1, location2);
    afterFirst := (location1.Coordinates(), location2.Coordinates());
    SwapLocations(location1, location2);
    afterSecond := (location1.Coordinates(), location2.Coordinates());
  }

  /** multiply(4, 15, 7). */
  lemma MultiplyExamples()
    ensures Multiply(4, 15, 7) == 420
  {
  }

  /**
   * The driver makes no two-argument call of multiply(int, int, int); this
   * example exercises the default third factor: multiply(4, 15) is 60.
   */
  lemma MultiplyDefaultExample()
    ensures MultiplyDefault(4, 15) == 60
  {
  }
}
