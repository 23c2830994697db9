// A model of the utility library Project1/utils.cpp together with the
// declarations, the fixed array length and the Location struct of
// Project1/utils.h. The C++ overloads of max, swap and multiply become
// distinctly named members.

module Utils {

  /** The fixed length of every array the array overloads of max accept. */
  const ARRAY_LENGTH: nat := 5

  /** C++ `int`, taken to be 32 bits wide. */
  newtype Int32 = x: int | -0x8000_0000 <= x < 0x8000_0000

  predicate InInt32Range(n: int) {
    -0x8000_0000 <= n < 0x8000_0000
  }

  // ---------------------------------------------------------------------
  // Maximum
  // ---------------------------------------------------------------------

  /** max(int, int): the larger of the two, the second one on a tie. */
  function MaxOfTwo(x: Int32, y: Int32): (r: Int32)
    ensures r == x || r == y
    ensures r >= x && r >= y
  {
    if x > y then x else y
  }

  /** max(int, int, int), reduced pairwise through the two-argument max. */
  function MaxOfThree(x: Int32, y: Int32, z: Int32): (r: Int32)
    ensures r == x || r == y || r == z
    ensures r >= x && r >= y && r >= z
  {
    MaxOfTwo(MaxOfTwo(x, y), z)
  }

  /**
   * The maximum of a non-empty sequence, folded from the left the way the
   * array scan visits the elements: the first element, then the larger of
   * the running maximum and each further element.
   */
  function SeqMax(s: seq<Int32>): (r: Int32)
    requires |s| > 0
    ensures r in s
    ensures forall i :: 0 <= i < |s| ==> s[i] <= r
    decreases |s|
  {
    if |s| == 1 then s[0]
    else
      var prefix := s[..|s| - 1];
      assert forall i :: 0 <= i < |prefix| ==> prefix[i] == s[i];
      MaxOfTwo(SeqMax(prefix), s[|s| - 1])
  }

  /**
   * max(int[ARRAY_LENGTH]): a linear scan that starts from element 0 and
   * replaces the running maximum whenever it meets a strictly larger
   * element. The array is only read.
   */
  method MaxOfArray(arrayOne: array<Int32>) returns (maxNum: Int32)
    requires arrayOne.Length == ARRAY_LENGTH
    ensures maxNum == SeqMax(arrayOne[..])
    ensures maxNum in arrayOne[..]
    ensures forall k :: 0 <= k < arrayOne.Length ==> arrayOne[k] <= maxNum
  {
    maxNum := arrayOne[0];
    assert arrayOne[..1] == [arrayOne[0]];
    for i := 0 to ARRAY_LENGTH
      invariant maxNum == SeqMax(arrayOne[..if i == 0 then 1 else i])
    {
      if arrayOne[i] > maxNum {
        maxNum := arrayOne[i];
      }
      assert arrayOne[..i + 1][..i] == arrayOne[..i];
    }
    assert arrayOne[..ARRAY_LENGTH] == arrayOne[..];
  }

  /**
   * max(int[ARRAY_LENGTH], int[ARRAY_LENGTH]): the maximum of each array,
   * then the larger of the two; this is the maximum of all ten elements.
   */
  method MaxOfTwoArrays(arrayOne: array<Int32>, arrayTwo: array<Int32>) returns (r: Int32)
    requires arrayOne.Length == ARRAY_LENGTH && arrayTwo.Length == ARRAY_LENGTH
    ensures r == SeqMax(arrayOne[..] + arrayTwo[..])
    ensures r in arrayOne[..] || r in arrayTwo[..]
    ensures forall k :: 0 <= k < ARRAY_LENGTH ==> arrayOne[k] <= r && arrayTwo[k] <= r
  {
    var maxNum1 := MaxOfArray(arrayOne);
    var maxNum2 := MaxOfArray(arrayTwo);
    r := MaxOfTwo(maxNum1, maxNum2);
    SeqMaxOfConcat(arrayOne[..], arrayTwo[..]);
  }

  /** The maximum of a concatenation is the larger of the two maxima. */
  lemma {:induction false} SeqMaxOfConcat(s: seq<Int32>, t: seq<Int32>)
    requires |s| > 0 && |t| > 0
    ensures SeqMax(s + t) == MaxOfTwo(SeqMax(s), SeqMax(t))
    decreases |t|
  {
    var st := s + t;
    assert st[..|st| - 1] == s + t[..|t| - 1];
    if |t| > 1 {
      SeqMaxOfConcat(s, t[..|t| - 1]);
    }
  }

  /** The two-argument max does not depend on the order of its arguments. */
  lemma MaxOfTwoCommutes(x: Int32, y: Int32)
    ensures MaxOfTwo(x, y) == MaxOfTwo(y, x)
  {
  }

  /** The three-argument max is the maximum of the three-element sequence. */
  lemma MaxOfThreeIsSeqMax(x: Int32, y: Int32, z: Int32)
    ensures MaxOfThree(x, y, z) == SeqMax([x, y, z])
  {
  }

  // ---------------------------------------------------------------------
  // Swap
  // ---------------------------------------------------------------------

  /** The sequence `s` with the values at positions `i` and `j` exchanged. */
  function Swapped<T>(s: seq<T>, i: nat, j: nat): (r: seq<T>)
    requires i < |s| && j < |s|
    ensures |r| == |s|
    ensures r[i] == s[j] && r[j] == s[i]
    ensures forall k :: 0 <= k < |s| && k != i && k != j ==> r[k] == s[k]
  {
    s[i := s[j]][j := s[i]]
  }

  /** Swapping the same two positions twice restores the original. */
  lemma SwappedTwice<T>(s: seq<T>, i: nat, j: nat)
    requires i < |s| && j < |s|
    ensures Swapped(Swapped(s, i, j), i, j) == s
  {
  }

  /** A swap only rearranges: it keeps the multiset of values. */
  lemma SwappedIsPermutation<T>(s: seq<T>, i: nat, j: nat)
    requires i < |s| && j < |s|
    ensures multiset(Swapped(s, i, j)) == multiset(s)
  {
  }

  /**
   * swap(int*, int*) and swap(int&, int&): the two integers live in slots
   * `num1` and `num2` of `a`; they are exchanged through a temporary and
   * nothing else in `a` changes. The two slots may coincide, in which case
   * nothing changes, as in C++.
   */
  method SwapInts(a: array<Int32>, num1: nat, num2: nat)
    requires num1 < a.Length && num2 < a.Length
    modifies a
    ensures a[..] == Swapped(old(a[..]), num1, num2)
  {
    var temp := a[num1];
    a[num1] := a[num2];
    a[num2] := temp;
  }

  /**
   * struct Location. Its two fields are C++ `double`s; the library only
   * copies them, so the field type is a parameter `F`.
   */
  class Location<F> {
    var latitude: F
    var longitude: F

    constructor (latitude: F, longitude: F)
      ensures this.latitude == latitude && this.longitude == longitude
    {
      this.latitude := latitude;
      this.longitude := longitude;
    }

    /** The record's value: the (latitude, longitude) pair. */
    function Coordinates(): (F, F)
      reads this
    {
      (latitude, longitude)
    }
  }

  /**
   * swap(Location*, Location*) and swap(Location&, Location&): latitude,
   * then longitude, are exchanged through a temporary, so each record ends
   * holding the other's original pair. Only the two records change.
   */
  method SwapLocations<F>(location1: Location<F>, location2: Location<F>)
    modifies location1, location2
    ensures location1.Coordinates() == old(location2.Coordinates())
    ensures location2.Coordinates() == old(location1.Coordinates())
  {
    var tempLat := location1.latitude;
    location1.latitude := location2.latitude;
    location2.latitude := tempLat;

    var tempLong := location1.longitude;
    location1.longitude := location2.longitude;
    location2.longitude := tempLong;
  }

  // ---------------------------------------------------------------------
  // Multiply
  // ---------------------------------------------------------------------

  /**
   * multiply(int, int, int): x * y * z evaluated left to right in 32-bit
   * arithmetic. The caller must keep both products in range (an overflow
   * would be undefined behaviour); then the result is the exact product.
   */
  function Multiply(x: Int32, y: Int32, z: Int32): (r: Int32)
    requires InInt32Range(x as int * y as int)
    requires InInt32Range(x as int * y as int * z as int)
    ensures r as int == x as int * y as int * z as int
  {
    x * y * z
  }

  /**
   * A two-argument call of multiply(int, int, int), whose third parameter
   * defaults to 1: the product of the two.
   */
  function MultiplyDefault(x: Int32, y: Int32): (r: Int32)
    requires InInt32Range(x as int * y as int)
    ensures r as int == x as int * y as int
  {
    Multiply(x, y, 1)
  }

  /**
   * The no-overflow domain follows C++'s left-to-right evaluation of
   * (x * y) * z: the exact product of 65536, 65536 and 0 is 0, yet the first
   * product already overflows, while 0 * 65536 * 65536 never overflows.
   */
  lemma MultiplyDomainIsLeftToRight()
    ensures !Multiply.requires(65536, 65536, 0)
    ensures Multiply.requires(0, 65536, 65536) && Multiply(0, 65536, 65536) == 0
  {
    assert !InInt32Range(65536 * 65536);
    assert InInt32Range(0 * 65536) && InInt32Range(0 * 65536 * 65536);
  }
}
