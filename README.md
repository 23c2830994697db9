# Overloaded utilities: max, swap and multiply

This project models the small C++ utility library of an instructional
program about function overloading, pointer and reference parameters and
default arguments. The library (`Project1/utils.cpp`, declared in
`Project1/utils.h`) has three families of functions. `max` is overloaded
for two integers, for three integers, for one array of `ARRAY_LENGTH` (5)
integers and for two such arrays. `swap` is overloaded for two integers and
for two `Location` records, each in a pointer and a reference version.
`multiply` takes three integers, and its third factor defaults to 1.

The model is two modules. `Utils` (`utils.dfy`) is the library. `Driver`
(`driver.dfy`) holds the concrete calls of `Project1/main.cpp`, with the
values it prints, proved from the library's contracts alone. It adds one
call that the driver does not make, `multiply(4, 15)`, which relies on the
default third factor.

How the C++ is rendered:

- Overloads become distinctly named members: `MaxOfTwo`, `MaxOfThree`,
  `MaxOfArray`, `MaxOfTwoArrays`, `SwapInts`, `SwapLocations`, `Multiply`.
- The default argument of `multiply` becomes a second function,
  `MultiplyDefault`, that passes 1.
- C++ `int` is the newtype `Int32`, 32 bits wide. `Multiply` multiplies in
  `Int32`, so Dafny checks that neither product leaves the range. Its
  `requires` clauses are exactly the condition under which the C++ has no
  signed-overflow undefined behaviour. The comparisons in `max` cannot
  overflow.
- `max(int[ARRAY_LENGTH])` is a method over an `array<Int32>` of length 5,
  with the C++ loop. Its specification is the function `SeqMax`, a fold from
  the left that visits the elements in the same order as the loop. The
  method has no `modifies` clause, so it cannot write to the array.
- The two `int` swaps (pointer and reference) act in the same way. They
  become one method, `SwapInts`, that uses a temporary to exchange two slots
  of an array. The two `Location` swaps become one method, `SwapLocations`,
  over two objects of a class `Location`.
- The source does not check for null pointers. Dafny's array and class types
  are non-null, so "both pointers are valid" is part of the parameter types.
  The pointer swaps have no null guard, and the model adds none.
- The fields of `Location` are `double`. The library only copies them, so
  `Location<F>` takes the field type as a parameter, and the driver
  instantiates it with `real`.

## Model

| member | source | states |
|---|---|---|
| Utils.MaxOfTwo | Project1/utils.cpp:5-7 | the result is one of the two arguments and is at least each of them |
| Utils.MaxOfTwoCommutes | Project1/utils.cpp:5-7 | the two-argument max does not depend on argument order |
| Utils.MaxOfThree | Project1/utils.cpp:9-11 | the result is one of the three arguments and is at least each of them |
| Utils.MaxOfThreeIsSeqMax | Project1/utils.cpp:9-11 | the pairwise reduction equals the maximum of the sequence [x, y, z] |
| Utils.SeqMax | Project1/utils.cpp:13-21 | the maximum of a non-empty sequence is one of its elements and bounds every element from above |
| Utils.MaxOfArray | Project1/utils.cpp:13-21 | for an array of exactly ARRAY_LENGTH elements, the scan from element 0 returns SeqMax of the contents: an element of the array at least as large as every element; the array is not written |
| Utils.MaxOfTwoArrays | Project1/utils.cpp:23-27 | the result is the maximum of the ten elements of both arrays together: it occurs in one of them and bounds every element of both |
| Utils.SeqMaxOfConcat | Project1/utils.cpp:23-27 | the maximum of a concatenation is the larger of the two maxima, so max(max(a), max(b)) is the maximum of a + b |
| Utils.Swapped | Project1/utils.cpp:30-40 | an exchange of positions i and j: each receives the other's value, and every other position is unchanged |
| Utils.SwappedTwice | Project1/utils.cpp:30-40 | exchanging the same two positions twice restores the original |
| Utils.SwappedIsPermutation | Project1/utils.cpp:30-40 | an exchange keeps the multiset of values |
| Utils.SwapInts | Project1/utils.cpp:30-40 | the array afterwards is the old contents with the two slots exchanged (also when both slots are the same one) |
| Utils.Location.constructor | Project1/utils.h:5-8 | a record holding the given latitude and longitude |
| Utils.SwapLocations | Project1/utils.cpp:43-61 | each record ends holding the other's original (latitude, longitude) pair, and only the two records change |
| Utils.Multiply | Project1/utils.cpp:64-66 | when both products fit in 32 bits, the 32-bit result is the exact product x*y*z |
| Utils.MultiplyDefault | Project1/utils.h:25 | a call that leaves out the third factor, which defaults to 1, returns the exact product x*y |
| Utils.MultiplyDomainIsLeftToRight | Project1/utils.cpp:64-66 | Multiply's precondition follows the left-to-right evaluation (x*y)*z: it excludes (65536, 65536, 0) although the exact product fits, and admits (0, 65536, 65536), which gives 0 |
| Driver.MaxExamples | Project1/main.cpp:8-9 | max(9, 7) is 9 and max(9, 15, 71) is 71 |
| Driver.ArrayMaxExamples | Project1/main.cpp:11-15 | the max of {10, 2, 30, 4, 51} is 51, and with {8, 70, 16, 15, 41} added it is 70 |
| Driver.SwapIntsExample | Project1/main.cpp:19-26 | 12/51 becomes 51/12 after the first swap and 12/51 again after the second |
| Driver.SwapLocationsExample | Project1/main.cpp:30-44 | (25,40)/(50,80) becomes (50,80)/(25,40) after the first swap and is restored by the second |
| Driver.MultiplyExamples | Project1/main.cpp:46 | multiply(4, 15, 7) is 420 |
| Driver.MultiplyDefaultExample | Project1/utils.h:25 | multiply(4, 15), whose third factor defaults to 1, is 60; the driver itself makes no such call |

## Left out

- `double multiply(double, double)` (Project1/utils.cpp:68-70) is left out because it is floating-point arithmetic. The driver's call `multiply(0.5, 4.5)` is left out with it.
- The commented-out `multiply(int, int)` (Project1/utils.cpp:72-75) is left out because it is not compiled code.
- C++ overload resolution and default-argument dispatch are left out because they are language mechanics. Each overload is a separately named member.
- The difference between pointer and reference parameters is left out because both versions of each swap have the same effect. What the model does not capture is swapping two separate local variables, as opposed to two slots of one array.
- Utils.Multiply: the model does not give the C++ signed-overflow case any meaning. Its `requires` clauses exclude that case, which is undefined behaviour in the source.
- The console output of Project1/main.cpp is left out because it is I/O. Only the values it prints are stated, in `Driver`.
