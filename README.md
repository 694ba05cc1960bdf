# LUT library of ABC's FPGA mapper, in Dafny

This project models the LUT library component of ABC's priority-cut FPGA
mapper (`src/map/if/ifLib.c`) and proves what it guarantees.

A LUT library describes, for every LUT size from 1 up to `LutMax`:

- an area;
- one delay per input pin.

The library also carries a library-wide flag, `fVarPinDelays`. It says
whether the pins of a LUT have individual delays ("variable-pin-delay
mode") or share the pin-0 delay ("uniform mode").

The model covers these parts:

- **The reader `If_LutLibRead`.** Each line is split into tokens on space,
  tab and newline, as `strtok` does. Lines without tokens and lines whose
  first token starts with `#` are skipped. Every other line must:
  - start with the next expected size (1, 2, 3, …);
  - then give an area;
  - then give at most `size` pin delays.

  The reader fails when a size is out of sequence, when a line has too
  many delays, or when the size reaches the ceiling `IF_MAX_LUTSIZE`. It
  also fails when a line has no area token. On success it runs a sanity
  pass, which reports warnings and changes nothing.
- **`If_LutLibDup`**, together with `If_UtilStrsav`.
- **The presets of `If_SetSimpleLutLib`**, for sizes 3 to 10.
- **The three read-only queries:** `If_LutLibDelaysAreDiscrete`,
  `If_LutLibFastestPinDelay` and `If_LutLibSlowestPinDelay`.

The project has three files, each holding one module.

- `clib.dfy` (module `CLib`) models the C library routines the reader
  uses, as functions on strings:
  - `Tokens` for `strtok`;
  - `Atoi`;
  - `Atof`.

  It also holds the facts about them that the proofs need.
- `iflib.dfy` (module `IfLib`) holds the library record `Lib` and the
  operations.
  - The reader exists twice. `ReadLib` is a function over the lines: a
    fold of `Step` over a `ReadState`. `LutLibRead` is a method that works
    the way the C code does. It fills an `array` of areas and an `array2`
    of delays in place, inside a `while` loop over the lines, keeps the
    expected size and the sticky flag in local variables, and then runs
    the sanity pass as nested `for` loops (`CheckLibrary`). The method is
    proved to return exactly what `ReadLib` returns, and exactly the
    warnings that `SanityWarnings` lists.
  - `DelaysAreDiscrete` is the `for` loop with its early return. It is
    proved equal to the predicate `Discrete`.
- `iflib_props.dfy` (module `IfLibProps`) states the reader's behaviour
  declaratively and proves the model meets it:
  - `DataLines` is the list of lines that are not skipped.
  - `GoodFrom` says that every entry passes the checks.
  - `FirstError` is the error of the first entry that fails.
  - `Accepted` is the library that a list of accepted entries builds.

  The same module proves the properties of the sanity pass, the queries
  and the presets.

## Model

| member | source | states |
|---|---|---|
| `IfLib.LutLibRead` | src/map/if/ifLib.c:44-132 | The in-place reader returns exactly `ReadLib(fileName, lines)`. On success the library is valid (tables of IF_MAX_LUTSIZE+1 slots, LutMax within them, at least one size in variable-pin-delay mode) and the warnings are exactly `SanityWarnings` of it; on failure there are no warnings. |
| `IfLib.ReadEntry` | src/map/if/ifLib.c:70-101 | For one data line it returns the error that `EntryError` gives, with the checks in the source's order. When the line is accepted, the area array and the delay table hold the state `Accept` describes. |
| `IfLib.StoreDelays` | src/map/if/ifLib.c:82-84 | The k-th delay token goes to pin k of the current size, and every other slot of the table keeps its value. |
| `IfLib.CheckLibrary` | src/map/if/ifLib.c:106-129 | The nested loops of the sanity pass report exactly `SanityWarnings(p)`, in the order the source prints them. |
| `IfLib.Step` | src/map/if/ifLib.c:64-102 | One iteration of the line loop keeps the reader's state well-formed and never moves the expected size back. |
| `IfLib.Run` | src/map/if/ifLib.c:63-103 | The whole line loop, run to the end of the input or the first error, keeps the reader's state well-formed and never moves the expected size back. |
| `IfLib.ReadLib` | src/map/if/ifLib.c:104 | A library that is read is valid, and its LutMax is below IF_MAX_LUTSIZE. |
| `IfLib.DelaysAreDiscrete` | src/map/if/ifLib.c:216-227 | It returns true iff every pin-0 delay of sizes 1..LutMax survives truncation to int. |
| `IfLib.LutLibDup` | src/map/if/ifLib.c:145-152 | The copy is equal to the original in every field, including the name copied by If_UtilStrsav (line 27). |
| `IfLib.SetSimpleLutLib` | src/map/if/ifLib.c:240-267 | It returns a library iff 3 <= n <= 10. That library is valid and is named "lutlib". It has LutMax = n and is in uniform mode. Sizes 1..n have area 1 and pin-0 delay 1, and every other slot is 0. The tables come from `PresetLib`, which writes out the initialisers of lines 242-249. |
| `IfLib.FastestPinDelay` | src/map/if/ifLib.c:282 | The NULL library (None) gives 1.0. Any other library gives `delays[LutMax][0]`. |
| `IfLib.SlowestPinDelay` | src/map/if/ifLib.c:298 | The NULL library (None) gives 1.0. A library in variable-pin-delay mode gives `delays[LutMax][LutMax-1]`, and a uniform one gives `delays[LutMax][0]`, the fastest delay. The library must be `Valid`, which guarantees LutMax >= 1 in variable-pin-delay mode, so the pin index is never negative. |
| `IfLibProps.ReadAcceptsIffEntriesGood` | src/map/if/ifLib.c:63-103 | The read succeeds iff every data line passes the size, area, pin-count and ceiling checks for its position. |
| `IfLibProps.ReadSuccessContents` | src/map/if/ifLib.c:59-104 | On success the name is the file name and LutMax is the number of data lines, below IF_MAX_LUTSIZE. Size s holds the area and the delays of data line s. Every other slot is 0. The flag is set iff some data line had more than one delay. |
| `IfLibProps.ReadFailsAtFirstBadEntry` | src/map/if/ifLib.c:70-101 | On failure, the error returned is the one of the first data line that fails its checks. |
| `IfLibProps.FirstBadEntryDecides` | src/map/if/ifLib.c:70-101 | Conversely, if every data line before line j passes and line j fails with e, then the read fails with exactly e. |
| `IfLibProps.SequenceErrorRejects` | src/map/if/ifLib.c:70-75 | The first data line whose size token is not the expected size makes the read fail with that expected size and the size found. |
| `IfLibProps.TooManyPinsRejects` | src/map/if/ifLib.c:86-91 | The first data line of the right size that has more delay tokens than its size makes the read fail with size and pin count. |
| `IfLibProps.CeilingRejects` | src/map/if/ifLib.c:97-101 | A well-formed data line for size IF_MAX_LUTSIZE makes the read fail. |
| `IfLibProps.SkippedLineIgnored` | src/map/if/ifLib.c:65-69 | Inserting a blank or `#` line anywhere leaves the result unchanged, with the same sizes expected afterwards. |
| `IfLibProps.RunFromAccepted` | src/map/if/ifLib.c:62-103 | From the state after any run of accepted entries, the rest of the loop succeeds iff the remaining data lines all pass, and then yields the state for all accepted entries; otherwise it fails with the first error. |
| `IfLibProps.SanityWarningsExactly` | src/map/if/ifLib.c:107-129 | A warning is reported iff it is due. In variable-pin-delay mode that means every pin k < i with delay <= 0, and every pin k > 0 whose predecessor is slower. In uniform mode it means every size whose pin-0 delay is <= 0. |
| `IfLibProps.ShortRowWarns` | src/map/if/ifLib.c:107-114 | In variable-pin-delay mode, a size whose line gave fewer delays than pins is always reported: its first missing pin is still 0. |
| `IfLibProps.ReadDiscrete` | src/map/if/ifLib.c:216-227 | A library that was read is discrete iff the first delay of every data line is whole. Other pins play no part, and a file without data lines gives a discrete library. |
| `IfLibProps.IsWholeIffInteger` | src/map/if/ifLib.c:223 | The round trip through int keeps x exactly when x is an integer. |
| `IfLibProps.NullLibraryDelays` | src/map/if/ifLib.c:280-299 | Both delay queries return 1.0 for the NULL library. |
| `IfLibProps.UniformFastestIsSlowest` | src/map/if/ifLib.c:280-299 | In uniform mode the fastest and the slowest pin delay coincide. |
| `IfLibProps.ReadFastestSlowest` | src/map/if/ifLib.c:280-299 | For a library that was read, the fastest delay is pin 0 of the last data line. The slowest is pin LutMax-1 of that line in variable-pin-delay mode and pin 0 otherwise. Both are 0 when there is no data line. |
| `IfLibProps.OrderedPinsFastestNotSlower` | src/map/if/ifLib.c:280-299 | If the sanity pass reports no out-of-order pin for the largest size, the fastest delay does not exceed the slowest. |
| `IfLibProps.PresetProperties` | src/map/if/ifLib.c:240-267 | Every preset is discrete, has fastest = slowest = 1, and makes the sanity pass report nothing. |
| `IfLibProps.ExampleAccepted` | src/map/if/ifLib.c:62-104 | The file `1 0 0` / `2 1 1 1` is accepted with LutMax 2 and variable pin delays. Size 2 has area 1 and delays 1, 1. |
| `IfLibProps.ExampleOutOfSequence` | src/map/if/ifLib.c:70-75 | The file `2 1 1` is rejected: size 1 was expected and 2 found. |
| `IfLibProps.ExampleTooManyPins` | src/map/if/ifLib.c:86-91 | The file `1 0 0 0` is rejected: size 1 with two delays. |
| `CLib.Tokens` | src/map/if/ifLib.c:65 | Every token strtok returns is non-empty and free of delimiters. |
| `CLib.TokensOfJoin` | src/map/if/ifLib.c:65-83 | Splitting tokens joined by single spaces gives the tokens back. |
| `CLib.AtoiOfNatString` | src/map/if/ifLib.c:70 | atoi reads back the decimal numeral of every natural number. |
| `CLib.AtofOfNatString` | src/map/if/ifLib.c:79-84 | atof reads back the decimal numeral of every natural number as that number. |

## Left out

- File I/O is not modelled. This covers `fopen`, the "cannot open" path and `fgets` with its 1000-byte buffer, which in C splits longer lines. The reader takes the lines of the file as a sequence of strings instead. These lines are assumed to be split at newlines already, as `fgets` delivers them: the model does not stop a string from holding a newline in the middle, and would then read two physical lines as one data line.
- Messages are not printed. Each warning of the sanity pass is a `Warning(size, pin, kind)` value, and each fatal message is a `ReadError`. The `printf` formatting is not modelled, nor is the stale `k` argument of the uniform-mode warning.
- `If_LutLibPrint` is not modelled. It is console output with float formatting.
- `If_LutLibFree` is not modelled, nor is the memory handling on the failure paths (the leaked library, and the `free` without the name). Libraries are values here, so nothing is freed or leaked.
- `LutLibDup`: the separate allocation of the copy and of its name is not modelled. A returned value cannot share state with its argument, so "fresh" has nothing to say here. `If_UtilStrsav`'s NULL case cannot arise, because a name is always a string.
- Atof: areas and delays are real numbers, so the `(float)` rounding of `atof` and of the cast at line 223 is not modelled. `Atof` covers an optional sign, digits and an optional fraction. It does not cover exponents, hexadecimal floats, `inf` or `nan`.
- Atoi: the conversion is exact, so `int` overflow in `atoi` is not modelled.
- IsWhole: the `(int)` cast is truncation toward zero with no overflow. In C, a delay outside `int` range is undefined behaviour.
- ReadEntry: the pin-count check comes before the delays are stored. The C code stores every delay token first, which can write past the row (and the table) for a line that will be rejected. The library is discarded either way, so the results agree wherever the C code is defined.
- ReadEntry: a data line with only a size token fails with `MissingArea`. In C, `atof(NULL)` on such a line is undefined behaviour.
- ReadEntry: `fVarPinDelays` is set after the ceiling check, where the C code sets it just before. The library is discarded on that path, so the difference cannot be observed.
- MaxLutSize: IF_MAX_LUTSIZE is fixed to 32, its value in ABC's `if.h`. That header is not part of this model.
- SetSimpleLutLib: the `assert` on the size (line 251) is not modelled. The model follows the switch, which returns no library (`None`) for any other size.
- SetSimpleLutLib: the presets follow the initialisers at lines 242-249. There, index 0 of each table is the unused slot 0, so sizes 1..n all have area 1 and pin-0 delay 1.
