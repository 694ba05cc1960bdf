/** The LUT library of ABC's FPGA mapper (src/map/if/ifLib.c): the library
    record If_Lib_t, the reader If_LutLibRead with its sanity pass, the
    duplicator If_LutLibDup, the built-in presets of If_SetSimpleLutLib and
    the read-only queries If_LutLibDelaysAreDiscrete,
    If_LutLibFastestPinDelay and If_LutLibSlowestPinDelay. */
module IfLib {
  import opened CLib

  /** IF_MAX_LUTSIZE, the compile-time ceiling on LUT sizes (32 in ABC's
      if.h). The tables of a library have MaxLutSize + 1 slots per
      dimension; slot 0 of the area table and row 0 of the delay table
      are never used. */
  const MaxLutSize: nat := 32

  datatype Option<T> = None | Some(value: T)

  datatype Result<T, E> = Success(value: T) | Failure(error: E)

  /** If_Lib_t: the library name, the largest LUT size, the library-wide
      variable-pin-delay flag, the areas (indexed by size) and the pin
      delays (indexed by size, then pin). */
  datatype Lib = Lib(
    name: string,
    lutMax: nat,
    varPinDelays: bool,
    areas: seq<real>,
    delays: seq<seq<real>>)

  /** The tables have the fixed dimensions of If_Lib_t. */
  predicate Tables(areas: seq<real>, delays: seq<seq<real>>) {
    && |areas| == MaxLutSize + 1
    && |delays| == MaxLutSize + 1
    && forall s :: 0 <= s < |delays| ==> |delays[s]| == MaxLutSize + 1
  }

  /** What every library the component builds satisfies, and what the
      queries need of their argument: LutMax indexes the tables, and a
      library in variable-pin-delay mode has at least one size. */
  predicate Valid(p: Lib) {
    && Tables(p.areas, p.delays)
    && p.lutMax <= MaxLutSize
    && (p.varPinDelays ==> p.lutMax >= 1)
  }

  // ---------------------------------------------------------------------
  // The reader, as a function of the lines of the file
  // ---------------------------------------------------------------------

  /** The structural errors on which If_LutLibRead returns NULL. */
  datatype ReadError =
    | SizeOutOfSequence(expected: nat, found: int)  // first token is not the expected size
    | MissingArea(size: nat)                         // the line has no area token
    | TooManyPins(size: nat, pins: nat)              // more delay tokens than the size
    | SizeCeiling(size: nat)                         // the size reaches IF_MAX_LUTSIZE

  /** The reader's state between lines: the expected size i, the sticky
      flag fVarPinDelays and the two tables filled so far. */
  datatype ReadState = ReadState(
    next: nat,
    varPinDelays: bool,
    areas: seq<real>,
    delays: seq<seq<real>>)

  predicate StateOk(st: ReadState) {
    && 1 <= st.next <= MaxLutSize
    && (st.varPinDelays ==> st.next >= 2)
    && Tables(st.areas, st.delays)
  }

  function ZeroRow(): seq<real> {
    seq(MaxLutSize + 1, _ => 0.0)
  }

  /** The state after the memset of the fresh library: size 1 expected,
      flag clear, every slot zero. */
  function InitState(): ReadState {
    ReadState(1, false, ZeroRow(), seq(MaxLutSize + 1, _ => ZeroRow()))
  }

  /** A line the reader skips: no tokens, or a first token starting with '#'. */
  predicate Skipped(toks: seq<string>) {
    toks == [] || (toks[0] != [] && toks[0][0] == '#')
  }

  /** The checks a data line for expected size i goes through, in the
      order the reader makes them; None when the line is accepted. */
  function EntryError(toks: seq<string>, i: nat): Option<ReadError>
    requires toks != []
  {
    if Atoi(toks[0]) != i then Some(SizeOutOfSequence(i, Atoi(toks[0])))
    else if |toks| < 2 then Some(MissingArea(i))
    else if |toks| - 2 > i then Some(TooManyPins(i, |toks| - 2))
    else if i == MaxLutSize then Some(SizeCeiling(i))
    else None
  }

  /** The row with its first |vals| slots overwritten by the parsed values. */
  function FillRow(row: seq<real>, vals: seq<string>): seq<real> {
    seq(|row|, c requires 0 <= c < |row| => if c < |vals| then Atof(vals[c]) else row[c])
  }

  /** Accepting a data line: area and delays stored for the expected size,
      the flag set when more than one delay is given, the counter advanced. */
  function Accept(st: ReadState, toks: seq<string>): ReadState
    requires StateOk(st) && st.next < MaxLutSize
    requires 2 <= |toks| && |toks| - 2 <= st.next
  {
    var i := st.next;
    ReadState(
      i + 1,
      st.varPinDelays || |toks| - 2 > 1,
      st.areas[i := Atof(toks[1])],
      st.delays[i := FillRow(st.delays[i], toks[2..])])
  }

  /** One iteration of the reader's line loop. */
  function Step(st: ReadState, toks: seq<string>): (r: Result<ReadState, ReadError>)
    requires StateOk(st)
    ensures r.Success? ==> StateOk(r.value) && r.value.next >= st.next
  {
    if Skipped(toks) then Success(st)
    else match EntryError(toks, st.next)
      case Some(e) => Failure(e)
      case None => Success(Accept(st, toks))
  }

  /** The line loop, run to the end of the input or the first error. */
  function Run(st: ReadState, tl: seq<seq<string>>): (r: Result<ReadState, ReadError>)
    requires StateOk(st)
    ensures r.Success? ==> StateOk(r.value) && r.value.next >= st.next
    decreases |tl|
  {
    if tl == [] then Success(st)
    else match Step(st, tl[0])
      case Failure(e) => Failure(e)
      case Success(st') => Run(st', tl[1..])
  }

  /** The reader on lines already split into tokens. */
  function ReadTokens(fileName: string, tl: seq<seq<string>>): (r: Result<Lib, ReadError>)
    ensures r.Success? ==> Valid(r.value) && r.value.lutMax < MaxLutSize
  {
    match Run(InitState(), tl)
    case Failure(e) => Failure(e)
    case Success(st) =>
      Success(Lib(fileName, st.next - 1, st.varPinDelays, st.areas, st.delays))
  }

  function LineTokens(lines: seq<string>): (tl: seq<seq<string>>)
    ensures |tl| == |lines|
  {
    seq(|lines|, j requires 0 <= j < |lines| => Tokens(lines[j]))
  }

  /** If_LutLibRead as a function of the file name and the lines of the file. */
  function ReadLib(fileName: string, lines: seq<string>): (r: Result<Lib, ReadError>)
    ensures r.Success? ==> Valid(r.value) && r.value.lutMax < MaxLutSize
  {
    ReadTokens(fileName, LineTokens(lines))
  }

  // ---------------------------------------------------------------------
  // The sanity pass, as a function of the library
  // ---------------------------------------------------------------------

  datatype WarningKind = NonPositiveDelay | DecreasingDelay

  /** One printed warning: for DecreasingDelay, pin is the later of the two
      pins compared (pin - 1 has the larger delay). */
  datatype Warning = Warning(size: nat, pin: nat, kind: WarningKind)

  function PinWarnings(row: seq<real>, i: nat, k: nat): seq<Warning>
    requires k < |row|
  {
    (if row[k] <= 0.0 then [Warning(i, k, NonPositiveDelay)] else [])
    + (if k > 0 && row[k - 1] > row[k] then [Warning(i, k, DecreasingDelay)] else [])
  }

  /** Warnings for pins 0 .. k-1 of the row of size i. */
  function RowWarnings(row: seq<real>, i: nat, k: nat): seq<Warning>
    requires k <= |row|
  {
    if k == 0 then [] else RowWarnings(row, i, k - 1) + PinWarnings(row, i, k - 1)
  }

  /** Variable-pin-delay mode: warnings for sizes 1 .. n, every pin. */
  function VarWarnings(p: Lib, n: nat): seq<Warning>
    requires Valid(p) && n <= p.lutMax
  {
    if n == 0 then [] else VarWarnings(p, n - 1) + RowWarnings(p.delays[n], n, n)
  }

  /** Uniform mode: warnings for sizes 1 .. n, pin 0 only. */
  function UniformWarnings(p: Lib, n: nat): seq<Warning>
    requires Valid(p) && n <= p.lutMax
  {
    if n == 0 then []
    else
      var w := if p.delays[n][0] <= 0.0 then [Warning(n, 0, NonPositiveDelay)] else [];
      UniformWarnings(p, n - 1) + w
  }

  /** Everything the sanity pass of If_LutLibRead reports, in order. */
  function SanityWarnings(p: Lib): seq<Warning>
    requires Valid(p)
  {
    if p.varPinDelays then VarWarnings(p, p.lutMax) else UniformWarnings(p, p.lutMax)
  }

  // ---------------------------------------------------------------------
  // The reader, as the source runs it
  // ---------------------------------------------------------------------

  /** The array holds exactly the rows d. */
  ghost predicate DelaysHold(a: array2<real>, d: seq<seq<real>>)
    reads a
  {
    && a.Length0 == |d|
    && (forall r :: 0 <= r < |d| ==> |d[r]| == a.Length1)
    && forall r, c :: 0 <= r < a.Length0 && 0 <= c < a.Length1 ==> a[r, c] == d[r][c]
  }

  /** The contents of a two-dimensional table, row by row. */
  function Snapshot(a: array2<real>): (d: seq<seq<real>>)
    reads a
    ensures DelaysHold(a, d)
  {
    seq(a.Length0, r reads a =>
      seq(a.Length1, c reads a =>
        if 0 <= r < a.Length0 && 0 <= c < a.Length1 then a[r, c] else 0.0))
  }

  lemma DelaysHoldUnique(a: array2<real>, d1: seq<seq<real>>, d2: seq<seq<real>>)
    requires DelaysHold(a, d1) && DelaysHold(a, d2)
    ensures d1 == d2
  {
    assert |d1| == |d2|;
    forall r | 0 <= r < |d1| ensures d1[r] == d2[r] {
      assert |d1[r]| == |d2[r]|;
      forall c | 0 <= c < |d1[r]| ensures d1[r][c] == d2[r][c] {
        assert a[r, c] == d1[r][c];
      }
    }
  }

  lemma RunAt(st: ReadState, tl: seq<seq<string>>, n: nat)
    requires StateOk(st) && n < |tl|
    ensures Run(st, tl[n..]) ==
      match Step(st, tl[n])
      case Failure(e) => Failure(e)
      case Success(st') => Run(st', tl[n + 1..])
  {
    assert tl[n..][0] == tl[n] && tl[n..][1..] == tl[n + 1..];
  }

  /** The outcome of one line, case by case, as the loop body meets it. */
  lemma StepCases(st: ReadState, toks: seq<string>)
    requires StateOk(st)
    ensures Skipped(toks) ==> Step(st, toks) == Success(st)
    ensures !Skipped(toks) ==>
      Step(st, toks) == match EntryError(toks, st.next)
        case Some(e) => Failure(e)
        case None => Success(Accept(st, toks))
  {
  }

  /** After the delay loop, the array holds the rows of the accepted state. */
  lemma FilledRowHolds(delays: array2<real>, st: ReadState, toks: seq<string>)
    requires StateOk(st) && st.next < MaxLutSize
    requires 2 <= |toks| && |toks| - 2 <= st.next
    requires delays.Length0 == MaxLutSize + 1 && delays.Length1 == MaxLutSize + 1
    requires forall r, c :: 0 <= r < delays.Length0 && 0 <= c < delays.Length1 ==>
      delays[r, c] == (if r == st.next && c < |toks[2..]| then Atof(toks[2..][c]) else st.delays[r][c])
    ensures DelaysHold(delays, Accept(st, toks).delays)
  {
    var d := Accept(st, toks).delays;
    forall r, c | 0 <= r < delays.Length0 && 0 <= c < delays.Length1
      ensures delays[r, c] == d[r][c]
    {
      if r == st.next {
        assert d[r] == FillRow(st.delays[r], toks[2..]);
      }
    }
  }

  /** The delay loop of If_LutLibRead: the k-th delay token of the line
      goes to pin k of size i, every other slot keeps its value. */
  method StoreDelays(delays: array2<real>, i: nat, vals: seq<string>, ghost rows: seq<seq<real>>)
    requires i < delays.Length0 && |vals| <= delays.Length1
    requires DelaysHold(delays, rows)
    modifies delays
    ensures forall r, c :: 0 <= r < delays.Length0 && 0 <= c < delays.Length1 ==>
      delays[r, c] == (if r == i && c < |vals| then Atof(vals[c]) else rows[r][c])
  {
    var k := 0;
    while k < |vals|
      invariant 0 <= k <= |vals|
      invariant forall r, c :: 0 <= r < delays.Length0 && 0 <= c < delays.Length1 ==>
        delays[r, c] == (if r == i && c < k then Atof(vals[c]) else rows[r][c])
    {
      delays[i, k] := Atof(vals[k]);
      k := k + 1;
    }
  }

  /** The body of the line loop of If_LutLibRead for a data line: the
      size check, the area, the delays, the pin-count check and the ceiling
      check, in the source's order. */
  method ReadEntry(areas: array<real>, delays: array2<real>, toks: seq<string>, i: nat, ghost st: ReadState)
    returns (err: Option<ReadError>)
    requires toks != [] && StateOk(st) && st.next == i
    requires areas[..] == st.areas && DelaysHold(delays, st.delays)
    requires delays.Length1 == MaxLutSize + 1
    modifies areas, delays
    ensures err == EntryError(toks, i)
    ensures err.None? ==>
      areas[..] == Accept(st, toks).areas && DelaysHold(delays, Accept(st, toks).delays)
  {
    if i != Atoi(toks[0]) {
      return Some(SizeOutOfSequence(i, Atoi(toks[0])));
    }
    if |toks| < 2 {
      return Some(MissingArea(i));
    }
    areas[i] := Atof(toks[1]);
    var count := |toks| - 2;
    if count > i {
      return Some(TooManyPins(i, count));
    }
    StoreDelays(delays, i, toks[2..], st.delays);
    if i == MaxLutSize {
      return Some(SizeCeiling(i));
    }
    FilledRowHolds(delays, st, toks);
    return None;
  }

  /** If_LutLibRead: the while loop over the lines, filling the fresh
      library's tables in place, then the sanity pass on success. */
  method LutLibRead(fileName: string, lines: seq<string>)
    returns (res: Result<Lib, ReadError>, warnings: seq<Warning>)
    ensures res == ReadLib(fileName, lines)
    ensures res.Success? ==> Valid(res.value) && warnings == SanityWarnings(res.value)
    ensures res.Failure? ==> warnings == []
  {
    var areas := new real[MaxLutSize + 1](_ => 0.0);
    var delays := new real[MaxLutSize + 1, MaxLutSize + 1]((_, _) => 0.0);
    var varPins := false;
    var i: nat := 1;
    ghost var tl := LineTokens(lines);
    ghost var st := InitState();
    ghost var outcome := Run(st, tl);
    assert DelaysHold(delays, st.delays);
    var n := 0;
    while n < |lines|
      invariant 0 <= n <= |lines|
      invariant StateOk(st) && st.next == i && st.varPinDelays == varPins
      invariant areas[..] == st.areas && DelaysHold(delays, st.delays)
      invariant outcome == Run(st, tl[n..])
    {
      var toks := Tokens(lines[n]);
      assert toks == tl[n];
      RunAt(st, tl, n);
      StepCases(st, toks);
      n := n + 1;
      if toks == [] || toks[0][0] == '#' {
        continue;
      }
      var err := ReadEntry(areas, delays, toks, i, st);
      if err.Some? {
        return Failure(err.value), [];
      }
      if |toks| - 2 > 1 {
        varPins := true;
      }
      st := Accept(st, toks);
      i := i + 1;
    }
    var lib := Lib(fileName, i - 1, varPins, areas[..], Snapshot(delays));
    DelaysHoldUnique(delays, Snapshot(delays), st.delays);
    assert tl[n..] == [];
    res := Success(lib);
    warnings := CheckLibrary(lib);
  }

  /** The sanity pass of If_LutLibRead: two nested loops in
      variable-pin-delay mode, one loop in uniform mode; it only reports. */
  method CheckLibrary(p: Lib) returns (ws: seq<Warning>)
    requires Valid(p)
    ensures ws == SanityWarnings(p)
  {
    ws := [];
    if p.varPinDelays {
      for i := 1 to p.lutMax + 1
        invariant ws == VarWarnings(p, i - 1)
      {
        for k := 0 to i
          invariant ws == VarWarnings(p, i - 1) + RowWarnings(p.delays[i], i, k)
        {
          var d := p.delays[i];
          if d[k] <= 0.0 {
            ws := ws + [Warning(i, k, NonPositiveDelay)];
          }
          if k > 0 && d[k - 1] > d[k] {
            ws := ws + [Warning(i, k, DecreasingDelay)];
          }
        }
      }
    } else {
      for i := 1 to p.lutMax + 1
        invariant ws == UniformWarnings(p, i - 1)
      {
        if p.delays[i][0] <= 0.0 {
          ws := ws + [Warning(i, 0, NonPositiveDelay)];
        }
      }
    }
  }

  // ---------------------------------------------------------------------
  // Queries
  // ---------------------------------------------------------------------

  /** (float)((int)x): truncation toward zero, as C's cast to int. */
  function Truncate(x: real): int {
    if x >= 0.0 then x.Floor else -((-x).Floor)
  }

  /** The test of If_LutLibDelaysAreDiscrete: x survives the round trip
      through int. */
  predicate IsWhole(x: real) {
    Truncate(x) as real == x
  }

  /** Every pin-0 delay of sizes 1 .. LutMax is a whole number. */
  ghost predicate Discrete(p: Lib)
    requires Valid(p)
  {
    forall s :: 1 <= s <= p.lutMax ==> IsWhole(p.delays[s][0])
  }

  /** If_LutLibDelaysAreDiscrete: a loop over the sizes that returns at the
      first pin-0 delay that is not a whole number. */
  method DelaysAreDiscrete(p: Lib) returns (discrete: bool)
    requires Valid(p)
    ensures discrete == Discrete(p)
  {
    for i := 1 to p.lutMax + 1
      invariant forall s :: 1 <= s < i ==> IsWhole(p.delays[s][0])
    {
      var delay := p.delays[i][0];
      if Truncate(delay) as real != delay {
        return false;
      }
    }
    return true;
  }

  /** If_LutLibFastestPinDelay; None stands for the NULL library. */
  function FastestPinDelay(p: Option<Lib>): (r: real)
    requires p.Some? ==> Valid(p.value)
    ensures p.None? ==> r == 1.0
    ensures p.Some? ==> r == p.value.delays[p.value.lutMax][0]
  {
    if p.None? then 1.0 else p.value.delays[p.value.lutMax][0]
  }

  /** If_LutLibSlowestPinDelay; None stands for the NULL library. */
  function SlowestPinDelay(p: Option<Lib>): (r: real)
    requires p.Some? ==> Valid(p.value)
    ensures p.None? ==> r == 1.0
    ensures p.Some? && p.value.varPinDelays ==>
      p.value.lutMax >= 1 && r == p.value.delays[p.value.lutMax][p.value.lutMax - 1]
    ensures p.Some? && !p.value.varPinDelays ==> r == FastestPinDelay(p)
  {
    if p.None? then 1.0
    else if p.value.varPinDelays then p.value.delays[p.value.lutMax][p.value.lutMax - 1]
    else p.value.delays[p.value.lutMax][0]
  }

  // ---------------------------------------------------------------------
  // Duplication and the built-in presets
  // ---------------------------------------------------------------------

  /** If_UtilStrsav: a separately allocated copy of the name (a string
      value here, so the copy is the same sequence of characters). */
  function StrSav(s: string): string {
    s[..]
  }

  /** If_LutLibDup: a field-by-field copy with a copied name. */
  function LutLibDup(p: Lib): (r: Lib)
    ensures r == p
  {
    Lib(StrSav(p.name), p.lutMax, p.varPinDelays, p.areas, p.delays)
  }

  /** The static initialiser s_LutLib<n> of If_SetSimpleLutLib: slots
      1 .. n of the area table and pin 0 of rows 1 .. n hold 1, every other
      slot (slot 0, row 0 and the rest) is 0. */
  function PresetLib(n: nat): Lib {
    Lib(
      "lutlib",
      n,
      false,
      seq(MaxLutSize + 1, s => if 1 <= s <= n then 1.0 else 0.0),
      seq(MaxLutSize + 1, s => seq(MaxLutSize + 1, c => if 1 <= s <= n && c == 0 then 1.0 else 0.0)))
  }

  /** If_SetSimpleLutLib: a fresh copy of the preset for sizes 3 .. 10;
      None (the switch's default NULL) for any other size. */
  function SetSimpleLutLib(n: int): (r: Option<Lib>)
    ensures r.Some? <==> 3 <= n <= 10
    ensures r.Some? ==>
      && Valid(r.value)
      && r.value.name == "lutlib"
      && r.value.lutMax == n
      && !r.value.varPinDelays
      && (forall s :: 1 <= s <= n ==> r.value.areas[s] == 1.0 && r.value.delays[s][0] == 1.0)
      && (forall s :: 0 <= s <= MaxLutSize && !(1 <= s <= n) ==> r.value.areas[s] == 0.0)
      && (forall s, c :: 0 <= s <= MaxLutSize && 0 <= c <= MaxLutSize && !(1 <= s <= n && c == 0) ==>
            r.value.delays[s][c] == 0.0)
  {
    if 3 <= n <= 10 then Some(LutLibDup(PresetLib(n))) else None
  }
}
