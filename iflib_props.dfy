/** What the LUT-library reader, its sanity pass, the queries and the
    presets of src/map/if/ifLib.c guarantee, stated against declarative
    definitions and proved about the functional model in IfLib. */
module IfLibProps {
  import opened CLib
  import opened IfLib

  // ---------------------------------------------------------------------
  // A declarative account of the reader
  // ---------------------------------------------------------------------

  /** The data lines of a file, in order: the lines the reader does not skip. */
  function DataLines(tl: seq<seq<string>>): (d: seq<seq<string>>)
    ensures |d| <= |tl|
    ensures forall j :: 0 <= j < |d| ==> !Skipped(d[j])
  {
    if tl == [] then [] else (if Skipped(tl[0]) then [] else [tl[0]]) + DataLines(tl[1..])
  }

  /** The entries of d, numbered base + 1, base + 2, ..., all pass the
      reader's checks. */
  ghost predicate GoodFrom(d: seq<seq<string>>, base: nat) {
    forall j :: 0 <= j < |d| ==> d[j] != [] && EntryError(d[j], base + j + 1) == None
  }

  /** e is the error of the first entry of d (numbered from base + 1) that
      fails the reader's checks. */
  ghost predicate FirstError(d: seq<seq<string>>, base: nat, e: ReadError) {
    exists j :: ErrorAt(d, base, j, e)
  }

  /** Entry j of d is the first to fail, with error e. */
  ghost predicate ErrorAt(d: seq<seq<string>>, base: nat, j: int, e: ReadError) {
    0 <= j < |d| && GoodFrom(d[..j], base) && d[j] != [] && EntryError(d[j], base + j + 1) == Some(e)
  }

  /** The area a data line gives (its second token). */
  function AreaOf(toks: seq<string>): real {
    if |toks| >= 2 then Atof(toks[1]) else 0.0
  }

  /** The delay a data line gives for pin c; 0 (the memset value) when the
      line has no delay token for that pin. */
  function DelayOf(toks: seq<string>, c: int): real {
    if 0 <= c && 2 + c < |toks| then Atof(toks[2 + c]) else 0.0
  }

  /** The reader's state once the entries d have been accepted. */
  ghost function Accepted(d: seq<seq<string>>): ReadState {
    ReadState(
      |d| + 1,
      exists j :: 0 <= j < |d| && |d[j]| - 2 > 1,
      seq(MaxLutSize + 1, s => if 1 <= s <= |d| then AreaOf(d[s - 1]) else 0.0),
      seq(MaxLutSize + 1, s => seq(MaxLutSize + 1, c => if 1 <= s <= |d| then DelayOf(d[s - 1], c) else 0.0)))
  }

  /** The accepted entries fit below the ceiling: what the reader keeps. */
  ghost predicate Prefix(d: seq<seq<string>>) {
    GoodFrom(d, 0) && |d| < MaxLutSize
  }

  lemma AcceptedOk(d: seq<seq<string>>)
    requires Prefix(d)
    ensures StateOk(Accepted(d))
  {
  }

  lemma AcceptedEmpty()
    ensures Prefix([]) && Accepted([]) == InitState()
  {
    var a := Accepted([]);
    var b := InitState();
    assert a.areas == b.areas;
    forall s | 0 <= s <= MaxLutSize ensures a.delays[s] == b.delays[s] {
    }
    assert a.delays == b.delays;
  }

  lemma GoodCons(t: seq<string>, rest: seq<seq<string>>, base: nat)
    requires t != [] && EntryError(t, base + 1) == None
    ensures GoodFrom([t] + rest, base) <==> GoodFrom(rest, base + 1)
  {
    var d := [t] + rest;
    if GoodFrom(rest, base + 1) {
      forall j | 0 <= j < |d| ensures d[j] != [] && EntryError(d[j], base + j + 1) == None {
        if j > 0 {
          assert d[j] == rest[j - 1];
        }
      }
    }
    if GoodFrom(d, base) {
      forall j | 0 <= j < |rest| ensures rest[j] != [] && EntryError(rest[j], base + 1 + j + 1) == None {
        assert rest[j] == d[j + 1];
      }
    }
  }

  lemma FirstErrorCons(t: seq<string>, rest: seq<seq<string>>, base: nat, e: ReadError)
    requires t != [] && EntryError(t, base + 1) == None
    requires FirstError(rest, base + 1, e)
    ensures FirstError([t] + rest, base, e)
  {
    var j :| ErrorAt(rest, base + 1, j, e);
    var d := [t] + rest;
    assert d[..j + 1] == [t] + rest[..j];
    GoodCons(t, rest[..j], base);
    assert d[j + 1] == rest[j];
    assert ErrorAt(d, base, j + 1, e);
  }

  lemma GoodPrefixAt(d: seq<seq<string>>, base: nat, j: nat, k: nat)
    requires k < j <= |d| && GoodFrom(d[..j], base)
    ensures EntryError(d[k], base + k + 1) == None
  {
    assert d[..j][k] == d[k];
  }

  lemma ErrorAtUnique(d: seq<seq<string>>, base: nat, j1: int, e1: ReadError, j2: int, e2: ReadError)
    requires ErrorAt(d, base, j1, e1) && ErrorAt(d, base, j2, e2)
    ensures j1 == j2 && e1 == e2
  {
    if j1 < j2 {
      GoodPrefixAt(d, base, j2, j1);
    } else if j2 < j1 {
      GoodPrefixAt(d, base, j1, j2);
    }
  }

  lemma FirstErrorUnique(d: seq<seq<string>>, base: nat, e1: ReadError, e2: ReadError)
    requires FirstError(d, base, e1) && FirstError(d, base, e2)
    ensures e1 == e2
  {
    var j1 :| ErrorAt(d, base, j1, e1);
    var j2 :| ErrorAt(d, base, j2, e2);
    ErrorAtUnique(d, base, j1, e1, j2, e2);
  }

  lemma AcceptedVarPins(d: seq<seq<string>>, t: seq<string>)
    ensures Accepted(d + [t]).varPinDelays == (Accepted(d).varPinDelays || |t| - 2 > 1)
  {
    var d' := d + [t];
    if Accepted(d').varPinDelays {
      var j :| 0 <= j < |d'| && |d'[j]| - 2 > 1;
      if j < |d| {
        assert d'[j] == d[j];
      }
    }
    if Accepted(d).varPinDelays {
      var j :| 0 <= j < |d| && |d[j]| - 2 > 1;
      assert d'[j] == d[j];
    }
    assert d'[|d|] == t;
  }

  lemma AcceptedTables(d: seq<seq<string>>, t: seq<string>)
    requires Prefix(d) && Accepted(d).next < MaxLutSize
    requires 2 <= |t| && |t| - 2 <= Accepted(d).next
    ensures Accept(Accepted(d), t).areas == Accepted(d + [t]).areas
    ensures Accept(Accepted(d), t).delays == Accepted(d + [t]).delays
  {
    var d' := d + [t];
    var st := Accepted(d);
    var a := Accept(st, t);
    var b := Accepted(d');
    var i := |d| + 1;
    forall s | 0 <= s <= MaxLutSize ensures a.areas[s] == b.areas[s] {
      if 1 <= s <= |d| {
        assert d'[s - 1] == d[s - 1];
      }
    }
    forall s | 0 <= s <= MaxLutSize ensures a.delays[s] == b.delays[s] {
      if s == i {
        assert a.delays[s] == FillRow(st.delays[s], t[2..]);
        forall c | 0 <= c <= MaxLutSize ensures a.delays[s][c] == b.delays[s][c] {
          assert d'[s - 1] == t;
        }
      } else {
        forall c | 0 <= c <= MaxLutSize ensures a.delays[s][c] == b.delays[s][c] {
          if 1 <= s <= |d| {
            assert d'[s - 1] == d[s - 1];
          }
        }
      }
    }
  }

  /** Accepting one more entry moves from the state for d to the state for
      d + [t]. */
  lemma AcceptExtends(d: seq<seq<string>>, t: seq<string>)
    requires Prefix(d) && t != [] && EntryError(t, |d| + 1) == None
    ensures Prefix(d + [t])
    ensures StateOk(Accepted(d)) && Accepted(d).next < MaxLutSize
    ensures 2 <= |t| && |t| - 2 <= Accepted(d).next
    ensures Accept(Accepted(d), t) == Accepted(d + [t])
  {
    var d' := d + [t];
    forall j | 0 <= j < |d'| ensures d'[j] != [] && EntryError(d'[j], j + 1) == None {
      if j < |d| {
        assert d'[j] == d[j];
      }
    }
    AcceptedVarPins(d, t);
    AcceptedTables(d, t);
  }

  /** What running the loop from the state after a good prefix d over tl
      gives: success iff every data line of tl passes its checks, and then
      the state for d followed by those lines; otherwise the error of the
      first bad line. */
  ghost predicate RunMatches(d: seq<seq<string>>, tl: seq<seq<string>>)
    requires Prefix(d)
  {
    var r := Run(Accepted(d), tl);
    var data := DataLines(tl);
    && (r.Success? <==> GoodFrom(data, |d|))
    && (r.Success? ==> r.value == Accepted(d + data))
    && (r.Failure? ==> FirstError(data, |d|, r.error))
  }

  lemma RunEmpty(d: seq<seq<string>>)
    requires Prefix(d)
    ensures RunMatches(d, [])
  {
    assert d + [] == d;
  }

  lemma RunSkippedLine(d: seq<seq<string>>, tl: seq<seq<string>>)
    requires Prefix(d) && tl != [] && Skipped(tl[0])
    requires RunMatches(d, tl[1..])
    ensures RunMatches(d, tl)
  {
    assert DataLines(tl) == DataLines(tl[1..]);
    assert Step(Accepted(d), tl[0]) == Success(Accepted(d));
  }

  lemma RunBadLine(d: seq<seq<string>>, tl: seq<seq<string>>, e: ReadError)
    requires Prefix(d) && tl != [] && !Skipped(tl[0])
    requires EntryError(tl[0], |d| + 1) == Some(e)
    ensures RunMatches(d, tl)
  {
    var data := DataLines(tl);
    assert data == [tl[0]] + DataLines(tl[1..]);
    assert Run(Accepted(d), tl) == Failure(e);
    assert data[..0] == [];
    assert data[0] == tl[0];
    assert ErrorAt(data, |d|, 0, e);
  }

  lemma RunGoodStep(d: seq<seq<string>>, tl: seq<seq<string>>)
    requires Prefix(d) && tl != [] && !Skipped(tl[0])
    requires EntryError(tl[0], |d| + 1) == None
    requires Accept(Accepted(d), tl[0]) == Accepted(d + [tl[0]])
    ensures Run(Accepted(d), tl) == Run(Accepted(d + [tl[0]]), tl[1..])
  {
    assert Step(Accepted(d), tl[0]) == Success(Accepted(d + [tl[0]]));
  }

  lemma AppendAssoc<T>(a: seq<T>, b: seq<T>, c: seq<T>)
    ensures (a + b) + c == a + (b + c)
  {
  }

  /** The outcome r of the rest of the run, stated for the data lines
      after an accepted entry t, carries over to the data lines from t. */
  lemma OutcomeCons(d: seq<seq<string>>, t: seq<string>, rest: seq<seq<string>>, r: Result<ReadState, ReadError>)
    requires t != [] && EntryError(t, |d| + 1) == None
    requires r.Success? <==> GoodFrom(rest, |d + [t]|)
    requires r.Success? ==> r.value == Accepted((d + [t]) + rest)
    requires r.Failure? ==> FirstError(rest, |d + [t]|, r.error)
    ensures r.Success? <==> GoodFrom([t] + rest, |d|)
    ensures r.Success? ==> r.value == Accepted(d + ([t] + rest))
    ensures r.Failure? ==> FirstError([t] + rest, |d|, r.error)
  {
    GoodCons(t, rest, |d|);
    AppendAssoc(d, [t], rest);
    if r.Failure? {
      FirstErrorCons(t, rest, |d|, r.error);
    }
  }

  lemma RunGoodLine(d: seq<seq<string>>, tl: seq<seq<string>>)
    requires Prefix(d) && tl != [] && !Skipped(tl[0])
    requires EntryError(tl[0], |d| + 1) == None
    requires Prefix(d + [tl[0]]) && RunMatches(d + [tl[0]], tl[1..])
    requires Run(Accepted(d), tl) == Run(Accepted(d + [tl[0]]), tl[1..])
    ensures RunMatches(d, tl)
  {
    var t := tl[0];
    assert DataLines(tl) == [t] + DataLines(tl[1..]);
    OutcomeCons(d, t, DataLines(tl[1..]), Run(Accepted(d + [t]), tl[1..]));
  }

  /** The heart of the reader's correctness, by induction on the lines. */
  lemma {:induction false} RunFromAccepted(d: seq<seq<string>>, tl: seq<seq<string>>)
    requires Prefix(d)
    ensures RunMatches(d, tl)
    decreases |tl|
  {
    if tl == [] {
      RunEmpty(d);
    } else if Skipped(tl[0]) {
      RunFromAccepted(d, tl[1..]);
      RunSkippedLine(d, tl);
    } else {
      match EntryError(tl[0], |d| + 1)
      case Some(e) =>
        RunBadLine(d, tl, e);
      case None =>
        AcceptExtends(d, tl[0]);
        RunFromAccepted(d + [tl[0]], tl[1..]);
        RunGoodStep(d, tl);
        RunGoodLine(d, tl);
    }
  }

  /** The reader run from the start: RunMatches for the empty prefix. */
  lemma ReadMatches(tl: seq<seq<string>>)
    ensures Prefix([])
    ensures
      var r := Run(InitState(), tl);
      var data := DataLines(tl);
      && (r.Success? <==> GoodFrom(data, 0))
      && (r.Success? ==> r.value == Accepted(data))
      && (r.Failure? ==> FirstError(data, 0, r.error))
  {
    AcceptedEmpty();
    RunFromAccepted([], tl);
    assert [] + DataLines(tl) == DataLines(tl);
  }

  /** The reader accepts a file iff every data line passes its checks. */
  lemma ReadAcceptsIffEntriesGood(fileName: string, tl: seq<seq<string>>)
    ensures ReadTokens(fileName, tl).Success? <==> GoodFrom(DataLines(tl), 0)
  {
    ReadMatches(tl);
  }

  /** On success the library is fully determined by the data lines: LutMax
      is their number (below the ceiling), size s has the area and delays
      of line s, every other slot is 0, the flag records whether some line
      had more than one delay, and the name is the file name. */
  lemma ReadSuccessContents(fileName: string, tl: seq<seq<string>>)
    requires ReadTokens(fileName, tl).Success?
    ensures
      var p := ReadTokens(fileName, tl).value;
      var d := DataLines(tl);
      && p.name == fileName
      && p.lutMax == |d| && |d| < MaxLutSize
      && (p.varPinDelays <==> exists j :: 0 <= j < |d| && |d[j]| - 2 > 1)
      && (forall s :: 0 <= s <= MaxLutSize ==>
            p.areas[s] == if 1 <= s <= |d| then AreaOf(d[s - 1]) else 0.0)
      && (forall s, c :: 0 <= s <= MaxLutSize && 0 <= c <= MaxLutSize ==>
            p.delays[s][c] == if 1 <= s <= |d| then DelayOf(d[s - 1], c) else 0.0)
  {
    ReadIsAccepted(fileName, tl);
    var p := ReadTokens(fileName, tl).value;
    var a := Accepted(DataLines(tl));
    assert p.areas == a.areas && p.delays == a.delays;
  }

  lemma ReadIsAccepted(fileName: string, tl: seq<seq<string>>)
    requires ReadTokens(fileName, tl).Success?
    ensures
      var a := Accepted(DataLines(tl));
      && Prefix(DataLines(tl))
      && ReadTokens(fileName, tl).value == Lib(fileName, a.next - 1, a.varPinDelays, a.areas, a.delays)
  {
    ReadMatches(tl);
  }

  /** The size part of ReadSuccessContents. */
  lemma ReadSize(fileName: string, tl: seq<seq<string>>)
    requires ReadTokens(fileName, tl).Success?
    ensures ReadTokens(fileName, tl).value.lutMax == |DataLines(tl)| < MaxLutSize
  {
    ReadSuccessContents(fileName, tl);
  }

  /** One delay of a library read from a file. */
  lemma ReadDelayAt(fileName: string, tl: seq<seq<string>>, s: nat, c: nat)
    requires ReadTokens(fileName, tl).Success? && s <= MaxLutSize && c <= MaxLutSize
    ensures ReadTokens(fileName, tl).value.delays[s][c] ==
      if 1 <= s <= |DataLines(tl)| then DelayOf(DataLines(tl)[s - 1], c) else 0.0
  {
    ReadSuccessContents(fileName, tl);
  }

  /** On failure the error is the one of the first data line that fails
      its checks; no library is returned. */
  lemma ReadFailsAtFirstBadEntry(fileName: string, tl: seq<seq<string>>)
    requires ReadTokens(fileName, tl).Failure?
    ensures FirstError(DataLines(tl), 0, ReadTokens(fileName, tl).error)
  {
    ReadMatches(tl);
  }

  /** Conversely, the first data line that fails its checks decides the
      reader's error. */
  lemma FirstBadEntryDecides(fileName: string, tl: seq<seq<string>>, j: nat, e: ReadError)
    requires j < |DataLines(tl)| && GoodFrom(DataLines(tl)[..j], 0)
    requires EntryError(DataLines(tl)[j], j + 1) == Some(e)
    ensures ReadTokens(fileName, tl) == Failure(e)
  {
    var d := DataLines(tl);
    assert ErrorAt(d, 0, j, e);
    ReadAcceptsIffEntriesGood(fileName, tl);
    assert !GoodFrom(d, 0) by {
      assert EntryError(d[j], j + 1) != None;
    }
    ReadFailsAtFirstBadEntry(fileName, tl);
    FirstErrorUnique(d, 0, e, ReadTokens(fileName, tl).error);
  }

  /** A data line whose size is not the expected one stops the read. */
  lemma SequenceErrorRejects(fileName: string, tl: seq<seq<string>>, j: nat)
    requires j < |DataLines(tl)| && GoodFrom(DataLines(tl)[..j], 0)
    requires Atoi(DataLines(tl)[j][0]) != j + 1
    ensures ReadTokens(fileName, tl) == Failure(SizeOutOfSequence(j + 1, Atoi(DataLines(tl)[j][0])))
  {
    FirstBadEntryDecides(fileName, tl, j, SizeOutOfSequence(j + 1, Atoi(DataLines(tl)[j][0])));
  }

  /** A data line of the expected size with more delays than pins stops
      the read. */
  lemma TooManyPinsRejects(fileName: string, tl: seq<seq<string>>, j: nat)
    requires j < |DataLines(tl)| && GoodFrom(DataLines(tl)[..j], 0)
    requires Atoi(DataLines(tl)[j][0]) == j + 1 && |DataLines(tl)[j]| - 2 > j + 1
    ensures ReadTokens(fileName, tl) == Failure(TooManyPins(j + 1, |DataLines(tl)[j]| - 2))
  {
    FirstBadEntryDecides(fileName, tl, j, TooManyPins(j + 1, |DataLines(tl)[j]| - 2));
  }

  /** A well-formed data line for size IF_MAX_LUTSIZE stops the read. */
  lemma CeilingRejects(fileName: string, tl: seq<seq<string>>)
    requires MaxLutSize <= |DataLines(tl)| && GoodFrom(DataLines(tl)[..MaxLutSize - 1], 0)
    requires Atoi(DataLines(tl)[MaxLutSize - 1][0]) == MaxLutSize
    requires 2 <= |DataLines(tl)[MaxLutSize - 1]| <= MaxLutSize + 2
    ensures ReadTokens(fileName, tl) == Failure(SizeCeiling(MaxLutSize))
  {
    FirstBadEntryDecides(fileName, tl, MaxLutSize - 1, SizeCeiling(MaxLutSize));
  }

  lemma {:induction false} RunSkips(st: ReadState, a: seq<seq<string>>, t: seq<string>, b: seq<seq<string>>)
    requires StateOk(st) && Skipped(t)
    ensures Run(st, a + [t] + b) == Run(st, a + b)
    decreases |a|
  {
    if a == [] {
      assert [] + [t] + b == [t] + b && ([t] + b)[1..] == b && [] + b == b;
    } else {
      assert (a + [t] + b)[0] == a[0] && (a + [t] + b)[1..] == a[1..] + [t] + b;
      assert (a + b)[0] == a[0] && (a + b)[1..] == a[1..] + b;
      match Step(st, a[0])
      case Failure(_) =>
      case Success(st') => RunSkips(st', a[1..], t, b);
    }
  }

  lemma LineTokensAppend(a: seq<string>, b: seq<string>)
    ensures LineTokens(a + b) == LineTokens(a) + LineTokens(b)
  {
    var l := LineTokens(a + b);
    var r := LineTokens(a) + LineTokens(b);
    forall j | 0 <= j < |l| ensures l[j] == r[j] {
      if j < |a| {
        assert (a + b)[j] == a[j];
      } else {
        assert (a + b)[j] == b[j - |a|];
      }
    }
  }

  /** A blank line or a comment line anywhere in the file changes nothing:
      the expected size is not advanced and the result is the same as
      without the line. */
  lemma SkippedLineIgnored(fileName: string, a: seq<string>, line: string, b: seq<string>)
    requires Skipped(Tokens(line))
    ensures ReadLib(fileName, a + [line] + b) == ReadLib(fileName, a + b)
  {
    var ta, t, tb := LineTokens(a), Tokens(line), LineTokens(b);
    LineTokensAppend(a + [line], b);
    LineTokensAppend(a, [line]);
    LineTokensAppend(a, b);
    assert LineTokens([line]) == [t];
    assert LineTokens(a + [line] + b) == ta + [t] + tb;
    RunSkips(InitState(), ta, t, tb);
    SameRunSameRead(fileName, ta + [t] + tb, ta + tb);
  }

  lemma SameRunSameRead(fileName: string, tl1: seq<seq<string>>, tl2: seq<seq<string>>)
    requires Run(InitState(), tl1) == Run(InitState(), tl2)
    ensures ReadTokens(fileName, tl1) == ReadTokens(fileName, tl2)
  {
  }

  // ---------------------------------------------------------------------
  // The sanity pass
  // ---------------------------------------------------------------------

  /** The condition under which the sanity pass reports w. */
  ghost predicate WarningDue(p: Lib, w: Warning)
    requires Valid(p)
  {
    && 1 <= w.size <= p.lutMax
    && if p.varPinDelays then
         && w.pin < w.size
         && match w.kind
            case NonPositiveDelay => p.delays[w.size][w.pin] <= 0.0
            case DecreasingDelay => w.pin > 0 && p.delays[w.size][w.pin - 1] > p.delays[w.size][w.pin]
       else
         w.pin == 0 && w.kind == NonPositiveDelay && p.delays[w.size][0] <= 0.0
  }

  ghost predicate PinDue(row: seq<real>, i: nat, w: Warning)
    requires w.pin < |row|
  {
    && w.size == i
    && match w.kind
       case NonPositiveDelay => row[w.pin] <= 0.0
       case DecreasingDelay => w.pin > 0 && row[w.pin - 1] > row[w.pin]
  }

  lemma {:induction false} RowWarningsExactly(row: seq<real>, i: nat, k: nat, w: Warning)
    requires k <= |row|
    ensures w in RowWarnings(row, i, k) <==> w.pin < k && PinDue(row, i, w)
  {
    if k > 0 {
      RowWarningsExactly(row, i, k - 1, w);
    }
  }

  lemma {:induction false} VarWarningsExactly(p: Lib, n: nat, w: Warning)
    requires Valid(p) && n <= p.lutMax
    ensures w in VarWarnings(p, n) <==>
      1 <= w.size <= n && w.pin < w.size && PinDue(p.delays[w.size], w.size, w)
  {
    if n > 0 {
      var row := p.delays[n];
      assert VarWarnings(p, n) == VarWarnings(p, n - 1) + RowWarnings(row, n, n);
      VarWarningsExactly(p, n - 1, w);
      RowWarningsExactly(row, n, n, w);
      if w.size == n {
        assert w !in VarWarnings(p, n - 1);
      } else {
        assert w !in RowWarnings(row, n, n);
      }
    }
  }

  lemma {:induction false} UniformWarningsExactly(p: Lib, n: nat, w: Warning)
    requires Valid(p) && n <= p.lutMax
    ensures w in UniformWarnings(p, n) <==>
      1 <= w.size <= n && w.pin == 0 && w.kind == NonPositiveDelay && p.delays[w.size][0] <= 0.0
  {
    if n > 0 {
      UniformWarningsExactly(p, n - 1, w);
    }
  }

  /** The sanity pass reports exactly the warnings that are due: in
      variable-pin-delay mode every non-positive pin delay and every pin
      slower than its successor, in uniform mode every non-positive pin-0
      delay. */
  lemma SanityWarningsExactly(p: Lib, w: Warning)
    requires Valid(p)
    ensures w in SanityWarnings(p) <==> WarningDue(p, w)
  {
    if p.varPinDelays {
      VarWarningsExactly(p, p.lutMax, w);
    } else {
      UniformWarningsExactly(p, p.lutMax, w);
    }
  }

  /** An entry that passes its checks has an area and at most i delays. */
  lemma EntryShape(toks: seq<string>, i: nat)
    requires toks != [] && EntryError(toks, i) == None
    ensures 2 <= |toks| && |toks| - 2 <= i
  {
  }

  /** In variable-pin-delay mode, a size whose line gave fewer delays than
      pins is always reported: the first missing pin kept its 0. */
  lemma ShortRowWarns(fileName: string, tl: seq<seq<string>>, j: nat)
    requires ReadTokens(fileName, tl).Success? && ReadTokens(fileName, tl).value.varPinDelays
    requires j < |DataLines(tl)| && |DataLines(tl)[j]| - 2 < j + 1
    ensures
      var p := ReadTokens(fileName, tl).value;
      var pin := |DataLines(tl)[j]| - 2;
      pin >= 0 && Warning(j + 1, pin, NonPositiveDelay) in SanityWarnings(p)
  {
    var p := ReadTokens(fileName, tl).value;
    var d := DataLines(tl);
    ReadAcceptsIffEntriesGood(fileName, tl);
    EntryShape(d[j], j + 1);
    var pin := |d[j]| - 2;
    ReadSize(fileName, tl);
    ReadDelayAt(fileName, tl, j + 1, pin);
    SanityWarningsExactly(p, Warning(j + 1, pin, NonPositiveDelay));
  }

  // ---------------------------------------------------------------------
  // The queries
  // ---------------------------------------------------------------------

  /** The queries treat the NULL library as one whose pins all take 1. */
  lemma NullLibraryDelays()
    ensures FastestPinDelay(None) == 1.0 && SlowestPinDelay(None) == 1.0
  {
  }

  /** In uniform mode the fastest and the slowest pin delay coincide. */
  lemma UniformFastestIsSlowest(p: Lib)
    requires Valid(p) && !p.varPinDelays
    ensures FastestPinDelay(Some(p)) == SlowestPinDelay(Some(p))
  {
  }

  /** The cast test of If_LutLibDelaysAreDiscrete holds exactly of the
      whole numbers. */
  lemma IsWholeIffInteger(x: real)
    ensures IsWhole(x) <==> x == x.Floor as real
  {
    if x < 0.0 {
      if x == x.Floor as real {
        assert (-x).Floor == -(x.Floor);
      }
      if IsWhole(x) {
        assert -x == (-x).Floor as real;
        assert x == (-((-x).Floor)) as real;
      }
    }
  }

  /** A library read from a file is discrete iff the first delay of every
      data line is a whole number (a line without delays counts as 0);
      the other pins play no part. */
  lemma ReadDiscrete(fileName: string, tl: seq<seq<string>>)
    requires ReadTokens(fileName, tl).Success?
    ensures Discrete(ReadTokens(fileName, tl).value) <==>
      forall j :: 0 <= j < |DataLines(tl)| ==> IsWhole(DelayOf(DataLines(tl)[j], 0))
  {
    var p := ReadTokens(fileName, tl).value;
    var d := DataLines(tl);
    ReadSize(fileName, tl);
    if Discrete(p) {
      forall j | 0 <= j < |d| ensures IsWhole(DelayOf(d[j], 0)) {
        ReadDelayAt(fileName, tl, j + 1, 0);
      }
    }
    if forall j :: 0 <= j < |d| ==> IsWhole(DelayOf(d[j], 0)) {
      forall s | 1 <= s <= p.lutMax ensures IsWhole(p.delays[s][0]) {
        ReadDelayAt(fileName, tl, s, 0);
      }
    }
  }

  /** The fastest and slowest pin delays of a library read from a file,
      in terms of its last data line: pin 0, and in variable-pin-delay mode
      pin LutMax - 1; 0 when the file has no data line. */
  lemma ReadFastestSlowest(fileName: string, tl: seq<seq<string>>)
    requires ReadTokens(fileName, tl).Success?
    ensures
      var p := ReadTokens(fileName, tl).value;
      var d := DataLines(tl);
      && (|d| == 0 ==> FastestPinDelay(Some(p)) == 0.0 && SlowestPinDelay(Some(p)) == 0.0)
      && (|d| > 0 ==>
            && FastestPinDelay(Some(p)) == DelayOf(d[|d| - 1], 0)
            && SlowestPinDelay(Some(p)) ==
                 if p.varPinDelays then DelayOf(d[|d| - 1], |d| - 1) else DelayOf(d[|d| - 1], 0))
  {
    var p := ReadTokens(fileName, tl).value;
    ReadSize(fileName, tl);
    ReadDelayAt(fileName, tl, p.lutMax, 0);
    if p.varPinDelays {
      ReadDelayAt(fileName, tl, p.lutMax, p.lutMax - 1);
    }
  }

  lemma {:induction false} OrderedRow(row: seq<real>, m: nat)
    requires m < |row|
    requires forall k :: 0 < k <= m ==> row[k - 1] <= row[k]
    ensures row[0] <= row[m]
  {
    if m > 0 {
      OrderedRow(row, m - 1);
    }
  }

  /** When the sanity pass reports no out-of-order pin for the largest
      size, the fastest pin delay does not exceed the slowest. */
  lemma OrderedPinsFastestNotSlower(p: Lib)
    requires Valid(p)
    requires forall k :: Warning(p.lutMax, k, DecreasingDelay) !in SanityWarnings(p)
    ensures FastestPinDelay(Some(p)) <= SlowestPinDelay(Some(p))
  {
    if p.varPinDelays {
      var row := p.delays[p.lutMax];
      forall k | 0 < k <= p.lutMax - 1 ensures row[k - 1] <= row[k] {
        SanityWarningsExactly(p, Warning(p.lutMax, k, DecreasingDelay));
      }
      OrderedRow(row, p.lutMax - 1);
    }
  }

  // ---------------------------------------------------------------------
  // The presets
  // ---------------------------------------------------------------------

  lemma {:induction false} PresetUniformQuiet(p: Lib, n: nat)
    requires Valid(p) && n <= p.lutMax
    requires forall s :: 1 <= s <= p.lutMax ==> p.delays[s][0] > 0.0
    ensures UniformWarnings(p, n) == []
  {
    if n > 0 {
      PresetUniformQuiet(p, n - 1);
    }
  }

  /** Every preset is discrete, its fastest and slowest pin delays are 1,
      and the sanity pass has nothing to report about it. */
  lemma PresetProperties(n: int)
    requires 3 <= n <= 10
    ensures
      var p := SetSimpleLutLib(n).value;
      && Discrete(p)
      && FastestPinDelay(Some(p)) == 1.0
      && SlowestPinDelay(Some(p)) == 1.0
      && SanityWarnings(p) == []
  {
    var p := SetSimpleLutLib(n).value;
    forall s | 1 <= s <= p.lutMax ensures IsWhole(p.delays[s][0]) {
      assert p.delays[s][0] == 1.0;
    }
    PresetUniformQuiet(p, p.lutMax);
  }

  // ---------------------------------------------------------------------
  // Examples
  // ---------------------------------------------------------------------

  lemma AtoiSmall()
    ensures Atoi("1") == 1 && Atoi("2") == 2
    ensures Atof("0") == 0.0 && Atof("1") == 1.0
  {
    AtoiOfNatString(1);
    AtoiOfNatString(2);
    AtofOfNatString(0);
    AtofOfNatString(1);
    assert NatString(1) == "1" && NatString(2) == "2" && NatString(0) == "0";
  }

  lemma ExampleLineOne()
    ensures Tokens("1 0 0") == ["1", "0", "0"]
  {
    var l := ["1", "0", "0"];
    assert Join(l) == "1 0 0";
    TokensOfJoin(l);
  }

  lemma ExampleLineTwo()
    ensures Tokens("2 1 1 1") == ["2", "1", "1", "1"]
  {
    var l := ["2", "1", "1", "1"];
    assert Join(l) == "2 1 1 1";
    TokensOfJoin(l);
  }

  lemma ExampleLineShort()
    ensures Tokens("2 1 1") == ["2", "1", "1"]
  {
    var l := ["2", "1", "1"];
    assert Join(l) == "2 1 1";
    TokensOfJoin(l);
  }

  lemma ExampleLineLong()
    ensures Tokens("1 0 0 0") == ["1", "0", "0", "0"]
  {
    var l := ["1", "0", "0", "0"];
    assert Join(l) == "1 0 0 0";
    TokensOfJoin(l);
  }

  lemma ExampleLines()
    ensures LineTokens(["1 0 0", "2 1 1 1"]) == [["1", "0", "0"], ["2", "1", "1", "1"]]
  {
    ExampleLineOne();
    ExampleLineTwo();
  }

  lemma ExampleGood()
    ensures
      var tl := [["1", "0", "0"], ["2", "1", "1", "1"]];
      DataLines(tl) == tl && GoodFrom(tl, 0)
  {
    var tl := [["1", "0", "0"], ["2", "1", "1", "1"]];
    assert tl[1..][1..] == [];
    AtoiSmall();
    assert EntryError(tl[0], 1) == None;
    assert EntryError(tl[1], 2) == None;
  }

  /** The file "1 0 0" / "2 1 1 1" is accepted: two sizes, variable pin
      delays, size 2 with area 1 and delays 1, 1. */
  lemma ExampleAccepted()
    ensures
      var r := ReadLib("lib", ["1 0 0", "2 1 1 1"]);
      && r.Success?
      && r.value.lutMax == 2 && r.value.varPinDelays
      && r.value.areas[1] == 0.0 && r.value.delays[1][0] == 0.0
      && r.value.areas[2] == 1.0 && r.value.delays[2][0] == 1.0 && r.value.delays[2][1] == 1.0
  {
    var tl := [["1", "0", "0"], ["2", "1", "1", "1"]];
    ExampleLines();
    ExampleGood();
    AtoiSmall();
    ReadAcceptsIffEntriesGood("lib", tl);
    ReadSuccessContents("lib", tl);
    var p := ReadTokens("lib", tl).value;
    assert |tl[1]| - 2 > 1;
    assert p.areas[1] == AreaOf(tl[0]);
    assert p.areas[2] == AreaOf(tl[1]);
    assert p.delays[1][0] == DelayOf(tl[0], 0);
    assert p.delays[2][0] == DelayOf(tl[1], 0);
    assert p.delays[2][1] == DelayOf(tl[1], 1);
  }

  /** The file "2 1 1" is rejected: its first entry claims size 2 where
      size 1 is expected. */
  lemma ExampleOutOfSequence()
    ensures ReadLib("lib", ["2 1 1"]) == Failure(SizeOutOfSequence(1, 2))
  {
    var l1 := ["2", "1", "1"];
    ExampleLineShort();
    var tl := [l1];
    assert LineTokens(["2 1 1"]) == tl;
    assert DataLines(tl) == tl;
    AtoiSmall();
    SequenceErrorRejects("lib", tl, 0);
  }

  /** The file "1 0 0 0" is rejected: size 1 with two delays. */
  lemma ExampleTooManyPins()
    ensures ReadLib("lib", ["1 0 0 0"]) == Failure(TooManyPins(1, 2))
  {
    var l1 := ["1", "0", "0", "0"];
    ExampleLineLong();
    var tl := [l1];
    assert LineTokens(["1 0 0 0"]) == tl;
    assert DataLines(tl) == tl;
    AtoiSmall();
    TooManyPinsRejects("lib", tl, 0);
  }
}
