/**
 The progress adapters that consume framed records
 (cli/src/runbuoy/progress_adapters.py, classes RecordProgressAdapter,
 LineProgressAdapter and RegexProgressAdapter).

 `strip_ansi(...).strip()` and the regular expressions are not part of this model:
 they are the constants `clean`, `matches` and `parse`.  Floats are `real`.
 */
module Adapters {
  import opened Wrappers
  import opened Framing
  import opened Sequences

  /** The records handed to `on_record`, and the last one if a CR ended it. */
  datatype Intake = Intake(handed: seq<string>, lastCarriage: Option<string>)

  /** Empty records are skipped, and so is a repeated record when a CR ends it again. */
  function Take(intake: Intake, r: Record, clean: string -> string): Intake {
    var text := clean(r.text);
    if text == "" || (r.sep == "\r" && intake.lastCarriage == Some(text)) then intake
    else Intake(intake.handed + [text], if r.sep == "\r" then Some(text) else None)
  }

  function TakeAll(records: seq<Record>, clean: string -> string): Intake {
    if records == [] then Intake([], None)
    else Take(TakeAll(records[..|records| - 1], clean), records[|records| - 1], clean)
  }

  lemma TakeSnoc(records: seq<Record>, r: Record, clean: string -> string)
    ensures TakeAll(records + [r], clean) == Take(TakeAll(records, clean), r, clean)
  {
    assert (records + [r])[..|records|] == records;
  }

  function Min(a: real, b: real): real {
    if a <= b then a else b
  }

  function Max(a: real, b: real): real {
    if a >= b then a else b
  }

  /** `Progress.determinate` keeps `current` between zero and `total`. */
  function Clamped(current: real, total: real): real {
    Min(Max(current, 0.0), total)
  }

  // Lines.

  function Matching(handed: seq<string>, matches: string -> bool): nat {
    if handed == [] then 0
    else Matching(handed[..|handed| - 1], matches) + if matches(handed[|handed| - 1]) then 1 else 0
  }

  /** It is the number of the records that match. */
  lemma {:induction false} MatchingCounts(handed: seq<string>, matches: string -> bool)
    ensures Matching(handed, matches) == |set i | 0 <= i < |handed| && matches(handed[i])|
    decreases |handed|
  {
    if handed != [] {
      var n := |handed| - 1;
      MatchingCounts(handed[..n], matches);
      var before, all := (set i | 0 <= i < n && matches(handed[..n][i])), set i | 0 <= i < |handed| && matches(handed[i]);
      if matches(handed[n]) {
        assert all == before + {n};
      } else {
        assert all == before;
      }
    }
  }

  /** The progress reported for the first, second, ... of `n` matching records. */
  function LineReports(n: nat, total: real): seq<real> {
    if n == 0 then [] else LineReports(n - 1, total) + [Min(n as real, total)]
  }

  lemma MatchingSnoc(handed: seq<string>, text: string, matches: string -> bool)
    ensures Matching(handed + [text], matches) == Matching(handed, matches) + if matches(text) then 1 else 0
  {
    assert (handed + [text])[..|handed|] == handed;
  }

  lemma LineReportsSnoc(n: nat, total: real)
    requires total > 0.0
    ensures LineReports(n + 1, total) == LineReports(n, total) + [Min((n + 1) as real, total)]
    ensures Min(Min(n as real, total) + 1.0, total) == Min((n + 1) as real, total)
  {
  }

  /** The adapter's fields are those that handling `seen` leaves behind. */
  ghost predicate Handled(intake: Intake, matches: string -> bool, total: real,
                          lastCarriage: Option<string>, current: real, reported: seq<real>)
  {
    var n := Matching(intake.handed, matches);
    && lastCarriage == intake.lastCarriage
    && current == Min(n as real, total)
    && reported == LineReports(n, total)
  }

  /** Handing one more record to the adapter: what becomes of the two progress fields. */
  lemma HandedOne(handed: seq<string>, text: string, matches: string -> bool, total: real, current: real, reported: seq<real>)
    requires total > 0.0
    requires var n := Matching(handed, matches); current == Min(n as real, total) && reported == LineReports(n, total)
    ensures var n := Matching(handed + [text], matches);
            if matches(text)
            then Min(current + 1.0, total) == Min(n as real, total) && reported + [Min(current + 1.0, total)] == LineReports(n, total)
            else current == Min(n as real, total) && reported == LineReports(n, total)
  {
    MatchingSnoc(handed, text, matches);
    LineReportsSnoc(Matching(handed, matches), total);
  }

  lemma HandledNext(seen: seq<Record>, r: Record, clean: string -> string, matches: string -> bool, total: real,
                    lastCarriage: Option<string>, current: real, reported: seq<real>)
    requires total > 0.0 && Handled(TakeAll(seen, clean), matches, total, lastCarriage, current, reported)
    requires clean(r.text) != "" && !(r.sep == "\r" && lastCarriage == Some(clean(r.text)))
    ensures var text := clean(r.text);
            Handled(TakeAll(seen + [r], clean), matches, total, if r.sep == "\r" then Some(text) else None,
                    if matches(text) then Min(current + 1.0, total) else current,
                    if matches(text) then reported + [Min(current + 1.0, total)] else reported)
  {
    TakeSnoc(seen, r, clean);
    HandedOne(TakeAll(seen, clean).handed, clean(r.text), matches, total, current, reported);
  }

  class LineProgressAdapter {
    const clean: string -> string
    const matches: string -> bool
    const total: real
    const framer: RecordFramer
    var lastCarriage: Option<string>
    var current: real
    /** The arguments of the callback, in order. */
    var reported: seq<real>
    /** Every record the framer has returned. */
    ghost var seen: seq<Record>

    ghost predicate Valid()
      reads this
    {
      total > 0.0 && Handled(TakeAll(seen, clean), matches, total, lastCarriage, current, reported)
    }

    constructor (clean: string -> string, matches: string -> bool, total: real)
      requires total > 0.0
      ensures Valid() && fresh(framer) && framer.buffer == "" && seen == []
      ensures this.clean == clean && this.matches == matches && this.total == total
    {
      this.clean := clean;
      this.matches := matches;
      this.total := total;
      framer := new RecordFramer();
      lastCarriage := None;
      current := 0.0;
      reported := [];
      seen := [];
    }

    method Feed(chunk: string)
      requires Valid()
      modifies this, framer
      ensures Valid()
      ensures var scan := Frames(old(framer.buffer) + chunk);
              seen == old(seen) + scan.records && framer.buffer == scan.rest
    {
      var records := framer.Feed(chunk);
      HandleAll(records);
    }

    method Close(tail: string)
      requires Valid()
      modifies this, framer
      ensures Valid()
      ensures seen == old(seen) + AtEnd(old(framer.buffer) + tail) && framer.buffer == ""
    {
      var records := framer.Flush(tail);
      HandleAll(records);
    }

    method HandleAll(records: seq<Record>)
      requires Valid()
      modifies this
      ensures Valid() && seen == old(seen) + records
    {
      for i := 0 to |records|
        invariant Valid() && seen == old(seen) + records[..i]
      {
        HandleRecord(records[i]);
        TakeNext(records, i);
        ConcatAssociates(old(seen), records[..i], [records[i]]);
      }
      assert records[..|records|] == records;
    }

    method HandleRecord(r: Record)
      requires Valid()
      modifies this
      ensures Valid() && seen == old(seen) + [r]
    {
      TakeSnoc(seen, r, clean);
      var text := clean(r.text);
      if text == "" {
        seen := seen + [r];
        return;
      }
      if r.sep == "\r" && lastCarriage == Some(text) {
        seen := seen + [r];
        return;
      }
      HandOn(r, text);
    }

    method HandOn(r: Record, text: string)
      requires Valid() && text == clean(r.text)
      requires text != "" && !(r.sep == "\r" && lastCarriage == Some(text))
      modifies this
      ensures Valid() && seen == old(seen) + [r]
    {
      HandledNext(seen, r, clean, matches, total, lastCarriage, current, reported);
      seen := seen + [r];
      lastCarriage := if r.sep == "\r" then Some(text) else None;
      OnRecord(text);
    }

    method OnRecord(text: string)
      requires total > 0.0
      modifies this`current, this`reported
      ensures if matches(text)
              then current == Min(old(current) + 1.0, total) && reported == old(reported) + [current]
              else current == old(current) && reported == old(reported)
    {
      if !matches(text) {
        return;
      }
      current := Min(current + 1.0, total);
      reported := reported + [current];
    }
  }

  /** The report of the k-th match is min(k, total), so reports never fall. */
  lemma {:induction false} LineReportsAre(n: nat, total: real)
    requires total > 0.0
    ensures var r := LineReports(n, total);
            && |r| == n
            && (forall k :: 0 <= k < n ==> r[k] == Min((k + 1) as real, total))
            && (forall j, k :: 0 <= j < k < n ==> r[j] <= r[k] <= total)
  {
    if n > 0 {
      LineReportsAre(n - 1, total);
    }
  }

  // Regular expressions.

  /** What the pattern found in a record: nothing, two numbers, or something that is no number. */
  datatype Capture = NoMatch | NotNumeric | Numbers(current: real, total: real)

  datatype Report = Report(current: real, total: real)

  /** The reports of a sequence of captures and the last reported value, -1 before the first. */
  datatype RegexState = RegexState(last: real, reports: seq<Report>)

  function RegexStep(state: RegexState, c: Capture): RegexState {
    if !c.Numbers? || c.total <= 0.0 || c.current < state.last then state
    else
      var current := Clamped(c.current, c.total);
      if current == state.last then state
      else RegexState(current, state.reports + [Report(current, c.total)])
  }

  function RegexRun(captures: seq<Capture>): RegexState {
    if captures == [] then RegexState(-1.0, [])
    else RegexStep(RegexRun(captures[..|captures| - 1]), captures[|captures| - 1])
  }

  lemma RegexSnoc(captures: seq<Capture>, c: Capture)
    ensures RegexRun(captures + [c]) == RegexStep(RegexRun(captures), c)
  {
    assert (captures + [c])[..|captures|] == captures;
  }

  class RegexProgressAdapter {
    const parse: string -> Capture
    var lastCurrent: real
    /** The arguments of the callback, in order. */
    var reported: seq<Report>
    /** What the pattern found in the records handled so far. */
    ghost var captured: seq<Capture>

    ghost predicate Valid()
      reads this
    {
      RegexState(lastCurrent, reported) == RegexRun(captured)
    }

    constructor (parse: string -> Capture)
      ensures Valid() && captured == [] && this.parse == parse
    {
      this.parse := parse;
      lastCurrent := -1.0;
      reported := [];
      captured := [];
    }

    /** `ok` is false where the source raises ValueError. */
    method OnRecord(text: string) returns (ok: bool)
      requires Valid()
      modifies this
      ensures Valid() && captured == old(captured) + [parse(text)]
      ensures ok == !parse(text).NotNumeric?
    {
      var found := parse(text);
      RegexSnoc(captured, found);
      captured := captured + [found];
      if found.NoMatch? {
        return true;
      }
      if found.NotNumeric? {
        return false;
      }
      if found.total <= 0.0 || found.current < lastCurrent {
        return true;
      }
      var current := Clamped(found.current, found.total);
      if current == lastCurrent {
        return true;
      }
      lastCurrent := current;
      reported := reported + [Report(current, found.total)];
      return true;
    }
  }

  predicate Rising(reports: seq<Report>) {
    forall j, k :: 0 <= j < k < |reports| ==> reports[j].current < reports[k].current
  }

  /** No captured total is smaller than one captured before it. */
  predicate TotalsGrow(captures: seq<Capture>) {
    forall j, k :: 0 <= j < k < |captures| && captures[j].Numbers? && captures[k].Numbers?
      ==> captures[j].total <= captures[k].total
  }

  /** A report exceeds the one before it exactly if its total does. */
  lemma RegexReportRises(state: RegexState, c: Capture)
    requires RegexStep(state, c) != state && state.last >= -1.0
    ensures c.Numbers? && RegexStep(state, c).reports == state.reports + [Report(Clamped(c.current, c.total), c.total)]
    ensures Clamped(c.current, c.total) > state.last <==> c.total > state.last
  {
  }

  /**
   While totals do not shrink, the reported values strictly increase; and in every
   run a reported value is positive or zero and at most its total.
   */
  lemma {:induction false} RegexReportsRise(captures: seq<Capture>)
    ensures var run := RegexRun(captures);
            && run.last == (if run.reports == [] then -1.0 else run.reports[|run.reports| - 1].current)
            && (forall r :: r in run.reports ==> 0.0 <= r.current <= r.total)
    ensures TotalsGrow(captures) ==>
              var run := RegexRun(captures);
              && Rising(run.reports)
              && (forall r :: r in run.reports ==> r.current <= run.last)
              && (run.reports != [] ==> exists k :: 0 <= k < |captures| && captures[k].Numbers? && run.last <= captures[k].total)
    decreases |captures|
  {
    if captures != [] {
      var n := |captures| - 1;
      RegexReportsRise(captures[..n]);
      var before, run := RegexRun(captures[..n]), RegexRun(captures);
      if TotalsGrow(captures) && run != before && before.reports != [] {
        var k :| 0 <= k < n && captures[..n][k].Numbers? && before.last <= captures[..n][k].total;
        assert captures[k].total <= captures[n].total;
      }
    }
  }

  /** What a capture makes of the value reported last: the current value, between zero and the total, unless it lies below. */
  predicate Reflects(before: real, c: Capture, after: real) {
    if c.Numbers? && c.total > 0.0 && c.current >= before
    then after == (if c.current > c.total then c.total else if c.current < 0.0 then 0.0 else c.current)
    else after == before
  }

  /** Every capture of a run is reflected, in turn. */
  lemma {:induction false} RegexReflects(captures: seq<Capture>)
    ensures forall k :: 0 <= k < |captures| ==> Reflects(RegexRun(captures[..k]).last, captures[k], RegexRun(captures[..k + 1]).last)
  {
    forall k | 0 <= k < |captures|
      ensures Reflects(RegexRun(captures[..k]).last, captures[k], RegexRun(captures[..k + 1]).last)
    {
      assert captures[..k + 1][..k] == captures[..k];
      RegexReportsRise(captures[..k]);
    }
  }

  /** With one total throughout, the last report is the highest value so far. */
  lemma {:induction false} RegexLastIsHighest(captures: seq<Capture>, total: real)
    requires total > 0.0
    requires forall k :: 0 <= k < |captures| && captures[k].Numbers? ==> captures[k].total == total && 0.0 <= captures[k].current <= total
    ensures var last := RegexRun(captures).last;
            && (forall k :: 0 <= k < |captures| && captures[k].Numbers? ==> captures[k].current <= last)
            && (last == -1.0 || exists k :: 0 <= k < |captures| && captures[k].Numbers? && captures[k].current == last)
    decreases |captures|
  {
    if captures != [] {
      var n := |captures| - 1;
      RegexLastIsHighest(captures[..n], total);
      var before := RegexRun(captures[..n]).last;
      if before != -1.0 {
        var k :| 0 <= k < n && captures[..n][k].Numbers? && captures[..n][k].current == before;
        assert captures[k].current == before;
      }
      assert forall k :: 0 <= k < n ==> captures[..n][k] == captures[k];
    }
  }

  /** A capture that is taken has a total above the value reported last. */
  predicate TakenAbove(state: RegexState, c: Capture) {
    RegexStep(state, c) != state ==> c.total > state.last
  }

  predicate AllTakenAbove(captures: seq<Capture>) {
    forall k :: 0 <= k < |captures| ==> TakenAbove(RegexRun(captures[..k]), captures[k])
  }

  lemma RisingSnoc(reports: seq<Report>, r: Report)
    ensures Rising(reports + [r]) <==> Rising(reports) && (reports != [] ==> reports[|reports| - 1].current < r.current)
  {
    var all := reports + [r];
    assert all[|reports|] == r && forall i :: 0 <= i < |reports| ==> all[i] == reports[i];
  }

  lemma {:induction false} AboveSnoc(captures: seq<Capture>)
    requires captures != []
    ensures var n := |captures| - 1;
            AllTakenAbove(captures) <==> AllTakenAbove(captures[..n]) && TakenAbove(RegexRun(captures[..n]), captures[n])
  {
    var n := |captures| - 1;
    assert forall k :: 0 <= k < n ==> captures[..n][..k] == captures[..k] && captures[..n][k] == captures[k];
  }

  /** In any run the reports strictly rise if and only if every capture that is taken has a total above the last report. */
  lemma {:induction false} RegexReportsRiseExactly(captures: seq<Capture>)
    ensures Rising(RegexRun(captures).reports) <==> AllTakenAbove(captures)
    decreases |captures|
  {
    if captures != [] {
      var n := |captures| - 1;
      var before, c := RegexRun(captures[..n]), captures[n];
      RegexReportsRiseExactly(captures[..n]);
      AboveSnoc(captures);
      RegexReportsRise(captures[..n]);
      if RegexStep(before, c) != before {
        RegexReportRises(before, c);
        RisingSnoc(before.reports, Report(Clamped(c.current, c.total), c.total));
      }
    }
  }

  /** A shrinking total makes a reported value fall. */
  lemma ShrinkingTotalFalls()
    ensures !Rising(RegexRun([Numbers(10.0, 20.0), Numbers(10.0, 5.0)]).reports)
  {
    var captures := [Numbers(10.0, 20.0), Numbers(10.0, 5.0)];
    assert captures[..1] == [Numbers(10.0, 20.0)];
    assert [Numbers(10.0, 20.0)][..0] == [];
    var reports := RegexRun(captures).reports;
    assert reports == [Report(10.0, 20.0), Report(5.0, 5.0)];
    assert reports[0].current > reports[1].current;
  }

  // Chunking.

  /**
   However the output is cut into chunks, no record is handed on more often than from
   the uncut output; and if no cut falls inside a CR LF, exactly the same records are.
   */
  lemma ChunkingNeverOvercounts(chunks: seq<string>, tail: string, clean: string -> string, matches: string -> bool)
    requires clean("") == ""
    ensures var cut, whole := TakeAll(Session(chunks, tail), clean), TakeAll(Session([Whole(chunks)], tail), clean);
            && Matching(cut.handed, matches) <= Matching(whole.handed, matches)
            && (CrLfCuts(chunks) == 0 ==> cut == whole)
  {
    ChunkingInvariance(chunks, tail);
    RecutHandsOnFewer(Session(chunks, tail), Session([Whole(chunks)], tail), clean, matches);
  }

  /** The intake of a cut output knows of a repetition whenever that of the uncut output does. */
  predicate Behind(cut: Intake, whole: Intake, matches: string -> bool) {
    && Matching(cut.handed, matches) <= Matching(whole.handed, matches)
    && (cut.lastCarriage == whole.lastCarriage || (cut.lastCarriage.Some? && whole.lastCarriage.None?))
  }

  lemma TakeBehind(cut: Intake, whole: Intake, r: Record, clean: string -> string, matches: string -> bool)
    requires Behind(cut, whole, matches)
    ensures Behind(Take(cut, r, clean), Take(whole, r, clean), matches)
  {
    MatchingSnoc(cut.handed, clean(r.text), matches);
    MatchingSnoc(whole.handed, clean(r.text), matches);
  }

  lemma TakePairBehind(cut: Intake, whole: Intake, text: string, clean: string -> string, matches: string -> bool)
    requires Behind(cut, whole, matches) && clean("") == ""
    ensures Behind(Take(Take(cut, Record(text, "\r"), clean), Record("", "\n"), clean),
                   Take(whole, Record(text, "\n"), clean), matches)
  {
    MatchingSnoc(cut.handed, clean(text), matches);
    MatchingSnoc(whole.handed, clean(text), matches);
  }

  lemma {:induction false} RecutHandsOnFewer(cut: seq<Record>, whole: seq<Record>, clean: string -> string, matches: string -> bool)
    requires Recut(cut, whole) && clean("") == ""
    ensures Behind(TakeAll(cut, clean), TakeAll(whole, clean), matches)
    decreases |whole|
  {
    if whole != [] {
      var m, n := |cut| - 1, |whole| - 1;
      if cut[m] == whole[n] && Recut(cut[..m], whole[..n]) {
        RecutHandsOnFewer(cut[..m], whole[..n], clean, matches);
        TakeBehind(TakeAll(cut[..m], clean), TakeAll(whole[..n], clean), whole[n], clean, matches);
      } else {
        RecutHandsOnFewer(cut[..m - 1], whole[..n], clean, matches);
        assert cut[..m][..m - 1] == cut[..m - 1];
        TakePairBehind(TakeAll(cut[..m - 1], clean), TakeAll(whole[..n], clean), whole[n].text, clean, matches);
      }
    }
  }

  lemma ReadTwo(scan: Scan, x: char, y: char)
    ensures ReadAll(scan, [x, y]) == Read(Read(scan, x), y)
  {
    assert [x, y] == [x] + [y];
    ReadAllConcat(scan, [x], [y]);
    ReadOne(scan, x);
    ReadOne(Read(scan, x), y);
  }

  lemma FramesOfCr()
    ensures Frames("a\r") == Scan([Record("a", "\r")], "", true)
  {
    assert "" + "a" == "a";
    ReadTwo(START, 'a', '\r');
  }

  lemma FramesOfLfCr()
    ensures Frames("\na\r") == Scan([Record("", "\n"), Record("a", "\r")], "", true)
  {
    var lf := Scan([Record("", "\n")], "", false);
    assert "" + "a" == "a";
    ReadOne(START, '\n');
    ReadAllConcat(START, "\n", "a\r");
    ReadTwo(lf, 'a', '\r');
    assert "\n" + "a\r" == "\na\r";
  }

  lemma FramesOfCrLfCr()
    ensures Frames("a\r\na\r") == Scan([Record("a", "\n"), Record("a", "\r")], "", true)
  {
    FramesOfCr();
    var cr, line := Scan([Record("a", "\r")], "", true), Scan([Record("a", "\n")], "", false);
    assert "" + "a" == "a";
    ReadOne(cr, '\n');
    ReadTwo(line, 'a', '\r');
    ReadAllConcat(START, "a\r", "\n");
    ReadAllConcat(START, "a\r\n", "a\r");
    assert "a\r" + "\n" == "a\r\n" && "a\r\n" + "a\r" == "a\r\na\r";
  }

  lemma FeedAllSnoc(chunks: seq<string>, chunk: string, scan: Scan)
    requires FeedAll(chunks).rest == "" && Frames(chunk) == scan
    ensures FeedAll(chunks + [chunk]) == Fed(FeedAll(chunks).records + scan.records, scan.rest)
  {
    assert (chunks + [chunk])[..|chunks|] == chunks && "" + chunk == chunk;
  }

  lemma CutSession(first: string, second: string)
    requires Frames(first).rest == "" && Frames(second).rest == ""
    ensures Session([first, second], "") == Frames(first).records + Frames(second).records
    ensures Session([first], "") == Frames(first).records
  {
    var none: seq<string> := [];
    FeedAllSnoc(none, first, Frames(first));
    assert none + [first] == [first];
    FeedAllSnoc([first], second, Frames(second));
    assert [first] + [second] == [first, second];
  }

  /** Two texts that differ and are each handed on, or a repetition that a CR ends. */
  lemma TakeTwo(r: Record, r': Record, clean: string -> string)
    requires clean(r.text) == clean(r'.text) != "" && r'.sep == "\r"
    ensures |TakeAll([r, r'], clean).handed| == if r.sep == "\r" then 1 else 2
    ensures clean("") == "" ==> TakeAll([r, Record("", "\n"), r'], clean) == TakeAll([r, r'], clean)
  {
    TakeSnoc([], r, clean);
    TakeSnoc([r], r', clean);
    TakeSnoc([r], Record("", "\n"), clean);
    TakeSnoc([r, Record("", "\n")], r', clean);
    assert [] + [r] == [r] && [r] + [r'] == [r, r'] && [r] + [Record("", "\n")] == [r, Record("", "\n")];
    assert [r, Record("", "\n")] + [r'] == [r, Record("", "\n"), r'];
  }

  lemma RepeatedCut()
    ensures Session(["a\r", "\na\r"], "") == [Record("a", "\r"), Record("", "\n"), Record("a", "\r")]
  {
    FramesOfCr();
    FramesOfLfCr();
    CutSession("a\r", "\na\r");
  }

  lemma RepeatedWhole()
    ensures Session(["a\r\na\r"], "") == [Record("a", "\n"), Record("a", "\r")]
  {
    FramesOfCrLfCr();
    CutSession("a\r\na\r", "");
  }

  /** A cut inside a CR LF can lose a line: a repeated one is taken for a redrawn one. */
  lemma CutLosesRepeatedLine()
    ensures var same := (s: string) => s;
            && |TakeAll(Session(["a\r", "\na\r"], ""), same).handed| == 1
            && |TakeAll(Session(["a\r\na\r"], ""), same).handed| == 2
  {
    var same := (s: string) => s;
    RepeatedCut();
    RepeatedWhole();
    TakeTwo(Record("a", "\r"), Record("a", "\r"), same);
    TakeTwo(Record("a", "\n"), Record("a", "\r"), same);
  }
}
