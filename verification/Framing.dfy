/**
 Record framing of terminal output (cli/src/runbuoy/progress_adapters.py, class
 RecordFramer).  The incremental UTF-8 decoder is not part of this model: a chunk
 is the text that the decoder returned for it.
 */
module Framing {
  import opened Sequences

  /** A framed record: its text and the separator that ended it ("" at end of input). */
  datatype Record = Record(text: string, sep: string)

  /**
   What is known after reading some text: the finished records, the unfinished one,
   and whether the text ends in a CR that a following LF would complete.
   */
  datatype Scan = Scan(records: seq<Record>, rest: string, afterCr: bool)

  const START := Scan([], "", false)

  predicate IsBreak(c: char) {
    c == '\r' || c == '\n'
  }

  predicate NoBreak(s: string) {
    forall i :: 0 <= i < |s| ==> !IsBreak(s[i])
  }

  /** Reads one character.  LF after CR belongs to the record that the CR ended. */
  function Read(scan: Scan, c: char): Scan {
    if c == '\n' && scan.afterCr && scan.records != [] then
      var n := |scan.records| - 1;
      Scan(scan.records[..n] + [Record(scan.records[n].text, "\n")], scan.rest, false)
    else if IsBreak(c) then Scan(scan.records + [Record(scan.rest, [c])], "", c == '\r')
    else Scan(scan.records, scan.rest + [c], false)
  }

  function ReadAll(scan: Scan, s: string): Scan
    decreases |s|
  {
    if s == "" then scan else ReadAll(Read(scan, s[0]), s[1..])
  }

  /** The framing of a whole text. */
  function Frames(s: string): Scan {
    ReadAll(START, s)
  }

  function AtEnd(rest: string): seq<Record> {
    if rest == "" then [] else [Record(rest, "")]
  }

  lemma {:induction false} ReadAllConcat(scan: Scan, a: string, b: string)
    ensures ReadAll(scan, a + b) == ReadAll(ReadAll(scan, a), b)
    decreases |a|
  {
    if a == "" {
      assert a + b == b;
    } else {
      assert (a + b)[1..] == a[1..] + b;
      ReadAllConcat(Read(scan, a[0]), a[1..], b);
    }
  }

  lemma {:induction false} ReadAllUnbroken(scan: Scan, s: string)
    requires NoBreak(s)
    ensures ReadAll(scan, s) == Scan(scan.records, scan.rest + s, s == "" && scan.afterCr)
    decreases |s|
  {
    if s != "" {
      ReadAllUnbroken(Read(scan, s[0]), s[1..]);
      assert scan.rest + [s[0]] + s[1..] == scan.rest + s;
    } else {
      assert scan.rest + s == scan.rest;
    }
  }

  /** Extends a framed prefix by one character. */
  lemma FramesSnoc(s: string, i: nat)
    requires i < |s|
    ensures Frames(s[..i + 1]) == Read(Frames(s[..i]), s[i])
  {
    assert s[..i + 1] == s[..i] + [s[i]];
    ReadAllConcat(START, s[..i], [s[i]]);
  }

  class RecordFramer {
    var buffer: string

    constructor ()
      ensures buffer == ""
    {
      buffer := "";
    }

    method Feed(chunk: string) returns (records: seq<Record>)
      modifies this
      ensures records == Frames(old(buffer) + chunk).records
      ensures buffer == Frames(old(buffer) + chunk).rest
    {
      buffer := buffer + chunk;
      records := [];
      var start := 0;
      var index := 0;
      while index < |buffer|
        invariant 0 <= start <= index <= |buffer|
        invariant buffer == old(buffer) + chunk
        invariant var scan := Frames(buffer[..index]);
                  && scan.records == records && scan.rest == buffer[start..index]
                  && (scan.afterCr && index < |buffer| ==> buffer[index] != '\n')
        decreases |buffer| - index
      {
        var character := buffer[index];
        FramesSnoc(buffer, index);
        if !IsBreak(character) {
          index := index + 1;
          continue;
        }
        var isCrLf := character == '\r' && index + 1 < |buffer| && buffer[index + 1] == '\n';
        records := records + [Record(buffer[start..index], if isCrLf then "\n" else [character])];
        if isCrLf {
          FramesSnoc(buffer, index + 1);
          index := index + 1;
        }
        index := index + 1;
        start := index;
      }
      assert buffer[..index] == buffer;
      buffer := buffer[start..];
    }

    /** `tail` is what the decoder still held back at end of input. */
    method Flush(tail: string) returns (records: seq<Record>)
      modifies this
      ensures records == AtEnd(old(buffer) + tail) && buffer == ""
    {
      buffer := buffer + tail;
      if buffer == "" {
        return [];
      }
      records := [Record(buffer, "")];
      buffer := "";
    }
  }

  // What framing means for the text.

  /** The text with every CR LF written as LF. */
  function Normalized(s: string): string {
    var n := |s|;
    if n == 0 then ""
    else if s[n - 1] == '\n' && EndsInCr(s[..n - 1]) then Normalized(s[..n - 2]) + "\n"
    else Normalized(s[..n - 1]) + [s[n - 1]]
  }

  function Joined(records: seq<Record>): string {
    if records == [] then ""
    else Joined(records[..|records| - 1]) + records[|records| - 1].text + records[|records| - 1].sep
  }

  predicate WellFramed(records: seq<Record>) {
    forall i :: 0 <= i < |records| ==> NoBreak(records[i].text) && records[i].sep in ["\n", "\r"]
  }

  predicate EndsInCr(s: string) {
    s != "" && s[|s| - 1] == '\r'
  }

  lemma JoinedSnoc(records: seq<Record>, r: Record)
    ensures Joined(records + [r]) == Joined(records) + r.text + r.sep
  {
    assert (records + [r])[..|records|] == records;
  }

  lemma {:induction false} NormalizedSnoc(s: string, c: char)
    ensures Normalized(s + [c]) ==
            if EndsInCr(s) && c == '\n' then Normalized(s[..|s| - 1]) + "\n" else Normalized(s) + [c]
  {
    var t, n := s + [c], |s|;
    assert t[..n] == s;
    if EndsInCr(s) {
      assert t[..n - 1] == s[..n - 1];
    }
  }

  /** `scan` has lost nothing of `s` but the CR of each CR LF, and no text holds a break. */
  predicate Accounts(scan: Scan, s: string) {
    && WellFramed(scan.records) && NoBreak(scan.rest)
    && Joined(scan.records) + scan.rest == Normalized(s)
    && scan.afterCr == EndsInCr(s)
    && (scan.afterCr ==> scan.records != [] && scan.rest == "" && scan.records[|scan.records| - 1].sep == "\r")
  }

  lemma {:induction false} ReadLfAccounts(scan: Scan, s: string)
    requires Accounts(scan, s) && scan.afterCr
    ensures Accounts(Read(scan, '\n'), s + "\n")
  {
    var n := |scan.records| - 1;
    var head, last, t := scan.records[..n], scan.records[n], s[..|s| - 1];
    assert scan.records == head + [last] && s == t + "\r";
    JoinedSnoc(head, last);
    JoinedSnoc(head, Record(last.text, "\n"));
    NormalizedSnoc(t, '\r');
    NormalizedSnoc(s, '\n');
    SameBeforeLast(Joined(head) + last.text, Normalized(t), '\r');
  }

  lemma SameBeforeLast(a: string, b: string, c: char)
    requires a + [c] + "" == b + [c]
    ensures a == b && a + "\n" + "" == b + "\n"
  {
    assert a == (a + [c] + "")[..|a|] && b == (b + [c])[..|b|];
    assert |a| == |b|;
  }

  lemma {:induction false} ReadBreakAccounts(scan: Scan, s: string, c: char)
    requires Accounts(scan, s) && IsBreak(c) && !(c == '\n' && scan.afterCr)
    ensures Accounts(Read(scan, c), s + [c])
  {
    NormalizedSnoc(s, c);
    JoinedBreak(scan.records, scan.rest, c);
    FramedSnoc(scan.records, Record(scan.rest, [c]));
  }

  lemma FramedSnoc(records: seq<Record>, r: Record)
    requires WellFramed(records) && NoBreak(r.text) && r.sep in ["\n", "\r"]
    ensures WellFramed(records + [r])
  {
  }

  lemma JoinedBreak(records: seq<Record>, rest: string, c: char)
    ensures Joined(records + [Record(rest, [c])]) + "" == Joined(records) + rest + [c]
  {
    JoinedSnoc(records, Record(rest, [c]));
    var text := Joined(records) + rest + [c];
    assert text + "" == text;
  }

  lemma {:induction false} ReadTextAccounts(scan: Scan, s: string, c: char)
    requires Accounts(scan, s) && !IsBreak(c)
    ensures Accounts(Read(scan, c), s + [c])
  {
    NormalizedSnoc(s, c);
    ConcatAssociates(Joined(scan.records), scan.rest, [c]);
  }

  lemma {:induction false} ReadAccounts(scan: Scan, s: string, c: char)
    requires Accounts(scan, s)
    ensures Accounts(Read(scan, c), s + [c])
  {
    if c == '\n' && scan.afterCr {
      ReadLfAccounts(scan, s);
    } else if IsBreak(c) {
      ReadBreakAccounts(scan, s, c);
    } else {
      ReadTextAccounts(scan, s, c);
    }
  }

  lemma ReadOne(scan: Scan, x: char)
    ensures ReadAll(scan, [x]) == Read(scan, x)
  {
    assert [x][1..] == "";
  }

  /** Framing accounts for every text, whatever it is. */
  lemma {:induction false} FramesMeaning(s: string)
    ensures Accounts(Frames(s), s)
    decreases |s|
  {
    if s != "" {
      var n := |s| - 1;
      var t, c := s[..n], s[n];
      InitAndLast(s);
      FramesMeaning(t);
      ReadAccounts(Frames(t), t, c);
      ReadAllConcat(START, t, [c]);
      ReadOne(Frames(t), c);
    }
  }

  // Chunking.

  /** What a framer has returned over several feeds, and what it still holds. */
  datatype Fed = Fed(records: seq<Record>, rest: string)

  function Whole(chunks: seq<string>): string {
    if chunks == [] then "" else Whole(chunks[..|chunks| - 1]) + chunks[|chunks| - 1]
  }

  function FeedAll(chunks: seq<string>): Fed {
    if chunks == [] then Fed([], "")
    else
      var before := FeedAll(chunks[..|chunks| - 1]);
      var scan := Frames(before.rest + chunks[|chunks| - 1]);
      Fed(before.records + scan.records, scan.rest)
  }

  /** All records of a text fed in `chunks` and then flushed; the decoder held back `tail`. */
  function Session(chunks: seq<string>, tail: string): seq<Record> {
    FeedAll(chunks).records + AtEnd(FeedAll(chunks).rest + tail)
  }

  /** At how many chunk boundaries a CR LF is cut in two. */
  function CrLfCuts(chunks: seq<string>): nat {
    if chunks == [] then 0
    else
      var before, last := chunks[..|chunks| - 1], chunks[|chunks| - 1];
      CrLfCuts(before) + if EndsInCr(Whole(before)) && last != "" && last[0] == '\n' then 1 else 0
  }

  /** The texts that an adapter does not skip. */
  function Texts(records: seq<Record>): seq<string> {
    if records == [] then []
    else
      var n := |records| - 1;
      Texts(records[..n]) + if records[n].text == "" then [] else [records[n].text]
  }

  lemma {:induction false} TextsConcat(a: seq<Record>, b: seq<Record>)
    ensures Texts(a + b) == Texts(a) + Texts(b)
    decreases |b|
  {
    if b == [] {
      assert a + b == a;
    } else {
      var n := |b| - 1;
      assert (a + b)[..|a + b| - 1] == a + b[..n];
      TextsConcat(a, b[..n]);
    }
  }

  /** Records that are already finished do not influence how reading goes on. */
  lemma {:induction false} ReadAllIndependent(done: seq<Record>, scan: Scan, s: string)
    requires scan.afterCr ==> scan.records != []
    ensures var r := ReadAll(scan, s);
            ReadAll(Scan(done + scan.records, scan.rest, scan.afterCr), s) == Scan(done + r.records, r.rest, r.afterCr)
    decreases |s|
  {
    if s != "" {
      var all := Scan(done + scan.records, scan.rest, scan.afterCr);
      var next := Read(scan, s[0]);
      assert Read(all, s[0]) == Scan(done + next.records, next.rest, next.afterCr);
      ReadAllIndependent(done, next, s[1..]);
    }
  }

  /** A framer that starts with an unbroken buffer, against the scan it abbreviates. */
  lemma FramesAfter(rest: string, chunk: string)
    requires NoBreak(rest)
    ensures Frames(rest + chunk) == ReadAll(Scan([], rest, false), chunk)
  {
    ReadAllConcat(START, rest, chunk);
    ReadAllUnbroken(START, rest);
    assert "" + rest == rest;
  }

  /** Reading LF first: the scan completes a CR LF, a new framer sees an empty record. */
  lemma LfAfterCr(before: Scan, tail: string) returns (more: seq<Record>)
    requires before.afterCr && before.records != [] && before.rest == ""
    ensures var whole, anew := ReadAll(before, "\n" + tail), ReadAll(START, "\n" + tail);
            var n := |before.records| - 1;
            && whole.rest == anew.rest
            && anew.records == [Record("", "\n")] + more
            && whole.records == before.records[..n] + [Record(before.records[n].text, "\n")] + more
            && Texts(whole.records) == Texts(before.records) + Texts(anew.records)
  {
    var n := |before.records| - 1;
    var head, last := before.records[..n], before.records[n];
    var ended, empty := [Record(last.text, "\n")], [Record("", "\n")];
    assert ("\n" + tail)[1..] == tail;
    more := ReadAll(START, tail).records;
    ReadAllFrom(head + ended, tail);
    ReadAllFrom(empty, tail);
    assert [] + empty == empty;
    assert before.records == head + [last];
    TextsConcat(head, [last]);
    TextsConcat(head, ended);
    TextsConcat(head + ended, more);
    TextsConcat(empty, more);
    assert Texts([last]) == Texts(ended);
  }

  lemma ReadAllFrom(done: seq<Record>, s: string)
    ensures var r := ReadAll(START, s); ReadAll(Scan(done, "", false), s) == Scan(done + r.records, r.rest, r.afterCr)
  {
    assert done + [] == done;
    ReadAllIndependent(done, START, s);
  }

  /** Any other character: a new framer goes on exactly like the scan. */
  lemma NoLfAfterCr(before: Scan, chunk: string)
    requires before.afterCr && chunk != "" ==> chunk[0] != '\n'
    ensures var whole, anew := ReadAll(before, chunk), ReadAll(Scan([], before.rest, false), chunk);
            && whole.rest == anew.rest
            && whole.records == before.records + anew.records
  {
    assert before.records + [] == before.records;
    if chunk != "" {
      assert Read(before, chunk[0]) == Read(before.(afterCr := false), chunk[0]);
      ReadAllIndependent(before.records, Scan([], before.rest, false), chunk);
    }
  }

  /**
   `fed` is `whole`, except that some records that end in CR LF appear as a record
   that ends in CR and an empty one that ends in LF.
   */
  predicate Recut(fed: seq<Record>, whole: seq<Record>) {
    if whole == [] || fed == [] then whole == [] && fed == []
    else
      var m, n := |fed| - 1, |whole| - 1;
      || (fed[m] == whole[n] && Recut(fed[..m], whole[..n]))
      || (&& whole[n].sep == "\n" && m > 0 && fed[m] == Record("", "\n")
          && fed[m - 1] == Record(whole[n].text, "\r") && Recut(fed[..m - 1], whole[..n]))
  }

  lemma {:induction false} RecutConcat(fed: seq<Record>, whole: seq<Record>, more: seq<Record>)
    requires Recut(fed, whole)
    ensures Recut(fed + more, whole + more)
    decreases |more|
  {
    if more == [] {
      assert fed + more == fed && whole + more == whole;
    } else {
      var n := |more| - 1;
      RecutConcat(fed, whole, more[..n]);
      assert (fed + more)[..|fed| + n] == fed + more[..n];
      assert (whole + more)[..|whole| + n] == whole + more[..n];
    }
  }

  lemma RecutLast(fed: seq<Record>, whole: seq<Record>)
    requires Recut(fed, whole) && whole != [] && whole[|whole| - 1].sep == "\r"
    ensures fed != [] && fed[|fed| - 1] == whole[|whole| - 1]
    ensures Recut(fed[..|fed| - 1], whole[..|whole| - 1])
  {
  }

  lemma RecutPair(fed: seq<Record>, whole: seq<Record>, text: string)
    requires Recut(fed, whole)
    ensures Recut(fed + [Record(text, "\r"), Record("", "\n")], whole + [Record(text, "\n")])
  {
    var f, w := fed + [Record(text, "\r"), Record("", "\n")], whole + [Record(text, "\n")];
    assert f[..|f| - 2] == fed && w[..|w| - 1] == whole;
  }

  /** A CR record that LF completes in the whole text but not in the framer. */
  lemma RecutCr(fed: seq<Record>, whole: seq<Record>, more: seq<Record>)
    requires Recut(fed, whole) && whole != [] && whole[|whole| - 1].sep == "\r"
    ensures var n := |whole| - 1;
            Recut(fed + ([Record("", "\n")] + more), whole[..n] + [Record(whole[n].text, "\n")] + more)
  {
    var m, n := |fed| - 1, |whole| - 1;
    RecutLast(fed, whole);
    var text := whole[n].text;
    RecutPair(fed[..m], whole[..n], text);
    RecutConcat(fed[..m] + [Record(text, "\r"), Record("", "\n")], whole[..n] + [Record(text, "\n")], more);
    Regroup(fed, Record("", "\n"), more);
  }

  lemma Regroup(s: seq<Record>, r: Record, more: seq<Record>)
    requires s != []
    ensures s + ([r] + more) == s[..|s| - 1] + [s[|s| - 1], r] + more
  {
  }

  /** What a framer that has returned `fed` promises about the scan of all it was fed. */
  predicate Agree(fed: Fed, scan: Scan, cuts: nat) {
    && fed.rest == scan.rest
    && Recut(fed.records, scan.records)
    && Texts(fed.records) == Texts(scan.records)
    && |fed.records| == |scan.records| + cuts
    && (cuts == 0 ==> fed.records == scan.records)
  }

  lemma AgreeCut(fed: Fed, scan: Scan, cuts: nat, s: string, tail: string)
    requires Agree(fed, scan, cuts) && Accounts(scan, s) && scan.afterCr
    ensures var next := ReadAll(START, "\n" + tail);
            Agree(Fed(fed.records + next.records, next.rest), ReadAll(scan, "\n" + tail), cuts + 1)
  {
    var more := LfAfterCr(scan, tail);
    TextsConcat(fed.records, ReadAll(START, "\n" + tail).records);
    RecutCr(fed.records, scan.records, more);
  }

  lemma AgreeUncut(fed: Fed, scan: Scan, cuts: nat, chunk: string)
    requires Agree(fed, scan, cuts) && (scan.afterCr && chunk != "" ==> chunk[0] != '\n')
    ensures var next := ReadAll(Scan([], scan.rest, false), chunk);
            Agree(Fed(fed.records + next.records, next.rest), ReadAll(scan, chunk), cuts)
  {
    var next := ReadAll(Scan([], scan.rest, false), chunk).records;
    NoLfAfterCr(scan, chunk);
    TextsConcat(fed.records, next);
    TextsConcat(scan.records, next);
    RecutConcat(fed.records, scan.records, next);
  }

  lemma AgreeStep(fed: Fed, scan: Scan, cuts: nat, s: string, chunk: string)
    requires Agree(fed, scan, cuts) && Accounts(scan, s)
    ensures var next := ReadAll(Scan([], scan.rest, false), chunk);
            Agree(Fed(fed.records + next.records, next.rest), ReadAll(scan, chunk),
                  cuts + if EndsInCr(s) && chunk != "" && chunk[0] == '\n' then 1 else 0)
  {
    if scan.afterCr && chunk != "" && chunk[0] == '\n' {
      assert chunk == "\n" + chunk[1..];
      AgreeCut(fed, scan, cuts, s, chunk[1..]);
    } else {
      AgreeUncut(fed, scan, cuts, chunk);
    }
  }

  lemma {:induction false} FedAgainstWhole(chunks: seq<string>)
    ensures Agree(FeedAll(chunks), Frames(Whole(chunks)), CrLfCuts(chunks))
    decreases |chunks|
  {
    if chunks != [] {
      var init, last := chunks[..|chunks| - 1], chunks[|chunks| - 1];
      FedAgainstWhole(init);
      FramesMeaning(Whole(init));
      AgreeStep(FeedAll(init), Frames(Whole(init)), CrLfCuts(init), Whole(init), last);
      ReadAllConcat(START, Whole(init), last);
      FramesAfter(FeedAll(init).rest, last);
    }
  }

  /**
   However a text is cut into chunks, the records with a text are those of the
   uncut text; and the full record lists are equal exactly when no cut falls
   inside a CR LF.
   */
  lemma ChunkingInvariance(chunks: seq<string>, tail: string)
    ensures Texts(Session(chunks, tail)) == Texts(Session([Whole(chunks)], tail))
    ensures Session(chunks, tail) == Session([Whole(chunks)], tail) <==> CrLfCuts(chunks) == 0
    ensures Recut(Session(chunks, tail), Session([Whole(chunks)], tail))
  {
    var whole := [Whole(chunks)];
    FedAgainstWhole(chunks);
    FedAgainstWhole(whole);
    assert whole[..0] == [] && Whole(whole) == "" + Whole(chunks) == Whole(chunks);
    assert CrLfCuts(whole) == 0;
    RecutConcat(FeedAll(chunks).records, FeedAll(whole).records, AtEnd(FeedAll(whole).rest + tail));
    TextsConcat(FeedAll(chunks).records, AtEnd(FeedAll(chunks).rest + tail));
    TextsConcat(FeedAll(whole).records, AtEnd(FeedAll(whole).rest + tail));
  }
}
