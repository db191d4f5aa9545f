/** Which records an adapter loses when its output is cut inside a CR LF. */
module AdapterCuts {
  import opened Wrappers
  import opened Framing
  import opened Adapters
  import opened Sequences

  // What a cut does to the records.

  function Falses(n: nat): seq<bool> {
    seq(n, _ => false)
  }

  /** The boundary before the last chunk falls inside a CR LF. */
  predicate CutsLast(chunks: seq<string>)
    requires chunks != []
  {
    var last := chunks[|chunks| - 1];
    EndsInCr(Whole(chunks[..|chunks| - 1])) && last != "" && last[0] == '\n'
  }

  /** For each record of the uncut text, whether it ends in a CR LF that is cut in two. */
  function Marks(chunks: seq<string>): (marks: seq<bool>)
    ensures |marks| == |Frames(Whole(chunks)).records|
  {
    if chunks == [] then []
    else
      var before := chunks[..|chunks| - 1];
      var marks := Marks(before);
      RecordsGrow(chunks);
      var n := |Frames(Whole(chunks)).records|;
      if CutsLast(chunks) then marks[|marks| - 1 := true] + Falses(n - |marks|) else marks + Falses(n - |marks|)
  }

  /** The same with the record that the end of the output may add. */
  function SessionMarks(chunks: seq<string>, tail: string): seq<bool> {
    Marks(chunks) + Falses(|AtEnd(Frames(Whole(chunks)).rest + tail)|)
  }

  /** A record whose CR LF is cut comes as one that ends in CR and an empty one. */
  function Pieces(r: Record, cut: bool): seq<Record> {
    if cut then [Record(r.text, "\r"), Record("", "\n")] else [r]
  }

  function Expanded(whole: seq<Record>, marks: seq<bool>): seq<Record>
    requires |marks| == |whole|
  {
    if whole == [] then []
    else
      var n := |whole| - 1;
      Expanded(whole[..n], marks[..n]) + Pieces(whole[n], marks[n])
  }

  lemma {:induction false} ExpandedConcat(a: seq<Record>, x: seq<bool>, b: seq<Record>)
    requires |x| == |a|
    ensures Expanded(a + b, x + Falses(|b|)) == Expanded(a, x) + b
    decreases |b|
  {
    if b == [] {
      assert a + b == a && x + Falses(0) == x && Expanded(a, x) + b == Expanded(a, x);
    } else {
      var n := |b| - 1;
      var all, marks := a + b, x + Falses(|b|);
      assert all[..|all| - 1] == a + b[..n] && marks[..|all| - 1] == x + Falses(n);
      ExpandedConcat(a, x, b[..n]);
      InitAndLast(b);
      ConcatAssociates(Expanded(a, x), b[..n], [b[n]]);
    }
  }

  /** What the scan of one more chunk does to the records, and what a framer adds for it. */
  lemma {:induction false} NextChunk(chunks: seq<string>) returns (more: seq<Record>)
    requires chunks != []
    ensures var before, scan := chunks[..|chunks| - 1], Frames(Whole(chunks));
            var earlier := Frames(Whole(before)).records;
            var n := |earlier| - 1;
            if CutsLast(chunks) then
              && n >= 0 && earlier[n].sep == "\r"
              && scan.records == earlier[..n] + [Record(earlier[n].text, "\n")] + more
              && FeedAll(chunks).records == FeedAll(before).records + ([Record("", "\n")] + more)
            else
              && scan.records == earlier + more
              && FeedAll(chunks).records == FeedAll(before).records + more
  {
    var before, last := chunks[..|chunks| - 1], chunks[|chunks| - 1];
    var scan := Frames(Whole(before));
    FedAgainstWhole(before);
    FramesMeaning(Whole(before));
    ReadAllConcat(START, Whole(before), last);
    FramesAfter(FeedAll(before).rest, last);
    if CutsLast(chunks) {
      assert last == "\n" + last[1..];
      more := LfAfterCr(scan, last[1..]);
    } else {
      NoLfAfterCr(scan, last);
      more := ReadAll(Scan([], scan.rest, false), last).records;
    }
  }

  lemma {:induction false} RecordsGrow(chunks: seq<string>)
    requires chunks != []
    ensures var earlier := Frames(Whole(chunks[..|chunks| - 1])).records;
            |earlier| <= |Frames(Whole(chunks)).records| && (CutsLast(chunks) ==> earlier != [])
  {
    var more := NextChunk(chunks);
  }

  lemma {:induction false} ExpandedLast(whole: seq<Record>, marks: seq<bool>)
    requires |marks| == |whole| && whole != [] && !marks[|whole| - 1]
    ensures var n := |whole| - 1;
            && Expanded(whole, marks) == Expanded(whole[..n], marks[..n]) + [whole[n]]
            && Expanded(whole[..n] + [Record(whole[n].text, "\n")], marks[n := true])
               == Expanded(whole[..n], marks[..n]) + [Record(whole[n].text, "\r"), Record("", "\n")]
  {
    var n := |whole| - 1;
    var next, marked := whole[..n] + [Record(whole[n].text, "\n")], marks[n := true];
    assert next[..n] == whole[..n] && marked[..n] == marks[..n];
  }

  /** A record that ends in CR is not marked, only one that ends in a cut CR LF. */
  predicate MarksLines(whole: seq<Record>, marks: seq<bool>)
    requires |marks| == |whole|
  {
    forall i :: 0 <= i < |whole| && marks[i] ==> whole[i].sep == "\n"
  }

  lemma {:induction false} CutExpands(earlier: seq<Record>, marks: seq<bool>, more: seq<Record>)
    requires |marks| == |earlier| && MarksLines(earlier, marks) && earlier != [] && earlier[|earlier| - 1].sep == "\r"
    ensures var n := |earlier| - 1;
            var whole, next := earlier[..n] + [Record(earlier[n].text, "\n")] + more, marks[n := true] + Falses(|more|);
            && MarksLines(whole, next)
            && Expanded(whole, next) == Expanded(earlier, marks) + ([Record("", "\n")] + more)
  {
    var n := |earlier| - 1;
    assert earlier[n].sep != "\n";
    ExpandedLast(earlier, marks);
    ExpandedConcat(earlier[..n] + [Record(earlier[n].text, "\n")], marks[n := true], more);
    Regrouped(Expanded(earlier[..n], marks[..n]), Record(earlier[n].text, "\r"), Record("", "\n"), more);
    assert earlier[n] == Record(earlier[n].text, "\r");
  }

  lemma {:induction false} UncutExpands(earlier: seq<Record>, marks: seq<bool>, more: seq<Record>)
    requires |marks| == |earlier| && MarksLines(earlier, marks)
    ensures MarksLines(earlier + more, marks + Falses(|more|))
    ensures Expanded(earlier + more, marks + Falses(|more|)) == Expanded(earlier, marks) + more
  {
    ExpandedConcat(earlier, marks, more);
  }

  /** The records that a framer returns are those of the uncut text, with the marked ones in two pieces. */
  lemma {:induction false} FedIsExpanded(chunks: seq<string>)
    ensures var whole := Frames(Whole(chunks)).records;
            FeedAll(chunks).records == Expanded(whole, Marks(chunks)) && MarksLines(whole, Marks(chunks))
    decreases |chunks|
  {
    if chunks != [] {
      var before := chunks[..|chunks| - 1];
      FedIsExpanded(before);
      var more := NextChunk(chunks);
      NextMarks(chunks, |more|);
      OneChunk(Frames(Whole(before)).records, Marks(before), FeedAll(before).records, more, CutsLast(chunks),
               Frames(Whole(chunks)).records, Marks(chunks), FeedAll(chunks).records);
    }
  }

  lemma {:induction false} NextMarks(chunks: seq<string>, n: nat)
    requires chunks != [] && |Frames(Whole(chunks)).records| == |Frames(Whole(chunks[..|chunks| - 1])).records| + n
    ensures var marks := Marks(chunks[..|chunks| - 1]);
            if CutsLast(chunks) then marks != [] && Marks(chunks) == marks[|marks| - 1 := true] + Falses(n)
            else Marks(chunks) == marks + Falses(n)
  {
    RecordsGrow(chunks);
  }

  lemma {:induction false} OneChunk(earlier: seq<Record>, marks: seq<bool>, fed: seq<Record>, more: seq<Record>, cut: bool,
                                    whole: seq<Record>, nextMarks: seq<bool>, nextFed: seq<Record>)
    requires |marks| == |earlier| && |nextMarks| == |whole| && fed == Expanded(earlier, marks) && MarksLines(earlier, marks)
    requires var n := |earlier| - 1;
             if cut then
               && n >= 0 && earlier[n].sep == "\r" && whole == earlier[..n] + [Record(earlier[n].text, "\n")] + more
               && nextFed == fed + ([Record("", "\n")] + more) && nextMarks == marks[n := true] + Falses(|more|)
             else whole == earlier + more && nextFed == fed + more && nextMarks == marks + Falses(|more|)
    ensures nextFed == Expanded(whole, nextMarks) && MarksLines(whole, nextMarks)
  {
    if cut {
      CutExpands(earlier, marks, more);
    } else {
      UncutExpands(earlier, marks, more);
    }
  }

  lemma Regrouped(s: seq<Record>, a: Record, b: Record, more: seq<Record>)
    ensures s + [a] + ([b] + more) == s + [a, b] + more
  {
  }

  lemma {:induction false} SessionIsExpanded(chunks: seq<string>, tail: string)
    ensures var whole, marks := Session([Whole(chunks)], tail), SessionMarks(chunks, tail);
            && |marks| == |whole| && MarksLines(whole, marks)
            && Session(chunks, tail) == Expanded(whole, marks)
  {
    var one := [Whole(chunks)];
    var scan := Frames(Whole(chunks));
    FedAgainstWhole(chunks);
    FedIsExpanded(chunks);
    FedAgainstWhole(one);
    assert one[..0] == [] && Whole(one) == "" + Whole(chunks) == Whole(chunks);
    assert CrLfCuts(one) == 0;
    ExpandedConcat(scan.records, Marks(chunks), AtEnd(scan.rest + tail));
  }

  // What an adapter loses.

  /** The last record with a text. */
  function LastShown(records: seq<Record>, clean: string -> string): (p: Option<nat>)
    ensures p.Some? ==> p.value < |records|
  {
    if records == [] then None
    else if clean(records[|records| - 1].text) != "" then Some(|records| - 1)
    else LastShown(records[..|records| - 1], clean)
  }

  /** As it is fed, the record ends in CR. */
  predicate EndsInCarriage(r: Record, cut: bool) {
    r.sep == "\r" || cut
  }

  /**
   A record repeats the one with a text before it, both end in CR as they are fed, and
   one of them does so only because its CR LF is cut.
   */
  predicate LostAt(whole: seq<Record>, marks: seq<bool>, clean: string -> string, k: nat)
    requires |marks| == |whole| && k < |whole|
  {
    var p := LastShown(whole[..k], clean);
    && clean(whole[k].text) != ""
    && p.Some? && clean(whole[p.value].text) == clean(whole[k].text)
    && EndsInCarriage(whole[p.value], marks[p.value]) && EndsInCarriage(whole[k], marks[k])
    && (marks[p.value] || marks[k])
  }

  function Losses(whole: seq<Record>, marks: seq<bool>, clean: string -> string): nat
    requires |marks| == |whole|
  {
    if whole == [] then 0
    else
      var n := |whole| - 1;
      Losses(whole[..n], marks[..n], clean) + if LostAt(whole, marks, clean, n) then 1 else 0
  }

  lemma {:induction false} LossesAre(whole: seq<Record>, marks: seq<bool>, clean: string -> string)
    requires |marks| == |whole|
    ensures Losses(whole, marks, clean) == 0 <==> forall k :: 0 <= k < |whole| ==> !LostAt(whole, marks, clean, k)
    decreases |whole|
  {
    if whole != [] {
      var n := |whole| - 1;
      LossesAre(whole[..n], marks[..n], clean);
      forall k | 0 <= k < n ensures LostAt(whole[..n], marks[..n], clean, k) <==> LostAt(whole, marks, clean, k) {
        assert whole[..n][..k] == whole[..k];
      }
    }
  }

  /** What an adapter remembers of the records so far. */
  function Carriage(records: seq<Record>, marks: seq<bool>, clean: string -> string): Option<string>
    requires |marks| == |records|
  {
    var p := LastShown(records, clean);
    if p.Some? && EndsInCarriage(records[p.value], marks[p.value]) then Some(clean(records[p.value].text)) else None
  }

  /** The intakes of the cut and the uncut output compared. */
  predicate Compared(cut: Intake, uncut: Intake, whole: seq<Record>, marks: seq<bool>, clean: string -> string)
    requires |marks| == |whole|
  {
    && cut.lastCarriage == Carriage(whole, marks, clean)
    && uncut.lastCarriage == Carriage(whole, Falses(|whole|), clean)
    && |cut.handed| + Losses(whole, marks, clean) == |uncut.handed|
    && (Losses(whole, marks, clean) == 0 ==> cut.handed == uncut.handed)
  }

  lemma {:induction false} CarriageSnoc(records: seq<Record>, marks: seq<bool>, clean: string -> string)
    requires |marks| == |records| && records != []
    ensures var n := |records| - 1;
            Carriage(records, marks, clean) ==
            if clean(records[n].text) == "" then Carriage(records[..n], marks[..n], clean)
            else if EndsInCarriage(records[n], marks[n]) then Some(clean(records[n].text)) else None
  {
  }

  lemma {:induction false} TakePieces(before: Intake, r: Record, mark: bool, clean: string -> string)
    requires clean("") == "" && (mark ==> r.sep == "\n")
    ensures (if mark then Take(Take(before, Record(r.text, "\r"), clean), Record("", "\n"), clean) else Take(before, r, clean))
            == if clean(r.text) == "" || (EndsInCarriage(r, mark) && before.lastCarriage == Some(clean(r.text))) then before
               else Intake(before.handed + [clean(r.text)], if EndsInCarriage(r, mark) then Some(clean(r.text)) else None)
  {
  }

  lemma {:induction false} TakeExpanded(whole: seq<Record>, marks: seq<bool>, clean: string -> string)
    requires |marks| == |whole| && whole != []
    ensures var n := |whole| - 1;
            var before := TakeAll(Expanded(whole[..n], marks[..n]), clean);
            TakeAll(Expanded(whole, marks), clean) ==
            if marks[n] then Take(Take(before, Record(whole[n].text, "\r"), clean), Record("", "\n"), clean)
            else Take(before, whole[n], clean)
  {
    var n := |whole| - 1;
    var init := Expanded(whole[..n], marks[..n]);
    if marks[n] {
      var cr, lf := Record(whole[n].text, "\r"), Record("", "\n");
      assert init + [cr, lf] == init + [cr] + [lf];
      TakeSnoc(init + [cr], lf, clean);
      TakeSnoc(init, cr, clean);
    } else {
      TakeSnoc(init, whole[n], clean);
    }
  }

  lemma {:induction false} IntakesCompared(whole: seq<Record>, marks: seq<bool>, clean: string -> string)
    requires |marks| == |whole| && MarksLines(whole, marks) && clean("") == ""
    ensures Compared(TakeAll(Expanded(whole, marks), clean), TakeAll(whole, clean), whole, marks, clean)
    decreases |whole|
  {
    if whole != [] {
      var n := |whole| - 1;
      IntakesCompared(whole[..n], marks[..n], clean);
      assert Falses(|whole|)[..n] == Falses(n);
      CarriageSnoc(whole, marks, clean);
      CarriageSnoc(whole, Falses(|whole|), clean);
      TakeExpanded(whole, marks, clean);
      TakePieces(TakeAll(Expanded(whole[..n], marks[..n]), clean), whole[n], marks[n], clean);
      TakePieces(TakeAll(whole[..n], clean), whole[n], false, clean);
    }
  }

  /**
   From a cut output exactly as many records fewer are handed on as repeat the record with
   a text before them, where both end in CR as they are fed and one of them does so only
   because its CR LF is cut.  So the same records are handed on if and only if there is
   no such repetition.
   */
  lemma {:induction false} CutLosesExactly(chunks: seq<string>, tail: string, clean: string -> string)
    requires clean("") == ""
    ensures var whole, marks := Session([Whole(chunks)], tail), SessionMarks(chunks, tail);
            var cut, uncut := TakeAll(Session(chunks, tail), clean).handed, TakeAll(whole, clean).handed;
            && |marks| == |whole|
            && |cut| + Losses(whole, marks, clean) == |uncut|
            && (cut == uncut <==> forall k :: 0 <= k < |whole| ==> !LostAt(whole, marks, clean, k))
  {
    var whole, marks := Session([Whole(chunks)], tail), SessionMarks(chunks, tail);
    SessionIsExpanded(chunks, tail);
    IntakesCompared(whole, marks, clean);
    LossesAre(whole, marks, clean);
  }
}
