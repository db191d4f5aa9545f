/**
 The text form of a history cursor (server/app/sync.py: encode_history_cursor,
 decode_history_cursor): JSON in base64url without padding (sections 3.2 and 5 of
 RFC 4648).  JSON and ISO timestamps are given functions.
 */
module HistoryCursor {
  import opened Arithmetic
  import opened Sequences
  import opened Wrappers

  type Byte = b: nat | b < 256

  type Sextet = s: nat | s < 64

  // Base64.

  /** The letter for a value, with `-` and `_` for the last two. */
  function Letter(s: Sextet): char {
    if s < 26 then 'A' + (s as char)
    else if s < 52 then 'a' + ((s - 26) as char)
    else if s < 62 then '0' + ((s - 52) as char)
    else if s == 62 then '-' else '_'
  }

  /** The value of a letter; the decoder also takes the letters that `-` and `_` stand for. */
  function Value(c: char): Option<Sextet> {
    if 'A' <= c <= 'Z' then Some((c - 'A') as nat)
    else if 'a' <= c <= 'z' then Some((c - 'a') as nat + 26)
    else if '0' <= c <= '9' then Some((c - '0') as nat + 52)
    else if c == '-' || c == '+' then Some(62)
    else if c == '_' || c == '/' then Some(63)
    else None
  }

  lemma LetterHasValue(s: Sextet)
    ensures Value(Letter(s)) == Some(s) && Letter(s) != '='
  {
  }

  /** Three bytes as four letters; one or two bytes as two or three letters and padding. */
  function EncodeThree(a: Byte, b: Byte, c: Byte): string {
    [Letter(a / 4), Letter(a % 4 * 16 + b / 16), Letter(b % 16 * 4 + c / 64), Letter(c % 64)]
  }

  function EncodeTwo(a: Byte, b: Byte): string {
    [Letter(a / 4), Letter(a % 4 * 16 + b / 16), Letter(b % 16 * 4)]
  }

  function EncodeOne(a: Byte): string {
    [Letter(a / 4), Letter(a % 4 * 16)]
  }

  /** `base64.urlsafe_b64encode(raw).rstrip("=")` */
  function Encode64(raw: seq<Byte>): string {
    if |raw| == 0 then ""
    else if |raw| == 1 then EncodeOne(raw[0])
    else if |raw| == 2 then EncodeTwo(raw[0], raw[1])
    else EncodeThree(raw[0], raw[1], raw[2]) + Encode64(raw[3..])
  }

  function Padding(n: nat): string {
    if n % 4 == 0 then "" else if n % 4 == 1 then "===" else if n % 4 == 2 then "==" else "="
  }

  /** The bytes of a group of four letters, of which the last ones may be padding. */
  function DecodeFour(s: string): Option<seq<Byte>>
    requires |s| == 4
  {
    match (Value(s[0]), Value(s[1]))
    case (Some(p), Some(q)) =>
      var first: Byte := p * 4 + q / 16;
      if s[2] == '=' then
        if s[3] == '=' then Some([first]) else None
      else
        (match Value(s[2])
         case None => None
         case Some(r) =>
           var second: Byte := q % 16 * 16 + r / 4;
           if s[3] == '=' then Some([first, second])
           else match Value(s[3])
             case None => None
             case Some(t) => Some([first, second, r % 4 * 64 + t]))
    case _ => None
  }

  predicate Padded(s: string)
    requires |s| == 4
  {
    s[3] == '='
  }

  /** `base64.b64decode(text, altchars=b"-_", validate=True)` */
  function Decode64(s: string): Option<seq<Byte>>
    decreases |s|
  {
    if s == "" then Some([])
    else if |s| < 4 then None
    else
      match DecodeFour(s[..4])
      case None => None
      case Some(head) =>
        if Padded(s[..4]) then (if |s| == 4 then Some(head) else None)
        else match Decode64(s[4..])
          case None => None
          case Some(tail) => Some(head + tail)
  }

  /** A sextet made of a part of one byte and a part of the next gives both parts back. */
  lemma PartsComeBack(high: nat, low: nat, d: nat)
    requires d > 0 && low < d
    ensures (high * d + low) / d == high && (high * d + low) % d == low
  {
    QuotientAndRest(high, low, d);
  }

  lemma ThreeRoundTrip(a: Byte, b: Byte, c: Byte)
    ensures DecodeFour(EncodeThree(a, b, c)) == Some([a, b, c]) && !Padded(EncodeThree(a, b, c))
  {
    var p: Sextet, q: Sextet, r: Sextet, t: Sextet := a / 4, a % 4 * 16 + b / 16, b % 16 * 4 + c / 64, c % 64;
    LetterHasValue(p);
    LetterHasValue(q);
    LetterHasValue(r);
    LetterHasValue(t);
    PartsComeBack(a % 4, b / 16, 16);
    PartsComeBack(b % 16, c / 64, 4);
    assert p * 4 + q / 16 == a && q % 16 * 16 + r / 4 == b && r % 4 * 64 + t == c;
  }

  lemma TwoRoundTrip(a: Byte, b: Byte)
    ensures DecodeFour(EncodeTwo(a, b) + "=") == Some([a, b])
  {
    LetterHasValue(a / 4);
    LetterHasValue(a % 4 * 16 + b / 16);
    LetterHasValue(b % 16 * 4);
    PartsComeBack(a % 4, b / 16, 16);
    PartsComeBack(b % 16, 0, 4);
  }

  lemma OneRoundTrip(a: Byte)
    ensures DecodeFour(EncodeOne(a) + "==") == Some([a])
  {
    LetterHasValue(a / 4);
    LetterHasValue(a % 4 * 16);
  }

  lemma NoPadding(a: Byte, b: Byte, c: Byte)
    ensures '=' !in EncodeThree(a, b, c) && '=' !in EncodeTwo(a, b) && '=' !in EncodeOne(a)
  {
    LetterHasValue(a / 4);
    LetterHasValue(a % 4 * 16 + b / 16);
    LetterHasValue(b % 16 * 4 + c / 64);
    LetterHasValue(c % 64);
    LetterHasValue(b % 16 * 4);
    LetterHasValue(a % 4 * 16);
  }

  /** The text has no padding in it, and its length tells how much was left out. */
  lemma {:induction false} EncodedIsUnpadded(raw: seq<Byte>)
    ensures '=' !in Encode64(raw)
    ensures |Encode64(raw)| % 4 == if |raw| % 3 == 0 then 0 else |raw| % 3 + 1
    decreases |raw|
  {
    if |raw| >= 3 {
      var rest := raw[3..];
      EncodedIsUnpadded(rest);
      NoPadding(raw[0], raw[1], raw[2]);
      assert Encode64(raw) == EncodeThree(raw[0], raw[1], raw[2]) + Encode64(rest);
      assert |raw| % 3 == |rest| % 3;
    } else if |raw| > 0 {
      NoPadding(raw[0], if |raw| == 2 then raw[1] else 0, 0);
    }
  }

  lemma LastGroupDecodes(text: string, bytes: seq<Byte>)
    requires |text| == 4 && DecodeFour(text) == Some(bytes)
    ensures Padded(text) ==> Decode64(text) == Some(bytes)
  {
    assert text[..4] == text;
  }

  lemma {:induction false} MoreGroupsDecode(head: string, rest: string, bytes: seq<Byte>, more: seq<Byte>)
    requires |head| == 4 && DecodeFour(head) == Some(bytes) && !Padded(head) && Decode64(rest) == Some(more)
    ensures Decode64(head + rest) == Some(bytes + more)
  {
    assert (head + rest)[..4] == head && (head + rest)[4..] == rest;
  }

  lemma {:induction false} GroupBefore(head: string, bytes: seq<Byte>, tail: string, rest: seq<Byte>)
    requires |head| == 4 && DecodeFour(head) == Some(bytes) && !Padded(head)
    requires Decode64(tail + Padding(|tail|)) == Some(rest)
    ensures Decode64(head + tail + Padding(|head + tail|)) == Some(bytes + rest)
  {
    MoreGroupsDecode(head, tail + Padding(|tail|), bytes, rest);
    ConcatAssociates(head, tail, Padding(|tail|));
    PaddingRepeats(|tail|);
  }

  lemma PaddingRepeats(n: nat)
    ensures Padding(4 + n) == Padding(n)
  {
  }

  /** Padding restored by the length of the text gives back the bytes. */
  lemma {:induction false} Base64RoundTrip(raw: seq<Byte>)
    ensures Decode64(Encode64(raw) + Padding(|Encode64(raw)|)) == Some(raw)
    decreases |raw|
  {
    if |raw| == 1 {
      OneRoundTrip(raw[0]);
      LastGroupDecodes(EncodeOne(raw[0]) + "==", [raw[0]]);
      assert raw == [raw[0]];
    } else if |raw| == 2 {
      TwoRoundTrip(raw[0], raw[1]);
      LastGroupDecodes(EncodeTwo(raw[0], raw[1]) + "=", [raw[0], raw[1]]);
      assert raw == [raw[0], raw[1]];
    } else if |raw| > 2 {
      assert raw == [raw[0], raw[1], raw[2]] + raw[3..];
      Base64RoundTrip(raw[3..]);
      ThreeRoundTrip(raw[0], raw[1], raw[2]);
      GroupBefore(EncodeThree(raw[0], raw[1], raw[2]), [raw[0], raw[1], raw[2]], Encode64(raw[3..]), raw[3..]);
    }
  }

  // Cursors.

  datatype CursorKind = RunsCursor | NotificationsCursor

  /** The five fields of a cursor's JSON object. */
  datatype Fields = Fields(version: int, kind: CursorKind, time: int, id: string, machineId: Option<string>)

  datatype CursorError = InvalidCursor

  /** `dumps` writes the fields as JSON, `loads` reads JSON that has exactly these fields. */
  function EncodeCursor(dumps: Fields -> seq<Byte>, kind: CursorKind, time: int, id: string, machineId: Option<string>): string {
    Encode64(dumps(Fields(1, kind, time, id, machineId)))
  }

  function DecodeCursor(loads: seq<Byte> -> Option<Fields>, cursor: string, kind: CursorKind, machineId: Option<string>)
    : Result<(int, string), CursorError>
  {
    match Decode64(cursor + Padding(|cursor|))
    case None => Err(InvalidCursor)
    case Some(raw) =>
      match loads(raw)
      case None => Err(InvalidCursor)
      case Some(fields) =>
        if fields.version != 1 || fields.kind != kind then Err(InvalidCursor)
        else if fields.machineId != machineId then Err(InvalidCursor)
        else if fields.id == "" then Err(InvalidCursor)
        else Ok((fields.time, fields.id))
  }

  /** A cursor decodes to what was encoded, under the same kind and machine filter and no other. */
  lemma {:induction false} CursorRoundTrip(dumps: Fields -> seq<Byte>, loads: seq<Byte> -> Option<Fields>,
                                           kind: CursorKind, time: int, id: string, machineId: Option<string>,
                                           expected: CursorKind, filter: Option<string>)
    requires forall f: Fields :: loads(dumps(f)) == Some(f)
    requires id != ""
    ensures DecodeCursor(loads, EncodeCursor(dumps, kind, time, id, machineId), expected, filter)
            == if expected == kind && filter == machineId then Ok((time, id)) else Err(InvalidCursor)
  {
    Base64RoundTrip(dumps(Fields(1, kind, time, id, machineId)));
  }

  /** The bits of the last letter that stand for nothing are zero (section 3.5 of RFC 4648). */
  lemma {:induction false} EncodedIsCanonical(raw: seq<Byte>)
    requires |raw| % 3 != 0
    ensures EndsClear(Encode64(raw), |raw| % 3 == 1)
    decreases |raw|
  {
    if |raw| == 1 {
      OneEndsClear(raw[0]);
    } else if |raw| == 2 {
      TwoEndClear(raw[0], raw[1]);
    } else {
      EncodedIsCanonical(raw[3..]);
      StillEndsClear(raw, |raw| % 3 == 1);
    }
  }

  lemma OneEndsClear(a: Byte)
    ensures EndsClear(EncodeOne(a), true)
  {
    LetterHasValue(a % 4 * 16);
  }

  lemma TwoEndClear(a: Byte, b: Byte)
    ensures EndsClear(EncodeTwo(a, b), false)
  {
    LetterHasValue(b % 16 * 4);
  }

  lemma {:induction false} StillEndsClear(raw: seq<Byte>, oneByte: bool)
    requires |raw| > 2 && EndsClear(Encode64(raw[3..]), oneByte)
    ensures EndsClear(Encode64(raw), oneByte)
  {
    EndsClearBehind(EncodeThree(raw[0], raw[1], raw[2]), Encode64(raw[3..]), oneByte);
  }

  /** Of the last letter for one byte, four of its six bits stand for nothing, and of that for two bytes, two do. */
  predicate EndsClear(s: string, oneByte: bool) {
    s != "" && Value(s[|s| - 1]).Some? && if oneByte then Value(s[|s| - 1]).value % 16 == 0 else Value(s[|s| - 1]).value % 4 == 0
  }

  lemma EndsClearBehind(head: string, s: string, oneByte: bool)
    ensures EndsClear(s, oneByte) ==> EndsClear(head + s, oneByte)
  {
    assert s != "" ==> (head + s)[|head + s| - 1] == s[|s| - 1];
  }

  // What is refused.

  predicate IsLetter(c: char) {
    'A' <= c <= 'Z' || 'a' <= c <= 'z' || '0' <= c <= '9' || c in {'-', '_', '+', '/'}
  }

  /** Letters in groups of four, of which the last may end in one or two signs of padding. */
  predicate IsPaddedText(s: string) {
    && |s| % 4 == 0
    && (forall i :: 0 <= i < |s| - 2 ==> IsLetter(s[i]))
    && (s != "" ==> (IsLetter(s[|s| - 2]) && IsLetter(s[|s| - 1])) || (IsLetter(s[|s| - 2]) && s[|s| - 1] == '=') || s[|s| - 2..] == "==")
  }

  lemma GroupDecodes(s: string)
    requires |s| == 4
    ensures DecodeFour(s).Some? <==> IsPaddedText(s)
    ensures DecodeFour(s).Some? ==> (Padded(s) <==> !IsLetter(s[3]))
  {
    assert forall c :: Value(c).Some? <==> IsLetter(c);
    assert s[2..] == [s[2], s[3]];
  }

  predicate AllLetters(s: string) {
    forall i :: 0 <= i < |s| ==> IsLetter(s[i])
  }

  lemma {:induction false} PaddedTextSplits(s: string)
    requires |s| >= 8
    ensures IsPaddedText(s) <==> AllLetters(s[..4]) && IsPaddedText(s[4..])
  {
    var head, tail := s[..4], s[4..];
    assert tail[|tail| - 2] == s[|s| - 2] && tail[|tail| - 1] == s[|s| - 1];
    assert tail[|tail| - 2..] == s[|s| - 2..];
    if IsPaddedText(s) {
      assert forall i :: 0 <= i < |tail| - 2 ==> tail[i] == s[i + 4];
    }
    if AllLetters(head) && IsPaddedText(tail) {
      assert forall i :: 0 <= i < |s| - 2 ==> s[i] == if i < 4 then head[i] else tail[i - 4];
    }
  }

  lemma FullGroup(s: string)
    requires |s| == 4
    ensures AllLetters(s) <==> IsPaddedText(s) && IsLetter(s[3])
  {
    assert s[2..] == [s[2], s[3]];
  }

  /** The decoder takes exactly such texts; whatever else a client sends as a cursor is refused. */
  lemma {:induction false} DecodesExactly(s: string)
    ensures Decode64(s).Some? <==> IsPaddedText(s)
    decreases |s|
  {
    if |s| >= 8 {
      GroupDecodes(s[..4]);
      FullGroup(s[..4]);
      PaddedTextSplits(s);
      DecodesExactly(s[4..]);
    } else if |s| == 4 {
      assert s[..4] == s && s[4..] == "";
      GroupDecodes(s);
    } else if |s| > 4 {
      assert Decode64(s[4..]).None?;
    }
  }

  /** A cursor is taken exactly if it is such a text, of an object of version 1, for the same kind and machine filter, with an id. */
  lemma {:induction false} CursorIsTaken(loads: seq<Byte> -> Option<Fields>, cursor: string, kind: CursorKind, machineId: Option<string>)
    ensures match DecodeCursor(loads, cursor, kind, machineId)
            case Ok((time, id)) =>
              && IsPaddedText(cursor + Padding(|cursor|)) && id != ""
              && exists raw :: Decode64(cursor + Padding(|cursor|)) == Some(raw) && loads(raw) == Some(Fields(1, kind, time, id, machineId))
            case Err(_) =>
              forall raw, time, id :: Decode64(cursor + Padding(|cursor|)) == Some(raw) && id != ""
                ==> loads(raw) != Some(Fields(1, kind, time, id, machineId))
  {
    DecodesExactly(cursor + Padding(|cursor|));
  }
}
