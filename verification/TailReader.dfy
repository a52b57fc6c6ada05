/** lib/ctxmeter.py: finding the newest assistant turn at the end of a transcript, reading as little of it as possible. */
module TailReader {
  import opened Schema

  newtype byte = x: int | 0 <= x < 256

  const NEWLINE: byte := 10
  const QUOTE: byte := 34
  const BACKSLASH: byte := 92
  const OPEN: byte := 123
  const CLOSE: byte := 125
  const TAIL: nat := 262144
  const TAIL_MAX: nat := 16 * 1024 * 1024

  // ---- What a line says ----

  /** A usage field: a finite number, or anything else (missing, a boolean, text, not finite). */
  datatype Amount = Number(value: real) | NotANumber

  datatype Message = Message(model: Option<nat>, synthetic: bool, roleOk: bool, usage: Option<seq<Amount>>)

  /** A line after strict decoding and JSON parsing; `message` is None when it is not an object. */
  datatype Parsed = Unreadable | Object(assistant: bool, message: Option<Message>)

  datatype Meter = Meter(tokens: nat, model: Option<nat>)

  datatype Scan = Found(meter: Option<Meter>) | NotFound

  /** An assistant turn that is not a synthetic marker: the record that settles the matter. */
  predicate Settles(p: Parsed) {
    p.Object? && p.assistant && !(p.message.Some? && p.message.value.synthetic)
  }

  function Sum(amounts: seq<Amount>): (r: real)
    ensures r >= 0.0
  {
    if amounts == [] then 0.0
    else
      (if amounts[0].Number? && amounts[0].value >= 0.0 then amounts[0].value else 0.0) + Sum(amounts[1..])
  }

  /** What the settling record is worth: nothing unless it is intact and counts at least one token. */
  function MeterOf(p: Parsed): Option<Meter>
    requires Settles(p)
  {
    match p.message
    case None => None
    case Some(m) =>
      if !m.roleOk || m.usage.None? then None
      else
        var tokens := Sum(m.usage.value).Floor;
        if tokens <= 0 then None else Some(Meter(tokens, m.model))
  }

  /** What the sum of a usage is: every positive number once, in any order, and nothing else. */
  lemma {:induction false} SumIs(a: seq<Amount>, b: seq<Amount>, x: Amount)
    ensures Sum(a + b) == Sum(a) + Sum(b)
    ensures Sum([x]) == if x.Number? && x.value > 0.0 then x.value else 0.0
    decreases |a|
  {
    assert [x][1..] == [];
    if a == [] {
      assert a + b == b;
    } else {
      assert (a + b)[1..] == a[1..] + b;
      SumIs(a[1..], b, x);
    }
  }

  /** A record is worth its model and its whole tokens exactly if it is intact and counts at least one. */
  lemma MeterIs(p: Parsed, tokens: nat, model: Option<nat>)
    requires Settles(p)
    ensures MeterOf(p) == Some(Meter(tokens, model))
            <==> p.message.Some? && p.message.value.roleOk && p.message.value.usage.Some?
                 && model == p.message.value.model && tokens >= 1
                 && tokens as real <= Sum(p.message.value.usage.value) < (tokens + 1) as real
  {}

  /** Backwards over the lines to the first that settles. */
  function ScanLines(lines: seq<seq<byte>>, parse: seq<byte> -> Parsed): Scan {
    if lines == [] then NotFound
    else
      var last := parse(lines[|lines| - 1]);
      if Settles(last) then Found(MeterOf(last)) else ScanLines(lines[..|lines| - 1], parse)
  }

  /** The scan answers with the newest settling record, intact or not: a damaged one is never passed over for an older
      one. */
  lemma {:induction false} NewestSettles(lines: seq<seq<byte>>, parse: seq<byte> -> Parsed, i: nat)
    requires i < |lines| && Settles(parse(lines[i]))
    requires forall k :: i < k < |lines| ==> !Settles(parse(lines[k]))
    ensures ScanLines(lines, parse) == Found(MeterOf(parse(lines[i])))
    decreases |lines|
  {
    if i < |lines| - 1 {
      NewestSettles(lines[..|lines| - 1], parse, i);
    }
  }

  lemma {:induction false} NothingSettles(lines: seq<seq<byte>>, parse: seq<byte> -> Parsed)
    ensures ScanLines(lines, parse).NotFound? <==> forall k :: 0 <= k < |lines| ==> !Settles(parse(lines[k]))
    decreases |lines|
  {
    if lines != [] {
      NothingSettles(lines[..|lines| - 1], parse);
      assert forall k :: 0 <= k < |lines| - 1 ==> lines[..|lines| - 1][k] == lines[k];
    }
  }

  /** The part read first decides if it can. */
  lemma {:induction false} ScanLaterFirst(older: seq<seq<byte>>, newer: seq<seq<byte>>, parse: seq<byte> -> Parsed)
    ensures ScanLines(older + newer, parse)
            == if ScanLines(newer, parse).Found? then ScanLines(newer, parse) else ScanLines(older, parse)
    decreases |newer|
  {
    if newer == [] {
      assert older + newer == older;
    } else {
      assert (older + newer)[..|older + newer| - 1] == older + newer[..|newer| - 1];
      ScanLaterFirst(older, newer[..|newer| - 1], parse);
    }
  }

  // ---- Lines ----

  /** One more byte at the end of the last line. */
  function AddByte(lines: seq<seq<byte>>, b: byte): (r: seq<seq<byte>>)
    requires lines != []
    ensures r != []
  {
    if b == NEWLINE then lines + [[]] else lines[..|lines| - 1] + [lines[|lines| - 1] + [b]]
  }

  function Split(s: seq<byte>): (r: seq<seq<byte>>)
    ensures r != []
  {
    if s == [] then [[]] else AddByte(Split(s[..|s| - 1]), s[|s| - 1])
  }

  /** Lines cut in two inside a line, put together again. */
  function Join(l: seq<seq<byte>>, r: seq<seq<byte>>): (w: seq<seq<byte>>)
    requires l != [] && r != []
    ensures |w| == |l| + |r| - 1
    ensures forall i :: 0 <= i < |l| - 1 ==> w[i] == l[i]
    ensures w[|l| - 1] == l[|l| - 1] + r[0]
    ensures forall i :: 1 <= i < |r| ==> w[|l| - 1 + i] == r[i]
  {
    l[..|l| - 1] + [l[|l| - 1] + r[0]] + r[1..]
  }

  lemma JoinAddByte(l: seq<seq<byte>>, r: seq<seq<byte>>, b: byte)
    requires l != [] && r != []
    ensures Join(l, AddByte(r, b)) == AddByte(Join(l, r), b)
  {
    var w, w' := AddByte(Join(l, r), b), Join(l, AddByte(r, b));
    assert |w| == |w'|;
    forall i | 0 <= i < |w| ensures w[i] == w'[i] {
      if i == |l| - 1 && b != NEWLINE && |r| == 1 { assert l[i] + r[0] + [b] == l[i] + (r[0] + [b]); }
    }
  }

  /** Cutting a file in two cuts at most one line in two. */
  lemma {:induction false} SplitAppend(a: seq<byte>, b: seq<byte>)
    ensures Split(a + b) == Join(Split(a), Split(b))
    decreases |b|
  {
    if b == [] {
      assert a + b == a;
      var l := Split(a);
      assert l[|l| - 1] + [] == l[|l| - 1];
      assert Join(l, [[]]) == l;
    } else {
      assert (a + b)[..|a + b| - 1] == a + b[..|b| - 1];
      SplitAppend(a, b[..|b| - 1]);
      JoinAddByte(Split(a), Split(b[..|b| - 1]), b[|b| - 1]);
    }
  }

  function Tail(file: seq<byte>, size: nat): seq<byte> {
    if |file| <= size then file else file[|file| - size..]
  }

  /** The window of that size begins inside a line, that line's rest reads as an assistant turn, and no later line of the
      window settles the matter. */
  ghost predicate CutMisleads(file: seq<byte>, size: nat, parse: seq<byte> -> Parsed) {
    && size < |file| && file[|file| - size - 1] != NEWLINE
    && Settles(parse(Split(Tail(file, size))[0])) && ScanLines(Split(Tail(file, size))[1..], parse).NotFound?
  }

  /** What the reader relies on: none of the three smaller windows is cut so. */
  ghost predicate NoCutMisleads(file: seq<byte>, parse: seq<byte> -> Parsed) {
    !CutMisleads(file, TAIL, parse) && !CutMisleads(file, 4 * TAIL, parse) && !CutMisleads(file, 16 * TAIL, parse)
  }

  lemma CutInTail(file: seq<byte>, size: nat, larger: nat, parse: seq<byte> -> Parsed)
    requires size <= larger && CutMisleads(Tail(file, larger), size, parse)
    ensures CutMisleads(file, size, parse)
  {
    TailOfTail(file, size, larger);
  }

  /** The last line of what is in front of a window is empty exactly if the window begins at a line. */
  lemma LastLine(a: seq<byte>)
    requires a != []
    ensures Split(a)[|Split(a)| - 1] == [] <==> a[|a| - 1] == NEWLINE
  {}

  /** A window that settles the matter settles it as any larger window does, unless its cut misleads. */
  lemma WindowAgrees(file: seq<byte>, size: nat, parse: seq<byte> -> Parsed)
    requires !CutMisleads(file, size, parse) && ScanLines(Split(Tail(file, size)), parse).Found?
    ensures ScanLines(Split(file), parse) == ScanLines(Split(Tail(file, size)), parse)
  {
    if |file| > size {
      var a, b := file[..|file| - size], Tail(file, size);
      assert file == a + b;
      SplitAppend(a, b);
      LastLine(a);
      JoinedScan(Split(a), Split(b), parse);
    }
  }

  lemma JoinedScan(l: seq<seq<byte>>, r: seq<seq<byte>>, parse: seq<byte> -> Parsed)
    requires l != [] && r != [] && ScanLines(r, parse).Found?
    requires l[|l| - 1] == [] || !Settles(parse(r[0])) || ScanLines(r[1..], parse).Found?
    ensures ScanLines(Join(l, r), parse) == ScanLines(r, parse)
  {
    var cut := l[|l| - 1];
    assert Join(l, r)[|l| - 1] == cut + r[0];
    assert r == [r[0]] + r[1..];
    ScanLaterFirst(l[..|l| - 1] + [cut + r[0]], r[1..], parse);
    ScanLaterFirst([r[0]], r[1..], parse);
    if ScanLines(r[1..], parse).NotFound? {
      FirstLineSettles(r[0], parse);
      assert cut + r[0] == r[0];
      ScanLaterFirst(l[..|l| - 1], [r[0]], parse);
    }
  }

  lemma FirstLineSettles(line: seq<byte>, parse: seq<byte> -> Parsed)
    requires ScanLines([line], parse).Found?
    ensures Settles(parse(line))
  {}

  lemma TailOfTail(file: seq<byte>, size: nat, larger: nat)
    requires size <= larger
    ensures Tail(Tail(file, larger), size) == Tail(file, size)
  {}

  // ---- The code ----

  method SplitLines(raw: seq<byte>) returns (lines: seq<seq<byte>>)
    ensures lines == Split(raw)
  {
    lines := [[]];
    var i := 0;
    while i < |raw|
      invariant i <= |raw| && lines == Split(raw[..i])
    {
      assert raw[..i + 1][..i] == raw[..i];
      if raw[i] == NEWLINE {
        lines := lines + [[]];
      } else {
        lines := lines[|lines| - 1 := lines[|lines| - 1] + [raw[i]]];
      }
      i := i + 1;
    }
    assert raw[..|raw|] == raw;
  }

  method AddUp(amounts: seq<Amount>) returns (total: real)
    ensures total == Sum(amounts)
  {
    total := 0.0;
    var i := |amounts|;
    while i > 0
      invariant 0 <= i <= |amounts| && total == Sum(amounts[i..])
    {
      i := i - 1;
      assert amounts[i..][1..] == amounts[i + 1..];
      if amounts[i].Number? && amounts[i].value >= 0.0 { total := amounts[i].value + total; }
    }
  }

  /** _scan_lines */
  method ScanWindow(lines: seq<seq<byte>>, parse: seq<byte> -> Parsed) returns (scan: Scan)
    ensures scan == ScanLines(lines, parse)
  {
    var i := |lines|;
    assert lines[..i] == lines;
    while i > 0
      invariant 0 <= i <= |lines| && ScanLines(lines[..i], parse) == ScanLines(lines, parse)
    {
      i := i - 1;
      assert lines[..i + 1][..i] == lines[..i];
      var p := parse(lines[i]);
      if p.Object? && p.assistant && !(p.message.Some? && p.message.value.synthetic) {
        if p.message.None? { return Found(None); }
        var m := p.message.value;
        if !m.roleOk || m.usage.None? { return Found(None); }
        var total := AddUp(m.usage.value);
        if total.Floor <= 0 { return Found(None); }
        return Found(Some(Meter(total.Floor, m.model)));
      }
    }
    return NotFound;
  }

  function Answer(scan: Scan): Option<Meter> {
    if scan.Found? then scan.meter else None
  }

  /** The windows the reader tries, smallest first. */
  function GrowingScan(file: seq<byte>, size: nat, parse: seq<byte> -> Parsed): Scan
    requires TAIL <= size <= TAIL_MAX
    decreases TAIL_MAX - size
  {
    var scan := ScanLines(Split(Tail(file, size)), parse);
    if scan.Found? || size >= |file| || size >= TAIL_MAX then scan
    else GrowingScan(file, if size * 4 <= TAIL_MAX then size * 4 else TAIL_MAX, parse)
  }

  /** Growing the window finds what the largest window holds. */
  lemma {:induction false} GrowingAgrees(file: seq<byte>, size: nat, parse: seq<byte> -> Parsed)
    requires NoCutMisleads(file, parse)
    requires size == TAIL || size == 4 * TAIL || size == 16 * TAIL || size == TAIL_MAX
    ensures Answer(GrowingScan(file, size, parse)) == Answer(ScanLines(Split(Tail(file, TAIL_MAX)), parse))
    decreases TAIL_MAX - size
  {
    TailOfTail(file, size, TAIL_MAX);
    if ScanLines(Split(Tail(file, size)), parse).Found? {
      if CutMisleads(Tail(file, TAIL_MAX), size, parse) { CutInTail(file, size, TAIL_MAX, parse); }
      WindowAgrees(Tail(file, TAIL_MAX), size, parse);
    } else if size < |file| && size < TAIL_MAX {
      GrowingAgrees(file, if size * 4 <= TAIL_MAX then size * 4 else TAIL_MAX, parse);
    }
  }

  /** read_turn_meter: the window grows fourfold until it holds an assistant turn, the whole file or 16 MiB. Unless the cut
      of a window misleads, which in an intact transcript none does, the answer is that of one backward scan of all the
      lines, or of the last 16 MiB of a longer file; and it takes at most four windows. */
  method ReadTurnMeter(file: seq<byte>, parse: seq<byte> -> Parsed) returns (meter: Option<Meter>, windows: nat)
    ensures meter == Answer(GrowingScan(file, TAIL, parse))
    ensures NoCutMisleads(file, parse) || (JsonLike(parse) && Intact(file)) ==>
              && meter == Answer(ScanLines(Split(Tail(file, TAIL_MAX)), parse))
              && (|file| <= TAIL_MAX ==> meter == Answer(ScanLines(Split(file), parse)))
    ensures 1 <= windows <= 4
  {
    if JsonLike(parse) && Intact(file) {
      RecordsNeverMislead(file, TAIL, parse);
      RecordsNeverMislead(file, 4 * TAIL, parse);
      RecordsNeverMislead(file, 16 * TAIL, parse);
    }
    if NoCutMisleads(file, parse) { GrowingAgrees(file, TAIL, parse); }
    var size := TAIL;
    windows := 0;
    while true
      invariant TAIL <= size <= TAIL_MAX && GrowingScan(file, size, parse) == GrowingScan(file, TAIL, parse)
      invariant (windows == 0 && size == TAIL) || (windows == 1 && size == 4 * TAIL)
                || (windows == 2 && size == 16 * TAIL) || (windows == 3 && size == TAIL_MAX)
      decreases 4 - windows
    {
      var lines := SplitLines(Tail(file, size));
      var scan := ScanWindow(lines, parse);
      windows := windows + 1;
      if scan.Found? { return scan.meter, windows; }
      if size >= |file| || size >= TAIL_MAX { return None, windows; }
      size := if size * 4 <= TAIL_MAX then size * 4 else TAIL_MAX;
    }
  }

  // ---- When no cut misleads ----

  /** A scanner's view of JSON text: how many objects are open, and whether it is inside a string or behind a backslash
      there. A backslash outside a string is no JSON. */
  datatype Lex = Lex(depth: int, inString: bool, escaped: bool, ok: bool)

  const Start: Lex := Lex(0, false, false, true)

  function LexByte(q: Lex, b: byte): Lex {
    if q.inString then
      if q.escaped then q.(escaped := false)
      else if b == BACKSLASH then q.(escaped := true)
      else if b == QUOTE then q.(inString := false)
      else q
    else if b == QUOTE then q.(inString := true)
    else if b == OPEN then q.(depth := q.depth + 1)
    else if b == CLOSE then q.(depth := q.depth - 1)
    else if b == BACKSLASH then q.(ok := false)
    else q
  }

  function LexAll(q: Lex, s: seq<byte>): Lex
    decreases |s|
  {
    if s == [] then q else LexAll(LexByte(q, s[0]), s[1..])
  }

  /** As any JSON text does, it closes every string and object it opens. */
  predicate Closes(s: seq<byte>) {
    var q := LexAll(Start, s);
    q.ok && !q.inString && q.depth == 0
  }

  /** The text of one object: open from its first byte to its last. */
  predicate Record(line: seq<byte>) {
    line != [] && Closes(line) && forall k :: 0 < k < |line| ==> LexAll(Start, line[..k]).depth > 0
  }

  lemma {:induction false} LexAppend(q: Lex, a: seq<byte>, b: seq<byte>)
    ensures LexAll(q, a + b) == LexAll(LexAll(q, a), b)
    decreases |a|
  {
    if a == [] {
      assert a + b == b;
    } else {
      assert (a + b)[1..] == a[1..] + b;
      LexAppend(LexByte(q, a[0]), a[1..], b);
    }
  }

  lemma {:induction false} Spoilt(q: Lex, s: seq<byte>)
    requires LexAll(q, s).ok
    ensures q.ok
    decreases |s|
  {
    if s != [] { Spoilt(LexByte(q, s[0]), s[1..]); }
  }

  /** Two scanners at the same place of a string, or both outside, stay together. */
  lemma {:induction false} InStep(q: Lex, r: Lex, s: seq<byte>)
    requires q.inString == r.inString && q.escaped == r.escaped
    ensures LexAll(r, s).depth - LexAll(q, s).depth == r.depth - q.depth
    decreases |s|
  {
    if s != [] { InStep(LexByte(q, s[0]), LexByte(r, s[0]), s[1..]); }
  }

  /** If one is inside a string where the other is outside, then so at the end, or one of them finds no JSON. */
  lemma {:induction false} OutOfStep(q: Lex, r: Lex, s: seq<byte>)
    requires q.inString != r.inString && !q.escaped && !r.escaped
    requires LexAll(q, s).ok && LexAll(r, s).ok
    ensures LexAll(q, s).inString != LexAll(r, s).inString
    decreases |s|
  {
    if s != [] {
      Spoilt(LexByte(q, s[0]), s[1..]);
      Spoilt(LexByte(r, s[0]), s[1..]);
      OutOfStep(LexByte(q, s[0]), LexByte(r, s[0]), s[1..]);
    }
  }

  /** No proper end of an object's text is JSON text: begun outside a string it closes too much, begun inside one it takes
      text for strings and strings for text. */
  lemma NoRecordInside(line: seq<byte>, k: nat)
    requires Record(line) && 0 < k < |line|
    ensures !Closes(line[k..])
  {
    var s, q := line[k..], LexAll(Start, line[..k]);
    assert line == line[..k] + s;
    LexAppend(Start, line[..k], s);
    if Closes(s) {
      if !q.inString {
        NotEscaped(Start, line[..k]);
        InStep(q, Start, s);
      } else if q.escaped {
        var q1, r1 := LexByte(q, s[0]), LexByte(Start, s[0]);
        Spoilt(r1, s[1..]);
        if r1.inString { InStep(q1, r1, s[1..]); } else { OutOfStep(q1, r1, s[1..]); }
      } else {
        OutOfStep(q, Start, s);
      }
    }
  }

  lemma {:induction false} NotEscaped(q: Lex, s: seq<byte>)
    requires q.escaped ==> q.inString
    ensures LexAll(q, s).escaped ==> LexAll(q, s).inString
    decreases |s|
  {
    if s != [] { NotEscaped(LexByte(q, s[0]), s[1..]); }
  }

  /** A parser that, like JSON's, finds an object only in text that closes what it opens. */
  ghost predicate JsonLike(parse: seq<byte> -> Parsed) {
    forall s :: parse(s).Object? ==> s != [] && Closes(s)
  }

  /** One record a line, none of them torn. */
  ghost predicate Intact(file: seq<byte>) {
    forall i :: 0 <= i < |Split(file)| ==> Split(file)[i] == [] || Record(Split(file)[i])
  }

  /** In an intact transcript no cut of any window misleads. */
  lemma RecordsNeverMislead(file: seq<byte>, size: nat, parse: seq<byte> -> Parsed)
    requires JsonLike(parse) && Intact(file)
    ensures !CutMisleads(file, size, parse)
  {
    if CutMisleads(file, size, parse) {
      var a, b := file[..|file| - size], Tail(file, size);
      assert file == a + b;
      SplitAppend(a, b);
      LastLine(a);
      var cut, rest := Split(a)[|Split(a)| - 1], Split(b)[0];
      var line := Split(file)[|Split(a)| - 1];
      assert line == cut + rest && line[|cut|..] == rest;
      assert parse(rest).Object?;
      NoRecordInside(line, |cut|);
    }
  }

  // ---- A torn record can mislead ----

  lemma {:induction false} OneLine(s: seq<byte>)
    requires forall i :: 0 <= i < |s| ==> s[i] != NEWLINE
    ensures Split(s) == [s]
    decreases |s|
  {
    if s != [] {
      OneLine(s[..|s| - 1]);
      assert s[..|s| - 1] + [s[|s| - 1]] == s;
    }
  }

  /** A parser that takes every intact record for an assistant turn of one token. */
  function ByRecord(line: seq<byte>): Parsed {
    if Record(line) then Object(true, Some(Message(None, false, true, Some([Number(1.0)])))) else Unreadable
  }

  /** A record of n bytes that says nothing but digits. */
  function Digits(n: nat): (r: seq<byte>)
    requires n >= 2
    ensures |r| == n && r[0] == OPEN && r[n - 1] == CLOSE && forall i :: 0 < i < n - 1 ==> r[i] == 49
  {
    [OPEN] + seq(n - 2, _ => 49) + [CLOSE]
  }

  lemma {:induction false} PlainBytes(q: Lex, s: seq<byte>)
    requires !q.escaped && forall i :: 0 <= i < |s| ==> s[i] == 49
    ensures LexAll(q, s) == q
    decreases |s|
  {
    if s != [] { PlainBytes(q, s[1..]); }
  }

  lemma DigitsStayOpen(n: nat, k: nat)
    requires 0 < k < n
    ensures LexAll(Start, Digits(n)[..k]) == Lex(1, false, false, true)
  {
    var r := Digits(n);
    assert r[..k][1..] == r[1..k];
    PlainBytes(LexByte(Start, OPEN), r[1..k]);
  }

  lemma DigitsAreARecord(n: nat)
    requires n >= 2
    ensures Record(Digits(n))
  {
    var r := Digits(n);
    forall k | 0 < k < n ensures LexAll(Start, r[..k]).depth > 0 { DigitsStayOpen(n, k); }
    DigitsStayOpen(n, n - 1);
    assert r == r[..n - 1] + [CLOSE];
    LexAppend(Start, r[..n - 1], [CLOSE]);
    assert [CLOSE][1..] == [];
  }

  /** One byte of a torn record right before an intact one, on one line: the line is no record, so it holds no turn, but
      the first window begins behind that byte and the reader reports a turn. */
  lemma TornLineMisleads()
    ensures var file := [65] + Digits(TAIL);
            && JsonLike(ByRecord)
            && CutMisleads(file, TAIL, ByRecord)
            && Answer(ScanLines(Split(file), ByRecord)) == None
            && Answer(GrowingScan(file, TAIL, ByRecord)) == Some(Meter(1, None))
  {
    var tail := Digits(TAIL);
    var file := [65] + tail;
    OneLine(file);
    OneLine(tail);
    DigitsAreARecord(TAIL);
    assert !Record(file) by {
      assert file[..1][1..] == [];
      assert LexAll(Start, file[..1]).depth == 0;
    }
    assert MeterOf(ByRecord(tail)) == Some(Meter(1, None)) by { assert [Number(1.0)][1..] == []; }
    assert Tail(file, TAIL) == tail;
    assert Split(tail)[1..] == [] && Split(tail)[..|Split(tail)| - 1] == [] && Split(file)[..|Split(file)| - 1] == [];
  }
}
