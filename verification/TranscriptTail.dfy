/** Reading the last turns of a transcript from a bounded window at the end of its file, and what
    that has to do with decoding the whole file. `blank` tells the lines of white space only and
    `decode` is a harness's rule for one line; both are any functions. */
module TranscriptTail {
  import opened Prelude

  type Byte = b: int | 0 <= b < 256

  type Text = seq<Byte>

  const NEWLINE: Byte := 10

  const MIN_TAIL := 256 * 1024
  const MAX_TAIL := 4 * 1024 * 1024
  const TAIL_PER_TURN := 64 * 1024
  const MAX_TURNS := 100
  const DEFAULT_TURNS := 10

  /** The turns asked for, brought into range. */
  function Clamped(n: int): (r: nat)
    ensures 1 <= r <= MAX_TURNS && (1 <= n <= MAX_TURNS ==> r == n)
    ensures (n <= 0 ==> r == 10) && (n > MAX_TURNS ==> r == 100)
  {
    if n <= 0 then DEFAULT_TURNS else if n > MAX_TURNS then MAX_TURNS else n
  }

  function Window(n: nat): (w: nat)
    ensures MIN_TAIL <= w <= MAX_TAIL
    ensures MIN_TAIL <= n * TAIL_PER_TURN <= MAX_TAIL ==> w == n * TAIL_PER_TURN
  {
    var w := n * TAIL_PER_TURN;
    if w < MIN_TAIL then MIN_TAIL else if w > MAX_TAIL then MAX_TAIL else w
  }

  // ---------------------------------------------------------------- the whole file

  /** The pieces between newlines. */
  function Split(s: Text): (ls: seq<Text>)
    ensures |ls| > 0
  {
    if s == [] then [[]]
    else
      var rest := Split(s[..|s| - 1]);
      var c := s[|s| - 1];
      if c == NEWLINE then rest + [[]] else rest[..|rest| - 1] + [rest[|rest| - 1] + [c]]
  }

  /** The lines that are not blank. */
  function Full(ls: seq<Text>, blank: Text -> bool): seq<Text> {
    if ls == [] then []
    else
      var n := |ls| - 1;
      Full(ls[..n], blank) + (if blank(ls[n]) then [] else [ls[n]])
  }

  /** The lines that decode, decoded. */
  function Decoded<T>(ls: seq<Text>, decode: Text -> Option<T>): seq<T> {
    if ls == [] then []
    else
      var n := |ls| - 1;
      Decoded(ls[..n], decode) + (if decode(ls[n]).Some? then [decode(ls[n]).value] else [])
  }

  /** The turns of a whole file, line by line. */
  function Whole<T>(file: Text, blank: Text -> bool, decode: Text -> Option<T>): seq<T> {
    Decoded(Full(Split(file), blank), decode)
  }

  function Last<T>(ts: seq<T>, n: nat): seq<T> {
    if |ts| > n then ts[|ts| - n..] else ts
  }

  ghost predicate Suffix<T>(a: seq<T>, b: seq<T>) {
    |a| <= |b| && b[|b| - |a|..] == a
  }

  // ---------------------------------------------------------------- the code

  /** The end of the file, and whether something before it was skipped. */
  method Tail(file: Text, window: nat) returns (buf: Text, truncated: bool)
    ensures truncated <==> |file| > window
    ensures buf == Last(file, window)
  {
    var start := 0;
    truncated := false;
    if |file| > window {
      start := |file| - window;
      truncated := true;
    }
    buf := file[start..];
  }

  /** The lines of the window: without its first piece when that may be a fragment, and without blank ones. */
  function WindowLines(file: Text, window: nat, blank: Text -> bool): seq<Text> {
    var pieces := Split(Last(file, window));
    Full(if |file| > window then pieces[1..] else pieces, blank)
  }

  lemma FullStep(ls: seq<Text>, i: nat, blank: Text -> bool)
    requires i < |ls|
    ensures Full(ls[..i + 1], blank) == Full(ls[..i], blank) + (if blank(ls[i]) then [] else [ls[i]])
  {
    assert ls[..i + 1][..i] == ls[..i];
  }

  lemma DecodedStep<T>(ls: seq<Text>, i: nat, decode: Text -> Option<T>)
    requires i < |ls|
    ensures Decoded(ls[..i + 1], decode) == Decoded(ls[..i], decode)
      + (if decode(ls[i]).Some? then [decode(ls[i]).value] else [])
  {
    assert ls[..i + 1][..i] == ls[..i];
  }

  method TailLines(file: Text, window: nat, blank: Text -> bool) returns (out: seq<Text>, truncated: bool)
    ensures truncated <==> |file| > window
    ensures out == WindowLines(file, window, blank)
  {
    hide Full, Split;
    var buf;
    buf, truncated := Tail(file, window);
    var split := Split(buf);
    if truncated { split := split[1..]; }
    out := [];
    NothingFull(blank);
    var i := 0;
    while i < |split|
      invariant 0 <= i <= |split| && out == Full(split[..i], blank)
    {
      FullStep(split, i, blank);
      if !blank(split[i]) { out := out + [split[i]]; }
      i := i + 1;
    }
    assert split[..i] == split;
  }

  lemma NothingFull(blank: Text -> bool)
    ensures Full([], blank) == []
  {
  }

  lemma NothingDecoded<T>(decode: Text -> Option<T>)
    ensures Decoded([], decode) == []
  {
  }

  method DecodeLines<T>(lines: seq<Text>, decode: Text -> Option<T>) returns (turns: seq<T>)
    ensures turns == Decoded(lines, decode)
  {
    hide Decoded;
    turns := [];
    NothingDecoded(decode);
    var i := 0;
    while i < |lines|
      invariant 0 <= i <= |lines| && turns == Decoded(lines[..i], decode)
    {
      DecodedStep(lines, i, decode);
      var t := decode(lines[i]);
      if t.Some? { turns := turns + [t.value]; }
      i := i + 1;
    }
    assert lines[..i] == lines;
  }

  /** The turns returned and the flag, as a function of the file. */
  function TurnsOf<T>(file: Text, n: nat, blank: Text -> bool, decode: Text -> Option<T>): (seq<T>, bool) {
    var seen := Decoded(WindowLines(file, Window(n), blank), decode);
    (Last(seen, n), |file| > Window(n) || |seen| > n)
  }

  method ReadTail<T>(file: Text, asked: int, blank: Text -> bool, decode: Text -> Option<T>)
    returns (turns: seq<T>, truncated: bool)
    ensures (turns, truncated) == TurnsOf(file, Clamped(asked), blank, decode)
  {
    hide Split, Full, Decoded, WindowLines;
    var n := Clamped(asked);
    var lines;
    lines, truncated := TailLines(file, Window(n), blank);
    turns := DecodeLines(lines, decode);
    if |turns| > n {
      turns := turns[|turns| - n..];
      truncated := true;
    }
  }

  // ---------------------------------------------------------------- window and whole

  function Push(ls: seq<Text>, c: Byte): (r: seq<Text>)
    requires |ls| > 0
    ensures |r| > 0
  {
    if c == NEWLINE then ls + [[]] else ls[..|ls| - 1] + [ls[|ls| - 1] + [c]]
  }

  /** The pieces of two texts put together: the piece across the cut is joined. */
  function Glue(p: seq<Text>, q: seq<Text>): (r: seq<Text>)
    requires |p| > 0 && |q| > 0
    ensures |r| > 0
  {
    p[..|p| - 1] + [p[|p| - 1] + q[0]] + q[1..]
  }

  lemma SplitStep(s: Text, c: Byte)
    ensures Split(s + [c]) == Push(Split(s), c)
  {
    assert (s + [c])[..|s|] == s;
  }

  lemma GluePush(p: seq<Text>, q: seq<Text>, c: Byte)
    requires |p| > 0 && |q| > 0
    ensures Glue(p, Push(q, c)) == Push(Glue(p, q), c)
  {
    var n := |q| - 1;
    if c == NEWLINE {
      assert (q + [[]])[1..] == q[1..] + [[]];
    } else if n == 0 {
      assert p[|p| - 1] + q[0] + [c] == p[|p| - 1] + (q[0] + [c]);
    } else {
      var more := q[n] + [c];
      assert Push(q, c)[1..] == q[1..][..n - 1] + [more];
      assert Glue(p, q)[..|Glue(p, q)| - 1] == p[..|p| - 1] + [p[|p| - 1] + q[0]] + q[1..][..n - 1];
    }
  }

  /** Splitting in two: only the piece across the cut is not a piece of one side. */
  lemma {:induction false} SplitAppend(a: Text, b: Text)
    ensures Split(a + b) == Glue(Split(a), Split(b))
  {
    hide Split, Push, Glue;
    if b == [] {
      assert a + b == a;
      GlueNothing(Split(a));
      NothingSplit();
    } else {
      var m := |b| - 1;
      SplitAppend(a, b[..m]);
      SplitStep(a + b[..m], b[m]);
      SplitStep(b[..m], b[m]);
      GluePush(Split(a), Split(b[..m]), b[m]);
      assert b == b[..m] + [b[m]] && a + b == a + b[..m] + [b[m]];
    }
  }

  lemma NothingSplit()
    ensures Split([]) == [[]]
  {
  }

  lemma GlueNothing(p: seq<Text>)
    requires |p| > 0
    ensures Glue(p, [[]]) == p
  {
    assert p[|p| - 1] + [] == p[|p| - 1];
  }

  function Unless(drop: bool, line: Text): seq<Text> {
    if drop then [] else [line]
  }

  lemma FullOne(ls: seq<Text>, line: Text, blank: Text -> bool)
    ensures Full(ls + [line], blank) == Full(ls, blank) + Unless(blank(line), line)
  {
    assert (ls + [line])[..|ls|] == ls;
  }

  lemma {:induction false} FullAppend(a: seq<Text>, b: seq<Text>, blank: Text -> bool)
    ensures Full(a + b, blank) == Full(a, blank) + Full(b, blank)
  {
    hide Full, Unless;
    NothingFull(blank);
    if b == [] {
      assert a + b == a;
    } else {
      var n := |b| - 1;
      FullAppend(a, b[..n], blank);
      FullOne(a + b[..n], b[n], blank);
      FullOne(b[..n], b[n], blank);
      assert b == b[..n] + [b[n]] && a + b == a + b[..n] + [b[n]];
    }
  }

  function Turned<T>(t: Option<T>): seq<T> {
    if t.Some? then [t.value] else []
  }

  lemma DecodedOne<T>(ls: seq<Text>, line: Text, decode: Text -> Option<T>)
    ensures Decoded(ls + [line], decode) == Decoded(ls, decode) + Turned(decode(line))
  {
    assert (ls + [line])[..|ls|] == ls;
  }

  lemma {:induction false} DecodedAppend<T>(a: seq<Text>, b: seq<Text>, decode: Text -> Option<T>)
    ensures Decoded(a + b, decode) == Decoded(a, decode) + Decoded(b, decode)
  {
    hide Decoded, Turned;
    NothingDecoded(decode);
    if b == [] {
      assert a + b == a;
    } else {
      var n := |b| - 1;
      DecodedAppend(a, b[..n], decode);
      DecodedOne(a + b[..n], b[n], decode);
      DecodedOne(b[..n], b[n], decode);
      assert b == b[..n] + [b[n]] && a + b == a + b[..n] + [b[n]];
    }
  }

  /** The lines of a window are the last of the file's lines. */
  lemma WindowIsSuffix(file: Text, window: nat, blank: Text -> bool) returns (before: seq<Text>)
    ensures Full(Split(file), blank) == before + WindowLines(file, window, blank)
    ensures |file| <= window ==> before == []
  {
    hide Split, Full;
    before := [];
    if |file| > window {
      var cut := |file| - window;
      var a, b := file[..cut], file[cut..];
      assert file == a + b;
      SplitAppend(a, b);
      var p, q := Split(a), Split(b);
      var head := p[..|p| - 1] + [p[|p| - 1] + q[0]];
      FullAppend(head, q[1..], blank);
      before := Full(head, blank);
    } else {
      assert [] + WindowLines(file, window, blank) == WindowLines(file, window, blank);
    }
  }

  /** The turns returned are the last ones of the whole file, `n` at most. Not truncated means they
      are all of them; and when more than `n` decode in the window they are exactly the last `n`. */
  lemma TailAgrees<T>(file: Text, n: nat, blank: Text -> bool, decode: Text -> Option<T>)
    ensures var (turns, truncated) := TurnsOf(file, n, blank, decode);
      var whole := Whole(file, blank, decode);
      var seen := Decoded(WindowLines(file, Window(n), blank), decode);
      && |turns| <= n && Suffix(turns, whole)
      && (!truncated ==> turns == whole)
      && (|seen| >= n || |file| <= Window(n) ==> turns == Last(whole, n))
      && (|seen| <= n ==> turns == seen)
  {
    hide Split, Full, Decoded, WindowLines, Window;
    var before := WindowIsSuffix(file, Window(n), blank);
    var lines := WindowLines(file, Window(n), blank);
    DecodedAppend(before, lines, decode);
    NothingDecoded(decode);
  }

  // ---------------------------------------------------------------- two ways to decode

  /** A Codex transcript: its item records, or, when there are none at all, its message records. */
  function EitherWay<T>(lines: seq<Text>, item: Text -> Option<T>, message: Text -> Option<T>): seq<T> {
    if Decoded(lines, item) == [] then Decoded(lines, message) else Decoded(lines, item)
  }

  method ReadCodexTail<T(==)>(file: Text, asked: int, blank: Text -> bool, item: Text -> Option<T>,
      message: Text -> Option<T>)
    returns (turns: seq<T>, truncated: bool)
    ensures var n := Clamped(asked); var seen := EitherWay(WindowLines(file, Window(n), blank), item, message);
      turns == Last(seen, n) && truncated == (|file| > Window(n) || |seen| > n)
  {
    hide Split, Full, Decoded, WindowLines;
    var n := Clamped(asked);
    var lines;
    lines, truncated := TailLines(file, Window(n), blank);
    turns := DecodeLines(lines, item);
    if |turns| == 0 { turns := DecodeLines(lines, message); }
    if |turns| > n {
      turns := turns[|turns| - n..];
      truncated := true;
    }
  }

  /** Item records and message records never decode to the same turn. */
  ghost predicate Apart<T(!new)>(item: Text -> Option<T>, message: Text -> Option<T>) {
    forall x, y :: item(x).Some? && message(y).Some? ==> item(x) != message(y)
  }

  /** The window decides as the whole file does, or has nothing to show. */
  predicate SameRecords<T(==)>(lines: seq<Text>, all: seq<Text>, item: Text -> Option<T>, message: Text -> Option<T>) {
    Decoded(all, item) == [] || Decoded(lines, item) != [] || Decoded(lines, message) == []
  }

  /** The turns returned are the last ones of the whole file if the file has no item records, or the
      window has one, or the window has no record at all; and if item and message records are told
      apart by their turns, only if. */
  lemma CodexAgrees<T(!new)>(file: Text, window: nat, n: nat, blank: Text -> bool,
      item: Text -> Option<T>, message: Text -> Option<T>)
    ensures var lines, all := WindowLines(file, window, blank), Full(Split(file), blank);
      SameRecords(lines, all, item, message) ==>
        Suffix(Last(EitherWay(lines, item, message), n), EitherWay(all, item, message))
    ensures var lines, all := WindowLines(file, window, blank), Full(Split(file), blank);
      n > 0 && Apart(item, message) && Suffix(Last(EitherWay(lines, item, message), n),
        EitherWay(all, item, message)) ==>
        SameRecords(lines, all, item, message)
    ensures |file| <= window ==>
      EitherWay(WindowLines(file, window, blank), item, message) == EitherWay(Full(Split(file), blank), item, message)
  {
    hide Split, Full, Decoded, WindowLines, Suffix, Last, Apart;
    var before := WindowIsSuffix(file, window, blank);
    var lines := WindowLines(file, window, blank);
    DecodedAppend(before, lines, item);
    DecodedAppend(before, lines, message);
    NothingDecoded(item);
    NothingDecoded(message);
    LastIsSuffix(Decoded(before, item), Decoded(lines, item), n);
    LastIsSuffix(Decoded(before, message), Decoded(lines, message), n);
    NothingIsSuffix(Decoded(before + lines, item), n);
    if before == [] { assert before + lines == lines; }
    if n > 0 && Apart(item, message) && !SameRecords(lines, before + lines, item, message) {
      NoSuffix(lines, before + lines, n, item, message);
    }
  }

  /** The last turn of the window comes from a message record, that of the file from an item record. */
  lemma NoSuffix<T(!new)>(lines: seq<Text>, all: seq<Text>, n: nat, item: Text -> Option<T>, message: Text -> Option<T>)
    requires n > 0 && Apart(item, message) && Decoded(lines, message) != [] && Decoded(all, item) != []
    ensures !Suffix(Last(Decoded(lines, message), n), Decoded(all, item))
  {
    hide Decoded;
    var x := DecodedFrom(lines, message);
    var y := DecodedFrom(all, item);
    SameLast(Last(Decoded(lines, message), n), Decoded(all, item));
  }

  lemma SameLast<T>(a: seq<T>, b: seq<T>)
    requires a != []
    ensures Suffix(a, b) ==> |b| > 0 && b[|b| - 1] == a[|a| - 1]
  {
    if Suffix(a, b) { assert b[|b| - |a|..][|a| - 1] == b[|b| - 1]; }
  }

  /** The last decoded turn was decoded from some line. */
  lemma {:induction false} DecodedFrom<T>(lines: seq<Text>, decode: Text -> Option<T>) returns (line: Text)
    requires Decoded(lines, decode) != []
    ensures decode(line) == Some(Decoded(lines, decode)[|Decoded(lines, decode)| - 1])
  {
    var n := |lines| - 1;
    if decode(lines[n]).Some? { line := lines[n]; } else { line := DecodedFrom(lines[..n], decode); }
  }

  lemma NothingIsSuffix<T>(whole: seq<T>, n: nat)
    ensures Suffix(Last([], n), whole)
  {
  }

  lemma LastIsSuffix<T>(before: seq<T>, seen: seq<T>, n: nat)
    ensures Suffix(Last(seen, n), before + seen)
    ensures before + seen == [] ==> seen == []
  {
  }

  // ---------------------------------------------------------------- and a file where it fails

  /** A turn together with the kind of record it was decoded from. */
  datatype Kind<T> = FromItem(turn: T) | FromMessage(turn: T)

  function AsItem<T>(item: Text -> Option<T>): Text -> Option<Kind<T>> {
    x => if item(x).Some? then Some(FromItem(item(x).value)) else None
  }

  function AsMessage<T>(message: Text -> Option<T>): Text -> Option<Kind<T>> {
    x => if message(x).Some? then Some(FromMessage(message(x).value)) else None
  }

  lemma {:induction false} KindsDecoded<T>(lines: seq<Text>, decode: Text -> Option<T>)
    ensures Decoded(lines, AsItem(decode)) == [] <==> Decoded(lines, decode) == []
    ensures Decoded(lines, AsMessage(decode)) == [] <==> Decoded(lines, decode) == []
  {
    if lines != [] { KindsDecoded(lines[..|lines| - 1], decode); }
  }

  /** With the kind of record kept beside each turn the condition is exact for all decoders. */
  lemma CodexAgreesByKind<T(!new)>(file: Text, window: nat, n: nat, blank: Text -> bool,
      item: Text -> Option<T>, message: Text -> Option<T>)
    requires n > 0
    ensures var lines, all := WindowLines(file, window, blank), Full(Split(file), blank);
      Suffix(Last(EitherWay(lines, AsItem(item), AsMessage(message)), n),
        EitherWay(all, AsItem(item), AsMessage(message)))
      <==> SameRecords(lines, all, item, message)
  {
    hide Split, Full, Decoded, WindowLines, Suffix, Last;
    var lines, all := WindowLines(file, window, blank), Full(Split(file), blank);
    CodexAgrees(file, window, n, blank, AsItem(item), AsMessage(message));
    KindsDecoded(all, item);
    KindsDecoded(lines, item);
    KindsDecoded(lines, message);
  }

  function OneItem(line: Text): Option<string> {
    if line == [1] then Some("item") else None
  }

  function OneMessage(line: Text): Option<string> {
    if line == [3] then Some("message") else None
  }

  predicate NoBytes(line: Text) {
    line == []
  }

  function Zeros(k: nat): Text {
    seq(k, _ => 0)
  }

  lemma SplitLine(line: Text, rest: Text)
    requires NEWLINE !in line
    ensures Split(line) == [line] && Split(line + [NEWLINE] + rest) == [line] + Split(rest)
  {
    SplitPlain(line);
    SplitStep(line, NEWLINE);
    SplitAppend(line + [NEWLINE], rest);
    assert [] + Split(rest)[0] == Split(rest)[0];
  }

  lemma {:induction false} SplitPlain(line: Text)
    requires NEWLINE !in line
    ensures Split(line) == [line]
  {
    if line != [] {
      var m := |line| - 1;
      SplitPlain(line[..m]);
      assert line == line[..m] + [line[m]];
    }
  }

  /** An item record, enough bytes to fill the window, and a message record. */
  function ItemThenMessage(window: nat): Text {
    [1] + [NEWLINE] + (Zeros(window) + [NEWLINE] + [3])
  }

  /** Whatever the window: an item record before it and a message record in it give a turn that is no
      part of the whole transcript. */
  lemma CodexMayDisagree(window: nat, n: nat)
    requires window >= 2 && n > 0
    ensures var file := ItemThenMessage(window);
      && EitherWay(WindowLines(file, window, NoBytes), OneItem, OneMessage) == ["message"]
      && EitherWay(Full(Split(file), NoBytes), OneItem, OneMessage) == ["item"]
      && !Suffix(Last(["message"], n), ["item"])
  {
    hide Split, Full, Decoded, ItemThenMessage, WindowLines;
    MessageInWindow(window);
    OneLine([3]);
    ItemInFile(window);
    ThreeLines(Zeros(window));
    assert Last(["message"], n) == ["message"];
  }

  lemma MessageInWindow(window: nat)
    requires window >= 2
    ensures WindowLines(ItemThenMessage(window), window, NoBytes) == Full([[3]], NoBytes)
  {
    hide Split, Full;
    var file := ItemThenMessage(window);
    assert Last(file, window) == Zeros(window - 2) + [NEWLINE] + [3];
    SplitLine([3], []);
    SplitLine(Zeros(window - 2), [3]);
  }

  lemma ItemInFile(window: nat)
    ensures Split(ItemThenMessage(window)) == [[1], Zeros(window), [3]]
  {
    hide Split;
    SplitLine([3], []);
    SplitLine(Zeros(window), [3]);
    SplitLine([1], Zeros(window) + [NEWLINE] + [3]);
  }

  lemma OneLine(line: Text)
    requires line == [3]
    ensures Full([line], NoBytes) == [line] && Decoded([line], OneItem) == []
    ensures Decoded([line], OneMessage) == ["message"]
  {
    assert [line][..0] == [];
  }

  lemma ThreeLines(zeros: Text)
    requires |zeros| > 1
    ensures EitherWay(Full([[1], zeros, [3]], NoBytes), OneItem, OneMessage) == ["item"]
  {
    var ls: seq<Text> := [[1], zeros, [3]];
    assert ls[..2] == [[1], zeros] && ls[..2][..1] == [[1]] && ls[..1][..0] == [];
    FullStep(ls, 2, NoBytes);
    FullStep(ls, 1, NoBytes);
    FullStep(ls, 0, NoBytes);
    assert ls[..3] == ls && Full(ls, NoBytes) == ls;
    DecodedStep(ls, 2, OneItem);
    DecodedStep(ls, 1, OneItem);
    DecodedStep(ls, 0, OneItem);
  }
}
