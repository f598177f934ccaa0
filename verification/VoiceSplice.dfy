/** Replacing the [voice] section of a configuration file by splicing text, line by line, so that
    every other character of the file stays as it was. */
module VoiceSplice {
  import opened Prelude

  // ---------------------------------------------------------------- text

  /** White space as the Unicode property has it. */
  predicate IsSpace(c: char) {
    || '\t' <= c <= '\r' || c == ' ' || c == '\U{0085}' || c == '\U{00A0}' || c == '\U{1680}'
    || '\U{2000}' <= c <= '\U{200a}' || c == '\U{2028}' || c == '\U{2029}' || c == '\U{202f}' || c == '\U{205f}'
    || c == '\U{3000}'
  }

  function TrimLeft(s: string): (r: string)
    ensures |r| <= |s|
    ensures r != "" ==> !IsSpace(r[0])
  {
    if s != "" && IsSpace(s[0]) then TrimLeft(s[1..]) else s
  }

  function TrimRight(s: string): (r: string)
    ensures r <= s
  {
    if s != "" && IsSpace(s[|s| - 1]) then TrimRight(s[..|s| - 1]) else s
  }

  function TrimSpace(s: string): string {
    TrimRight(TrimLeft(s))
  }

  predicate IsQuote(c: char) {
    c == '"' || c == '\''
  }

  function TrimQuotes(s: string): string
    decreases |s|
  {
    if s != "" && IsQuote(s[0]) then TrimQuotes(s[1..])
    else if s != "" && IsQuote(s[|s| - 1]) then TrimQuotes(s[..|s| - 1])
    else s
  }

  /** Where the first line ends: the index of its newline, or the length. */
  function LineEnd(s: string): (i: nat)
    ensures i <= |s| && '\n' !in s[..i] && (i < |s| ==> s[i] == '\n')
  {
    if s == "" || s[0] == '\n' then 0
    else
      var i := 1 + LineEnd(s[1..]);
      assert s[..i] == [s[0]] + s[1..][..i - 1];
      i
  }

  /** The lines of a text, each with its newline. */
  function Lines(s: string): seq<string> {
    if s == "" then []
    else
      var i := LineEnd(s);
      if i == |s| then [s] else [s[..i + 1]] + Lines(s[i + 1..])
  }

  function Join(ls: seq<string>): string {
    if ls == [] then "" else ls[0] + Join(ls[1..])
  }

  predicate IsTableHeader(trimmed: string) {
    "[" <= trimmed
  }

  predicate IsVoiceHeader(trimmed: string) {
    && "[" <= trimmed && trimmed[|trimmed| - 1] == ']'
    && !("[[" <= trimmed)
    && TrimSpace(TrimQuotes(TrimSpace(trimmed[1..|trimmed| - 1]))) == "voice"
  }

  predicate VoiceLine(line: string) {
    IsVoiceHeader(TrimSpace(line))
  }

  predicate TableLine(line: string) {
    IsTableHeader(TrimSpace(line))
  }

  predicate BlankLine(line: string) {
    TrimSpace(line) == ""
  }

  predicate TextLine(line: string) {
    !BlankLine(line)
  }

  // ---------------------------------------------------------------- the section

  /** The first line at or after `i` that satisfies `p`, or the number of lines. */
  function FirstAt(ls: seq<string>, p: string -> bool, i: nat): (k: nat)
    requires i <= |ls|
    ensures i <= k <= |ls| && (k < |ls| ==> p(ls[k]))
    ensures forall j :: i <= j < k ==> !p(ls[j])
    decreases |ls| - i
  {
    if i == |ls| || p(ls[i]) then i else FirstAt(ls, p, i + 1)
  }

  /** How many of the first `n` lines are left without their trailing blank ones. */
  function TextEnd(ls: seq<string>, n: nat): (k: nat)
    requires n <= |ls|
    ensures k <= n && (forall j :: k <= j < n ==> BlankLine(ls[j])) && (k > 0 ==> !BlankLine(ls[k - 1]))
  {
    if n > 0 && BlankLine(ls[n - 1]) then TextEnd(ls, n - 1) else n
  }

  /** The line numbers of the section: its header, and the line after its last one with text. */
  function Section(ls: seq<string>): Option<(nat, nat)> {
    var i := FirstAt(ls, VoiceLine, 0);
    if i == |ls| then None
    else Some((i, TextEnd(ls, FirstAt(ls, TableLine, i + 1))))
  }

  function Size(ls: seq<string>, n: nat): nat
    requires n <= |ls|
  {
    |Join(ls[..n])|
  }

  lemma SectionBounds(ls: seq<string>)
    requires Section(ls).Some?
    ensures Section(ls).value.0 < Section(ls).value.1 <= |ls|
  {
    var i := FirstAt(ls, VoiceLine, 0);
    assert !BlankLine(ls[i]);
  }

  /** The span of the section in the text. */
  function Span(body: string): Option<(nat, nat)> {
    var ls := Lines(body);
    if Section(ls).None? then None
    else
      SectionBounds(ls);
      Some((Size(ls, Section(ls).value.0), Size(ls, Section(ls).value.1)))
  }

  /** A top-level dotted key before any table, on the lines of the text without their newlines. */
  function SplitNewline(s: string): (ls: seq<string>)
    ensures |ls| > 0
  {
    var i := LineEnd(s);
    if i == |s| then [s] else [s[..i]] + SplitNewline(s[i + 1..])
  }

  predicate DottedKey(trimmed: string) {
    "voice." <= trimmed || "\"voice\"." <= trimmed
  }

  predicate RefusedLines(ls: seq<string>) {
    if ls == [] then false
    else
      var trimmed := TrimSpace(ls[0]);
      if trimmed == "" || "#" <= trimmed then RefusedLines(ls[1..])
      else if IsTableHeader(trimmed) then false
      else DottedKey(trimmed) || RefusedLines(ls[1..])
  }

  predicate Refused(body: string) {
    RefusedLines(SplitNewline(body))
  }

  // ---------------------------------------------------------------- the new section

  datatype Voice = Voice(
    enabled: bool, endpoint: string, model: string, transcriptionModel: string, authMode: string,
    entraScope: string, apiKeyEnv: string, apiKeyStored: bool, voice: string)

  function KeyLine(name: string, value: string): string {
    "  " + name + " = " + value + "\n"
  }

  function Optional(name: string, value: string, quote: string -> string): seq<string> {
    if value == "" then [] else [KeyLine(name, quote(value))]
  }

  function Flag(name: string, on: bool): seq<string> {
    if on then [KeyLine(name, "true")] else []
  }

  /** The lines of the new section; `quote` is the quoting of string values. */
  function KeyLines(v: Voice, quote: string -> string): seq<string> {
    [KeyLine("enabled", if v.enabled then "true" else "false")]
    + Optional("endpoint", v.endpoint, quote) + Optional("model", v.model, quote)
    + Optional("transcription_model", v.transcriptionModel, quote) + Optional("auth_mode", v.authMode, quote)
    + Optional("entra_scope", v.entraScope, quote) + Optional("api_key_env", v.apiKeyEnv, quote)
    + Flag("api_key_stored", v.apiKeyStored) + Optional("voice", v.voice, quote)
  }

  function Render(v: Voice, quote: string -> string): string {
    "[voice]\n" + Join(KeyLines(v, quote))
  }

  /** Quoted strings stay on their line. */
  ghost predicate OneLine(quote: string -> string) {
    forall s: string :: '\n' !in quote(s)
  }

  function Separator(body: string): string {
    if body == "" then "" else if body[|body| - 1] == '\n' then "\n" else "\n\n"
  }

  /** The text after a save. */
  function Splice(body: string, block: string): string {
    match Span(body)
    case None => body + Separator(body) + block
    case Some((start, end)) => if start <= end <= |body| then body[..start] + block + body[end..] else body
  }

  // ---------------------------------------------------------------- lines and text

  lemma JoinCons(line: string, rest: seq<string>)
    ensures Join([line] + rest) == line + Join(rest)
  {
    assert ([line] + rest)[1..] == rest;
  }

  lemma {:induction false} JoinAppend(a: seq<string>, b: seq<string>)
    ensures Join(a + b) == Join(a) + Join(b)
  {
    hide Join;
    if a == [] {
      NothingJoined();
      assert a + b == b;
    } else {
      JoinAppend(a[1..], b);
      JoinCons(a[0], a[1..]);
      JoinCons(a[0], a[1..] + b);
      assert a == [a[0]] + a[1..] && a + b == [a[0]] + (a[1..] + b);
      Regroup(a[0], Join(a[1..]), Join(b));
    }
  }

  lemma Regroup(a: string, b: string, c: string)
    ensures (a + b) + c == a + (b + c)
  {
  }

  lemma LinesFirst(s: string)
    requires LineEnd(s) < |s|
    ensures var i := LineEnd(s); Lines(s) == [s[..i + 1]] + Lines(s[i + 1..]) && s == s[..i + 1] + s[i + 1..]
  {
  }

  lemma LinesOnly(s: string)
    requires LineEnd(s) == |s|
    ensures Lines(s) == (if s == "" then [] else [s]) && Join(Lines(s)) == s
  {
    if s != "" { assert Join([s]) == s + Join([]); }
  }

  /** Splitting into lines loses nothing. */
  lemma {:induction false} JoinLines(s: string)
    ensures Join(Lines(s)) == s
  {
    hide Join, Lines;
    var i := LineEnd(s);
    if i == |s| {
      LinesOnly(s);
    } else {
      JoinLines(s[i + 1..]);
      LinesFirst(s);
      JoinCons(s[..i + 1], Lines(s[i + 1..]));
    }
  }

  /** A whole line: one newline, at its end. */
  predicate Whole(line: string) {
    line != "" && line[|line| - 1] == '\n' && '\n' !in line[..|line| - 1]
  }

  /** Lines as a split yields them: whole, except that the last may lack its newline. */
  ghost predicate Proper(ls: seq<string>) {
    forall j :: 0 <= j < |ls| ==> Whole(ls[j]) || (j == |ls| - 1 && ls[j] != "" && '\n' !in ls[j])
  }

  lemma LineEndIs(s: string, i: nat)
    requires i <= |s| && '\n' !in s[..i] && (i < |s| ==> s[i] == '\n')
    ensures LineEnd(s) == i
  {
    var k := LineEnd(s);
    assert forall j :: 0 <= j < i ==> s[..i][j] == s[j];
    assert forall j :: 0 <= j < k ==> s[..k][j] == s[j];
  }

  lemma WholeFirst(line: string, rest: string)
    requires Whole(line)
    ensures LineEnd(line + rest) == |line| - 1 && Lines(line + rest) == [line] + Lines(rest)
  {
    var s, i := line + rest, |line| - 1;
    assert s[..i] == line[..i];
    LineEndIs(s, i);
    assert s[..i + 1] == line && s[i + 1..] == rest;
  }

  lemma {:induction false} LinesProper(s: string)
    ensures Proper(Lines(s))
  {
    if s != "" {
      var i := LineEnd(s);
      if i == |s| {
        assert s[..i] == s;
      } else {
        LinesProper(s[i + 1..]);
        assert s[..i + 1][..i] == s[..i];
      }
    }
  }

  /** Proper lines are what splitting their text gives back. */
  lemma {:induction false} LinesJoin(ls: seq<string>)
    requires Proper(ls)
    ensures Lines(Join(ls)) == ls
  {
    if ls != [] {
      assert Whole(ls[0]) || |ls| == 1;
      if Whole(ls[0]) {
        assert forall j :: 0 <= j < |ls[1..]| ==> ls[1..][j] == ls[j + 1];
        LinesJoin(ls[1..]);
        WholeFirst(ls[0], Join(ls[1..]));
      } else {
        assert Join(ls) == ls[0] + Join([]) == ls[0];
        assert ls[0][..|ls[0]|] == ls[0];
        LineEndIs(ls[0], |ls[0]|);
      }
    }
  }

  // ---------------------------------------------------------------- the new section stands out

  lemma {:induction false} TrimLeftSkips(a: string, b: string)
    requires forall c :: c in a ==> IsSpace(c)
    ensures TrimLeft(a + b) == TrimLeft(b)
  {
    if a == "" {
      assert a + b == b;
    } else {
      TrimLeftSkips(a[1..], b);
      assert (a + b)[1..] == a[1..] + b;
    }
  }

  lemma {:induction false} TrimRightSkips(a: string, b: string)
    requires forall c :: c in b ==> IsSpace(c)
    ensures TrimRight(a + b) == TrimRight(a)
  {
    if b == "" {
      assert a + b == a;
    } else {
      assert IsSpace(b[|b| - 1]);
      TrimRightSkips(a, b[..|b| - 1]);
      assert (a + b)[..|a + b| - 1] == a + b[..|b| - 1];
    }
  }

  lemma {:induction false} TrimRightKeeps(s: string)
    requires s != "" && !IsSpace(s[0])
    ensures TrimRight(s) != "" && TrimRight(s)[0] == s[0]
  {
    if IsSpace(s[|s| - 1]) {
      TrimRightKeeps(s[..|s| - 1]);
    }
  }

  /** A line that starts, after spaces, with `c` trims to something that starts with `c`. */
  lemma TrimStarts(a: string, b: string)
    requires (forall c :: c in a ==> IsSpace(c)) && b != "" && !IsSpace(b[0])
    ensures TrimSpace(a + b) != "" && TrimSpace(a + b)[0] == b[0]
  {
    TrimLeftSkips(a, b);
    TrimRightKeeps(b);
  }

  /** A line of the new section: whole, not blank, no header of any kind. */
  ghost predicate Setting(line: string) {
    Whole(line) && !BlankLine(line) && !TableLine(line)
  }

  lemma KeyLineIsSetting(name: string, value: string)
    requires name != "" && !IsSpace(name[0]) && name[0] != '[' && '\n' !in name && '\n' !in value
    ensures Setting(KeyLine(name, value))
  {
    var rest := name + " = " + value + "\n";
    assert KeyLine(name, value) == "  " + rest;
    TrimStarts("  ", rest);
    var line := KeyLine(name, value);
    assert line[..|line| - 1] == "  " + name + " = " + value;
  }

  ghost predicate Settings(ls: seq<string>) {
    forall j :: 0 <= j < |ls| ==> Setting(ls[j])
  }

  lemma SettingsAppend(a: seq<string>, b: seq<string>)
    requires Settings(a) && Settings(b)
    ensures Settings(a + b)
  {
  }

  lemma OptionalSetting(name: string, value: string, quote: string -> string)
    requires OneLine(quote) && name != "" && !IsSpace(name[0]) && name[0] != '[' && '\n' !in name
    ensures Settings(Optional(name, value, quote))
  {
    hide KeyLine, Setting;
    KeyLineIsSetting(name, quote(value));
  }

  lemma SettingLines(v: Voice, quote: string -> string)
    requires OneLine(quote)
    ensures Settings(KeyLines(v, quote))
  {
    hide KeyLine, Setting, OneLine, Settings, Optional;
    var flag := if v.enabled then "true" else "false";
    var s0 := [KeyLine("enabled", flag)];
    SettingOne("enabled", flag);
    var s1 := s0 + Optional("endpoint", v.endpoint, quote) + Optional("model", v.model, quote);
    OptionalSetting("endpoint", v.endpoint, quote);
    OptionalSetting("model", v.model, quote);
    SettingsAppend(s0, Optional("endpoint", v.endpoint, quote));
    SettingsAppend(s0 + Optional("endpoint", v.endpoint, quote), Optional("model", v.model, quote));
    SettingLinesRest(v, quote, s1);
  }

  lemma SettingLinesRest(v: Voice, quote: string -> string, s1: seq<string>)
    requires OneLine(quote) && Settings(s1)
    ensures Settings(s1 + Optional("transcription_model", v.transcriptionModel, quote)
      + Optional("auth_mode", v.authMode, quote)
      + Optional("entra_scope", v.entraScope, quote) + Optional("api_key_env", v.apiKeyEnv, quote)
      + Flag("api_key_stored", v.apiKeyStored) + Optional("voice", v.voice, quote))
  {
    hide KeyLine, Setting, OneLine, Optional;
    OptionalSetting("transcription_model", v.transcriptionModel, quote);
    OptionalSetting("auth_mode", v.authMode, quote);
    OptionalSetting("entra_scope", v.entraScope, quote);
    OptionalSetting("api_key_env", v.apiKeyEnv, quote);
    SettingOne("api_key_stored", "true");
    OptionalSetting("voice", v.voice, quote);
  }

  lemma SettingOne(name: string, value: string)
    requires name != "" && !IsSpace(name[0]) && name[0] != '[' && '\n' !in name && '\n' !in value
    ensures Settings([KeyLine(name, value)])
  {
    KeyLineIsSetting(name, value);
  }

  const HEADER := "[voice]\n"

  lemma TrimStays(s: string)
    requires s != "" && !IsSpace(s[0]) && !IsSpace(s[|s| - 1])
    ensures TrimSpace(s) == s && TrimSpace(s + "\n") == s
  {
    TrimRightSkips(s, "\n");
    assert (s + "\n")[0] == s[0];
    assert TrimLeft(s + "\n") == s + "\n";
  }

  lemma HeaderIsVoice()
    ensures Whole(HEADER) && VoiceLine(HEADER) && TableLine(HEADER) && !BlankLine(HEADER)
  {
    hide TrimSpace, TrimQuotes;
    var h, name := "[voice]", "voice";
    assert HEADER == h + "\n";
    TrimStays(h);
    assert h[1..|h| - 1] == name;
    TrimStays(name);
    NoQuotes(name);
  }

  lemma NoQuotes(s: string)
    requires s != "" && !IsQuote(s[0]) && !IsQuote(s[|s| - 1])
    ensures TrimQuotes(s) == s
  {
  }

  // ---------------------------------------------------------------- what a header is

  predicate Blank(s: string) {
    forall c :: c in s ==> IsSpace(c)
  }

  predicate Quotes(s: string) {
    forall c :: c in s ==> IsQuote(c)
  }

  lemma {:induction false} TrimLeftCuts(s: string) returns (a: string)
    ensures s == a + TrimLeft(s) && Blank(a)
  {
    a := "";
    if s != "" && IsSpace(s[0]) {
      a := TrimLeftCuts(s[1..]);
      assert s == [s[0]] + s[1..];
      a := [s[0]] + a;
    }
  }

  lemma {:induction false} TrimRightCuts(s: string) returns (d: string)
    ensures s == TrimRight(s) + d && Blank(d)
    ensures TrimRight(s) != "" ==> !IsSpace(TrimRight(s)[|TrimRight(s)| - 1])
  {
    d := "";
    if s != "" && IsSpace(s[|s| - 1]) {
      d := TrimRightCuts(s[..|s| - 1]);
      assert s == s[..|s| - 1] + [s[|s| - 1]];
      d := d + [s[|s| - 1]];
    }
  }

  /** Trimming takes white space off both ends and leaves none there. */
  lemma TrimSpaceCuts(s: string) returns (a: string, d: string)
    ensures s == a + TrimSpace(s) + d && Blank(a) && Blank(d)
    ensures var m := TrimSpace(s); m != "" ==> !IsSpace(m[0]) && !IsSpace(m[|m| - 1])
  {
    a := TrimLeftCuts(s);
    d := TrimRightCuts(TrimLeft(s));
  }

  lemma TrimSpaceOf(a: string, m: string, d: string)
    requires Blank(a) && Blank(d) && m != "" && !IsSpace(m[0]) && !IsSpace(m[|m| - 1])
    ensures TrimSpace(a + m + d) == m
  {
    assert a + m + d == a + (m + d) && (m + d)[0] == m[0];
    TrimLeftSkips(a, m + d);
    assert TrimLeft(m + d) == m + d;
    TrimRightSkips(m, d);
  }

  lemma {:induction false} TrimQuotesCuts(s: string) returns (q: string, r: string)
    ensures s == q + TrimQuotes(s) + r && Quotes(q) && Quotes(r)
    ensures var m := TrimQuotes(s); m != "" ==> !IsQuote(m[0]) && !IsQuote(m[|m| - 1])
    decreases |s|
  {
    q, r := "", "";
    if s != "" && IsQuote(s[0]) {
      q, r := TrimQuotesCuts(s[1..]);
      assert s == [s[0]] + s[1..];
      q := [s[0]] + q;
    } else if s != "" && IsQuote(s[|s| - 1]) {
      q, r := TrimQuotesCuts(s[..|s| - 1]);
      assert s == s[..|s| - 1] + [s[|s| - 1]];
      r := r + [s[|s| - 1]];
    }
  }

  lemma {:induction false} TrimQuotesOf(q: string, m: string, r: string)
    requires Quotes(q) && Quotes(r) && m != "" && !IsQuote(m[0]) && !IsQuote(m[|m| - 1])
    ensures TrimQuotes(q + m + r) == m
    decreases |q| + |r|
  {
    var s := q + m + r;
    if q != "" {
      TrimQuotesOf(q[1..], m, r);
      assert s[0] == q[0] && s[1..] == q[1..] + m + r;
    } else if r != "" {
      TrimQuotesOf(q, m, r[..|r| - 1]);
      assert s[0] == m[0] && s[|s| - 1] == r[|r| - 1] && s[..|s| - 1] == q + m + r[..|r| - 1];
    } else {
      assert s == m;
    }
  }

  /** `inner` is the name, in quotes or not, with white space around either. */
  predicate Spells(inner: string, a: string, q: string, b: string, c: string, r: string, d: string) {
    && inner == a + (q + (b + "voice" + c) + r) + d
    && Blank(a) && Blank(b) && Blank(c) && Blank(d) && Quotes(q) && Quotes(r)
    && (q == "" ==> b == "") && (r == "" ==> c == "")
  }

  ghost predicate NamesVoice(inner: string) {
    exists a, q, b, c, r, d :: Spells(inner, a, q, b, c, r, d)
  }

  /** A header of the section is exactly that name in single brackets; a table inside the section, or an
      array of tables, is none. */
  lemma HeaderMeans(inner: string)
    ensures IsVoiceHeader("[" + inner + "]") <==> NamesVoice(inner)
  {
    hide TrimSpace, TrimQuotes;
    var t := "[" + inner + "]";
    assert t[1..|t| - 1] == inner && t[|t| - 1] == ']' && t[0] == '[';
    assert inner != "" ==> t[1] == inner[0];
    if TrimSpace(TrimQuotes(TrimSpace(inner))) == "voice" { NameFound(inner); }
    if NamesVoice(inner) { NameCounts(inner); }
  }

  /** Letters and brackets are neither white space nor quotes, and no quote is white space. */
  lemma Kinds()
    ensures forall c :: c in {'v', 'e', '['} ==> !IsSpace(c) && !IsQuote(c)
    ensures forall c :: IsQuote(c) ==> !IsSpace(c)
  {
  }

  lemma Edges(left: string, name: string, right: string)
    requires name != ""
    ensures var all := left + name + right;
      && all[0] == (if left == "" then name[0] else left[0])
      && all[|all| - 1] == (if right == "" then name[|name| - 1] else right[|right| - 1])
  {
  }

  lemma EndsIn(s: string)
    ensures s != "" ==> s[0] in s && s[|s| - 1] in s
  {
  }

  /** White space at an end would have been trimmed. */
  lemma NoBlankEdges(b: string, name: string, c: string)
    requires name != "" && Blank(b) && Blank(c)
    ensures var all := b + name + c;
      (!IsSpace(all[0]) ==> b == "") && (!IsSpace(all[|all| - 1]) ==> c == "")
  {
    hide IsSpace;
    Edges(b, name, c);
    EndsIn(b);
    EndsIn(c);
  }

  lemma NameFound(inner: string)
    requires TrimSpace(TrimQuotes(TrimSpace(inner))) == "voice"
    ensures NamesVoice(inner)
  {
    hide TrimSpace, TrimQuotes, IsSpace, IsQuote;
    var a, d := TrimSpaceCuts(inner);
    var x := TrimSpace(inner);
    var q, r := TrimQuotesCuts(x);
    var y := TrimQuotes(x);
    var b, c := TrimSpaceCuts(y);
    NoBlankEdges(b, "voice", c);
    Edges(q, y, r);
    assert Spells(inner, a, q, b, c, r, d);
  }

  lemma NameCounts(inner: string)
    requires NamesVoice(inner)
    ensures TrimSpace(TrimQuotes(TrimSpace(inner))) == "voice" && (inner != "" ==> inner[0] != '[')
  {
    hide TrimSpace, TrimQuotes, Spells;
    var a, q, b, c, r, d :| Spells(inner, a, q, b, c, r, d);
    SpelledCounts(inner, a, q, b, c, r, d);
  }

  lemma SpelledCounts(inner: string, a: string, q: string, b: string, c: string, r: string, d: string)
    requires Spells(inner, a, q, b, c, r, d)
    ensures TrimSpace(TrimQuotes(TrimSpace(inner))) == "voice" && (inner != "" ==> inner[0] != '[')
  {
    hide TrimSpace, TrimQuotes, IsSpace, IsQuote, Blank, Quotes;
    NamePieces(b, c, q, r);
    Kinds();
    TrimSpaceOf(b, "voice", c);
    var y := b + "voice" + c;
    TrimQuotesOf(q, y, r);
    TrimSpaceOf(a, q + y + r, d);
    StartsOff(a, q + y + r, d);
  }

  /** No white space at the ends of the quoted name, and no quote at those of the name. */
  lemma NamePieces(b: string, c: string, q: string, r: string)
    requires Blank(b) && Blank(c) && Quotes(q) && Quotes(r) && (q == "" ==> b == "") && (r == "" ==> c == "")
    ensures var y := b + "voice" + c;
      var x := q + y + r;
      && y != "" && !IsQuote(y[0]) && !IsQuote(y[|y| - 1])
      && x != "" && !IsSpace(x[0]) && !IsSpace(x[|x| - 1]) && x[0] != '['
  {
    hide IsSpace, IsQuote;
    Kinds();
    Edges(b, "voice", c);
    Edges(q, b + "voice" + c, r);
    EndsIn(b);
    EndsIn(c);
    EndsIn(q);
    EndsIn(r);
  }

  lemma StartsOff(a: string, x: string, d: string)
    requires Blank(a) && x != "" && x[0] != '['
    ensures (a + x + d)[0] != '['
  {
    EndsIn(a);
  }

  // ---------------------------------------------------------------- where the section is

  /** Line `i` is the first header of the section, its text ends before line `k`, then only blank
      lines follow up to `n`, where the lines end or another header stands. */
  ghost predicate Laid(ls: seq<string>, i: nat, k: nat, n: nat) {
    && i < k <= n <= |ls|
    && (forall j :: 0 <= j < i ==> !VoiceLine(ls[j]))
    && VoiceLine(ls[i])
    && (forall j :: i < j < n ==> !TableLine(ls[j]))
    && !BlankLine(ls[k - 1])
    && (forall j :: k <= j < n ==> BlankLine(ls[j]))
    && (n < |ls| ==> TableLine(ls[n]))
  }

  /** That layout is what the section is, and there is no other. */
  lemma LaidIsSection(ls: seq<string>, i: nat, k: nat, n: nat)
    requires Laid(ls, i, k, n)
    ensures Section(ls) == Some((i, k))
  {
    hide VoiceLine, TableLine, BlankLine;
    assert FirstAt(ls, VoiceLine, 0) == i;
    assert FirstAt(ls, TableLine, i + 1) == n;
    assert TextEnd(ls, n) == k;
  }

  lemma SectionIsLaid(ls: seq<string>) returns (n: nat)
    requires Section(ls).Some?
    ensures Laid(ls, Section(ls).value.0, Section(ls).value.1, n)
  {
    SectionBounds(ls);
    n := FirstAt(ls, TableLine, Section(ls).value.0 + 1);
  }

  /** The lines of a saved section. */
  function Block(v: Voice, quote: string -> string): seq<string> {
    [HEADER] + KeyLines(v, quote)
  }

  lemma BlockJoins(v: Voice, quote: string -> string)
    ensures Join(Block(v, quote)) == Render(v, quote)
  {
    JoinAppend([HEADER], KeyLines(v, quote));
    assert Join([HEADER]) == HEADER + Join([]);
  }

  lemma BlockShape(v: Voice, quote: string -> string)
    requires OneLine(quote)
    ensures var b := Block(v, quote);
      && |b| > 0 && VoiceLine(b[0])
      && (forall j :: 0 <= j < |b| ==> Whole(b[j]) && !BlankLine(b[j]))
      && (forall j :: 0 < j < |b| ==> !TableLine(b[j]))
  {
    hide VoiceLine, TableLine, BlankLine, Whole, KeyLines, OneLine;
    HeaderIsVoice();
    SettingLines(v, quote);
    var b := Block(v, quote);
    assert forall j :: 0 < j < |b| ==> b[j] == KeyLines(v, quote)[j - 1];
  }

  /** `before`, a saved section, then what ended an older section. */
  lemma SavedIsLaid(before: seq<string>, v: Voice, quote: string -> string, after: seq<string>, n: nat)
    requires OneLine(quote) && (forall j :: 0 <= j < |before| ==> !VoiceLine(before[j]))
    requires n <= |after| && (forall j :: 0 <= j < n ==> BlankLine(after[j])) && (n < |after| ==> TableLine(after[n]))
    ensures var b := Block(v, quote); Section(before + b + after) == Some((|before|, |before| + |b|))
  {
    hide VoiceLine, TableLine, BlankLine, Section, Block, OneLine, Whole;
    BlockShape(v, quote);
    var b := Block(v, quote);
    var ls := before + b + after;
    var i, k := |before|, |before| + |b|;
    assert forall j :: 0 <= j < i ==> ls[j] == before[j];
    assert forall j :: i <= j < k ==> ls[j] == b[j - i];
    assert forall j :: k <= j < |ls| ==> ls[j] == after[j - k];
    forall j | i < j < k + n ensures !TableLine(ls[j]) {
      if j >= k { BlankIsNoTable(after[j - k]); }
    }
    LaidIsSection(ls, i, k, k + n);
  }

  lemma BlankIsNoTable(line: string)
    requires BlankLine(line)
    ensures !TableLine(line)
  {
  }

  // ---------------------------------------------------------------- what a save keeps

  /** The lines a save keeps before and after the section. */
  function Frame(body: string): (seq<string>, seq<string>) {
    var ls := Lines(body);
    match Section(ls)
    case None => (Lines(body + Separator(body)), [])
    case Some((i, k)) => if k <= |ls| then (ls[..i], ls[k..]) else (ls, [])
  }

  /** The frame as it bears on any section put into it. */
  ghost predicate Framed(before: seq<string>, after: seq<string>) {
    && (forall j :: 0 <= j < |before| ==> Whole(before[j]) && !VoiceLine(before[j]))
    && Proper(after)
    && (FirstAt(after, TextLine, 0) < |after| ==> TableLine(after[FirstAt(after, TextLine, 0)]))
  }

  lemma {:induction false} TrimLeftNewline(s: string)
    ensures TrimLeft(s + "\n") == (if TrimLeft(s) == "" then "" else TrimLeft(s) + "\n")
  {
    if s == "" {
      assert s + "\n" == "\n" && "\n"[1..] == "";
    } else if IsSpace(s[0]) {
      TrimLeftNewline(s[1..]);
      assert (s + "\n")[1..] == s[1..] + "\n";
    }
  }

  lemma TrimNewline(s: string)
    ensures TrimSpace(s + "\n") == TrimSpace(s)
  {
    TrimLeftNewline(s);
    TrimRightSkips(TrimLeft(s), "\n");
  }

  lemma LastLine(s: string)
    requires s != ""
    ensures Lines(s) != []
    ensures s[|s| - 1] != '\n' ==> Lines(s + "\n") == Lines(s)[..|Lines(s)| - 1] + [Lines(s)[|Lines(s)| - 1] + "\n"]
    ensures s[|s| - 1] == '\n' ==> forall j :: 0 <= j < |Lines(s)| ==> Whole(Lines(s)[j])
  {
    LinesSome(s);
    hide Lines, Join;
    LinesProper(s);
    JoinLines(s);
    var ls := Lines(s);
    var m := |ls| - 1;
    assert ls == ls[..m] + [ls[m]];
    JoinOne(ls[..m], ls[m]);
    assert s[|s| - 1] == ls[m][|ls[m]| - 1];
    if s[|s| - 1] != '\n' { EndLine(s, ls[..m], ls[m]); }
  }

  lemma LinesSome(s: string)
    requires s != ""
    ensures Lines(s) != []
  {
  }

  /** The newline completes the last line. */
  lemma EndLine(s: string, ls: seq<string>, line: string)
    requires Proper(ls + [line]) && s == Join(ls) + line && line != "" && line[|line| - 1] != '\n'
    ensures Lines(s + "\n") == ls + [line + "\n"]
  {
    hide Lines, Join;
    var more := ls + [line + "\n"];
    assert (ls + [line])[|ls|] == line;
    assert forall j :: 0 <= j < |ls| ==> more[j] == (ls + [line])[j];
    assert (line + "\n")[..|line|] == line;
    JoinOne(ls, line + "\n");
    assert s + "\n" == Join(more);
    LinesJoin(more);
  }

  lemma AddBlank(s: string)
    requires s != "" && s[|s| - 1] == '\n'
    ensures Lines(s + "\n") == Lines(s) + ["\n"]
  {
    LastLine(s);
    JoinLines(s);
    JoinAppend(Lines(s), ["\n"]);
    assert Join(["\n"]) == "\n" + Join([]) == "\n";
    LinesJoin(Lines(s) + ["\n"]);
  }

  lemma NewlineIsBlank()
    ensures BlankLine("\n") && Whole("\n") && !VoiceLine("\n")
  {
    assert "\n" == "" + "\n";
    TrimNewline("");
  }

  /** What a refusal depends on: the trimmed lines. */
  lemma {:induction false} RefusedTrimmed(a: seq<string>, b: seq<string>)
    requires |a| == |b| && forall j :: 0 <= j < |a| ==> TrimSpace(a[j]) == TrimSpace(b[j])
    ensures RefusedLines(a) == RefusedLines(b)
  {
    if a != [] {
      assert forall j :: 0 <= j < |a[1..]| ==> a[1..][j] == a[j + 1] && b[1..][j] == b[j + 1];
      RefusedTrimmed(a[1..], b[1..]);
    }
  }

  /** Nothing after a table header matters, and a blank line does not. */
  lemma {:induction false} RefusedCut(a: seq<string>, line: string, rest: seq<string>)
    requires TableLine(line) || (BlankLine(line) && rest == [])
    ensures RefusedLines(a + [line] + rest) == RefusedLines(a)
  {
    if a == [] {
      assert a + [line] + rest == [line] + rest;
      assert ([line] + rest)[1..] == rest;
    } else {
      RefusedCut(a[1..], line, rest);
      assert (a + [line] + rest)[1..] == a[1..] + [line] + rest;
    }
  }

  lemma RefusedCons(line: string, rest: seq<string>)
    ensures RefusedLines([line] + rest) == RefusedHead(TrimSpace(line), RefusedLines(rest))
  {
    hide TrimSpace;
    assert ([line] + rest)[1..] == rest;
  }

  predicate RefusedHead(trimmed: string, rest: bool) {
    if trimmed == "" || "#" <= trimmed then rest else !IsTableHeader(trimmed) && (DottedKey(trimmed) || rest)
  }

  /** The scan over lines without their newlines is the scan over whole lines. */
  lemma {:induction false} RefusedByLines(s: string)
    ensures Refused(s) == RefusedLines(Lines(s))
  {
    var i := LineEnd(s);
    if i == |s| {
      if s == "" { NoLines(); EmptyAccepted(); }
    } else {
      hide RefusedLines, TrimSpace, RefusedHead;
      RefusedByLines(s[i + 1..]);
      assert s[..i + 1] == s[..i] + "\n";
      TrimNewline(s[..i]);
      RefusedCons(s[..i], SplitNewline(s[i + 1..]));
      RefusedCons(s[..i + 1], Lines(s[i + 1..]));
    }
  }

  lemma EmptyAccepted()
    ensures !RefusedLines(SplitNewline("")) && !RefusedLines([])
  {
    assert TrimSpace("") == "";
    assert SplitNewline("") == [""] && [""][1..] == [];
  }

  ghost predicate NoVoice(ls: seq<string>) {
    forall j :: 0 <= j < |ls| ==> !VoiceLine(ls[j])
  }

  ghost predicate AllWhole(ls: seq<string>) {
    forall j :: 0 <= j < |ls| ==> Whole(ls[j])
  }

  lemma NoneNoVoice(ls: seq<string>)
    requires Section(ls).None?
    ensures NoVoice(ls)
  {
  }

  /** Text whose last line is complete, and a blank line. */
  lemma BlankFramed(s: string)
    requires s != "" && s[|s| - 1] == '\n' && NoVoice(Lines(s))
    ensures NoVoice(Lines(s + "\n")) && AllWhole(Lines(s + "\n"))
    ensures RefusedLines(Lines(s + "\n")) == RefusedLines(Lines(s))
  {
    hide VoiceLine, BlankLine, Lines, RefusedLines, Whole, TableLine;
    NewlineIsBlank();
    AddBlank(s);
    LastLine(s);
    RefusedCut(Lines(s), "\n", []);
    WithBlank(Lines(s));
  }

  lemma WithBlank(ls: seq<string>)
    requires NoVoice(ls) && AllWhole(ls)
    ensures NoVoice(ls + ["\n"]) && AllWhole(ls + ["\n"]) && ls + ["\n"] + [] == ls + ["\n"]
  {
    hide VoiceLine, Whole;
    NewlineIsBlank();
  }

  lemma CompletedFramed(s: string)
    requires s != "" && s[|s| - 1] != '\n' && NoVoice(Lines(s))
    ensures NoVoice(Lines(s + "\n")) && RefusedLines(Lines(s + "\n")) == RefusedLines(Lines(s))
  {
    hide Lines, IsVoiceHeader, TrimSpace, RefusedLines;
    LastLine(s);
    var ls := Lines(s);
    TrimNewline(ls[|ls| - 1]);
    RefusedTrimmed(Lines(s + "\n"), ls);
  }

  /** Without a section: the old lines, the last one completed, and a blank one. */
  lemma AbsentFramed(body: string)
    requires Section(Lines(body)).None?
    ensures Framed(Frame(body).0, Frame(body).1)
    ensures Join(Frame(body).0) == body + Separator(body)
    ensures RefusedLines(Frame(body).0) == RefusedLines(Lines(body))
  {
    hide VoiceLine, TableLine, BlankLine, Whole, Lines, Section, RefusedLines;
    NoneNoVoice(Lines(body));
    JoinLines(body + Separator(body));
    if body == "" {
      assert body + Separator(body) == "";
      NoLines();
    } else if body[|body| - 1] == '\n' {
      BlankFramed(body);
    } else {
      CompletedFramed(body);
      BlankFramed(body + "\n");
      assert body + "\n\n" == body + "\n" + "\n";
    }
    FramedAlone(Frame(body).0);
  }

  lemma NoLines()
    ensures Lines("") == []
  {
  }

  lemma FramedAlone(before: seq<string>)
    requires NoVoice(before) && AllWhole(before)
    ensures Framed(before, [])
  {
  }

  /** With one: the lines before its header and from its trailing blank lines on. */
  lemma FoundFramed(body: string)
    requires Section(Lines(body)).Some?
    ensures var (i, k) := Section(Lines(body)).value;
      && i < k <= |Lines(body)| && Frame(body) == (Lines(body)[..i], Lines(body)[k..])
      && Span(body) == Some((|Join(Lines(body)[..i])|, |Join(Lines(body)[..k])|))
      && body == Join(Lines(body)[..i]) + Join(Lines(body)[i..k]) + Join(Lines(body)[k..])
    ensures Framed(Frame(body).0, Frame(body).1)
    ensures RefusedLines(Frame(body).0) == RefusedLines(Lines(body))
  {
    hide VoiceLine, TableLine, BlankLine, Whole, Lines, RefusedLines, Section, Proper, Framed;
    var ls := Lines(body);
    var (i, k) := Section(ls).value;
    LinesProper(body);
    var n := SectionIsLaid(ls);
    CutInThree(body, i, k);
    assert ls == ls[..i] + [ls[i]] + ls[i + 1..];
    VoiceIsTable(ls[i]);
    RefusedCut(ls[..i], ls[i], ls[i + 1..]);
    FrameOf(ls, i, k, n);
  }

  lemma CutInThree(body: string, i: nat, k: nat)
    requires i <= k <= |Lines(body)|
    ensures body == Join(Lines(body)[..i]) + Join(Lines(body)[i..k]) + Join(Lines(body)[k..])
  {
    hide Lines, Join;
    var ls := Lines(body);
    JoinLines(body);
    assert ls == ls[..i] + ls[i..k] + ls[k..];
    JoinAppend(ls[..i] + ls[i..k], ls[k..]);
    JoinAppend(ls[..i], ls[i..k]);
  }

  lemma VoiceIsTable(line: string)
    requires VoiceLine(line)
    ensures TableLine(line)
  {
  }

  lemma FrameOf(ls: seq<string>, i: nat, k: nat, n: nat)
    requires Proper(ls) && Laid(ls, i, k, n)
    ensures Framed(ls[..i], ls[k..])
  {
    hide VoiceLine, TableLine, BlankLine;
    var after := ls[k..];
    assert forall j :: 0 <= j < |after| ==> after[j] == ls[k + j];
    if n < |ls| && BlankLine(ls[n]) { BlankIsNoTable(ls[n]); }
    assert FirstAt(after, TextLine, 0) == n - k;
  }

  /** Every save keeps the frame: the text is the frame with the new section in it, and splitting it
      gives the frame's lines with the section's lines between them. */
  lemma SpliceFrame(body: string, block: string)
    ensures Framed(Frame(body).0, Frame(body).1)
    ensures Splice(body, block) == Join(Frame(body).0) + block + Join(Frame(body).1)
    ensures RefusedLines(Frame(body).0) == Refused(body)
  {
    hide Lines, Join, RefusedLines, Framed, Separator, Refused;
    RefusedByLines(body);
    if Section(Lines(body)).None? {
      AbsentFramed(body);
      NothingJoined();
    } else {
      FoundFramed(body);
      SpanSlices(body, Section(Lines(body)).value.0, Section(Lines(body)).value.1);
    }
  }

  /** The section just saved is found again, and it is exactly what was written. */
  lemma SavedIsFound(body: string, v: Voice, quote: string -> string)
    requires OneLine(quote)
    ensures var out := Splice(body, Render(v, quote)); var (before, after) := Frame(body);
      && Lines(out) == before + Block(v, quote) + after
      && Frame(out) == (before, after)
      && Span(out) == Some((|Join(before)|, |Join(before)| + |Render(v, quote)|))
  {
    hide VoiceLine, TableLine, BlankLine, Section, Render, KeyLines, Block, OneLine, Lines, Splice, RefusedLines, Frame;
    var (before, after) := Frame(body);
    SpliceFrame(body, Render(v, quote));
    BlockJoins(v, quote);
    BlockShape(v, quote);
    var b := Block(v, quote);
    var ls := before + b + after;
    JoinAppend(before + b, after);
    JoinAppend(before, b);
    assert Proper(ls);
    LinesJoin(ls);
    SavedIsLaid(before, v, quote, after, FirstAt(after, TextLine, 0));
    assert ls[..|before|] == before && ls[..|before| + |b|] == before + b && ls[|before| + |b|..] == after;
    FrameFrom(Splice(body, Render(v, quote)), |before|, |before| + |b|);
  }

  lemma FrameFrom(out: string, i: nat, k: nat)
    requires Section(Lines(out)) == Some((i, k)) && i <= k <= |Lines(out)|
    ensures Frame(out) == (Lines(out)[..i], Lines(out)[k..])
    ensures Span(out) == Some((|Join(Lines(out)[..i])|, |Join(Lines(out)[..k])|))
  {
    hide Section, Lines;
  }

  /** The last save wins, whatever was saved before. */
  lemma SpliceTwice(body: string, v1: Voice, v2: Voice, quote: string -> string)
    requires OneLine(quote)
    ensures Splice(Splice(body, Render(v1, quote)), Render(v2, quote)) == Splice(body, Render(v2, quote))
  {
    hide Splice, Render, Frame, Span, Framed, Refused, RefusedLines;
    SavedIsFound(body, v1, quote);
    SpliceFrame(body, Render(v2, quote));
    SpliceFrame(Splice(body, Render(v1, quote)), Render(v2, quote));
  }

  /** A saved text is refused exactly when the text before was: a save never makes one refused. */
  lemma SpliceAccepted(body: string, v: Voice, quote: string -> string)
    requires OneLine(quote)
    ensures Refused(Splice(body, Render(v, quote))) == Refused(body)
  {
    hide Splice, Render, Frame, Span, Framed, Refused, RefusedLines;
    SavedIsFound(body, v, quote);
    SpliceFrame(body, Render(v, quote));
    SpliceFrame(Splice(body, Render(v, quote)), Render(v, quote));
  }

  lemma Slices(p: string, m: string, q: string)
    ensures (p + m + q)[..|p|] == p && (p + m + q)[|p| + |m|..] == q
  {
    assert (p + m + q)[|p + m|..] == q;
  }

  /** A save changes nothing outside the span found: from the first header of the section to the end
      of its last line with text. The blank lines before the next header stay. */
  lemma OutsideUnchanged(body: string, block: string) returns (i: nat, k: nat, n: nat)
    ensures Span(body).None? ==> NoVoice(Lines(body)) && Splice(body, block) == body + Separator(body) + block
    ensures Span(body).Some? ==>
      var (start, end) := Span(body).value;
      && start <= end <= |body|
      && Splice(body, block) == body[..start] + block + body[end..]
      && Laid(Lines(body), i, k, n)
      && body[..start] == Join(Lines(body)[..i]) && body[end..] == Join(Lines(body)[k..])
  {
    hide Lines, Join, Framed, RefusedLines, VoiceLine, Separator, Section, Laid, NoVoice;
    i, k, n := 0, 0, 0;
    if Section(Lines(body)).None? {
      NoneNoVoice(Lines(body));
    } else {
      FoundFramed(body);
      i, k := Section(Lines(body)).value.0, Section(Lines(body)).value.1;
      n := SectionIsLaid(Lines(body));
      SpanSlices(body, i, k);
    }
  }

  lemma SpanSlices(body: string, i: nat, k: nat)
    requires i <= k <= |Lines(body)|
    ensures var start, end := |Join(Lines(body)[..i])|, |Join(Lines(body)[..k])|;
      start <= end <= |body| && body[..start] == Join(Lines(body)[..i]) && body[end..] == Join(Lines(body)[k..])
  {
    hide Lines, Join;
    CutInThree(body, i, k);
    var p, m, q := Join(Lines(body)[..i]), Join(Lines(body)[i..k]), Join(Lines(body)[k..]);
    JoinAppend(Lines(body)[..i], Lines(body)[i..k]);
    assert Lines(body)[..i] + Lines(body)[i..k] == Lines(body)[..k];
    Slices(p, m, q);
  }

  /** Refused means a dotted key of the section with no table header before it. */
  ghost predicate KeyBeforeTables(ls: seq<string>) {
    exists j :: 0 <= j < |ls| && DottedKey(TrimSpace(ls[j])) && forall m :: 0 <= m < j ==> !TableLine(ls[m])
  }

  lemma {:induction false} RefusedMeans(ls: seq<string>)
    ensures RefusedLines(ls) <==> KeyBeforeTables(ls)
  {
    if ls != [] {
      hide RefusedLines, TrimSpace, KeyBeforeTables;
      RefusedMeans(ls[1..]);
      RefusedCons(ls[0], ls[1..]);
      KeyCons(ls[0], ls[1..]);
      assert ls == [ls[0]] + ls[1..];
    }
  }

  lemma KeyCons(line: string, rest: seq<string>)
    ensures KeyBeforeTables([line] + rest) <==> RefusedHead(TrimSpace(line), KeyBeforeTables(rest))
  {
    hide TrimSpace, KeyBeforeTables, DottedKey;
    HeadsDiffer(TrimSpace(line));
    if DottedKey(TrimSpace(line)) {
      KeyFirst(line, rest);
    } else if KeyBeforeTables([line] + rest) {
      KeyEarlier(line, rest);
    }
    if KeyBeforeTables(rest) && !TableLine(line) { KeyLater(line, rest); }
  }

  /** Comments, headers and dotted keys start differently. */
  lemma HeadsDiffer(trimmed: string)
    ensures DottedKey(trimmed) ==> trimmed != "" && !("#" <= trimmed) && !IsTableHeader(trimmed)
    ensures trimmed == "" || "#" <= trimmed ==> !IsTableHeader(trimmed)
  {
    if trimmed != "" {
      var c := trimmed[0];
      assert "#" <= trimmed ==> "#"[0] == c;
      assert "[" <= trimmed ==> "["[0] == c;
      assert "voice." <= trimmed ==> "voice."[0] == c;
      assert "\"voice\"." <= trimmed ==> "\"voice\"."[0] == c;
    }
  }

  lemma KeyFirst(line: string, rest: seq<string>)
    requires DottedKey(TrimSpace(line))
    ensures KeyBeforeTables([line] + rest)
  {
    hide TrimSpace;
    assert DottedKey(TrimSpace(([line] + rest)[0]));
  }

  lemma KeyEarlier(line: string, rest: seq<string>)
    requires KeyBeforeTables([line] + rest) && !DottedKey(TrimSpace(line))
    ensures !TableLine(line) && KeyBeforeTables(rest)
  {
    hide TableLine, TrimSpace, DottedKey;
    var ls := [line] + rest;
    var j :| 0 <= j < |ls| && DottedKey(TrimSpace(ls[j])) && forall m :: 0 <= m < j ==> !TableLine(ls[m]);
    assert ls[0] == line;
    assert ls[j] == rest[j - 1];
    forall m | 0 <= m < j - 1 ensures !TableLine(rest[m]) { assert ls[m + 1] == rest[m]; }
  }

  lemma KeyLater(line: string, rest: seq<string>)
    requires KeyBeforeTables(rest) && !TableLine(line)
    ensures KeyBeforeTables([line] + rest)
  {
    hide TableLine, TrimSpace, DottedKey;
    var ls := [line] + rest;
    assert ls[0] == line;
    var j :| 0 <= j < |rest| && DottedKey(TrimSpace(rest[j])) && forall m :: 0 <= m < j ==> !TableLine(rest[m]);
    assert ls[j + 1] == rest[j];
    forall m | 0 <= m < j + 1 ensures !TableLine(ls[m]) {
      if m > 0 { assert ls[m] == rest[m - 1]; }
    }
  }

  // ---------------------------------------------------------------- the loops

  method SplitLinesKeepingEnds(text: string) returns (out: seq<string>)
    ensures out == Lines(text) && Join(out) == text
  {
    JoinLines(text);
    out := [];
    var s := text;
    while |s| > 0
      invariant out + Lines(s) == Lines(text)
      decreases |s|
    {
      var i := LineEnd(s);
      if i == |s| {
        out := out + [s];
        break;
      }
      out := out + [s[..i + 1]];
      s := s[i + 1..];
    }
  }

  lemma SizeStep(ls: seq<string>, n: nat)
    requires n < |ls|
    ensures Size(ls, n + 1) == Size(ls, n) + |ls[n]|
  {
    JoinAppend(ls[..n], [ls[n]]);
    assert ls[..n + 1] == ls[..n] + [ls[n]];
    assert Join([ls[n]]) == ls[n] + Join([]) == ls[n];
  }

  method FindVoiceSection(body: string) returns (start: nat, end: nat, found: bool)
    ensures Span(body) == if found then Some((start, end)) else None
    ensures !found ==> start == 0 && end == 0
  {
    hide Lines, Join, IsVoiceHeader, IsTableHeader, TrimSpace;
    var lines := SplitLinesKeepingEnds(body);
    var offset, blankRun := 0, 0;
    start, end, found := 0, 0, false;
    ghost var header := 0;
    var n := 0;
    assert lines[..0] == [];
    NothingJoined();
    while n < |lines|
      invariant 0 <= n <= |lines| && offset == Size(lines, n)
      invariant blankRun == offset - Size(lines, TextEnd(lines, n))
      invariant !found ==> start == 0 && end == 0 && forall j :: 0 <= j < n ==> !VoiceLine(lines[j])
      invariant found ==> header < n && start == Size(lines, header) && VoiceLine(lines[header])
      invariant found ==> forall j :: 0 <= j < header ==> !VoiceLine(lines[j])
      invariant found ==> forall j :: header < j < n ==> !TableLine(lines[j])
    {
      var trimmed := TrimSpace(lines[n]);
      if !found {
        if IsVoiceHeader(trimmed) {
          start, found := offset, true;
          header := n;
        }
      } else if IsTableHeader(trimmed) {
        SectionAt(lines, header, n);
        end := offset - blankRun;
        return;
      }
      SizeStep(lines, n);
      if trimmed == "" { blankRun := blankRun + |lines[n]|; } else { blankRun := 0; }
      offset := offset + |lines[n]|;
      n := n + 1;
    }
    assert lines[..n] == lines;
    if found {
      SectionAt(lines, header, n);
      end := |body| - blankRun;
    } else {
      assert FirstAt(lines, VoiceLine, 0) == |lines|;
    }
  }

  lemma NothingJoined()
    ensures Join([]) == ""
  {
  }

  lemma SectionAt(ls: seq<string>, i: nat, n: nat)
    requires i < n <= |ls| && VoiceLine(ls[i]) && (forall j :: 0 <= j < i ==> !VoiceLine(ls[j]))
    requires (forall j :: i < j < n ==> !TableLine(ls[j])) && (n < |ls| ==> TableLine(ls[n]))
    ensures Section(ls) == Some((i, TextEnd(ls, n)))
  {
    assert FirstAt(ls, VoiceLine, 0) == i;
    assert FirstAt(ls, TableLine, i + 1) == n;
  }

  method RefuseDottedVoiceKeys(body: string) returns (refused: bool)
    ensures refused == Refused(body)
  {
    hide SplitNewline, IsTableHeader, TrimSpace, DottedKey;
    var lines := SplitNewline(body);
    var n := 0;
    while n < |lines|
      invariant 0 <= n <= |lines| && RefusedLines(lines[n..]) == Refused(body)
    {
      var trimmed := TrimSpace(lines[n]);
      assert lines[n..][1..] == lines[n + 1..];
      n := n + 1;
      if trimmed == "" || "#" <= trimmed { continue; }
      if IsTableHeader(trimmed) { return false; }
      if DottedKey(trimmed) { return true; }
    }
    return false;
  }

  lemma JoinOne(ls: seq<string>, line: string)
    ensures Join(ls + [line]) == Join(ls) + line
  {
    JoinAppend(ls, [line]);
    assert Join([line]) == line + Join([]) == line;
  }

  method AppendOptional(b: string, name: string, value: string, quote: string -> string, ghost ls: seq<string>)
    returns (r: string)
    requires b == "[voice]\n" + Join(ls)
    ensures r == "[voice]\n" + Join(ls + Optional(name, value, quote))
  {
    hide Join, KeyLine;
    r := b;
    if value != "" {
      JoinOne(ls, KeyLine(name, quote(value)));
      r := r + KeyLine(name, quote(value));
    } else {
      assert ls + [] == ls;
    }
  }

  method RenderVoiceSection(v: Voice, quote: string -> string) returns (b: string)
    ensures b == Render(v, quote)
    ensures OneLine(quote) ==> Lines(b)[..1] == [HEADER] && Says(Lines(b)[1..], v, quote)
  {
    hide Join, KeyLine, Optional, Says, OneLine, Lines;
    if OneLine(quote) { RenderSays(v, quote); }
    b := "[voice]\n" + KeyLine("enabled", if v.enabled then "true" else "false");
    ghost var ls := [KeyLine("enabled", if v.enabled then "true" else "false")];
    JoinOne([], ls[0]);
    NothingJoined();
    assert [] + [ls[0]] == ls;
    b := AppendOptional(b, "endpoint", v.endpoint, quote, ls);
    ls := ls + Optional("endpoint", v.endpoint, quote);
    b := AppendOptional(b, "model", v.model, quote, ls);
    ls := ls + Optional("model", v.model, quote);
    b := AppendOptional(b, "transcription_model", v.transcriptionModel, quote, ls);
    ls := ls + Optional("transcription_model", v.transcriptionModel, quote);
    b := AppendOptional(b, "auth_mode", v.authMode, quote, ls);
    ls := ls + Optional("auth_mode", v.authMode, quote);
    b := AppendOptional(b, "entra_scope", v.entraScope, quote, ls);
    ls := ls + Optional("entra_scope", v.entraScope, quote);
    b := AppendOptional(b, "api_key_env", v.apiKeyEnv, quote, ls);
    ls := ls + Optional("api_key_env", v.apiKeyEnv, quote);
    if v.apiKeyStored {
      JoinOne(ls, KeyLine("api_key_stored", "true"));
      b := b + KeyLine("api_key_stored", "true");
      ls := ls + [KeyLine("api_key_stored", "true")];
    } else {
      assert ls + [] == ls;
    }
    b := AppendOptional(b, "voice", v.voice, quote, ls);
  }

  datatype Problem = DottedVoiceKey

  /** What a save makes of a file; `None` is a file that does not exist. */
  function Saved(file: Option<string>, block: string): Result<string, Problem> {
    match file
    case None => Success(block)
    case Some(body) => if Refused(body) then Failure(DottedVoiceKey) else Success(Splice(body, block))
  }

  /** The save as a whole: what it writes is found again and says what was asked for. */
  method WriteVoiceSection(file: Option<string>, v: Voice, quote: string -> string) returns (r: Result<string, Problem>)
    ensures r == Saved(file, Render(v, quote))
    ensures r.Failure? <==> file.Some? && Refused(file.value)
    ensures r.Success? && OneLine(quote) ==> SectionSays(r.value, v, quote)
  {
    hide Render, Refused, Lines, Section, SectionSays, OneLine;
    if OneLine(quote) {
      SavedSays(if file.None? then "" else file.value, v, quote);
      EmptyFile(Render(v, quote));
    }
    var block := RenderVoiceSection(v, quote);
    if file.None? { return Success(block); }
    var body := file.value;
    var refused := RefuseDottedVoiceKeys(body);
    if refused { return Failure(DottedVoiceKey); }
    var start, end, found := FindVoiceSection(body);
    if found {
      ghost var i, k, n := OutsideUnchanged(body, block);
      return Success(body[..start] + block + body[end..]);
    }
    var sep := "";
    if body != "" && body[|body| - 1] != '\n' { sep := "\n"; }
    if body != "" { sep := sep + "\n"; }
    assert "\n" + "\n" == "\n\n" && "" + "\n" == "\n";
    assert sep == Separator(body);
    return Success(body + sep + block);
  }

  /** Of two saves that are not refused the second leaves the file as if the first had not been;
      and after a save that was written no save is refused. */
  lemma SaveTwice(file: Option<string>, v1: Voice, v2: Voice, quote: string -> string)
    requires OneLine(quote) && Saved(file, Render(v1, quote)).Success?
    ensures Saved(Some(Saved(file, Render(v1, quote)).value), Render(v2, quote)) == Saved(file, Render(v2, quote))
    ensures Saved(file, Render(v2, quote)).Success?
  {
    hide Render, Refused, Splice, OneLine;
    var body := if file.None? then "" else file.value;
    EmptyFile(Render(v1, quote));
    EmptyFile(Render(v2, quote));
    SpliceAccepted(body, v1, quote);
    SpliceTwice(body, v1, v2, quote);
  }

  lemma EmptyFile(block: string)
    ensures Splice("", block) == block && !Refused("")
  {
    var none: seq<string> := [];
    assert FirstAt(none, VoiceLine, 0) == 0;
    assert SplitNewline("") == [""] && TrimSpace("") == "";
    assert [""][1..] == [];
  }

  // ---------------------------------------------------------------- reading a section back

  /** Where the first blank of a text is, or its length. */
  function WordEnd(s: string): (k: nat)
    ensures k <= |s| && ' ' !in s[..k] && (k < |s| ==> s[k] == ' ')
  {
    if s == "" || s[0] == ' ' then 0
    else
      var k := 1 + WordEnd(s[1..]);
      assert s[..k] == [s[0]] + s[1..][..k - 1];
      k
  }

  /** A line "  name = value" as its name and its value. */
  function ReadLine(line: string): Option<(string, string)> {
    if !("  " <= line) || line[|line| - 1] != '\n' then None
    else
      var rest := line[2..];
      var k := WordEnd(rest);
      if k + 3 < |rest| && rest[k..k + 3] == " = " then Some((rest[..k], rest[k + 3..|rest| - 1])) else None
  }

  /** What one line gives to `name`. */
  function ValueOn(line: string, name: string): seq<string> {
    var r := ReadLine(line);
    if r.Some? && r.value.0 == name then [r.value.1] else []
  }

  /** The values given to `name`, line by line. */
  function Values(ls: seq<string>, name: string): seq<string> {
    if ls == [] then [] else ValueOn(ls[0], name) + Values(ls[1..], name)
  }

  /** At most one value: the quoted text unless it is empty. */
  function Quoted(text: string, quote: string -> string): seq<string> {
    if text == "" then [] else [quote(text)]
  }

  const NAMES := {"enabled", "endpoint", "model", "transcription_model", "auth_mode", "entra_scope", "api_key_env",
                  "api_key_stored", "voice"}

  /** The lines say exactly what `v` is: every line is one of its settings, none is given twice, and each
      has its own value. */
  ghost predicate Says(ls: seq<string>, v: Voice, quote: string -> string) {
    && (forall j :: 0 <= j < |ls| ==> ReadLine(ls[j]).Some? && ReadLine(ls[j]).value.0 in NAMES)
    && Values(ls, "enabled") == [if v.enabled then "true" else "false"]
    && Values(ls, "endpoint") == Quoted(v.endpoint, quote)
    && Values(ls, "model") == Quoted(v.model, quote)
    && Values(ls, "transcription_model") == Quoted(v.transcriptionModel, quote)
    && Values(ls, "auth_mode") == Quoted(v.authMode, quote)
    && Values(ls, "entra_scope") == Quoted(v.entraScope, quote)
    && Values(ls, "api_key_env") == Quoted(v.apiKeyEnv, quote)
    && Values(ls, "api_key_stored") == (if v.apiKeyStored then ["true"] else [])
    && Values(ls, "voice") == Quoted(v.voice, quote)
  }

  lemma WordEndIs(word: string, rest: string)
    requires ' ' !in word && rest != "" && rest[0] == ' '
    ensures WordEnd(word + rest) == |word|
  {
    var s := word + rest;
    var k := WordEnd(s);
    assert forall j :: 0 <= j < |word| ==> s[j] == word[j];
    assert s[|word|] == ' ';
    assert forall j :: 0 <= j < k ==> s[..k][j] == s[j];
  }

  lemma KeyLineReads(name: string, value: string)
    requires ' ' !in name
    ensures ReadLine(KeyLine(name, value)) == Some((name, value))
  {
    var line := KeyLine(name, value);
    var rest := name + (" = " + value + "\n");
    assert line == "  " + rest && line[2..] == rest;
    WordEndIs(name, " = " + value + "\n");
    var k := |name|;
    assert rest[k..k + 3] == " = ";
    assert rest[k + 3..|rest| - 1] == value;
  }

  lemma {:induction false} ValuesAppend(a: seq<string>, b: seq<string>, name: string)
    ensures Values(a + b, name) == Values(a, name) + Values(b, name)
  {
    hide ValueOn;
    if a == [] {
      assert a + b == b;
    } else {
      ValuesAppend(a[1..], b, name);
      assert (a + b)[1..] == a[1..] + b && (a + b)[0] == a[0];
      assert ValueOn(a[0], name) + (Values(a[1..], name) + Values(b, name)) == Values(a, name) + Values(b, name);
    }
  }

  /** The lines of one setting: one under its name and none under any other. */
  ghost predicate Gives(ls: seq<string>, name: string, values: seq<string>) {
    && (forall j :: 0 <= j < |ls| ==> ReadLine(ls[j]).Some? && ReadLine(ls[j]).value.0 == name)
    && Values(ls, name) == values
    && forall other :: other != name ==> Values(ls, other) == []
  }

  lemma OneGives(name: string, value: string)
    requires ' ' !in name
    ensures Gives([KeyLine(name, value)], name, [value])
  {
    hide ReadLine, KeyLine;
    KeyLineReads(name, value);
    assert forall other :: Values([KeyLine(name, value)], other) == if other == name then [value] else [] by {
      forall other ensures Values([KeyLine(name, value)], other) == if other == name then [value] else [] {
        assert Values([KeyLine(name, value)][1..], other) == [];
      }
    }
  }

  lemma OptionalGives(name: string, text: string, quote: string -> string)
    requires ' ' !in name
    ensures Gives(Optional(name, text, quote), name, Quoted(text, quote))
  {
    hide ReadLine, KeyLine;
    if text != "" { OneGives(name, quote(text)); }
  }

  /** The lines give each name of `table` its values, and read as nothing else. */
  ghost predicate Table(ls: seq<string>, table: map<string, seq<string>>) {
    && (forall j :: 0 <= j < |ls| ==> ReadLine(ls[j]).Some? && ReadLine(ls[j]).value.0 in table)
    && forall name :: Values(ls, name) == if name in table then table[name] else []
  }

  lemma TableMore(ls: seq<string>, table: map<string, seq<string>>, more: seq<string>, name: string,
      values: seq<string>)
    requires Table(ls, table) && Gives(more, name, values) && name !in table
    ensures Table(ls + more, table[name := values])
  {
    hide ReadLine, Values;
    forall other ensures Values(ls + more, other) == Values(ls, other) + Values(more, other) {
      ValuesAppend(ls, more, other);
    }
  }

  lemma TableOptional(ls: seq<string>, table: map<string, seq<string>>, name: string, text: string,
      quote: string -> string)
    requires Table(ls, table) && ' ' !in name && name !in table
    ensures Table(ls + Optional(name, text, quote), table[name := Quoted(text, quote)])
  {
    hide Table, Gives;
    OptionalGives(name, text, quote);
    TableMore(ls, table, Optional(name, text, quote), name, Quoted(text, quote));
  }

  lemma TableFlag(ls: seq<string>, table: map<string, seq<string>>, name: string, on: bool)
    requires Table(ls, table) && ' ' !in name && name !in table
    ensures Table(ls + Flag(name, on), table[name := if on then ["true"] else []])
  {
    hide Table;
    if on { OneGives(name, "true"); } else { NothingGives(name); }
    TableMore(ls, table, Flag(name, on), name, if on then ["true"] else []);
  }

  lemma NothingGives(name: string)
    ensures Gives([], name, [])
  {
  }

  lemma NothingTable()
    ensures Table([], map[])
  {
  }

  /** The settings of a save, read back: each under its own name, and no other. */
  lemma KeyLinesSay(v: Voice, quote: string -> string)
    ensures Says(KeyLines(v, quote), v, quote)
  {
    hide Table, Values, ReadLine, Quoted, Optional, KeyLine, Flag;
    var flag := if v.enabled then "true" else "false";
    OneGives("enabled", flag);
    NothingTable();
    TableMore([], map[], [KeyLine("enabled", flag)], "enabled", [flag]);
    var t1 := map["enabled" := [flag]];
    var l1 := [KeyLine("enabled", flag)];
    assert [] + l1 == l1;
    TableOptional(l1, t1, "endpoint", v.endpoint, quote);
    var l2 := l1 + Optional("endpoint", v.endpoint, quote);
    var t2 := t1["endpoint" := Quoted(v.endpoint, quote)];
    TableOptional(l2, t2, "model", v.model, quote);
    var l3 := l2 + Optional("model", v.model, quote);
    var t3 := t2["model" := Quoted(v.model, quote)];
    TableOptional(l3, t3, "transcription_model", v.transcriptionModel, quote);
    var l4 := l3 + Optional("transcription_model", v.transcriptionModel, quote);
    var t4 := t3["transcription_model" := Quoted(v.transcriptionModel, quote)];
    TableOptional(l4, t4, "auth_mode", v.authMode, quote);
    RestSays(v, quote, l4 + Optional("auth_mode", v.authMode, quote), t4["auth_mode" := Quoted(v.authMode, quote)]);
  }

  lemma RestSays(v: Voice, quote: string -> string, l5: seq<string>, t5: map<string, seq<string>>)
    requires Table(l5, t5)
    requires t5 == map["enabled" := [if v.enabled then "true" else "false"], "endpoint" := Quoted(v.endpoint, quote),
                       "model" := Quoted(v.model, quote),
                       "transcription_model" := Quoted(v.transcriptionModel, quote),
                       "auth_mode" := Quoted(v.authMode, quote)]
    ensures Says(l5 + Optional("entra_scope", v.entraScope, quote) + Optional("api_key_env", v.apiKeyEnv, quote)
      + Flag("api_key_stored", v.apiKeyStored) + Optional("voice", v.voice, quote), v, quote)
  {
    hide Table, Values, ReadLine, Quoted, Optional, KeyLine, Flag, Says;
    TableOptional(l5, t5, "entra_scope", v.entraScope, quote);
    var l6 := l5 + Optional("entra_scope", v.entraScope, quote);
    var t6 := t5["entra_scope" := Quoted(v.entraScope, quote)];
    TableOptional(l6, t6, "api_key_env", v.apiKeyEnv, quote);
    var l7 := l6 + Optional("api_key_env", v.apiKeyEnv, quote);
    var t7 := t6["api_key_env" := Quoted(v.apiKeyEnv, quote)];
    TableFlag(l7, t7, "api_key_stored", v.apiKeyStored);
    var l8 := l7 + Flag("api_key_stored", v.apiKeyStored);
    var t8 := t7["api_key_stored" := if v.apiKeyStored then ["true"] else []];
    TableOptional(l8, t8, "voice", v.voice, quote);
    TableSays(v, quote, l8 + Optional("voice", v.voice, quote), t8["voice" := Quoted(v.voice, quote)]);
  }

  lemma TableSays(v: Voice, quote: string -> string, ls: seq<string>, table: map<string, seq<string>>)
    requires Table(ls, table)
    requires table == map["enabled" := [if v.enabled then "true" else "false"], "endpoint" := Quoted(v.endpoint, quote),
                          "model" := Quoted(v.model, quote),
                          "transcription_model" := Quoted(v.transcriptionModel, quote),
                          "auth_mode" := Quoted(v.authMode, quote), "entra_scope" := Quoted(v.entraScope, quote),
                          "api_key_env" := Quoted(v.apiKeyEnv, quote),
                          "api_key_stored" := if v.apiKeyStored then ["true"] else [],
                          "voice" := Quoted(v.voice, quote)]
    ensures Says(ls, v, quote)
  {
    hide Values, ReadLine, Quoted;
  }

  /** The section of a text says exactly what `v` is. */
  ghost predicate SectionSays(text: string, v: Voice, quote: string -> string) {
    var ls := Lines(text);
    && Section(ls).Some? && Section(ls).value.0 < Section(ls).value.1 <= |ls|
    && Says(ls[Section(ls).value.0 + 1..Section(ls).value.1], v, quote)
  }

  /** After a save the section that is found gives every setting its own value and nothing else. */
  lemma SavedSays(body: string, v: Voice, quote: string -> string)
    requires OneLine(quote)
    ensures SectionSays(Splice(body, Render(v, quote)), v, quote)
  {
    hide Splice, Render, Frame, Span, Section, Framed, Lines, KeyLines, Says, FirstAt;
    hide VoiceLine, TableLine, BlankLine, OneLine;
    var out := Splice(body, Render(v, quote));
    var (before, after) := Frame(body);
    SavedIsFound(body, v, quote);
    SpliceFrame(body, Render(v, quote));
    FramedParts(before, after);
    SavedIsLaid(before, v, quote, after, FirstAt(after, TextLine, 0));
    KeyLinesSay(v, quote);
    assert Lines(out)[|before| + 1..|before| + |Block(v, quote)|] == KeyLines(v, quote);
  }

  lemma FramedParts(before: seq<string>, after: seq<string>)
    requires Framed(before, after)
    ensures var n := FirstAt(after, TextLine, 0);
      && (forall j :: 0 <= j < |before| ==> !VoiceLine(before[j]))
      && (forall j :: 0 <= j < n ==> BlankLine(after[j])) && (n < |after| ==> TableLine(after[n]))
  {
    hide VoiceLine, TableLine, BlankLine, Whole;
  }

  /** The same of the text that is spliced in. */
  lemma RenderSays(v: Voice, quote: string -> string)
    requires OneLine(quote)
    ensures |Lines(Render(v, quote))| > 0 && Lines(Render(v, quote))[..1] == [HEADER]
    ensures Says(Lines(Render(v, quote))[1..], v, quote)
  {
    hide Render, Lines, KeyLines, Says, Whole, VoiceLine, TableLine, BlankLine, OneLine;
    BlockJoins(v, quote);
    BlockShape(v, quote);
    LinesJoin(Block(v, quote));
    KeyLinesSay(v, quote);
    assert Block(v, quote)[1..] == KeyLines(v, quote);
  }

  /** One text setting: the value of its line with the quotes taken off, or nothing. */
  function TextOf(ls: seq<string>, name: string, unquote: string -> string): string {
    var values := Values(ls, name);
    if values == [] then "" else unquote(values[0])
  }

  /** The settings a section's lines stand for. */
  function ReadVoice(ls: seq<string>, unquote: string -> string): Voice {
    Voice(Values(ls, "enabled") == ["true"], TextOf(ls, "endpoint", unquote), TextOf(ls, "model", unquote),
      TextOf(ls, "transcription_model", unquote), TextOf(ls, "auth_mode", unquote),
      TextOf(ls, "entra_scope", unquote), TextOf(ls, "api_key_env", unquote),
      Values(ls, "api_key_stored") == ["true"], TextOf(ls, "voice", unquote))
  }

  /** Saved settings are read back as they were, for every quoting that can be undone. */
  lemma SayIsRead(ls: seq<string>, v: Voice, quote: string -> string, unquote: string -> string)
    requires Says(ls, v, quote) && forall s: string :: unquote(quote(s)) == s
    ensures ReadVoice(ls, unquote) == v
  {
    hide Values;
  }

  ghost predicate Injective(quote: string -> string) {
    forall s, t :: quote(s) == quote(t) ==> s == t
  }

  lemma SaysOnce(ls: seq<string>, v1: Voice, v2: Voice, quote: string -> string)
    requires Injective(quote) && Says(ls, v1, quote) && Says(ls, v2, quote)
    ensures v1 == v2
  {
    hide Values, ReadLine, Quoted, Injective;
    QuotedOnce(v1.endpoint, v2.endpoint, quote);
    QuotedOnce(v1.model, v2.model, quote);
    QuotedOnce(v1.transcriptionModel, v2.transcriptionModel, quote);
    QuotedOnce(v1.authMode, v2.authMode, quote);
    QuotedOnce(v1.entraScope, v2.entraScope, quote);
    QuotedOnce(v1.apiKeyEnv, v2.apiKeyEnv, quote);
    QuotedOnce(v1.voice, v2.voice, quote);
  }

  lemma QuotedOnce(a: string, b: string, quote: string -> string)
    requires Injective(quote)
    ensures Quoted(a, quote) == Quoted(b, quote) ==> a == b
  {
    assert a != "" && b != "" && Quoted(a, quote) == Quoted(b, quote) ==> Quoted(a, quote)[0] == Quoted(b, quote)[0];
  }

  /** So saves of different settings never leave the same text. */
  lemma SavesDiffer(body: string, v1: Voice, v2: Voice, quote: string -> string)
    requires OneLine(quote) && Injective(quote)
    requires Splice(body, Render(v1, quote)) == Splice(body, Render(v2, quote))
    ensures v1 == v2
  {
    hide Splice, Render, Lines, Section, Says, OneLine, Injective;
    var ls := Lines(Splice(body, Render(v1, quote)));
    SavedSays(body, v1, quote);
    SavedSays(body, v2, quote);
    SaysOnce(ls[Section(ls).value.0 + 1..Section(ls).value.1], v1, v2, quote);
  }

  lemma SeparatedLines(body: string)
    requires body != ""
    ensures |Lines(body + Separator(body))| == |Lines(body)| + 1
    ensures Lines(body + Separator(body))[|Lines(body)|] == "\n"
  {
    hide Lines;
    if body[|body| - 1] == '\n' {
      AddBlank(body);
    } else {
      LastLine(body);
      AddBlank(body + "\n");
      assert body + "\n\n" == body + "\n" + "\n";
    }
  }

  /** A section that is new stands after all there was, and after one more blank line. */
  lemma NewSectionApart(body: string, v: Voice, quote: string -> string)
    requires OneLine(quote) && Section(Lines(body)).None? && body != ""
    ensures var out := Splice(body, Render(v, quote));
      && body <= out && Section(Lines(out)).Some?
      && Section(Lines(out)).value == (|Lines(body)| + 1, |Lines(out)|) && Lines(out)[|Lines(body)|] == "\n"
  {
    hide Splice, Render, Section, Framed, Frame, Span, Block, Lines, KeyLines, FirstAt, Separator;
    hide VoiceLine, TableLine, BlankLine, OneLine;
    SpliceNew(body, Render(v, quote));
    var (before, after) := Frame(body);
    SavedIsFound(body, v, quote);
    SpliceFrame(body, Render(v, quote));
    FramedParts(before, after);
    SavedIsLaid(before, v, quote, after, FirstAt(after, TextLine, 0));
    SeparatedLines(body);
  }

  lemma SpliceNew(body: string, block: string)
    requires Section(Lines(body)).None?
    ensures body <= Splice(body, block) && Frame(body) == (Lines(body + Separator(body)), [])
  {
    hide Lines, Section, Separator;
    assert Splice(body, block) == body + (Separator(body) + block);
  }
}
