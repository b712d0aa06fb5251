/**
 * The settings files of banana_ops/files.py: `write_environment` prints JSON strings, `read_environment` undoes them
 * with shlex.
 */
module EnvironmentFile {
  import opened Basics
  import opened Texts

  // ----- lines -----------------------------------------------------------------------------------

  /** Where `splitlines` breaks lines. */
  predicate Breaks(c: char) {
    c == '\n' || c == '\r' || c == '\U{0B}' || c == '\U{0C}' || '\U{1C}' <= c <= '\U{1E}'
    || c == '\U{85}' || c == '\U{2028}' || c == '\U{2029}'
  }

  function FirstBreak(s: string): (k: nat)
    ensures k <= |s| && (forall i | 0 <= i < k :: !Breaks(s[i])) && (k < |s| ==> Breaks(s[k]))
  {
    if s == "" || Breaks(s[0]) then 0 else 1 + FirstBreak(s[1..])
  }

  /** The lines of a text read with universal newlines: a carriage return and a line feed are one break. */
  function Lines(s: string): seq<string>
    decreases |s|
  {
    if s == "" then []
    else
      var k := FirstBreak(s);
      if k == |s| then [s]
      else [s[..k]] + Lines(s[if s[k] == '\r' && k + 1 < |s| && s[k + 1] == '\n' then k + 2 else k + 1..])
  }

  // ----- shlex -----------------------------------------------------------------------------------

  datatype Mode = Blank | Word | Quoted(quote: char) | Escaped(within: Option<char>)

  /** shlex in POSIX mode, splitting at whitespace, without comments. */
  datatype Lexer = Lexer(mode: Mode, token: string, quoted: bool, tokens: seq<string>)

  predicate Separates(c: char) {
    c == ' ' || c == '\t' || c == '\r' || c == '\n'
  }

  function Feed(l: Lexer, c: char): Lexer {
    match l.mode
    case Blank =>
      if Separates(c) then l
      else if c == '\\' then l.(mode := Escaped(None))
      else if c == '"' || c == '\'' then l.(mode := Quoted(c), quoted := true)
      else l.(mode := Word, token := [c])
    case Word =>
      if Separates(c) then
        if l.token != "" || l.quoted then Lexer(Blank, "", false, l.tokens + [l.token]) else l.(mode := Blank)
      else if c == '\\' then l.(mode := Escaped(None))
      else if c == '"' || c == '\'' then l.(mode := Quoted(c), quoted := true)
      else l.(token := l.token + [c])
    case Quoted(q) =>
      if c == q then l.(mode := Word)
      else if c == '\\' && q == '"' then l.(mode := Escaped(Some(q)))
      else l.(token := l.token + [c])
    case Escaped(None) => l.(mode := Word, token := l.token + [c])
    case Escaped(Some(q)) =>
      l.(mode := Quoted(q), token := l.token + (if c != '\\' && c != q then ['\\'] else []) + [c])
  }

  function FeedAll(l: Lexer, s: string): Lexer
    decreases |s|
  {
    if s == "" then l else FeedAll(Feed(l, s[0]), s[1..])
  }

  /** `shlex.split`; None when a quotation or an escape is not closed. */
  function Split(s: string): Option<seq<string>> {
    var l := FeedAll(Lexer(Blank, "", false, []), s);
    if l.mode.Quoted? || l.mode.Escaped? then None
    else Some(if l.token != "" || l.quoted then l.tokens + [l.token] else l.tokens)
  }

  function Join(tokens: seq<string>): string {
    if tokens == [] then ""
    else if |tokens| == 1 then tokens[0]
    else tokens[0] + " " + Join(tokens[1..])
  }

  // ----- reading ---------------------------------------------------------------------------------

  predicate ValidName(name: string) {
    name != "" && 'A' <= name[0] <= 'Z'
    && forall i | 0 <= i < |name| :: 'A' <= name[i] <= 'Z' || '0' <= name[i] <= '9' || name[i] == '_'
  }

  datatype Meaning = Nothing | Malformed | Assigns(name: string, value: string)

  function FirstEquals(s: string): (k: nat)
    ensures k <= |s| && (forall i | 0 <= i < k :: s[i] != '=') && (k < |s| ==> s[k] == '=')
  {
    if s == "" || s[0] == '=' then 0 else 1 + FirstEquals(s[1..])
  }

  function Value(text: string): string {
    var tokens := Split(text);
    if tokens.Some? then Join(tokens.value) else Strip(text)
  }

  function LineMeaning(raw: string): Meaning {
    var line := Strip(raw);
    if line == "" || line[0] == '#' then Nothing
    else
      var k := FirstEquals(line);
      if k == |line| || !ValidName(line[..k]) then Malformed
      else Assigns(line[..k], Value(line[k + 1..]))
  }

  type Environment = map<string, string>

  function Assigned(lines: seq<string>, output: Environment): Option<Environment> {
    if lines == [] then Some(output)
    else
      match LineMeaning(lines[0])
      case Nothing => Assigned(lines[1..], output)
      case Malformed => None
      case Assigns(name, value) => Assigned(lines[1..], output[name := value])
  }

  /** What a file says; a missing file says nothing. */
  function Meant(file: Option<string>): Option<Environment> {
    if file.None? then Some(map[]) else Assigned(Lines(file.value), map[])
  }

  /** `read_environment`. */
  method ReadEnvironment(file: Option<string>) returns (r: Option<Environment>)
    ensures r == Meant(file)
  {
    var output: Environment := map[];
    if file.None? {
      return Some(output);
    }
    var lines := Lines(file.value);
    for i := 0 to |lines|
      invariant Assigned(lines, map[]) == Assigned(lines[i..], output)
    {
      assert lines[i..][0] == lines[i] && lines[i..][1..] == lines[i + 1..];
      match LineMeaning(lines[i])
      case Nothing =>
      case Malformed => return None;
      case Assigns(name, value) => output := output[name := value];
    }
    return Some(output);
  }

  // ----- writing ---------------------------------------------------------------------------------

  function HexDigit(n: nat): char
    requires n < 16
  {
    if n < 10 then '0' + n as char else 'a' + (n - 10) as char
  }

  /** A character as `json.dumps` prints it within a string, without ensure_ascii. */
  function Escape(c: char): string {
    if c == '"' then "\\\""
    else if c == '\\' then "\\\\"
    else if c == '\n' then "\\n"
    else if c == '\r' then "\\r"
    else if c == '\t' then "\\t"
    else if c == '\U{0C}' then "\\f"
    else if c == '\U{08}' then "\\b"
    else if c < ' ' then "\\u00" + [HexDigit(c as int / 16), HexDigit(c as int % 16)]
    else [c]
  }

  function EscapeAll(s: string): string {
    if s == "" then "" else Escape(s[0]) + EscapeAll(s[1..])
  }

  function JsonString(s: string): string {
    "\"" + EscapeAll(s) + "\""
  }

  predicate Writable(name: string, value: string) {
    ValidName(name) && forall i | 0 <= i < |value| :: value[i] != '\r' && value[i] != '\n' && value[i] != '\U{00}'
  }

  function Printed(values: Environment, names: seq<string>): string
    requires forall i | 0 <= i < |names| :: names[i] in values
  {
    if names == [] then "" else Assignment(names[0], values[names[0]]) + "\n" + Printed(values, names[1..])
  }

  /** The file: at least one line. */
  function Text(values: Environment, names: seq<string>): string
    requires forall i | 0 <= i < |names| :: names[i] in values
  {
    if names == [] then "\n" else Printed(values, names)
  }

  /** One assignment. */
  function Assignment(name: string, value: string): string {
    name + "=" + JsonString(value)
  }

  lemma {:induction false} PrintedAppends(values: Environment, names: seq<string>, name: string)
    requires (forall i | 0 <= i < |names| :: names[i] in values) && name in values
    ensures Printed(values, names + [name]) == Printed(values, names) + (Assignment(name, values[name]) + "\n")
  {
    hide Assignment;
    if names == [] {
      assert names + [name] == [name];
      assert [name][1..] == [];
    } else {
      assert (names + [name])[1..] == names[1..] + [name];
      PrintedAppends(values, names[1..], name);
    }
  }

  /** The least of some names. */
  method Least(names: set<string>) returns (name: string)
    requires names != {}
    ensures name in names && forall other | other in names && other != name :: TextBefore(name, other)
  {
    hide TextBefore;
    name :| name in names;
    var rest := names - {name};
    while rest != {}
      invariant name in names && rest <= names
      invariant forall other | other in names && other != name && other !in rest :: TextBefore(name, other)
      decreases |rest|
    {
      var next :| next in rest;
      TextOrder(name, next);
      if TextBefore(next, name) {
        forall other | other in names && other != name && TextBefore(name, other)
          ensures TextBefore(next, other)
        {
          TextOrderChains(next, name, other);
        }
        name := next;
      }
      rest := rest - {next};
    }
  }

  /** The names of an environment, each once and in order. */
  ghost predicate Sorted(names: seq<string>, values: Environment) {
    && (forall name :: name in names <==> name in values)
    && (forall i, j | 0 <= i < j < |names| :: names[i] != names[j] && TextBefore(names[i], names[j]))
  }

  /** `write_environment`: the text it writes, unless it refuses an assignment. */
  method WriteEnvironment(values: Environment) returns (text: Option<string>, ghost names: seq<string>)
    ensures text.Some? <==> forall name | name in values :: Writable(name, values[name])
    ensures text.Some? ==> Sorted(names, values) && text.value == Text(values, names)
  {
    hide TextBefore, Printed, Writable;
    names := [];
    var rest, printed := values.Keys, "";
    assert Printed(values, []) == "" by {
      PrintedNothing(values);
    }
    while rest != {}
      invariant rest <= values.Keys
      invariant forall name :: name in names <==> name in values && name !in rest
      invariant forall i, j | 0 <= i < j < |names| :: names[i] != names[j] && TextBefore(names[i], names[j])
      invariant forall i, other | 0 <= i < |names| && other in rest :: TextBefore(names[i], other)
      invariant forall i | 0 <= i < |names| :: names[i] in values
      invariant forall name | name in values && name !in rest :: Writable(name, values[name])
      invariant printed == Printed(values, names)
      decreases |rest|
    {
      var name := Least(rest);
      if !Writable(name, values[name]) {
        return None, names;
      }
      PrintedAppends(values, names, name);
      printed := printed + (Assignment(name, values[name]) + "\n");
      names := names + [name];
      rest := rest - {name};
    }
    if values == map[] {
      NoNames(names, values);
      return Some("\n"), names;
    }
    return Some(printed), names;
  }

  lemma NoNames(names: seq<string>, values: Environment)
    requires forall name :: name in names ==> name in values
    ensures values == map[] ==> names == []
  {
    if names != [] {
      assert names[0] in names;
    }
  }

  lemma PrintedNothing(values: Environment)
    ensures Printed(values, []) == ""
  {
  }

  // ----- round trip ------------------------------------------------------------------------------

  /** Neither a control character below U+0020 nor a line separator that JSON leaves as it is. */
  predicate CleanChar(c: char) {
    c >= ' ' && c != '\U{85}' && c != '\U{2028}' && c != '\U{2029}'
  }

  predicate Clean(s: string) {
    forall i | 0 <= i < |s| :: CleanChar(s[i])
  }

  lemma {:induction false} FeedConcat(l: Lexer, a: string, b: string)
    ensures FeedAll(l, a + b) == FeedAll(FeedAll(l, a), b)
    decreases |a|
  {
    if a == "" {
      assert a + b == b;
    } else {
      assert (a + b)[0] == a[0] && (a + b)[1..] == a[1..] + b;
      FeedConcat(Feed(l, a[0]), a[1..], b);
    }
  }

  lemma FeedOne(l: Lexer, a: char)
    ensures FeedAll(l, [a]) == Feed(l, a)
  {
    assert [a][1..] == "";
  }

  lemma FeedTwo(l: Lexer, a: char, b: char)
    ensures FeedAll(l, [a, b]) == Feed(Feed(l, a), b)
  {
    assert [a, b][1..] == [b];
    FeedOne(Feed(l, a), b);
  }

  lemma FeedEscape(l: Lexer, c: char)
    requires l.mode == Quoted('"') && CleanChar(c)
    ensures FeedAll(l, Escape(c)) == l.(token := l.token + [c])
  {
    if c == '"' || c == '\\' {
      assert Escape(c) == ['\\', c];
      FeedTwo(l, '\\', c);
      assert Feed(l, '\\') == l.(mode := Escaped(Some('"')));
      assert l.token + [] + [c] == l.token + [c];
    } else {
      assert Escape(c) == [c];
      FeedOne(l, c);
      assert Feed(l, c) == l.(token := l.token + [c]);
    }
  }

  lemma {:induction false} FeedEscaped(l: Lexer, s: string)
    requires l.mode == Quoted('"') && Clean(s)
    ensures FeedAll(l, EscapeAll(s)) == l.(token := l.token + s)
    decreases |s|
  {
    if s == "" {
      assert l.token + s == l.token;
    } else {
      hide Escape, Feed;
      FeedConcat(l, Escape(s[0]), EscapeAll(s[1..]));
      FeedEscape(l, s[0]);
      FeedEscaped(l.(token := l.token + [s[0]]), s[1..]);
      assert l.token + [s[0]] + s[1..] == l.token + s;
    }
  }

  /** shlex undoes JSON's quoting of a clean value. */
  lemma SplitUndoesJson(s: string)
    requires Clean(s)
    ensures Split(JsonString(s)) == Some([s])
  {
    var start, open := Lexer(Blank, "", false, []), Lexer(Quoted('"'), "", true, []);
    var text := JsonString(s);
    assert text[0] == '"' && text[1..] == EscapeAll(s) + "\"";
    assert Feed(start, '"') == open;
    FeedConcat(open, EscapeAll(s), "\"");
    FeedEscaped(open, s);
    assert open.token + s == s;
    var closing := open.(token := s);
    FeedOne(closing, '"');
    assert FeedAll(start, text) == FeedAll(open, text[1..]) == closing.(mode := Word);
    assert [] + [s] == [s];
  }

  /** A line that was written for a clean value means that assignment. */
  lemma LineMeansAssignment(name: string, value: string)
    requires ValidName(name) && Clean(value)
    ensures LineMeaning(Assignment(name, value)) == Assigns(name, value)
  {
    hide Split, FirstEquals, Strip, Assignment, JsonString, Clean;
    AssignmentEnds(name, value);
    var line := Assignment(name, value);
    StripNothing(line);
    FirstEqualsIs(name, JsonString(value));
    SplitUndoesJson(value);
  }

  lemma AssignmentEnds(name: string, value: string)
    requires ValidName(name)
    ensures var line := Assignment(name, value);
      && line != "" && line[0] == name[0] && line[|line| - 1] == '"' && line == name + "=" + JsonString(value)
      && line[..|name|] == name && line[|name| + 1..] == JsonString(value)
  {
    hide EscapeAll;
  }

  lemma StripNothing(line: string)
    requires line != "" && !Space(line[0]) && !Space(line[|line| - 1])
    ensures Strip(line) == line
  {
  }

  lemma {:induction false} FirstEqualsIs(name: string, rest: string)
    requires '=' !in name
    ensures FirstEquals(name + "=" + rest) == |name|
  {
    var s := name + "=" + rest;
    if name != "" {
      assert s[1..] == name[1..] + "=" + rest;
      FirstEqualsIs(name[1..], rest);
    }
  }

  lemma {:induction false} EscapedHasNoBreak(s: string)
    requires Clean(s)
    ensures forall i | 0 <= i < |EscapeAll(s)| :: !Breaks(EscapeAll(s)[i])
  {
    if s != "" {
      EscapedHasNoBreak(s[1..]);
      var head := Escape(s[0]);
      assert forall i | 0 <= i < |head| :: head[i] == s[0] || head[i] == '\\';
    }
  }

  lemma AssignmentIsOneLine(name: string, value: string, rest: string)
    requires ValidName(name) && Clean(value)
    ensures Lines(Assignment(name, value) + "\n" + rest) == [Assignment(name, value)] + Lines(rest)
  {
    var line := Assignment(name, value);
    EscapedHasNoBreak(value);
    hide EscapeAll;
    assert forall i | 0 <= i < |line| :: !Breaks(line[i]);
    OneLine(line, rest);
  }

  lemma OneLine(line: string, rest: string)
    requires forall i | 0 <= i < |line| :: !Breaks(line[i])
    ensures Lines(line + "\n" + rest) == [line] + Lines(rest)
  {
    var s := line + "\n" + rest;
    assert s[|line|] == '\n';
    assert forall i | 0 <= i < |line| :: s[i] == line[i];
    assert FirstBreak(s) == |line|;
    assert s[..|line|] == line && s[|line| + 1..] == rest;
  }

  function Assigning(output: Environment, values: Environment, names: seq<string>): Environment
    requires forall i | 0 <= i < |names| :: names[i] in values
    decreases |names|
  {
    if names == [] then output else Assigning(output[names[0] := values[names[0]]], values, names[1..])
  }

  lemma {:induction false} PrintedMeans(values: Environment, names: seq<string>, output: Environment)
    requires forall i | 0 <= i < |names| :: names[i] in values && ValidName(names[i]) && Clean(values[names[i]])
    ensures Assigned(Lines(Printed(values, names)), output) == Some(Assigning(output, values, names))
    decreases |names|
  {
    hide Assignment, LineMeaning;
    if names != [] {
      var name := names[0];
      var line := Assignment(name, values[name]);
      AssignmentIsOneLine(name, values[name], Printed(values, names[1..]));
      LineMeansAssignment(name, values[name]);
      assert ([line] + Lines(Printed(values, names[1..])))[1..] == Lines(Printed(values, names[1..]));
      PrintedMeans(values, names[1..], output[name := values[name]]);
    }
  }

  lemma {:induction false} AssigningIs(output: Environment, values: Environment, names: seq<string>)
    requires forall i | 0 <= i < |names| :: names[i] in values
    ensures forall name :: name in Assigning(output, values, names) <==> name in output || name in names
    ensures forall name | name in Assigning(output, values, names) ::
      Assigning(output, values, names)[name] == if name in names then values[name] else output[name]
    decreases |names|
  {
    if names != [] {
      AssigningIs(output[names[0] := values[names[0]]], values, names[1..]);
      assert forall name :: name in names <==> name == names[0] || name in names[1..];
    }
  }

  lemma EmptyMeans()
    ensures Meant(Some("\n")) == Some(map[])
  {
    OneLine("", "");
    assert "" + "\n" + "" == "\n";
    assert [""] + [] == [""] && [""][1..] == [];
  }

  /** Reading back what was written gives the same environment, if all values are clean. */
  lemma RoundTrip(values: Environment, names: seq<string>)
    requires Sorted(names, values) && forall name | name in values :: ValidName(name) && Clean(values[name])
    ensures Meant(Some(Text(values, names))) == Some(values)
  {
    hide TextBefore, Printed, Lines, Assigned, Clean, ValidName, Assigning;
    assert forall i | 0 <= i < |names| :: names[i] in names;
    if names == [] {
      assert values.Keys == {};
      EmptyMeans();
    } else {
      PrintedMeans(values, names, map[]);
      AssigningIs(map[], values, names);
      assert Assigning(map[], values, names) == values;
    }
  }

  // ----- what is read is clean -------------------------------------------------------------------

  lemma FeedKeepsClean(l: Lexer, c: char)
    requires CleanChar(c) && Clean(l.token) && forall i | 0 <= i < |l.tokens| :: Clean(l.tokens[i])
    ensures Clean(Feed(l, c).token) && forall i | 0 <= i < |Feed(l, c).tokens| :: Clean(Feed(l, c).tokens[i])
  {
  }

  lemma {:induction false} FeedAllKeepsClean(l: Lexer, s: string)
    requires Clean(s) && Clean(l.token) && forall i | 0 <= i < |l.tokens| :: Clean(l.tokens[i])
    ensures Clean(FeedAll(l, s).token) && forall i | 0 <= i < |FeedAll(l, s).tokens| :: Clean(FeedAll(l, s).tokens[i])
    decreases |s|
  {
    hide Feed, Clean;
    if s != "" {
      CleanSplits(s);
      FeedKeepsClean(l, s[0]);
      FeedAllKeepsClean(Feed(l, s[0]), s[1..]);
    }
  }

  lemma CleanSplits(s: string)
    requires Clean(s) && s != ""
    ensures CleanChar(s[0]) && Clean(s[1..])
  {
  }

  lemma {:induction false} JoinKeepsClean(tokens: seq<string>)
    requires forall i | 0 <= i < |tokens| :: Clean(tokens[i])
    ensures Clean(Join(tokens))
  {
    if |tokens| > 1 {
      JoinKeepsClean(tokens[1..]);
    }
  }

  lemma StripKeepsClean(s: string)
    requires Clean(s)
    ensures Clean(Strip(s))
  {
    assert Clean(StripLeft(s));
  }

  lemma ValueIsClean(text: string)
    requires Clean(text)
    ensures Clean(Value(text))
  {
    hide FeedAll, Join, Strip;
    StripKeepsClean(text);
    FeedAllKeepsClean(Lexer(Blank, "", false, []), text);
    if Split(text).Some? {
      JoinKeepsClean(Split(text).value);
    }
  }

  lemma CleanLineIsClean(raw: string)
    requires Clean(raw)
    ensures LineMeaning(raw).Assigns? ==> Clean(LineMeaning(raw).value)
  {
    hide Value, Strip, ValidName, FirstEquals;
    StripKeepsClean(raw);
    var line := Strip(raw);
    var k := FirstEquals(line);
    if k < |line| {
      ValueIsClean(line[k + 1..]);
    }
  }

  /** Lines of a text whose only control characters are line feeds are clean. */
  lemma {:induction false} LinesAreClean(s: string)
    requires forall i | 0 <= i < |s| :: s[i] >= ' ' || s[i] == '\n'
    ensures forall i | 0 <= i < |Lines(s)| :: Clean(Lines(s)[i])
    decreases |s|
  {
    if s != "" {
      var k := FirstBreak(s);
      if k < |s| {
        LinesAreClean(s[k + 1..]);
      }
    }
  }

  lemma {:induction false} AssignedIsClean(lines: seq<string>, output: Environment)
    requires forall i | 0 <= i < |lines| :: Clean(lines[i])
    requires forall name | name in output :: Clean(output[name])
    ensures var r := Assigned(lines, output); r.Some? ==> forall name | name in r.value :: Clean(r.value[name])
    decreases |lines|
  {
    hide LineMeaning, Clean;
    if lines != [] {
      CleanLineIsClean(lines[0]);
      match LineMeaning(lines[0])
      case Nothing => AssignedIsClean(lines[1..], output);
      case Malformed =>
      case Assigns(name, value) => AssignedIsClean(lines[1..], output[name := value]);
    }
  }

  lemma {:induction false} EscapedIsPrintable(s: string)
    ensures forall i | 0 <= i < |EscapeAll(s)| :: EscapeAll(s)[i] >= ' '
  {
    if s != "" {
      EscapedIsPrintable(s[1..]);
    }
  }

  lemma AssignmentIsPrintable(name: string, value: string)
    requires ValidName(name)
    ensures forall i | 0 <= i < |Assignment(name, value)| :: Assignment(name, value)[i] >= ' '
  {
    hide EscapeAll;
    EscapedIsPrintable(value);
  }

  lemma {:induction false} PrintedIsPrintable(values: Environment, names: seq<string>)
    requires forall i | 0 <= i < |names| :: names[i] in values && ValidName(names[i])
    ensures forall i | 0 <= i < |Printed(values, names)| :: Printed(values, names)[i] >= ' ' || Printed(values, names)[i] == '\n'
  {
    hide Assignment;
    if names != [] {
      AssignmentIsPrintable(names[0], values[names[0]]);
      PrintedIsPrintable(values, names[1..]);
    }
  }

  /** Exactly when a file that was written reads back as what was written: no value holds a control character below
      U+0020, U+0085, U+2028 or U+2029. */
  lemma RoundTripIff(values: Environment, names: seq<string>)
    requires Sorted(names, values) && forall name | name in values :: Writable(name, values[name])
    ensures Meant(Some(Text(values, names))) == Some(values) <==> forall name | name in values :: Clean(values[name])
  {
    hide TextBefore, Clean;
    assert forall i | 0 <= i < |names| :: names[i] in names;
    if forall name | name in values :: Clean(values[name]) {
      RoundTrip(values, names);
    } else {
      PrintedIsPrintable(values, names);
      LinesAreClean(Text(values, names));
      AssignedIsClean(Lines(Text(values, names)), map[]);
    }
  }

  lemma TabEscapes()
    ensures JsonString("a\tb") == ['"', 'a'] + (['\\', 't'] + ['b', '"'])
  {
    assert "a\tb"[1..] == "\tb" && "\tb"[1..] == "b" && "b"[1..] == "";
    assert EscapeAll("b") == "b";
    assert EscapeAll("\tb") == "\\tb";
    assert EscapeAll("a\tb") == "a\\tb";
  }

  lemma TabFeeds()
    ensures FeedAll(Lexer(Blank, "", false, []), JsonString("a\tb")) == Lexer(Word, "a\\tb", true, [])
  {
    hide JsonString, FeedAll;
    TabEscapes();
    var start, a := Lexer(Blank, "", false, []), Lexer(Quoted('"'), "a", true, []);
    var t := a.(token := "a\\t");
    FeedTwo(start, '"', 'a');
    FeedTwo(a, '\\', 't');
    FeedTwo(t, 'b', '"');
    FeedConcat(start, ['"', 'a'], ['\\', 't'] + ['b', '"']);
    FeedConcat(a, ['\\', 't'], ['b', '"']);
    assert "" + ['a'] == "a" && "a" + ['\\'] + ['t'] == "a\\t" && "a\\t" + ['b'] == "a\\tb";
  }

  lemma TabIsRead(line: string)
    requires line == Assignment("MOTD", "a\tb")
    ensures LineMeaning(line) == Assigns("MOTD", "a\\tb")
  {
    hide FeedAll, Strip, FirstEquals, JsonString, Assignment;
    TabFeeds();
    AssignmentEnds("MOTD", "a\tb");
    StripNothing(line);
    FirstEqualsIs("MOTD", JsonString("a\tb"));
  }

  /** Such a value: a tab is written as JSON writes it, and shlex does not undo that. */
  lemma ATabReadsAsTwoCharacters()
    ensures Writable("MOTD", "a\tb") && Sorted(["MOTD"], map["MOTD" := "a\tb"])
    ensures Meant(Some(Text(map["MOTD" := "a\tb"], ["MOTD"]))) == Some(map["MOTD" := "a\\tb"])
  {
    hide LineMeaning, Assignment, TextBefore, Lines;
    var values, line := map["MOTD" := "a\tb"], Assignment("MOTD", "a\tb");
    TabIsRead(line);
    AssignmentIsPrintable("MOTD", "a\tb");
    assert forall i | 0 <= i < |line| :: line[i] >= ' ' && !Breaks(line[i]) by {
      TabLineHasNoBreak(line);
    }
    OneLine(line, "");
    NoLines();
    assert ["MOTD"][1..] == [] && Text(values, ["MOTD"]) == line + "\n" + "";
    assert [line][1..] == [];
  }

  lemma TabLineHasNoBreak(line: string)
    requires line == Assignment("MOTD", "a\tb")
    ensures forall i | 0 <= i < |line| :: !Breaks(line[i])
  {
    hide JsonString;
    TabEscapes();
  }

  lemma NoLines()
    ensures Lines("") == []
  {
  }

  // ----- what else a file may say ----------------------------------------------------------------

  lemma {:induction false} StripKeepsFirst(s: string)
    requires s != "" && !Space(s[0])
    ensures StripRight(s) != "" && StripRight(s)[0] == s[0] && StripLeft(s) == s
  {
    hide Space;
    if Space(s[|s| - 1]) {
      assert |s| > 1;
      StripKeepsFirst(s[..|s| - 1]);
    }
  }

  /** A comment is skipped, wherever it stands before other lines. */
  lemma CommentIsSkipped(text: string, rest: string)
    requires forall i | 0 <= i < |text| :: !Breaks(text[i])
    ensures Meant(Some("#" + text + "\n" + rest)) == Meant(Some(rest))
  {
    hide Strip;
    var line := "#" + text;
    StripKeepsHash(line);
    OneLine(line, rest);
    assert ([line] + Lines(rest))[1..] == Lines(rest);
  }

  lemma StripKeepsHash(line: string)
    requires line != "" && line[0] == '#'
    ensures Strip(line) != "" && Strip(line)[0] == '#'
  {
    StripKeepsFirst(line);
  }

  /** A line that is no comment and has no equals sign makes the file unreadable. */
  lemma LineWithoutEquals(line: string, rest: string)
    requires line != "" && '=' !in line && line[0] != '#' && !Space(line[0]) && !Space(line[|line| - 1])
    requires forall i | 0 <= i < |line| :: !Breaks(line[i])
    ensures Meant(Some(line + "\n" + rest)) == None
  {
    hide Strip;
    StripNothing(line);
    OneLine(line, rest);
    assert FirstEquals(line) == |line|;
  }

  /** Characters that the lexer takes as they are. */
  predicate Ordinary(s: string) {
    forall i | 0 <= i < |s| :: !Separates(s[i]) && s[i] != '"' && s[i] != '\'' && s[i] != '\\'
  }

  lemma {:induction false} FeedWord(l: Lexer, s: string)
    requires l.mode == Word && Ordinary(s)
    ensures FeedAll(l, s) == l.(token := l.token + s)
    decreases |s|
  {
    if s == "" {
      assert l.token + s == l.token;
    } else {
      FeedWord(l.(token := l.token + [s[0]]), s[1..]);
      assert l.token + [s[0]] + s[1..] == l.token + s;
    }
  }

  lemma FeedStart(tokens: seq<string>, s: string)
    requires s != "" && Ordinary(s)
    ensures FeedAll(Lexer(Blank, "", false, tokens), s) == Lexer(Word, s, false, tokens)
  {
    FeedWord(Lexer(Word, [s[0]], false, tokens), s[1..]);
    assert [s[0]] + s[1..] == s;
  }

  /** A value without quotation marks is its words. */
  lemma UnquotedValue(a: string, b: string)
    requires a != "" && b != "" && Ordinary(a) && Ordinary(b)
    ensures Split(a) == Some([a]) && Split(a + " " + b) == Some([a, b])
    ensures Value(a) == a && Value(a + " " + b) == a + " " + b
  {
    hide FeedAll;
    var start := Lexer(Blank, "", false, []);
    FeedStart([], a);
    assert [] + [a] == [a];
    FeedConcat(start, a, " " + b);
    FeedConcat(Lexer(Word, a, false, []), " ", b);
    FeedOne(Lexer(Word, a, false, []), ' ');
    FeedStart([a], b);
    assert a + (" " + b) == a + " " + b && [a] + [b] == [a, b];
    JoinTwo(a, b);
  }

  lemma JoinTwo(a: string, b: string)
    ensures Join([a]) == a && Join([a, b]) == a + " " + b
  {
    assert [a, b][1..] == [b];
  }

  lemma {:induction false} FeedSingle(l: Lexer, s: string)
    requires l.mode == Quoted('\'') && '\'' !in s
    ensures FeedAll(l, s) == l.(token := l.token + s)
    decreases |s|
  {
    if s == "" {
      assert l.token + s == l.token;
    } else {
      FeedSingle(l.(token := l.token + [s[0]]), s[1..]);
      assert l.token + [s[0]] + s[1..] == l.token + s;
    }
  }

  /** Between single quotation marks everything stands for itself, backslashes too; without the second one the text is
      taken as it is. */
  lemma SingleQuotes(s: string)
    requires '\'' !in s
    ensures Split("'" + s + "'") == Some([s]) && Value("'" + s + "'") == s
    ensures Split("'" + s) == None && Value("'" + s) == Strip("'" + s)
  {
    hide FeedAll, Strip;
    var start, open := Lexer(Blank, "", false, []), Lexer(Quoted('\''), "", true, []);
    FeedOne(start, '\'');
    FeedConcat(start, "'", s);
    FeedSingle(open, s);
    assert "" + s == s;
    FeedConcat(start, "'" + s, "'");
    FeedOne(open.(token := s), '\'');
    assert [] + [s] == [s];
  }

  /** Of two assignments to a name the later one counts. */
  lemma LaterAssignmentWins(name: string, first: string, second: string)
    requires ValidName(name) && Clean(first) && Clean(second)
    ensures Meant(Some(Assignment(name, first) + "\n" + (Assignment(name, second) + "\n" + ""))) == Some(map[name := second])
  {
    hide Assignment, LineMeaning, Lines, Clean, ValidName;
    var a, b := Assignment(name, first), Assignment(name, second);
    AssignmentIsOneLine(name, first, b + "\n" + "");
    AssignmentIsOneLine(name, second, "");
    LineMeansAssignment(name, first);
    LineMeansAssignment(name, second);
    NoLines();
    var lines := Lines(a + "\n" + (b + "\n" + ""));
    assert lines == [a] + ([b] + []) == [a, b];
    assert [a, b][1..] == [b] && [b][1..] == [];
    assert Assigned([b], map[name := first]) == Some(map[name := first][name := second]);
    assert map[name := first][name := second] == map[name := second];
  }
}
