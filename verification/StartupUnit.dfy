/** The systemd and launchd service definitions (crates/jailgun-core/src/startup_unit.rs). */
module StartupUnit {
  import opened Text

  datatype Result<T> = Success(value: T) | Failure(error: UnitError)
  datatype UnitError = PathNotUtf8 | PathNotAbsolute | ControlCharacter | BadName

  /** A path is its text, when it is valid UTF-8. */
  datatype Definition = Definition(name: string, executable: Option<string>, runtime: Option<string>, arguments: seq<string>)

  // ---------- Replacements ----------

  /** `str::replace` of one character. */
  function Replace(s: string, c: char, t: string): string {
    if s == "" then "" else (if s[0] == c then t else [s[0]]) + Replace(s[1..], c, t)
  }

  /** Every character escaped on its own, at the same time. */
  function Escape(s: string, f: char -> string): string {
    if s == "" then "" else f(s[0]) + Escape(s[1..], f)
  }

  lemma {:induction false} ReplaceConcat(a: string, b: string, c: char, t: string)
    ensures Replace(a + b, c, t) == Replace(a, c, t) + Replace(b, c, t)
  {
    if a == "" {
      assert a + b == b;
    } else {
      assert (a + b)[1..] == a[1..] + b;
      ReplaceConcat(a[1..], b, c, t);
    }
  }

  /** One more replacement on top of an escaping is again an escaping. */
  lemma {:induction false} ReplaceEscape(s: string, f: char -> string, g: char -> string, c: char, t: string)
    requires forall x | x in s :: Replace(f(x), c, t) == g(x)
    ensures Replace(Escape(s, f), c, t) == Escape(s, g)
  {
    if s != "" {
      assert s[0] in s;
      ReplaceConcat(f(s[0]), Escape(s[1..], f), c, t);
      ReplaceEscape(s[1..], f, g, c, t);
    }
  }

  lemma {:induction false} EscapeNothing(s: string)
    ensures Escape(s, (x: char) => [x]) == s
  {
    if s != "" {
      EscapeNothing(s[1..]);
    }
  }

  /** `char::is_control`, the general category Cc. */
  predicate IsControl(c: char) { c as int < 0x20 || 0x7F <= c as int <= 0x9F }

  predicate HasControl(s: string) { exists i | 0 <= i < |s| :: IsControl(s[i]) }

  // ---------- quote ----------

  function Quoted(value: string): string {
    "\"" + Replace(Replace(Replace(Replace(value, '\\', "\\\\"), '"', "\\\""), '%', "%%"), '$', "$$") + "\""
  }

  function Quote(value: string): Result<string> {
    if HasControl(value) then Failure(ControlCharacter) else Success(Quoted(value))
  }

  /** What each character becomes inside double quotes. */
  function QuoteChar(c: char): string {
    if c == '\\' then "\\\\" else if c == '"' then "\\\"" else if c == '%' then "%%" else if c == '$' then "$$" else [c]
  }

  /** The four chained replacements are one simultaneous escape: the backslash goes first, so none is escaped twice. */
  lemma QuoteIsSimultaneous(value: string)
    ensures Quoted(value) == "\"" + Escape(value, QuoteChar) + "\""
  {
    var f0 := (x: char) => [x];
    var f1 := (x: char) => if x == '\\' then "\\\\" else [x];
    var f2 := (x: char) => if x == '"' then "\\\"" else f1(x);
    var f3 := (x: char) => if x == '%' then "%%" else f2(x);
    EscapeNothing(value);
    OneCharacter('\\', "\\\\");
    OneCharacter('"', "\\\"");
    OneCharacter('%', "%%");
    OneCharacter('$', "$$");
    ReplaceEscape(value, f0, f1, '\\', "\\\\");
    ReplaceEscape(value, f1, f2, '"', "\\\"");
    ReplaceEscape(value, f2, f3, '%', "%%");
    ReplaceEscape(value, f3, QuoteChar, '$', "$$");
  }

  /** Replacing in texts of one or two characters. */
  lemma OneCharacter(c: char, t: string)
    ensures forall x: char :: Replace([x], c, t) == if x == c then t else [x]
    ensures forall x: char, y: char :: x != c && y != c ==> Replace([x, y], c, t) == [x, y]
  {
    forall x: char ensures Replace([x], c, t) == if x == c then t else [x] {
      assert [x][1..] == "";
    }
    forall x: char, y: char | x != c && y != c ensures Replace([x, y], c, t) == [x, y] {
      assert [x, y][1..] == [y] && [y][1..] == "";
    }
  }

  // ---------- Reading a command line back ----------

  /** Characters that start an escape in a unit file. */
  predicate Special(c: char) { c == '\\' || c == '%' || c == '$' }

  /** A word in double quotes and what follows its closing quote; only the escapes of a unit file are understood. */
  function ReadQuoted(s: string): (r: Option<(string, string)>)
    ensures r.Some? ==> |r.value.1| < |s|
  {
    if s == "" then None
    else if s[0] == '"' then Some(("", s[1..]))
    else
      var doubled := Special(s[0]);
      if doubled && (|s| == 1 || !(s[1] == s[0] || (s[0] == '\\' && s[1] == '"'))) then None
      else
        var rest := ReadQuoted(s[if doubled then 2 else 1..]);
        if rest.None? then None else Some(([s[if doubled then 1 else 0]] + rest.value.0, rest.value.1))
  }

  lemma ReadPlain(s: string)
    requires s != "" && !Special(s[0]) && s[0] != '"' && ReadQuoted(s[1..]).Some?
    ensures ReadQuoted(s) == Some(([s[0]] + ReadQuoted(s[1..]).value.0, ReadQuoted(s[1..]).value.1))
  {
  }

  lemma ReadDoubled(s: string)
    requires |s| >= 2 && Special(s[0]) && (s[1] == s[0] || (s[0] == '\\' && s[1] == '"')) && ReadQuoted(s[2..]).Some?
    ensures ReadQuoted(s) == Some(([s[1]] + ReadQuoted(s[2..]).value.0, ReadQuoted(s[2..]).value.1))
  {
  }

  lemma CharacterReadsBack(c: char, tail: string)
    requires ReadQuoted(tail).Some?
    ensures ReadQuoted(QuoteChar(c) + tail) == Some(([c] + ReadQuoted(tail).value.0, ReadQuoted(tail).value.1))
  {
    hide ReadQuoted;
    var s := QuoteChar(c) + tail;
    if |QuoteChar(c)| == 1 {
      assert s[1..] == tail;
      ReadPlain(s);
    } else {
      assert s[2..] == tail;
      ReadDoubled(s);
    }
  }

  lemma {:induction false} ReadsBack(value: string, rest: string)
    ensures ReadQuoted(Escape(value, QuoteChar) + "\"" + rest) == Some((value, rest))
  {
    if value == "" {
      var s := Escape(value, QuoteChar) + "\"" + rest;
      assert s[0] == '"' && s[1..] == rest;
    } else {
      var tail := Escape(value[1..], QuoteChar) + "\"" + rest;
      ReadsBack(value[1..], rest);
      CharacterReadsBack(value[0], tail);
      assert Escape(value, QuoteChar) + "\"" + rest == QuoteChar(value[0]) + tail;
      assert value == [value[0]] + value[1..];
    }
  }

  /** A bare word: everything up to the next space; characters with a special meaning are refused. */
  function ReadBare(s: string): (r: Option<(string, string)>)
    ensures r.Some? ==> |r.value.1| + |r.value.0| == |s|
  {
    if s == "" || s[0] == ' ' then Some(("", s))
    else if s[0] == '"' || Special(s[0]) then None
    else
      var rest := ReadBare(s[1..]);
      if rest.None? then None else Some(([s[0]] + rest.value.0, rest.value.1))
  }

  /** The words of a command line, separated by single spaces. */
  function Words(s: string): Option<seq<string>>
    decreases |s|
  {
    if s == "" then None
    else
      var word := if s[0] == '"' then ReadQuoted(s[1..]) else ReadBare(s);
      if word.None? then None
      else
        var (text, rest) := word.value;
        if rest == "" then Some([text])
        else if rest[0] != ' ' || |rest| >= |s| then None
        else
          var others := Words(rest[1..]);
          if others.None? then None else Some([text] + others.value)
  }

  function Join(words: seq<string>, separator: string): string {
    if words == [] then "" else if |words| == 1 then words[0] else words[0] + separator + Join(words[1..], separator)
  }

  function QuotedAll(words: seq<string>): (q: seq<string>)
    ensures |q| == |words| && forall i | 0 <= i < |q| :: q[i] == Quoted(words[i])
  {
    seq(|words|, i requires 0 <= i < |words| => Quoted(words[i]))
  }

  function Cons(word: string, words: Option<seq<string>>): Option<seq<string>> {
    if words.None? then None else Some([word] + words.value)
  }

  lemma LastQuoted(word: string)
    ensures Words(Quoted(word)) == Some([word])
  {
    QuoteIsSimultaneous(word);
    ReadsBack(word, "");
    assert Quoted(word)[0] == '"' && Quoted(word)[1..] == Escape(word, QuoteChar) + "\"" + "";
  }

  lemma FirstQuoted(word: string, tail: string)
    ensures Words(Quoted(word) + " " + tail) == Cons(word, Words(tail))
  {
    var line, rest := Quoted(word) + " " + tail, " " + tail;
    QuoteIsSimultaneous(word);
    ReadsBack(word, rest);
    assert line[1..] == Escape(word, QuoteChar) + "\"" + rest;
    assert line[0] == '"' && rest[0] == ' ' && rest[1..] == tail;
  }

  lemma {:induction false} QuotedWords(words: seq<string>)
    requires words != []
    ensures Words(Join(QuotedAll(words), " ")) == Some(words)
  {
    var q := QuotedAll(words);
    if |words| == 1 {
      LastQuoted(words[0]);
      assert words == [words[0]];
    } else {
      assert q[1..] == QuotedAll(words[1..]);
      QuotedWords(words[1..]);
      FirstQuoted(words[0], Join(q[1..], " "));
      assert words == [words[0]] + words[1..];
    }
  }

  lemma {:induction false} BareWord(word: string, rest: string)
    requires word != "" && rest != "" && rest[0] == ' '
    requires forall c | c in word :: c != ' ' && c != '"' && c != '\\' && c != '%' && c != '$'
    ensures ReadBare(word + rest) == Some((word, rest))
  {
    assert word[0] in word && (word + rest)[0] == word[0] && (word + rest)[1..] == word[1..] + rest;
    if |word| == 1 {
      assert word[1..] + rest == rest && ReadBare(rest) == Some(("", rest));
    } else {
      assert forall c | c in word[1..] :: c in word;
      BareWord(word[1..], rest);
    }
    assert [word[0]] + word[1..] == word;
  }

  lemma FirstBare(word: string, tail: string)
    requires word != "" && forall c | c in word :: c != ' ' && c != '"' && c != '\\' && c != '%' && c != '$'
    ensures Words(word + " " + tail) == Cons(word, Words(tail))
  {
    var line, rest := word + " " + tail, " " + tail;
    BareWord(word, rest);
    assert line == word + rest && line[0] == word[0] && word[0] in word && rest[1..] == tail;
  }

  const ENV := "/usr/bin/env"

  /** The words of the command line. */
  function Command(words: seq<string>): seq<string> { [ENV, "--"] + QuotedAll(words) }

  /** The printed command, read by the rules of a unit file, is `env --` with the executable and its arguments, whatever
      characters they contain. */
  lemma CommandReadsBack(words: seq<string>)
    requires words != []
    ensures Words(Join(Command(words), " ")) == Some([ENV, "--"] + words)
  {
    hide Join, Words, Quoted;
    var tail := Join(QuotedAll(words), " ");
    QuotedWords(words);
    JoinFirst("--", QuotedAll(words));
    JoinFirst(ENV, ["--"] + QuotedAll(words));
    assert Command(words) == [ENV] + (["--"] + QuotedAll(words));
    FirstBare("--", tail);
    FirstBare(ENV, "--" + " " + tail);
    assert [ENV] + (["--"] + words) == [ENV, "--"] + words;
  }

  // ---------- What env starts ----------

  /** The program `env` starts and its arguments: leading operands with an equals sign are assignments. */
  function Operands(operands: seq<string>): (r: Option<(string, seq<string>)>)
    ensures r.Some? ==> '=' !in r.value.0
  {
    if operands == [] then None
    else if '=' in operands[0] then Operands(operands[1..])
    else Some((operands[0], operands[1..]))
  }

  /** What a command line that reads as these words starts, when it calls `env --`. */
  function Started(words: seq<string>): Option<(string, seq<string>)> {
    if |words| >= 2 && words[..2] == [ENV, "--"] then Operands(words[2..]) else None
  }

  /** The command line starts the executable with exactly its arguments if and only if the path of the executable has no
      equals sign; the arguments may have any. */
  lemma StartsTheExecutableIff(executable: string, arguments: seq<string>)
    ensures var line := Join(Command([executable] + arguments), " ");
            Words(line).Some? && (Started(Words(line).value) == Some((executable, arguments)) <==> '=' !in executable)
  {
    hide Join, Words, Quoted;
    CommandReadsBack([executable] + arguments);
    var words := [ENV, "--"] + ([executable] + arguments);
    assert words[..2] == [ENV, "--"] && words[2..] == [executable] + arguments;
    assert ([executable] + arguments)[1..] == arguments;
  }

  lemma AssignmentIsPassedOver(executable: string, arguments: seq<string>)
    requires '=' in executable
    ensures var line := Join(Command([executable] + arguments), " ");
            Words(line).Some? && Started(Words(line).value) == Operands(arguments)
  {
    hide Join, Words, Quoted;
    CommandReadsBack([executable] + arguments);
    var words := [ENV, "--"] + ([executable] + arguments);
    assert words[..2] == [ENV, "--"] && words[2..] == [executable] + arguments;
    assert ([executable] + arguments)[1..] == arguments;
  }

  lemma Accepted(executable: string, argument: string)
    requires executable != "" && executable[0] == '/' && !HasControl(executable) && !HasControl(argument)
    ensures Refusal(Definition("jailgun", Some(executable), Some("/run"), [argument])).None?
  {
    hide HasControl;
    assert "/run" + "/" + "daemon.log" == "/run/daemon.log";
    assert !HasControl("/run/daemon.log") by { NoControl("/run/daemon.log"); }
  }

  lemma NoControl(s: string)
    requires forall i | 0 <= i < |s| :: !IsControl(s[i])
    ensures !HasControl(s)
  {
  }

  /** An accepted executable that is not started: its first argument is started instead. */
  lemma AssignedInsteadOfStarted(d: Definition)
    requires d == Definition("jailgun", Some("/opt/a=b/jailgun"), Some("/run"), ["daemon"])
    ensures Refusal(d).None?
    ensures var line := Join(Command([d.executable.value] + d.arguments), " ");
            Words(line).Some? && Started(Words(line).value) == Some(("daemon", []))
  {
    NoControl("/opt/a=b/jailgun");
    NoControl("daemon");
    hide Join, Words, Command, Refusal, HasControl;
    Accepted("/opt/a=b/jailgun", "daemon");
    assert d.executable.value[6] == '=';
    AssignmentIsPassedOver(d.executable.value, d.arguments);
    assert ["daemon"][1..] == [];
  }

  lemma JoinFirst(word: string, words: seq<string>)
    requires words != []
    ensures Join([word] + words, " ") == word + " " + Join(words, " ")
  {
    assert ([word] + words)[1..] == words;
  }

  // ---------- xml ----------

  function Xml(value: string): string {
    Replace(Replace(Replace(Replace(Replace(value, '&', "&amp;"), '<', "&lt;"), '>', "&gt;"), '"', "&quot;"), '\'', "&apos;")
  }

  /** The predefined entities of section 4.6 of XML 1.0. */
  function XmlChar(c: char): string {
    if c == '&' then "&amp;" else if c == '<' then "&lt;" else if c == '>' then "&gt;"
    else if c == '"' then "&quot;" else if c == '\'' then "&apos;" else [c]
  }

  /** A replacement leaves a text without its character alone. */
  lemma {:induction false} ReplaceAbsent(s: string, c: char, t: string)
    requires c !in s
    ensures Replace(s, c, t) == s
  {
    if s != "" {
      ReplaceAbsent(s[1..], c, t);
    }
  }

  function Xml1(c: char): string { if c == '&' then "&amp;" else [c] }
  function Xml2(c: char): string { if c == '<' then "&lt;" else Xml1(c) }
  function Xml3(c: char): string { if c == '>' then "&gt;" else Xml2(c) }
  function Xml4(c: char): string { if c == '"' then "&quot;" else Xml3(c) }

  lemma Xml1Step(value: string)
    ensures Replace(value, '&', "&amp;") == Escape(value, Xml1)
  {
    EscapeNothing(value);
    XmlStep(value, (x: char) => [x], Xml1, '&', "&amp;");
  }

  lemma Xml2Step(value: string)
    ensures Replace(Escape(value, Xml1), '<', "&lt;") == Escape(value, Xml2)
  {
    XmlStep(value, Xml1, Xml2, '<', "&lt;");
  }

  lemma Xml3Step(value: string)
    ensures Replace(Escape(value, Xml2), '>', "&gt;") == Escape(value, Xml3)
  {
    XmlStep(value, Xml2, Xml3, '>', "&gt;");
  }

  lemma Xml4Step(value: string)
    ensures Replace(Escape(value, Xml3), '"', "&quot;") == Escape(value, Xml4)
  {
    XmlStep(value, Xml3, Xml4, '"', "&quot;");
  }

  lemma XmlCharStep(value: string)
    ensures Replace(Escape(value, Xml4), '\'', "&apos;") == Escape(value, XmlChar)
  {
    XmlStep(value, Xml4, XmlChar, '\'', "&apos;");
  }

  /** The five chained replacements are one simultaneous escape: the ampersand goes first. */
  lemma XmlIsSimultaneous(value: string)
    ensures Xml(value) == Escape(value, XmlChar)
  {
    hide Replace, Escape, Xml1, Xml2, Xml3, Xml4, XmlChar;
    Xml1Step(value);
    Xml2Step(value);
    Xml3Step(value);
    Xml4Step(value);
    XmlCharStep(value);
  }

  lemma XmlStep(value: string, f: char -> string, g: char -> string, c: char, t: string)
    requires f(c) == [c] && g(c) == t && forall x | x != c :: g(x) == f(x) && c !in f(x)
    ensures Replace(Escape(value, f), c, t) == Escape(value, g)
  {
    forall x | x in value ensures Replace(f(x), c, t) == g(x) {
      if x == c {
        assert [c][1..] == "";
      } else {
        ReplaceAbsent(f(x), c, t);
      }
    }
    ReplaceEscape(value, f, g, c, t);
  }

  predicate Prefixed(s: string, prefix: string) { |prefix| <= |s| && s[..|prefix|] == prefix }

  /** Production 2 in section 2.2 of XML 1.0. A character is a Unicode scalar value, so surrogates do not occur. */
  predicate IsXmlChar(c: char) {
    var n := c as int;
    n == 0x9 || n == 0xA || n == 0xD || (0x20 <= n && n != 0xFFFE && n != 0xFFFF)
  }

  predicate XmlText(s: string) { forall i | 0 <= i < |s| :: IsXmlChar(s[i]) }

  /** The character at the front of character data, and how many characters stand for it. */
  function FrontChar(s: string): (r: Option<(char, nat)>)
    requires s != ""
    ensures r.Some? ==> 1 <= r.value.1 <= |s|
  {
    if s[0] != '&' then if IsXmlChar(s[0]) then Some((s[0], 1)) else None
    else if Prefixed(s, "&amp;") then Some(('&', 5))
    else if Prefixed(s, "&lt;") then Some(('<', 4))
    else if Prefixed(s, "&gt;") then Some(('>', 4))
    else if Prefixed(s, "&quot;") then Some(('"', 6))
    else if Prefixed(s, "&apos;") then Some(('\'', 6))
    else None
  }

  /** Character data up to the next tag, with the predefined entities resolved; refused when a character is not allowed. */
  function ReadText(s: string): (r: Option<(string, string)>)
    ensures r.Some? ==> |r.value.1| <= |s|
  {
    if s == "" || s[0] == '<' then Some(("", s))
    else
      var front := FrontChar(s);
      if front.None? then None
      else
        var rest := ReadText(s[front.value.1..]);
        if rest.None? then None else Some(([front.value.0] + rest.value.0, rest.value.1))
  }

  /** Escaped text reads back if and only if all its characters are allowed in a document. */
  lemma {:induction false} TextReadsBack(value: string, rest: string)
    requires rest == "" || rest[0] == '<'
    ensures ReadText(Escape(value, XmlChar) + rest) == if XmlText(value) then Some((value, rest)) else None
  {
    if value == "" {
      assert "" + rest == rest;
    } else {
      var e := XmlChar(value[0]);
      var tail := Escape(value[1..], XmlChar) + rest;
      TextReadsBack(value[1..], rest);
      assert Escape(value, XmlChar) + rest == e + tail;
      EntityReadsBack(value[0], tail);
      assert [value[0]] + value[1..] == value;
      FirstAndRest(value);
    }
  }

  lemma FirstAndRest(value: string)
    requires value != ""
    ensures XmlText(value) <==> IsXmlChar(value[0]) && XmlText(value[1..])
  {
    hide IsXmlChar;
    assert forall i | 0 <= i < |value| - 1 :: value[1..][i] == value[i + 1];
  }

  lemma PrefixedAt(s: string, prefix: string, i: nat)
    requires i < |prefix|
    ensures Prefixed(s, prefix) ==> s[i] == prefix[i]
  {
    assert Prefixed(s, prefix) ==> s[..|prefix|][i] == prefix[i];
  }

  lemma FrontOfEscape(c: char, tail: string)
    ensures var s := XmlChar(c) + tail;
            && FrontChar(s) == (if IsXmlChar(c) then Some((c, |XmlChar(c)|)) else None)
            && s != "" && s[0] != '<' && s[|XmlChar(c)|..] == tail
  {
    var e := XmlChar(c);
    var s := e + tail;
    assert s[0] == e[0];
    if |e| > 1 {
      assert s[1] == e[1] && s[2] == e[2];
      PrefixedAt(s, "&amp;", 1);
      PrefixedAt(s, "&amp;", 2);
      PrefixedAt(s, "&lt;", 1);
      PrefixedAt(s, "&gt;", 1);
      PrefixedAt(s, "&quot;", 1);
      IsPrefixed(s, e, tail);
      hide Prefixed;
    }
  }

  lemma EntityReadsBack(c: char, tail: string)
    ensures ReadText(XmlChar(c) + tail)
            == if IsXmlChar(c) && ReadText(tail).Some? then Some(([c] + ReadText(tail).value.0, ReadText(tail).value.1)) else None
  {
    hide XmlChar, FrontChar, IsXmlChar;
    FrontOfEscape(c, tail);
  }

  lemma IsPrefixed(s: string, e: string, tail: string)
    requires s == e + tail
    ensures Prefixed(s, e)
  {
  }

  // ---------- Reading the argument list back ----------

  const STRING_OPEN := "    <string>"
  const STRING_CLOSE := "</string>"
  const ARRAY_CLOSE := "  </array>"

  function ArgumentLine(argument: string): string { STRING_OPEN + Xml(argument) + STRING_CLOSE }

  function ArgumentLines(arguments: seq<string>): (lines: seq<string>)
    ensures |lines| == |arguments| && forall i | 0 <= i < |lines| :: lines[i] == ArgumentLine(arguments[i])
  {
    seq(|arguments|, i requires 0 <= i < |arguments| => ArgumentLine(arguments[i]))
  }

  /** What follows a prefix. */
  function After(s: string, prefix: string): (r: Option<string>)
    ensures r.Some? ==> |r.value| == |s| - |prefix|
  {
    if Prefixed(s, prefix) then Some(s[|prefix|..]) else None
  }

  lemma AfterPrefix(prefix: string, tail: string)
    ensures After(prefix + tail, prefix) == Some(tail)
  {
  }

  function ConsRead(word: string, words: Option<(seq<string>, string)>): Option<(seq<string>, string)> {
    if words.None? then None else Some(([word] + words.value.0, words.value.1))
  }

  /** The strings of an array, one a line, and what follows the end of the array. */
  function ReadArguments(s: string): Option<(seq<string>, string)>
    decreases |s|
  {
    if Prefixed(s, STRING_OPEN) then
      var content := ReadText(s[|STRING_OPEN|..]);
      if content.None? || After(content.value.1, STRING_CLOSE + "\n").None? then None
      else ConsRead(content.value.0, ReadArguments(After(content.value.1, STRING_CLOSE + "\n").value))
    else if Prefixed(s, ARRAY_CLOSE) then Some(([], s[|ARRAY_CLOSE|..]))
    else None
  }

  lemma ArrayEnds(tail: string)
    ensures ReadArguments(ARRAY_CLOSE + tail) == Some(([], tail))
  {
    var s := ARRAY_CLOSE + tail;
    assert s[2] == '<';
    PrefixedAt(s, STRING_OPEN, 2);
    IsPrefixed(s, ARRAY_CLOSE, tail);
  }

  lemma ArgumentReadsBack(argument: string, rest: string)
    ensures ReadArguments(ArgumentLine(argument) + "\n" + rest) == if XmlText(argument) then ConsRead(argument, ReadArguments(rest)) else None
  {
    hide Prefixed, ReadText, Xml, XmlText, After;
    var s := ArgumentLine(argument) + "\n" + rest;
    var close := STRING_CLOSE + "\n" + rest;
    XmlIsSimultaneous(argument);
    assert close[0] == '<';
    TextReadsBack(argument, close);
    assert s == STRING_OPEN + (Xml(argument) + close);
    IsPrefixed(s, STRING_OPEN, Xml(argument) + close);
    assert s[|STRING_OPEN|..] == Xml(argument) + close;
    AfterPrefix(STRING_CLOSE + "\n", rest);
  }

  predicate AllXmlText(texts: seq<string>) { forall i | 0 <= i < |texts| :: XmlText(texts[i]) }

  /** Reading the program arguments gives back the list if and only if all characters of its strings are allowed. */
  lemma {:induction false} ArgumentsReadBack(arguments: seq<string>, tail: string)
    requires arguments != []
    ensures ReadArguments(Join(ArgumentLines(arguments), "\n") + "\n" + (ARRAY_CLOSE + tail))
            == if AllXmlText(arguments) then Some((arguments, tail)) else None
  {
    hide ReadArguments, XmlText, AllXmlText, ArgumentLine;
    FirstAndAll(arguments);
    var lines := ArgumentLines(arguments);
    var end := ARRAY_CLOSE + tail;
    if |arguments| == 1 {
      ArrayEnds(tail);
      ArgumentReadsBack(arguments[0], end);
      assert arguments == [arguments[0]] + [] && arguments[1..] == [];
    } else {
      var rest := Join(lines[1..], "\n") + "\n" + end;
      assert lines[1..] == ArgumentLines(arguments[1..]);
      ArgumentsReadBack(arguments[1..], tail);
      ArgumentReadsBack(arguments[0], rest);
      assert Join(lines, "\n") + "\n" + end == ArgumentLine(arguments[0]) + "\n" + rest;
      assert arguments == [arguments[0]] + arguments[1..];
    }
  }

  lemma FirstAndAll(texts: seq<string>)
    requires texts != []
    ensures AllXmlText(texts) <==> XmlText(texts[0]) && AllXmlText(texts[1..])
    ensures AllXmlText([])
  {
    hide XmlText;
    assert forall i | 0 <= i < |texts| - 1 :: texts[1..][i] == texts[i + 1];
  }

  // ---------- Nothing breaks out of its line ----------

  lemma {:induction false} EscapeAddsNoControl(value: string, f: char -> string)
    requires !HasControl(value)
    requires forall c | !IsControl(c) :: !HasControl(f(c))
    ensures !HasControl(Escape(value, f))
  {
    if value != "" {
      assert !IsControl(value[0]);
      assert forall i | 0 <= i < |value[1..]| :: value[1..][i] == value[i + 1];
      EscapeAddsNoControl(value[1..], f);
    }
  }

  /** A quoted word holds no control character, so no argument can end the line it is printed on. */
  lemma QuotedStaysOnItsLine(value: string)
    requires !HasControl(value)
    ensures !HasControl(Quoted(value))
  {
    QuoteIsSimultaneous(value);
    EscapeAddsNoControl(value, QuoteChar);
  }

  // ---------- Log paths ----------

  /** In an output directive only the specifier sign is special. */
  function LogPath(path: string): string { Replace(path, '%', "%%") }

  function ReadLogPath(s: string): Option<string> {
    if s == "" then Some("")
    else if s[0] == '%' then
      if |s| == 1 || s[1] != '%' || ReadLogPath(s[2..]).None? then None else Some("%" + ReadLogPath(s[2..]).value)
    else if ReadLogPath(s[1..]).None? then None
    else Some([s[0]] + ReadLogPath(s[1..]).value)
  }

  lemma {:induction false} LogPathReadsBack(path: string)
    ensures ReadLogPath(LogPath(path)) == Some(path)
  {
    if path != "" {
      var tail := LogPath(path[1..]);
      LogPathReadsBack(path[1..]);
      assert path == [path[0]] + path[1..];
      var s := LogPath(path);
      if path[0] == '%' {
        assert s == "%%" + tail && s[0] == '%' && s[1] == '%' && s[2..] == tail;
        assert "%" + path[1..] == path;
      } else {
        assert s == [path[0]] + tail && s[0] == path[0] && s[1..] == tail;
      }
    }
  }

  // ---------- Definitions ----------

  predicate Alphanumeric(c: char) { '0' <= c <= '9' || 'A' <= c <= 'Z' || 'a' <= c <= 'z' }

  predicate NameChar(c: char) { Alphanumeric(c) || c == '.' || c == '_' || c == '-' }

  predicate NameOk(name: string) {
    && 0 < |name| <= 128 && Alphanumeric(name[0])
    && forall i | 0 <= i < |name| :: NameChar(name[i])
  }

  function PathText(path: Option<string>): Result<string> {
    if path.None? then Failure(PathNotUtf8)
    else if HasControl(path.value) then Failure(ControlCharacter)
    else if path.value == "" || path.value[0] != '/' then Failure(PathNotAbsolute)
    else Success(path.value)
  }

  /** `Path::join` with a relative name. */
  function Below(directory: Option<string>, leaf: string): Option<string> {
    if directory.None? then None
    else if directory.value == "" || directory.value[|directory.value| - 1] == '/' then Some(directory.value + leaf)
    else Some(directory.value + "/" + leaf)
  }

  function LogOf(d: Definition): Result<string> { PathText(Below(d.runtime, "daemon.log")) }

  /** The first reason to refuse a definition. */
  function Refusal(d: Definition): Option<UnitError> {
    if !NameOk(d.name) then Some(BadName)
    else if PathText(d.executable).Failure? then Some(PathText(d.executable).error)
    else if exists i | 0 <= i < |d.arguments| :: HasControl(d.arguments[i]) then Some(ControlCharacter)
    else if LogOf(d).Failure? then Some(LogOf(d).error)
    else None
  }

  const UNIT_HEAD :=
    "# Generated by jailgun service unit; accounts and results remain in the private runtime.\n[Unit]\nDescription=Jailgun concept service\nStartLimitIntervalSec=300\nStartLimitBurst=3\n\n[Service]\nType=exec\nExecStart="
  const UNIT_MIDDLE :=
    "\nRestart=on-failure\nRestartSec=10\nTimeoutStopSec=60\nKillMode=mixed\nUMask=0077\nStandardInput=null\nStandardOutput=null\nStandardError=append:"
  const UNIT_TAIL := "\n\n[Install]\nWantedBy=default.target\n"

  /** Prints a unit exactly when nothing speaks against the definition. Its command line reads back as the executable and
      its arguments after `env --`, on one line, and starts exactly that when the path has no equals sign; its log path
      reads back as the log path. */
  method Systemd(d: Definition) returns (unit: Result<string>)
    ensures Refusal(d).Some? ==> unit == Failure(Refusal(d).value)
    ensures Refusal(d).None? ==>
              exists line, log ::
                && unit == Success(UNIT_HEAD + line + UNIT_MIDDLE + log + UNIT_TAIL)
                && Words(line) == Some([ENV, "--", d.executable.value] + d.arguments) && !HasControl(line)
                && (Started(Words(line).value) == Some((d.executable.value, d.arguments)) <==> '=' !in d.executable.value)
                && ReadLogPath(log) == Below(d.runtime, "daemon.log")
  {
    if !NameOk(d.name) {
      return Failure(BadName);
    }
    var executable := PathText(d.executable);
    if executable.Failure? {
      return Failure(executable.error);
    }
    var command := [ENV, "--", Quoted(executable.value)];
    for i := 0 to |d.arguments|
      invariant command == Command([executable.value] + d.arguments[..i])
      invariant forall j | 0 <= j < i :: !HasControl(d.arguments[j])
    {
      var quoted := Quote(d.arguments[i]);
      if quoted.Failure? {
        return Failure(quoted.error);
      }
      assert [executable.value] + d.arguments[..i + 1] == ([executable.value] + d.arguments[..i]) + [d.arguments[i]];
      command := command + [quoted.value];
    }
    assert d.arguments[..|d.arguments|] == d.arguments;
    var log := LogOf(d);
    if log.Failure? {
      return Failure(log.error);
    }
    ghost var words := [executable.value] + d.arguments;
    var line := Join(command, " ");
    CommandReadsBack(words);
    StartsTheExecutableIff(executable.value, d.arguments);
    assert [ENV, "--"] + words == [ENV, "--", d.executable.value] + d.arguments;
    CommandStaysOnItsLine(words);
    LogPathReadsBack(log.value);
    unit := Success(UNIT_HEAD + line + UNIT_MIDDLE + LogPath(log.value) + UNIT_TAIL);
  }

  lemma {:induction false} JoinAddsNoControl(words: seq<string>)
    requires forall i | 0 <= i < |words| :: !HasControl(words[i])
    ensures !HasControl(Join(words, " "))
  {
    if |words| > 1 {
      assert forall i | 0 <= i < |words[1..]| :: words[1..][i] == words[i + 1];
      JoinAddsNoControl(words[1..]);
    }
  }

  lemma CommandStaysOnItsLine(words: seq<string>)
    requires forall i | 0 <= i < |words| :: !HasControl(words[i])
    ensures !HasControl(Join(Command(words), " "))
  {
    forall i | 0 <= i < |Command(words)| ensures !HasControl(Command(words)[i]) {
      if i >= 2 { QuotedStaysOnItsLine(words[i - 2]); }
    }
    JoinAddsNoControl(Command(words));
  }

  const PLIST_HEAD :=
    "<?xml version=\"1.0\" encoding=\"UTF-8\"?>\n<!DOCTYPE plist PUBLIC \"-//Apple//DTD PLIST 1.0//EN\" \"http://www.apple.com/DTDs/PropertyList-1.0.dtd\">\n<plist version=\"1.0\"><dict>\n  <key>Label</key><string>"
  const PLIST_ARGUMENTS := STRING_CLOSE + "\n  <key>ProgramArguments</key><array>\n"
  const PLIST_MIDDLE :=
    "\n  <key>RunAtLoad</key><true/>\n  <key>KeepAlive</key><dict><key>SuccessfulExit</key><false/></dict>\n  <key>ThrottleInterval</key><integer>10</integer>\n  <key>ExitTimeOut</key><integer>60</integer>\n  <key>Umask</key><integer>63</integer>\n  <key>StandardOutPath</key><string>/dev/null</string>\n  <key>StandardErrorPath</key><string>"
  const PLIST_TAIL := "</string>\n</dict></plist>\n"

  datatype Plist = Plist(name: string, arguments: seq<string>, log: string)

  /** The rest of a property list after its argument array. */
  function ReadLog(s: string): Option<string> {
    if After(s, PLIST_MIDDLE).None? then None
    else
      var log := ReadText(After(s, PLIST_MIDDLE).value);
      if log.None? || log.value.1 != PLIST_TAIL then None else Some(log.value.0)
  }

  /** The rest of a property list after its label. */
  function ReadBody(s: string): Option<(seq<string>, string)> {
    if After(s, PLIST_ARGUMENTS).None? then None
    else
      var arguments := ReadArguments(After(s, PLIST_ARGUMENTS).value);
      if arguments.None? || ReadLog(arguments.value.1).None? then None
      else Some((arguments.value.0, ReadLog(arguments.value.1).value))
  }

  /** A whole property list: its label, its program arguments, its error path. */
  function ReadPlist(s: string): Option<Plist> {
    if After(s, PLIST_HEAD).None? then None
    else
      var title := ReadText(After(s, PLIST_HEAD).value);
      if title.None? || ReadBody(title.value.1).None? then None
      else Some(Plist(title.value.0, ReadBody(title.value.1).value.0, ReadBody(title.value.1).value.1))
  }

  function PlistText(name: string, words: seq<string>, log: string): string {
    PLIST_HEAD + name + PLIST_ARGUMENTS + (Join(ArgumentLines(words), "\n") + "\n" + ARRAY_CLOSE + PLIST_MIDDLE + Xml(log) + PLIST_TAIL)
  }

  /** Every text of the definition may stand in a document. */
  predicate Readable(d: Definition)
    requires d.executable.Some? && d.runtime.Some?
  {
    XmlText(d.executable.value) && AllXmlText(d.arguments) && XmlText(d.runtime.value)
  }

  /** Prints a property list exactly when nothing speaks against the definition. As a document it gives back the name, the
      executable with its arguments, and the log path, if and only if the definition is readable; otherwise it is none. */
  method Launchd(d: Definition) returns (plist: Result<string>)
    ensures Refusal(d).Some? ==> plist == Failure(Refusal(d).value)
    ensures Refusal(d).None? ==>
              && plist == Success(PlistText(d.name, [d.executable.value] + d.arguments, Below(d.runtime, "daemon.log").value))
              && ReadPlist(plist.value)
                 == if Readable(d) then Some(Plist(d.name, [d.executable.value] + d.arguments, Below(d.runtime, "daemon.log").value))
                    else None
  {
    hide ReadPlist, Xml, Join, NameOk, HasControl, XmlText, AllXmlText;
    if !NameOk(d.name) {
      return Failure(BadName);
    }
    var executable := PathText(d.executable);
    if executable.Failure? {
      return Failure(executable.error);
    }
    var lines := PrintArguments(executable.value, d.arguments);
    if lines.Failure? {
      return Failure(lines.error);
    }
    var log := LogOf(d);
    if log.Failure? {
      return Failure(log.error);
    }
    var items := Join(lines.value, "\n") + "\n" + ARRAY_CLOSE;
    plist := Success(PLIST_HEAD + d.name + PLIST_ARGUMENTS + (items + PLIST_MIDDLE + Xml(log.value) + PLIST_TAIL));
    PlistReadsBack(d.name, [executable.value] + d.arguments, log.value);
    FirstAndAll([executable.value] + d.arguments);
    assert ([executable.value] + d.arguments)[1..] == d.arguments;
    LogIsXmlText(d.runtime.value);
  }

  method PrintArguments(executable: string, arguments: seq<string>) returns (lines: Result<seq<string>>)
    ensures lines.Failure? <==> exists i | 0 <= i < |arguments| :: HasControl(arguments[i])
    ensures lines == Failure(ControlCharacter) || lines == Success(ArgumentLines([executable] + arguments))
  {
    hide ArgumentLine, HasControl;
    var printed := [ArgumentLine(executable)];
    for i := 0 to |arguments|
      invariant printed == ArgumentLines([executable] + arguments[..i])
      invariant forall j | 0 <= j < i :: !HasControl(arguments[j])
    {
      if HasControl(arguments[i]) {
        return Failure(ControlCharacter);
      }
      assert [executable] + arguments[..i + 1] == ([executable] + arguments[..i]) + [arguments[i]];
      printed := printed + [ArgumentLine(arguments[i])];
    }
    assert arguments[..|arguments|] == arguments;
    lines := Success(printed);
  }

  lemma LogIsXmlText(runtime: string)
    ensures XmlText(Below(Some(runtime), "daemon.log").value) <==> XmlText(runtime)
  {
    var log := Below(Some(runtime), "daemon.log").value;
    assert log[..|runtime|] == runtime && forall i | 0 <= i < |runtime| :: log[i] == runtime[i];
    assert log == runtime + log[|runtime|..] && (log[|runtime|..] == "daemon.log" || log[|runtime|..] == "/daemon.log");
    assert forall i | |runtime| <= i < |log| :: log[i] == log[|runtime|..][i - |runtime|];
  }

  lemma LogReadsBack(log: string)
    ensures ReadLog(PLIST_MIDDLE + (Xml(log) + PLIST_TAIL)) == if XmlText(log) then Some(log) else None
  {
    hide Xml, XmlText, After, ReadText;
    XmlIsSimultaneous(log);
    assert PLIST_TAIL[0] == '<';
    TextReadsBack(log, PLIST_TAIL);
    AfterPrefix(PLIST_MIDDLE, Xml(log) + PLIST_TAIL);
  }

  lemma BodyReadsBack(words: seq<string>, log: string)
    requires words != []
    ensures ReadBody(PLIST_ARGUMENTS + (Join(ArgumentLines(words), "\n") + "\n" + (ARRAY_CLOSE + (PLIST_MIDDLE + (Xml(log) + PLIST_TAIL)))))
            == if AllXmlText(words) && XmlText(log) then Some((words, log)) else None
  {
    hide Xml, XmlText, AllXmlText, After, ReadText, ReadArguments, ReadLog, Join;
    var tail := PLIST_MIDDLE + (Xml(log) + PLIST_TAIL);
    LogReadsBack(log);
    ArgumentsReadBack(words, tail);
    AfterPrefix(PLIST_ARGUMENTS, Join(ArgumentLines(words), "\n") + "\n" + (ARRAY_CLOSE + tail));
  }

  lemma NameCharStands(c: char)
    requires NameChar(c)
    ensures XmlChar(c) == [c] && IsXmlChar(c)
  {
  }

  /** A name holds only characters that stand for themselves. */
  lemma {:induction false} NameStands(name: string)
    requires forall i | 0 <= i < |name| :: NameChar(name[i])
    ensures Escape(name, XmlChar) == name && XmlText(name)
  {
    hide NameChar, XmlChar, IsXmlChar;
    if name != "" {
      assert forall i | 0 <= i < |name| - 1 :: name[1..][i] == name[i + 1];
      NameStands(name[1..]);
      NameCharStands(name[0]);
      FirstAndRest(name);
      assert name == [name[0]] + name[1..];
    }
  }

  /** The printed document reads back if and only if its texts are allowed in a document. */
  lemma PlistReadsBack(name: string, words: seq<string>, log: string)
    requires NameOk(name) && words != []
    ensures ReadPlist(PlistText(name, words, log))
            == if AllXmlText(words) && XmlText(log) then Some(Plist(name, words, log)) else None
  {
    hide Xml, XmlText, AllXmlText, After, ReadText, ReadBody, Join, Escape, NameChar;
    var items := Join(ArgumentLines(words), "\n") + "\n";
    var body := PLIST_ARGUMENTS + (items + (ARRAY_CLOSE + (PLIST_MIDDLE + (Xml(log) + PLIST_TAIL))));
    BodyReadsBack(words, log);
    NameStands(name);
    assert PLIST_ARGUMENTS[0] == '<' && body[0] == '<';
    TextReadsBack(name, body);
    AfterPrefix(PLIST_HEAD, name + body);
    Regroup(items, ARRAY_CLOSE, PLIST_MIDDLE, Xml(log), PLIST_TAIL);
    Prepend(PLIST_HEAD, name, PLIST_ARGUMENTS, items + (ARRAY_CLOSE + (PLIST_MIDDLE + (Xml(log) + PLIST_TAIL))));
  }

  lemma Prepend(a: string, b: string, c: string, d: string)
    ensures a + b + c + d == a + (b + (c + d))
  {
  }

  lemma Regroup(a: string, b: string, c: string, d: string, e: string)
    ensures a + b + c + d + e == a + (b + (c + (d + e)))
  {
  }

  lemma OneUnreadable(name: string, words: seq<string>, i: nat, log: string)
    requires NameOk(name) && i < |words| && !XmlText(words[i])
    ensures ReadPlist(PlistText(name, words, log)).None?
  {
    hide NameOk, XmlText, ReadPlist, PlistText;
    PlistReadsBack(name, words, log);
  }

  /** An accepted argument that no document may hold: the property list cannot be read. */
  lemma PrintedButUnreadable(d: Definition, log: string)
    requires d == Definition("jailgun", Some("/jailgun"), Some("/run"), ["\U{FFFE}"])
    ensures Refusal(d).None? && ReadPlist(PlistText(d.name, [d.executable.value] + d.arguments, log)).None?
  {
    hide ReadPlist, PlistText, XmlText, NameOk, Refusal;
    NoControl("/jailgun");
    NoControl("\U{FFFE}");
    hide HasControl, IsControl;
    Accepted("/jailgun", "\U{FFFE}");
    NameIsOk();
    NotXmlText("\U{FFFE}");
    OneUnreadable(d.name, [d.executable.value] + d.arguments, 1, log);
  }

  lemma NameIsOk()
    ensures NameOk("jailgun")
  {
  }

  lemma NotXmlText(s: string)
    requires s == "\U{FFFE}"
    ensures !XmlText(s)
  {
    assert !IsXmlChar(s[0]);
  }
}
