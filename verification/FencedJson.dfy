/** Structured data in fenced blocks of a response (crates/jailgun-workflow/src/capture.rs). */
module FencedJson {
  import opened Text

  // ---------- Lines ----------

  function LineEnd(s: string): (n: nat)
    ensures n <= |s| && (n < |s| ==> s[n] == '\n')
    ensures forall i | 0 <= i < n :: s[i] != '\n'
  {
    if s == "" || s[0] == '\n' then 0 else 1 + LineEnd(s[1..])
  }

  function StripReturn(line: string): string {
    if line != "" && line[|line| - 1] == '\r' then line[..|line| - 1] else line
  }

  /** `str::lines`: a final line break is optional, and a carriage return counts only before a line feed. */
  function Lines(s: string): seq<string> {
    var n := LineEnd(s);
    if s == "" then []
    else if n == |s| then [s]
    else [StripReturn(s[..n])] + Lines(s[n + 1..])
  }

  // ---------- Fences ----------

  function Ticks(s: string): (n: nat)
    ensures n <= |s| && (n < |s| ==> s[n] != '`')
    ensures forall i | 0 <= i < n :: s[i] == '`'
  {
    if s == "" || s[0] != '`' then 0 else 1 + Ticks(s[1..])
  }

  function Fence(line: string): nat { Ticks(TrimStart(line)) }
  function Info(line: string): string { TrimStart(line)[Fence(line)..] }

  predicate Opens(line: string) { Fence(line) >= 3 }
  predicate Closes(line: string, fence: nat) { Fence(line) >= fence && Blank(Info(line)) }
  predicate IsJson(line: string) { EqIgnoreCase(Trim(Info(line)), "json") }

  /** Index of the first line with a property; the number of lines when there is none. */
  function First(lines: seq<string>, p: string -> bool): (i: nat)
    ensures i <= |lines| && (i < |lines| ==> p(lines[i]))
    ensures forall k | 0 <= k < i :: !p(lines[k])
  {
    if lines == [] || p(lines[0]) then 0 else 1 + First(lines[1..], p)
  }

  /** Index of the first line that opens a block. */
  function FirstOpen(lines: seq<string>): (i: nat)
    ensures i <= |lines| && (i < |lines| ==> Opens(lines[i]))
    ensures forall k | 0 <= k < i :: !Opens(lines[k])
  {
    hide Opens;
    First(lines, line => Opens(line))
  }

  /** Index of the first line that closes a block opened with `fence` ticks. */
  function FirstClose(lines: seq<string>, fence: nat): (j: nat)
    ensures j <= |lines| && (j < |lines| ==> Closes(lines[j], fence))
    ensures forall k | 0 <= k < j :: !Closes(lines[k], fence)
  {
    hide Closes;
    First(lines, line => Closes(line, fence))
  }

  // ---------- What a text contains ----------

  /** The text inside a block: its lines without their indentation. */
  function Body(lines: seq<string>): string {
    if lines == [] then "" else Body(lines[..|lines| - 1]) + TrimStart(lines[|lines| - 1]) + "\n"
  }

  /** What one closed block contributes. */
  function Document<V>(opening: string, body: seq<string>, parse: string -> Option<V>): seq<V> {
    if IsJson(opening) && parse(Body(body)).Some? then [parse(Body(body)).value] else []
  }

  /** The documents of a text, block by block: each block runs from its opening line to the first line that closes it. */
  function Documents<V>(lines: seq<string>, parse: string -> Option<V>): seq<V>
    decreases |lines|
  {
    var i := FirstOpen(lines);
    if i == |lines| then []
    else
      var rest := lines[i + 1..];
      var j := FirstClose(rest, Fence(lines[i]));
      if j == |rest| then [] else Document(lines[i], rest[..j], parse) + Documents(rest[j + 1..], parse)
  }

  /** The text ends outside any block. */
  predicate Outside(lines: seq<string>)
    decreases |lines|
  {
    var i := FirstOpen(lines);
    i == |lines| ||
    var rest := lines[i + 1..];
    var j := FirstClose(rest, Fence(lines[i]));
    j < |rest| && Outside(rest[j + 1..])
  }

  // ---------- The line scanner ----------

  /** The state of the scanner at line `p`: outside a block since line `o`, or inside the block line `o` opens. */
  ghost predicate Scanning(lines: seq<string>, o: nat, p: nat, fence: nat, json: bool, body: string) {
    && o <= p <= |lines|
    && (fence == 0 ==> forall k | o <= k < p :: !Opens(lines[k]))
    && (fence > 0 ==>
          (&& o < p && Opens(lines[o]) && fence == Fence(lines[o]) && json == IsJson(lines[o])
           && (forall k | o < k < p :: !Closes(lines[k], fence))
           && (json ==> body == Body(lines[o + 1..p]))))
  }

  /** `json_blocks`: one pass over the lines, with the length of the open fence as state. */
  method JsonBlocks<V>(markdown: string, parse: string -> Option<V>) returns (documents: seq<V>)
    ensures documents == Documents(Lines(markdown), parse)
  {
    hide Lines, Documents, TrimStart, Trim, EqIgnoreCase, Blank, Ticks, Opens, Closes, Fence, Info, IsJson, Scanning, Body;
    var lines := Lines(markdown);
    documents := [];
    var fence, json, body := 0, false, "";
    ghost var o := 0;
    StartsOutside(lines, 0);
    for p := 0 to |lines|
      invariant o <= p && Documents(lines, parse) == documents + Documents(lines[o..], parse)
      invariant Scanning(lines, o, p, fence, json, body)
    {
      var line := TrimStart(lines[p]);
      var ticks := Ticks(line);
      LineFacts(lines[p], fence);
      if fence == 0 && ticks >= 3 {
        ProseEnds(lines, o, p, json, body, parse);
        fence := ticks;
        json := EqIgnoreCase(Trim(line[ticks..]), "json");
        body := "";
        o := p;
      } else if fence > 0 && ticks >= fence && Blank(line[ticks..]) {
        BlockEnds(lines, o, p, fence, json, body, parse);
        if json {
          var document := parse(body);
          if document.Some? {
            documents := documents + [document.value];
          }
        }
        fence := 0;
        json := false;
        o := p + 1;
        StartsOutside(lines, o);
      } else {
        LineInside(lines, o, p, fence, json, body);
        if fence > 0 && json {
          body := body + line + "\n";
        }
      }
    }
    NothingLeft(lines, o, fence, json, body, parse);
  }

  lemma StartsOutside(lines: seq<string>, o: nat)
    requires o <= |lines|
    ensures forall json, body :: Scanning(lines, o, o, 0, json, body)
    ensures lines[0..] == lines
  {
  }

  /** Lines that open nothing do not matter. */
  lemma ProseEnds<V>(lines: seq<string>, o: nat, p: nat, json: bool, body: string, parse: string -> Option<V>)
    requires Scanning(lines, o, p, 0, json, body) && p < |lines| && Opens(lines[p])
    ensures Documents(lines[o..], parse) == Documents(lines[p..], parse)
    ensures Scanning(lines, p, p + 1, Fence(lines[p]), IsJson(lines[p]), "")
  {
    hide Documents, Closes, IsJson, FirstOpen;
    BlockStarts(lines, p);
    hide Opens, Fence;
    NoneOpen(lines[o..p]);
    ProseCompose(lines[o..p], lines[p..], parse);
    SplitAt(lines, o, p);
  }

  lemma SplitAt(lines: seq<string>, o: nat, p: nat)
    requires o <= p <= |lines|
    ensures lines[o..p] + lines[p..] == lines[o..]
  {
  }

  lemma BlockStarts(lines: seq<string>, p: nat)
    requires p < |lines| && Opens(lines[p])
    ensures Scanning(lines, p, p + 1, Fence(lines[p]), IsJson(lines[p]), "")
  {
    assert Fence(lines[p]) >= 3;
    hide Opens, Fence, IsJson, Closes;
    assert lines[p + 1..p + 1] == [];
  }

  lemma NoneOpen(lines: seq<string>)
    requires forall k | 0 <= k < |lines| :: !Opens(lines[k])
    ensures FirstOpen(lines) == |lines|
  {
    hide Opens, FirstOpen;
  }

  lemma BlockEnds<V>(lines: seq<string>, o: nat, p: nat, fence: nat, json: bool, body: string, parse: string -> Option<V>)
    requires fence > 0 && Scanning(lines, o, p, fence, json, body) && p < |lines| && Closes(lines[p], fence)
    ensures Documents(lines[o..], parse)
            == (if json && parse(body).Some? then [parse(body).value] else []) + Documents(lines[p + 1..], parse)
  {
    hide Opens, Closes, Fence, IsJson, Body, Documents;
    BlockStructure(lines[o..], p - o - 1, parse);
    Shifted(lines, o, p);
  }

  lemma Shifted(lines: seq<string>, o: nat, p: nat)
    requires o < p < |lines|
    ensures lines[o..][0] == lines[o] && lines[o..][1..][p - o - 1] == lines[p]
    ensures lines[o..][1..] == lines[o + 1..] && lines[o..][1..][..p - o - 1] == lines[o + 1..p] && lines[o..][1..][p - o..] == lines[p + 1..]
  {
  }

  /** A text that starts with a block closed by its line `j` after the first. */
  lemma BlockStructure<V>(lines: seq<string>, j: nat, parse: string -> Option<V>)
    requires lines != [] && Opens(lines[0]) && j < |lines[1..]| && Closes(lines[1..][j], Fence(lines[0]))
    requires forall k | 0 <= k < j :: !Closes(lines[1..][k], Fence(lines[0]))
    ensures Documents(lines, parse) == Document(lines[0], lines[1..][..j], parse) + Documents(lines[1..][j + 1..], parse)
  {
    hide Opens, Closes, Fence, IsJson, Body, Document, FirstOpen, FirstClose;
    OpenIndex(lines, 0);
    CloseIndex(lines[1..], j, Fence(lines[0]));
  }

  lemma LineInside(lines: seq<string>, o: nat, p: nat, fence: nat, json: bool, body: string)
    requires Scanning(lines, o, p, fence, json, body) && p < |lines|
    requires if fence == 0 then !Opens(lines[p]) else !Closes(lines[p], fence)
    ensures Scanning(lines, o, p + 1, fence, json, if fence > 0 && json then body + TrimStart(lines[p]) + "\n" else body)
  {
    hide Opens, Closes, Fence, IsJson, TrimStart;
    if fence > 0 {
      assert lines[o + 1..p + 1] == lines[o + 1..p] + [lines[p]];
    }
  }

  lemma NothingLeft<V>(lines: seq<string>, o: nat, fence: nat, json: bool, body: string, parse: string -> Option<V>)
    requires Scanning(lines, o, |lines|, fence, json, body)
    ensures Documents(lines[o..], parse) == []
  {
    hide Opens, Closes, Document, Fence, IsJson, Body, FirstOpen, FirstClose;
    if fence > 0 {
      OpenIndex(lines[o..], 0);
    }
  }

  lemma LineFacts(line: string, fence: nat)
    ensures var text := TrimStart(line);
            var ticks := Ticks(text);
            && Fence(line) == ticks && Opens(line) == (ticks >= 3) && Closes(line, fence) == (ticks >= fence && Blank(text[ticks..]))
            && IsJson(line) == EqIgnoreCase(Trim(text[ticks..]), "json")
  {
    hide Ticks, TrimStart, Trim, Blank, EqIgnoreCase;
  }

  lemma OpenIndex(lines: seq<string>, i: nat)
    requires i < |lines| && Opens(lines[i]) && forall k | 0 <= k < i :: !Opens(lines[k])
    ensures FirstOpen(lines) == i
  {
    hide Opens, Closes, FirstOpen, FirstClose;
  }

  lemma CloseIndex(lines: seq<string>, j: nat, fence: nat)
    requires j < |lines| && Closes(lines[j], fence) && forall k | 0 <= k < j :: !Closes(lines[k], fence)
    ensures FirstClose(lines, fence) == j
  {
    hide Opens, Closes, FirstOpen, FirstClose;
  }

  // ---------- Composition ----------

  lemma OpenLeft(a: seq<string>, b: seq<string>)
    ensures FirstOpen(a) < |a| ==> FirstOpen(a + b) == FirstOpen(a)
    ensures FirstOpen(a) == |a| ==> FirstOpen(a + b) == |a| + FirstOpen(b)
  {
    hide Opens, FirstOpen;
    if FirstOpen(a) < |a| {
      OpenIndex(a + b, FirstOpen(a));
    } else if FirstOpen(b) < |b| {
      OpenIndex(a + b, |a| + FirstOpen(b));
    } else {
      assert forall k | 0 <= k < |a + b| :: (a + b)[k] == if k < |a| then a[k] else b[k - |a|];
    }
  }

  /** A text that ends outside a block can be read on its own: what follows adds its own documents and nothing else. */
  lemma {:induction false} DocumentsCompose<V>(a: seq<string>, b: seq<string>, parse: string -> Option<V>)
    requires Outside(a)
    ensures Documents(a + b, parse) == Documents(a, parse) + Documents(b, parse)
    ensures Outside(a + b) == Outside(b)
    decreases |a|
  {
    hide Opens, Closes, Document, Fence, FirstOpen, FirstClose;
    hide Documents, Outside;
    OpenLeft(a, b);
    var i := FirstOpen(a);
    if i == |a| {
      ProseCompose(a, b, parse);
    } else {
      var rest := a[i + 1..];
      var j := FirstClose(rest, Fence(a[i]));
      FirstBlock(a, parse);
      assert (a + b)[i + 1..] == rest + b && (a + b)[i] == a[i];
      CloseLeft(rest, b, Fence(a[i]));
      FirstBlock(a + b, parse);
      DocumentsCompose(rest[j + 1..], b, parse);
    }
  }

  lemma FirstBlock<V>(lines: seq<string>, parse: string -> Option<V>)
    requires FirstOpen(lines) < |lines|
    ensures var i := FirstOpen(lines);
            var rest := lines[i + 1..];
            var j := FirstClose(rest, Fence(lines[i]));
            && (j == |rest| ==> !Outside(lines))
            && (j < |rest| ==>
                  (&& Outside(lines) == Outside(rest[j + 1..])
                   && Documents(lines, parse) == Document(lines[i], rest[..j], parse) + Documents(rest[j + 1..], parse)))
  {
    hide Opens, Closes, Document, Fence, FirstOpen, FirstClose;
  }

  lemma CloseLeft(a: seq<string>, b: seq<string>, fence: nat)
    requires FirstClose(a, fence) < |a|
    ensures var j := FirstClose(a, fence);
            FirstClose(a + b, fence) == j && (a + b)[..j] == a[..j] && (a + b)[j + 1..] == a[j + 1..] + b
  {
    hide Closes, FirstClose;
    var j := FirstClose(a, fence);
    assert forall k | 0 <= k <= j :: (a + b)[k] == a[k];
    CloseIndex(a + b, j, fence);
  }

  lemma ProseCompose<V>(a: seq<string>, b: seq<string>, parse: string -> Option<V>)
    requires FirstOpen(a) == |a|
    ensures Documents(a + b, parse) == Documents(b, parse) && Documents(a, parse) == [] && Outside(a + b) == Outside(b)
  {
    hide Opens, Closes, Document, Fence, FirstOpen, FirstClose;
    OpenLeft(a, b);
    if FirstOpen(b) < |b| {
      assert (a + b)[|a| + FirstOpen(b) + 1..] == b[FirstOpen(b) + 1..];
    }
  }

  lemma FirstLine(line: string, rest: string)
    requires forall i | 0 <= i < |line| :: line[i] != '\n'
    ensures Lines(line + "\n" + rest) == [StripReturn(line)] + Lines(rest)
  {
    var s := line + "\n" + rest;
    var n := LineEnd(s);
    assert forall i | 0 <= i < |line| :: s[i] == line[i];
    assert s[|line|] == '\n' && n == |line|;
    assert s[..|line|] == line && s[|line| + 1..] == rest;
  }

  lemma Associative<T>(x: seq<T>, y: seq<T>, z: seq<T>)
    ensures (x + y) + z == x + (y + z)
  {
  }

  /** The first line of a text is its first line whatever follows. */
  lemma FirstOfBoth(a: string, b: string) returns (first: string, rest: string)
    requires a != "" && a[|a| - 1] == '\n'
    ensures |rest| < |a| && (rest == "" || rest[|rest| - 1] == '\n')
    ensures Lines(a) == [first] + Lines(rest) && Lines(a + b) == [first] + Lines(rest + b)
  {
    hide Lines;
    var n := LineEnd(a);
    first, rest := StripReturn(a[..n]), a[n + 1..];
    SplitLine(a, n, b);
    FirstLine(a[..n], rest);
    FirstLine(a[..n], rest + b);
  }

  lemma {:induction false} LinesCompose(a: string, b: string)
    requires a == "" || a[|a| - 1] == '\n'
    ensures Lines(a + b) == Lines(a) + Lines(b)
    decreases |a|
  {
    if a == "" {
      assert a + b == b;
    } else {
      hide Lines;
      var first, rest := FirstOfBoth(a, b);
      LinesCompose(rest, b);
      Associative([first], Lines(rest), Lines(b));
    }
  }

  lemma SplitLine(a: string, n: nat, b: string)
    requires a != "" && a[|a| - 1] == '\n' && n <= |a| && (n < |a| ==> a[n] == '\n')
    requires forall i | 0 <= i < n :: a[i] != '\n'
    ensures n < |a| && a == a[..n] + "\n" + a[n + 1..] && a + b == a[..n] + "\n" + (a[n + 1..] + b)
    ensures a[n + 1..] == "" || a[n + 1..][|a[n + 1..]| - 1] == '\n'
  {
  }

  /** The same for two pieces of text, the first of which ends with a line break outside any block. */
  lemma BlocksCompose<V>(a: string, b: string, parse: string -> Option<V>)
    requires a == "" || a[|a| - 1] == '\n'
    requires Outside(Lines(a))
    ensures Documents(Lines(a + b), parse) == Documents(Lines(a), parse) + Documents(Lines(b), parse)
  {
    LinesCompose(a, b);
    DocumentsCompose(Lines(a), Lines(b), parse);
  }

  // ---------- Writing blocks and reading them back ----------

  datatype Piece = Prose(line: string) | Fenced(ticks: nat, info: string, body: seq<string>, closing: nat)

  function Repeat(c: char, n: nat): (s: string)
    ensures |s| == n && forall i | 0 <= i < n :: s[i] == c
  {
    if n == 0 then "" else [c] + Repeat(c, n - 1)
  }

  /** Prose opens no block; no line of a block closes it before its closing line. */
  predicate PieceOk(p: Piece) {
    match p
    case Prose(line) => !Opens(line)
    case Fenced(ticks, info, body, closing) =>
      ticks >= 3 && closing >= ticks && (info != "" ==> info[0] != '`') && forall k | 0 <= k < |body| :: !Closes(body[k], ticks)
  }

  function PieceLines(p: Piece): seq<string> {
    match p
    case Prose(line) => [line]
    case Fenced(ticks, info, body, closing) => [Repeat('`', ticks) + info] + body + [Repeat('`', closing)]
  }

  function Rendered(pieces: seq<Piece>): seq<string> {
    if pieces == [] then [] else PieceLines(pieces[0]) + Rendered(pieces[1..])
  }

  /** What a piece is meant to say: a block whose info string is `json` holds its parsed body, anything else holds nothing. */
  function Meaning<V>(p: Piece, parse: string -> Option<V>): seq<V> {
    match p
    case Prose(_) => []
    case Fenced(_, info, body, _) =>
      if EqIgnoreCase(Trim(info), "json") && parse(Body(body)).Some? then [parse(Body(body)).value] else []
  }

  function Meanings<V>(pieces: seq<Piece>, parse: string -> Option<V>): seq<V> {
    if pieces == [] then [] else Meaning(pieces[0], parse) + Meanings(pieces[1..], parse)
  }

  lemma {:induction false} TicksOf(n: nat, s: string)
    requires s != "" ==> s[0] != '`'
    ensures Ticks(Repeat('`', n) + s) == n
  {
    var line := Repeat('`', n) + s;
    assert s != "" ==> line[n] == s[0];
    assert forall i | 0 <= i < n :: line[i] == '`';
  }

  lemma FenceLine(n: nat, info: string)
    requires n >= 3 && (info != "" ==> info[0] != '`')
    ensures var line := Repeat('`', n) + info; Fence(line) == n && Info(line) == info
  {
    var line := Repeat('`', n) + info;
    assert line[0] == '`' && TrimStart(line) == line;
    TicksOf(n, info);
  }

  lemma OpeningLine(n: nat, info: string)
    requires n >= 3 && (info != "" ==> info[0] != '`')
    ensures var line := Repeat('`', n) + info;
            Opens(line) && Fence(line) == n && IsJson(line) == EqIgnoreCase(Trim(info), "json")
  {
    FenceLine(n, info);
  }

  lemma ClosingLine(n: nat, fence: nat)
    requires n >= fence >= 3
    ensures Closes(Repeat('`', n), fence)
  {
    FenceLine(n, "");
    assert Repeat('`', n) + "" == Repeat('`', n);
  }

  lemma PieceIsRead<V>(p: Piece, parse: string -> Option<V>)
    requires PieceOk(p)
    ensures Outside(PieceLines(p)) && Documents(PieceLines(p), parse) == Meaning(p, parse)
  {
    hide Opens, Closes, Fence, IsJson, Trim, EqIgnoreCase, Body, FirstOpen, FirstClose;
    if p.Fenced? {
      var lines := PieceLines(p);
      OpeningLine(p.ticks, p.info);
      ClosingLine(p.closing, p.ticks);
      OpenIndex(lines, 0);
      var rest := lines[1..];
      assert rest == p.body + [Repeat('`', p.closing)];
      CloseIndex(rest, |p.body|, p.ticks);
      assert rest[..|p.body|] == p.body && rest[|p.body| + 1..] == [];
    }
  }

  /** Reading back a rendering gives exactly the documents of its `json` blocks, in order. Blocks with another info
      string contribute nothing, whatever shorter fences they contain. */
  lemma {:induction false} RenderThenRead<V>(pieces: seq<Piece>, parse: string -> Option<V>)
    requires forall i | 0 <= i < |pieces| :: PieceOk(pieces[i])
    ensures Outside(Rendered(pieces)) && Documents(Rendered(pieces), parse) == Meanings(pieces, parse)
  {
    hide Opens, Closes, Document, Fence, PieceOk, PieceLines, Meaning;
    if pieces != [] {
      PieceIsRead(pieces[0], parse);
      RenderThenRead(pieces[1..], parse);
      DocumentsCompose(PieceLines(pieces[0]), Rendered(pieces[1..]), parse);
    }
  }

  /** A block that is never closed contributes nothing, and hides everything after it. */
  lemma UnterminatedIsSilent<V>(before: seq<string>, opening: string, tail: seq<string>, parse: string -> Option<V>)
    requires Outside(before) && Opens(opening) && forall k | 0 <= k < |tail| :: !Closes(tail[k], Fence(opening))
    ensures Documents(before + ([opening] + tail), parse) == Documents(before, parse)
    ensures !Outside(before + ([opening] + tail))
  {
    hide Opens, Closes, Document, Fence, FirstOpen, FirstClose;
    var lines := [opening] + tail;
    OpenIndex(lines, 0);
    assert lines[1..] == tail;
    DocumentsCompose(before, lines, parse);
  }

  function Unlines(lines: seq<string>): string {
    if lines == [] then "" else lines[0] + "\n" + Unlines(lines[1..])
  }

  /** A line that survives being written and read. */
  predicate LineOk(line: string) {
    (forall i | 0 <= i < |line| :: line[i] != '\n') && (line != "" ==> line[|line| - 1] != '\r')
  }

  lemma {:induction false} LinesOfUnlines(lines: seq<string>)
    requires forall k | 0 <= k < |lines| :: LineOk(lines[k])
    ensures Lines(Unlines(lines)) == lines
  {
    if lines != [] {
      var first, rest := lines[0], Unlines(lines[1..]);
      var s := Unlines(lines);
      assert s == (first + "\n") + rest;
      assert (first + "\n")[|first|] == '\n';
      LinesCompose(first + "\n", rest);
      assert LineEnd(first + "\n") == |first|;
      assert (first + "\n")[..|first|] == first && (first + "\n")[|first| + 1..] == "";
      LinesOfUnlines(lines[1..]);
    }
  }

  /** The whole way round, for text: render, scan, and get every `json` body back without its indentation. */
  lemma TextRoundTrip<V>(pieces: seq<Piece>, parse: string -> Option<V>)
    requires forall i | 0 <= i < |pieces| :: PieceOk(pieces[i])
    requires forall k | 0 <= k < |Rendered(pieces)| :: LineOk(Rendered(pieces)[k])
    ensures Documents(Lines(Unlines(Rendered(pieces))), parse) == Meanings(pieces, parse)
  {
    LinesOfUnlines(Rendered(pieces));
    RenderThenRead(pieces, parse);
  }

  // ---------- unique_field ----------

  function Fields<V, F>(documents: seq<V>, get: V -> Option<F>): seq<F> {
    if documents == [] then []
    else (if get(documents[0]).Some? then [get(documents[0]).value] else []) + Fields(documents[1..], get)
  }

  /** The field, when exactly one document has it. */
  function UniqueField<V, F>(documents: seq<V>, get: V -> Option<F>): Option<F> {
    var fields := Fields(documents, get);
    if |fields| == 1 then Some(fields[0]) else None
  }

  lemma FieldsFirst<V, F>(first: V, rest: seq<V>, get: V -> Option<F>)
    ensures Fields([first] + rest, get) == (if get(first).Some? then [get(first).value] else []) + Fields(rest, get)
  {
    assert ([first] + rest)[1..] == rest;
  }

  lemma {:induction false} FieldsAppend<V, F>(a: seq<V>, b: seq<V>, get: V -> Option<F>)
    ensures Fields(a + b, get) == Fields(a, get) + Fields(b, get)
  {
    if a == [] {
      assert a + b == b;
    } else {
      var first, rest := a[0], a[1..];
      FieldsAppend(rest, b, get);
      FieldsMore(first, rest, b, get);
      assert [first] + rest == a;
    }
  }

  lemma FieldsMore<V, F>(first: V, rest: seq<V>, b: seq<V>, get: V -> Option<F>)
    requires Fields(rest + b, get) == Fields(rest, get) + Fields(b, get)
    ensures Fields(([first] + rest) + b, get) == Fields([first] + rest, get) + Fields(b, get)
  {
    hide Fields;
    FieldsFirst(first, rest, get);
    FieldsFirst(first, rest + b, get);
    Associative([first], rest, b);
    Associative(if get(first).Some? then [get(first).value] else [], Fields(rest, get), Fields(b, get));
  }

  /** A field is found exactly when one document, and no other, has it. */
  lemma UniqueFieldIff<V, F>(documents: seq<V>, get: V -> Option<F>)
    ensures UniqueField(documents, get).Some? <==>
              exists i | 0 <= i < |documents| ::
                get(documents[i]).Some? && forall j | 0 <= j < |documents| && j != i :: get(documents[j]).None?
    ensures forall i | 0 <= i < |documents| && get(documents[i]).Some? && UniqueField(documents, get).Some? ::
              UniqueField(documents, get) == get(documents[i])
  {
    FieldsCount(documents, get);
    if UniqueField(documents, get).Some? {
      var i := Holder(documents, get);
    }
  }

  lemma {:induction false} FieldsCount<V, F>(documents: seq<V>, get: V -> Option<F>)
    ensures Fields(documents, get) == [] <==> forall i | 0 <= i < |documents| :: get(documents[i]).None?
    ensures |Fields(documents, get)| == 1 <==>
              exists i | 0 <= i < |documents| ::
                get(documents[i]).Some? && forall j | 0 <= j < |documents| && j != i :: get(documents[j]).None?
  {
    if documents != [] {
      var rest := documents[1..];
      FieldsCount(rest, get);
      assert forall i | 0 < i < |documents| :: documents[i] == rest[i - 1];
      if get(documents[0]).Some? && Fields(rest, get) == [] {
        assert forall j | 0 <= j < |documents| && j != 0 :: get(documents[j]).None?;
      }
      if get(documents[0]).None? && |Fields(rest, get)| == 1 {
        var i :| 0 <= i < |rest| && get(rest[i]).Some? && forall j | 0 <= j < |rest| && j != i :: get(rest[j]).None?;
        assert get(documents[i + 1]).Some?;
      }
      if i :| 0 <= i < |documents| && get(documents[i]).Some? && forall j | 0 <= j < |documents| && j != i :: get(documents[j]).None? {
        if i > 0 { assert get(rest[i - 1]).Some?; }
      }
    }
  }

  lemma {:induction false} Holder<V, F>(documents: seq<V>, get: V -> Option<F>) returns (i: nat)
    requires |Fields(documents, get)| == 1
    ensures i < |documents| && get(documents[i]) == Some(Fields(documents, get)[0])
    ensures forall j | 0 <= j < |documents| && j != i :: get(documents[j]).None?
  {
    FieldsCount(documents, get);
    if get(documents[0]).Some? {
      i := 0;
      FieldsCount(documents[1..], get);
      assert forall j | 0 < j < |documents| :: documents[j] == documents[1..][j - 1];
    } else {
      i := Holder(documents[1..], get);
      assert forall j | 0 < j < |documents| :: documents[j] == documents[1..][j - 1];
      i := i + 1;
    }
  }

  /** Data repeated in two parts of a response is ambiguous and is not used. */
  lemma RepeatedFieldIsRefused<V, F>(a: string, b: string, parse: string -> Option<V>, get: V -> Option<F>)
    requires (a == "" || a[|a| - 1] == '\n') && Outside(Lines(a))
    requires UniqueField(Documents(Lines(a), parse), get).Some? && UniqueField(Documents(Lines(b), parse), get).Some?
    ensures UniqueField(Documents(Lines(a + b), parse), get).None?
  {
    BlocksCompose(a, b, parse);
    FieldsAppend(Documents(Lines(a), parse), Documents(Lines(b), parse), get);
  }
}
