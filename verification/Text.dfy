/** Text tests shared by the workflow, the fenced-block parser and the chunk reader. */
module Text {

  datatype Option<+T> = None | Some(value: T)

  /** The Unicode White_Space property, which Rust's `trim` family uses. */
  predicate IsWhite(c: char) {
    var n := c as int;
    || 0x09 <= n <= 0x0D
    || n == 0x20 || n == 0x85 || n == 0xA0 || n == 0x1680
    || 0x2000 <= n <= 0x200A
    || n == 0x2028 || n == 0x2029 || n == 0x202F || n == 0x205F || n == 0x3000
  }

  /** `s.trim().is_empty()` */
  predicate Blank(s: string) {
    forall i | 0 <= i < |s| :: IsWhite(s[i])
  }

  /** There is something to read. */
  predicate Filled(s: string) { exists i :: 0 <= i < |s| && !IsWhite(s[i]) }

  lemma FilledIff(s: string)
    ensures Filled(s) <==> !Blank(s)
  {
  }

  lemma BlankJoin(a: string, b: string)
    requires Blank(a) && Blank(b)
    ensures Blank(a + b)
  {
    hide IsWhite;
  }

  function TrimStart(s: string): (r: string)
    ensures |r| <= |s| && r == s[|s| - |r|..]
    ensures r != [] ==> !IsWhite(r[0])
    ensures Blank(s[..|s| - |r|])
  {
    hide IsWhite;
    if s != [] && IsWhite(s[0]) then
      var r := TrimStart(s[1..]);
      BlankJoin([s[0]], s[1..][..|s| - 1 - |r|]);
      assert s[..|s| - |r|] == [s[0]] + s[1..][..|s| - 1 - |r|];
      r
    else s
  }

  function TrimEnd(s: string): (r: string)
    ensures |r| <= |s| && r == s[..|r|]
    ensures r != [] ==> !IsWhite(r[|r| - 1])
    ensures Blank(s[|r|..])
  {
    hide IsWhite;
    if s != [] && IsWhite(s[|s| - 1]) then
      var n := |s| - 1;
      var r := TrimEnd(s[..n]);
      BlankJoin(s[..n][|r|..], [s[n]]);
      assert s[|r|..] == s[..n][|r|..] + [s[n]];
      r
    else s
  }

  function Trim(s: string): string {
    TrimEnd(TrimStart(s))
  }

  function LowerAscii(c: char): char {
    if 'A' <= c <= 'Z' then (c as int + 32) as char else c
  }

  predicate EqIgnoreCase(a: string, b: string) {
    |a| == |b| && forall i | 0 <= i < |a| :: LowerAscii(a[i]) == LowerAscii(b[i])
  }

  /** Bytes of one scalar value in UTF-8 (section 3 of RFC 3629). */
  function Utf8Width(c: char): (w: nat)
    ensures 1 <= w <= 4
  {
    var n := c as int;
    if n < 0x80 then 1 else if n < 0x800 then 2 else if n < 0x10000 then 3 else 4
  }

  function Utf8Length(s: string): nat {
    if s == [] then 0 else Utf8Width(s[0]) + Utf8Length(s[1..])
  }
}
