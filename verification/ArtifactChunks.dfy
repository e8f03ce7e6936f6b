/** Reading a stored text in chunks of whole characters (crates/jailgun-workflow/src/artifact_reads.rs). */
module ArtifactChunks {
  import opened Text

  newtype Byte = n: int | 0 <= n < 256

  // ---------- UTF-8, section 3 of RFC 3629 ----------

  /** The bytes of one character. */
  function EncodeChar(c: char): (b: seq<Byte>)
    ensures |b| == Utf8Width(c) && !Continues(b[0])
    ensures forall i | 0 < i < |b| :: Continues(b[i])
  {
    var n := c as int;
    if n < 0x80 then [n as Byte]
    else if n < 0x800 then [(0xC0 + n / 0x40) as Byte, Tail(n)]
    else if n < 0x10000 then [(0xE0 + n / 0x1000) as Byte, Tail(n / 0x40), Tail(n)]
    else [(0xF0 + n / 0x40000) as Byte, Tail(n / 0x1000), Tail(n / 0x40), Tail(n)]
  }

  function Tail(n: nat): Byte { (0x80 + n % 0x40) as Byte }

  /** A byte inside a character. */
  predicate Continues(b: Byte) { 0x80 <= b < 0xC0 }

  function Encode(text: string): seq<Byte> {
    if text == "" then [] else Encode(text[..|text| - 1]) + EncodeChar(text[|text| - 1])
  }

  /** Byte offset of the character at position `p`. */
  function Offset(text: string, p: nat): nat
    requires p <= |text|
  {
    |Encode(text[..p])|
  }

  /** `str::is_char_boundary` */
  predicate IsBoundary(bytes: seq<Byte>, i: nat) {
    i == 0 || i == |bytes| || (i < |bytes| && !Continues(bytes[i]))
  }

  // ---------- Boundaries are the offsets of characters ----------

  lemma OffsetNext(text: string, p: nat)
    requires p < |text|
    ensures Offset(text, p + 1) == Offset(text, p) + Utf8Width(text[p])
    ensures Encode(text[..p + 1]) == Encode(text[..p]) + EncodeChar(text[p])
  {
    assert text[..p + 1][..p] == text[..p];
  }

  lemma {:induction false} OffsetsGrow(text: string, p: nat, q: nat)
    requires p <= q <= |text|
    ensures Offset(text, p) + (q - p) <= Offset(text, q) <= Offset(text, p) + 4 * (q - p)
    ensures Encode(text[..p]) <= Encode(text[..q])
    decreases q
  {
    if p < q {
      OffsetsGrow(text, p, q - 1);
      OffsetNext(text, q - 1);
    }
  }

  lemma WholeText(text: string)
    ensures Offset(text, |text|) == |Encode(text)| && Encode(text[..|text|]) == Encode(text)
  {
    assert text[..|text|] == text;
  }

  /** The bytes of the character at position `p`. */
  lemma CharacterBytes(text: string, p: nat)
    requires p < |text|
    ensures Offset(text, p) <= Offset(text, p + 1) <= |Encode(text)|
    ensures Encode(text)[Offset(text, p)..Offset(text, p + 1)] == EncodeChar(text[p])
  {
    OffsetNext(text, p);
    OffsetsGrow(text, p + 1, |text|);
    WholeText(text);
    var head := Encode(text[..p + 1]);
    assert Encode(text)[..|head|] == head;
    assert head[Offset(text, p)..] == EncodeChar(text[p]);
    assert Encode(text)[Offset(text, p)..|head|] == Encode(text)[..|head|][Offset(text, p)..];
  }

  lemma OffsetIsBoundary(text: string, p: nat)
    requires p <= |text|
    ensures Offset(text, p) <= |Encode(text)| && IsBoundary(Encode(text), Offset(text, p))
  {
    OffsetsGrow(text, p, |text|);
    WholeText(text);
    if p < |text| {
      CharacterBytes(text, p);
      OffsetNext(text, p);
      assert Encode(text)[Offset(text, p)] == Encode(text)[Offset(text, p)..Offset(text, p + 1)][0];
    }
  }

  /** The last character that starts at or before byte `i`. */
  lemma {:induction false} Covering(text: string, i: nat, n: nat) returns (p: nat)
    requires n <= |text| && i < Offset(text, n)
    ensures p < n && Offset(text, p) <= i < Offset(text, p + 1)
    decreases n
  {
    OffsetsGrow(text, 0, n);
    if Offset(text, n - 1) <= i {
      p := n - 1;
    } else {
      p := Covering(text, i, n - 1);
    }
  }

  /** Inside a character there is no boundary. */
  lemma InsideIsNoBoundary(text: string, p: nat, i: nat)
    requires p < |text| && Offset(text, p) < i < Offset(text, p + 1)
    ensures i < |Encode(text)| && !IsBoundary(Encode(text), i)
  {
    CharacterBytes(text, p);
    hide Encode, EncodeChar, Continues, Offset;
    var bytes, lo, hi := Encode(text), Offset(text, p), Offset(text, p + 1);
    assert bytes[lo..hi][i - lo] == bytes[i];
    assert |EncodeChar(text[p])| == hi - lo && Continues(EncodeChar(text[p])[i - lo]);
  }

  /** The boundaries of an encoded text are exactly the offsets of its characters, and its end. */
  lemma BoundaryIffOffset(text: string, i: nat)
    requires i <= |Encode(text)|
    ensures IsBoundary(Encode(text), i) <==> exists p | 0 <= p <= |text| :: Offset(text, p) == i
  {
    WholeText(text);
    if IsBoundary(Encode(text), i) {
      var p := |text|;
      if i < |Encode(text)| {
        p := Covering(text, i, |text|);
        if Offset(text, p) < i { InsideIsNoBoundary(text, p, i); }
      }
      assert Offset(text, p) == i;
    }
    forall p | 0 <= p <= |text| && Offset(text, p) == i ensures IsBoundary(Encode(text), i) {
      OffsetIsBoundary(text, p);
    }
  }

  lemma {:induction false} EncodeConcat(a: string, b: string)
    ensures Encode(a + b) == Encode(a) + Encode(b)
    decreases |b|
  {
    if b == "" {
      assert a + b == a;
    } else {
      var n := |b| - 1;
      assert (a + b)[..|a + b| - 1] == a + b[..n];
      EncodeConcat(a, b[..n]);
    }
  }

  /** Cutting the bytes at character offsets cuts the text. */
  lemma SliceIsText(text: string, p: nat, q: nat)
    requires p <= q <= |text|
    ensures Offset(text, p) <= Offset(text, q) <= |Encode(text)|
    ensures Encode(text)[Offset(text, p)..Offset(text, q)] == Encode(text[p..q])
  {
    assert text == text[..p] + text[p..q] + text[q..] && text[..q] == text[..p] + text[p..q];
    EncodeConcat(text[..p], text[p..q]);
    EncodeConcat(text[..q], text[q..]);
    assert text == text[..q] + text[q..];
  }

  // ---------- One chunk ----------

  datatype ChunkError = InvalidRange | InvalidText
  datatype Chunk = Chunk(offset: nat, next: Option<nat>, eof: bool, bytes: seq<Byte>)
  datatype Result = Refused(error: ChunkError) | Page(chunk: Chunk)

  predicate LimitOk(limit: nat) { 4 <= limit <= 16384 }

  /** Position of the last character boundary at most `limit` bytes after position `p`, searched from `q` on. */
  function FitFrom(text: string, p: nat, q: nat, limit: nat): (r: nat)
    requires p <= q <= |text|
    ensures q <= r <= |text|
    decreases |text| - q
  {
    hide Encode, Offset;
    if q < |text| && Offset(text, q + 1) <= Offset(text, p) + limit then FitFrom(text, p, q + 1, limit) else q
  }

  lemma {:induction false} FitFromFits(text: string, p: nat, q: nat, limit: nat)
    requires p <= q <= |text| && Offset(text, q) <= Offset(text, p) + limit
    ensures var r := FitFrom(text, p, q, limit);
            && Offset(text, r) <= Offset(text, p) + limit
            && (r < |text| ==> Offset(text, r + 1) > Offset(text, p) + limit)
    decreases |text| - q
  {
    hide Encode, Offset;
    if q < |text| && Offset(text, q + 1) <= Offset(text, p) + limit { FitFromFits(text, p, q + 1, limit); }
  }

  function Fit(text: string, p: nat, limit: nat): (q: nat)
    requires p <= |text|
    ensures p <= q <= |text| && Offset(text, q) <= Offset(text, p) + limit
    ensures q < |text| ==> Offset(text, q + 1) > Offset(text, p) + limit
    ensures p < |text| && limit >= 4 ==> q > p
  {
    hide Encode, Offset, FitFrom;
    var q := FitFrom(text, p, p, limit);
    FitFromFits(text, p, p, limit);
    if p < |text| then OffsetNext(text, p); q else q
  }

  /** The chunk that starts at character `p`: as many whole characters as fit. */
  function ChunkAt(text: string, p: nat, limit: nat): Chunk
    requires p <= |text|
  {
    var q := Fit(text, p, limit);
    Chunk(Offset(text, p), if q < |text| then Some(Offset(text, q)) else None, q == |text|, Encode(text[p..q]))
  }

  /** Stepping back from `last` to a boundary ends at the last character that fits. */
  lemma EndIsFit(text: string, p: nat, limit: nat, last: nat, end: nat)
    requires p <= |text| && end <= last <= |Encode(text)| && last <= Offset(text, p) + limit
    requires Offset(text, Fit(text, p, limit)) <= end && IsBoundary(Encode(text), end)
    ensures end == Offset(text, Fit(text, p, limit))
  {
    hide Encode, Fit, FitFrom;
    var q := Fit(text, p, limit);
    if end > Offset(text, q) {
      WholeText(text);
      assert q < |text|;
      InsideIsNoBoundary(text, q, end);
    }
  }

  /** Where the search for the end of a chunk starts: at most three bytes after its result. */
  lemma SearchSpan(text: string, p: nat, limit: nat, last: nat)
    requires p <= |text| && LimitOk(limit)
    requires last == if Offset(text, p) + limit < |Encode(text)| then Offset(text, p) + limit else |Encode(text)|
    ensures var low := Offset(text, Fit(text, p, limit));
            && Offset(text, p) <= low <= last < low + 4 && IsBoundary(Encode(text), low)
            && last <= |Encode(text)| && last <= Offset(text, p) + limit
  {
    hide Encode, Fit, IsBoundary;
    var q := Fit(text, p, limit);
    OffsetIsBoundary(text, p);
    OffsetIsBoundary(text, q);
    OffsetsGrow(text, p, q);
    WholeText(text);
    if q < |text| { OffsetNext(text, q); }
  }

  /** The chunk in terms of the encoded text. */
  lemma ChunkOfBytes(text: string, p: nat, limit: nat)
    requires p <= |text|
    ensures var bytes, lo, hi := Encode(text), Offset(text, p), Offset(text, Fit(text, p, limit));
            && lo <= hi <= |bytes|
            && ChunkAt(text, p, limit) == Chunk(lo, if hi < |bytes| then Some(hi) else None, hi == |bytes|, bytes[lo..hi])
  {
    hide Encode, Fit, Offset;
    var q := Fit(text, p, limit);
    SliceIsText(text, p, q);
    WholeText(text);
    OffsetsGrow(text, q, |text|);
  }

  lemma NoSuchOffset(text: string, offset: nat)
    requires offset > |Encode(text)| || !IsBoundary(Encode(text), offset)
    ensures forall p | 0 <= p <= |text| :: Offset(text, p) != offset
  {
    hide Encode, Offset, IsBoundary;
    forall p | 0 <= p <= |text| ensures Offset(text, p) != offset { OffsetIsBoundary(text, p); }
  }

  /** `artifact_chunk` of a stored artifact; `content` is its text when its bytes are valid UTF-8. Any character boundary
      is a valid offset, and the chunk is as many whole characters as fit; the search for its end takes at most three
      steps back. */
  method ArtifactChunk(content: Option<string>, offset: nat, limit: nat) returns (result: Result)
    ensures result == Refused(InvalidText) <==> LimitOk(limit) && content.None?
    ensures result == Refused(InvalidRange) <==>
              !LimitOk(limit) || (content.Some? && forall p | 0 <= p <= |content.value| :: Offset(content.value, p) != offset)
    ensures result.Page? ==> content.Some? && exists p | 0 <= p <= |content.value| ::
              Offset(content.value, p) == offset && result.chunk == ChunkAt(content.value, p, limit)
  {
    hide Encode, Offset, IsBoundary, Fit, ChunkAt, LimitOk;
    if !LimitOk(limit) {
      return Refused(InvalidRange);
    }
    if content.None? {
      return Refused(InvalidText);
    }
    var text := content.value;
    var bytes := Encode(text);
    if offset > |bytes| || !IsBoundary(bytes, offset) {
      NoSuchOffset(text, offset);
      return Refused(InvalidRange);
    }
    BoundaryIffOffset(text, offset);
    ghost var p :| 0 <= p <= |text| && Offset(text, p) == offset;
    ghost var low := Offset(text, Fit(text, p, limit));
    var end := if offset + limit < |bytes| then offset + limit else |bytes|;
    ghost var last := end;
    SearchSpan(text, p, limit, last);
    while !IsBoundary(bytes, end)
      invariant low <= end <= last < low + 4
      decreases end
    {
      end := end - 1;
    }
    EndIsFit(text, p, limit, last, end);
    ChunkOfBytes(text, p, limit);
    result := Page(Chunk(offset, if end < |bytes| then Some(end) else None, end == |bytes|, bytes[offset..end]));
  }

  // ---------- Following the offsets ----------

  /** The chunks a reader gets who starts at character `p` and follows each `next`; the n-th request has its own limit. */
  function Pages(text: string, p: nat, limits: nat -> nat, n: nat): seq<Chunk>
    requires p <= |text| && forall m :: LimitOk(limits(m))
    decreases |text| - p
  {
    var q := Fit(text, p, limits(n));
    [ChunkAt(text, p, limits(n))] + if q < |text| then Pages(text, q, limits, n + 1) else []
  }

  function Joined(pages: seq<Chunk>): seq<Byte> {
    if pages == [] then [] else pages[0].bytes + Joined(pages[1..])
  }

  /** Each chunk but the last leads to the next one, further on; none is larger than was asked for. */
  ghost predicate Chained(pages: seq<Chunk>, limits: nat -> nat, n: nat) {
    && pages != []
    && (forall i | 0 <= i < |pages| - 1 ::
          !pages[i].eof && pages[i].next == Some(pages[i + 1].offset) && pages[i].offset < pages[i + 1].offset)
    && pages[|pages| - 1].eof && pages[|pages| - 1].next.None?
    && forall i | 0 <= i < |pages| :: |pages[i].bytes| <= limits(n + i)
  }

  lemma ChainMore(first: Chunk, rest: seq<Chunk>, limits: nat -> nat, n: nat)
    requires Chained(rest, limits, n + 1) && !first.eof && first.next == Some(rest[0].offset) && first.offset < rest[0].offset
    requires |first.bytes| <= limits(n)
    ensures Chained([first] + rest, limits, n)
  {
    var pages := [first] + rest;
    assert forall i | 0 < i < |pages| :: pages[i] == rest[i - 1];
    forall i | 0 <= i < |pages| ensures |pages[i].bytes| <= limits(n + i) {
      if i > 0 { assert |rest[i - 1].bytes| <= limits(n + 1 + (i - 1)); }
    }
  }

  lemma ChunkIsText(text: string, p: nat, limit: nat)
    requires p <= |text| && LimitOk(limit)
    ensures var chunk := ChunkAt(text, p, limit);
            var q := Fit(text, p, limit);
            && chunk.bytes + Encode(text[q..]) == Encode(text[p..]) && |chunk.bytes| <= limit
            && (q < |text| ==> !chunk.eof && chunk.next == Some(Offset(text, q)) && Offset(text, p) < Offset(text, q))
            && (q == |text| ==> chunk.eof && chunk.next.None? && Encode(text[q..]) == [])
  {
    var q := Fit(text, p, limit);
    SliceIsText(text, p, q);
    assert text[p..] == text[p..q] + text[q..];
    EncodeConcat(text[p..q], text[q..]);
    OffsetsGrow(text, p, q);
  }

  /** Whatever the limits, the reader comes to an end, always moves forward, never gets more than it asked for, and has
      read the rest of the text, byte for byte. */
  lemma {:induction false} PagesAreTheText(text: string, p: nat, limits: nat -> nat, n: nat)
    requires p <= |text| && forall m :: LimitOk(limits(m))
    ensures var pages := Pages(text, p, limits, n);
            Joined(pages) == Encode(text[p..]) && pages[0].offset == Offset(text, p) && Chained(pages, limits, n)
    decreases |text| - p
  {
    hide Encode, Chained;
    var q := Fit(text, p, limits(n));
    var first := ChunkAt(text, p, limits(n));
    ChunkIsText(text, p, limits(n));
    if q < |text| {
      PagesAreTheText(text, q, limits, n + 1);
      var rest := Pages(text, q, limits, n + 1);
      assert ([first] + rest)[1..] == rest;
      ChainMore(first, rest, limits, n);
    } else {
      assert Pages(text, p, limits, n) == [first];
      LastLink(first, limits, n);
    }
  }

  lemma LastLink(last: Chunk, limits: nat -> nat, n: nat)
    requires last.eof && last.next.None? && |last.bytes| <= limits(n)
    ensures Chained([last], limits, n) && Joined([last]) == last.bytes
  {
    assert [last][1..] == [];
  }

  /** Reading from offset zero gives the whole text. */
  lemma ReadingIsComplete(text: string, limits: nat -> nat)
    requires forall m :: LimitOk(limits(m))
    ensures var pages := Pages(text, 0, limits, 0);
            Joined(pages) == Encode(text) && pages[0].offset == 0 && Chained(pages, limits, 0)
  {
    PagesAreTheText(text, 0, limits, 0);
    assert text[0..] == text && text[..0] == "";
  }
}
