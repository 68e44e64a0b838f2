/**
 The overlapping chunker of the native retrieval engine (knowledge.py,
 `_split_source`). Offsets are relative to the normalized text.
 */
module Chunker {
  import opened Options

  // ---- Normalization: one kind of line break, no surrounding white space

  /** The characters that Python's `str.strip` removes. */
  predicate IsSpace(c: char) {
    var n := c as int;
    || 9 <= n <= 13 || 28 <= n <= 32 || n == 0x85 || n == 0xA0 || n == 0x1680
    || 0x2000 <= n <= 0x200A || n == 0x2028 || n == 0x2029 || n == 0x202F || n == 0x205F || n == 0x3000
  }

  function UnifyBreaks(s: string): string {
    if s == "" then ""
    else if s[0] == '\r' then "\n" + UnifyBreaks(s[if |s| > 1 && s[1] == '\n' then 2 else 1..])
    else [s[0]] + UnifyBreaks(s[1..])
  }

  function StripLeft(s: string): string {
    if s != "" && IsSpace(s[0]) then StripLeft(s[1..]) else s
  }

  function StripRight(s: string): string {
    if s != "" && IsSpace(s[|s| - 1]) then StripRight(s[..|s| - 1]) else s
  }

  function Normalize(s: string): string {
    StripRight(StripLeft(UnifyBreaks(s)))
  }

  /** Normalized text has no carriage return and no white space at either end. */
  lemma {:induction false} NormalForm(s: string)
    ensures var t := Normalize(s);
            && '\r' !in t
            && (t != "" ==> !IsSpace(t[0]) && !IsSpace(t[|t| - 1]))
  {
    NoReturns(s);
    StripsLeft(UnifyBreaks(s));
    StripsRight(StripLeft(UnifyBreaks(s)));
  }

  /** Text without a carriage return has its breaks already. */
  lemma {:induction false} PlainStays(s: string)
    requires '\r' !in s
    ensures UnifyBreaks(s) == s
  {
    if s != "" {
      PlainStays(s[1..]);
    }
  }

  /** How many characters the first character of the unified text stands for. */
  function Width(s: string): nat
    requires s != ""
    ensures 1 <= Width(s) <= |s|
  {
    if s[0] == '\r' && |s| > 1 && s[1] == '\n' then 2 else 1
  }

  lemma UnifyHead(s: string)
    requires s != ""
    ensures UnifyBreaks(s) == [if s[0] == '\r' then '\n' else s[0]] + UnifyBreaks(s[Width(s)..])
  {
  }

  predicate TornApart(s: string, t: string) {
    s != "" && t != "" && s[|s| - 1] == '\r' && t[0] == '\n'
  }

  lemma WidthStays(s: string, t: string)
    requires s != "" && !TornApart(s, t)
    ensures Width(s + t) == Width(s) && (s + t)[0] == s[0]
    ensures (s + t)[Width(s)..] == s[Width(s)..] + t && !TornApart(s[Width(s)..], t)
  {
  }

  /** Two parts are unified each by itself, unless a carriage return and its line feed are torn apart. */
  lemma {:induction false} UnifyBoth(s: string, t: string)
    requires !TornApart(s, t)
    ensures UnifyBreaks(s + t) == UnifyBreaks(s) + UnifyBreaks(t)
  {
    if s == "" {
      assert s + t == t;
    } else {
      var all, rest := s + t, s[Width(s)..];
      WidthStays(s, t);
      UnifyHead(s);
      UnifyHead(all);
      UnifyBoth(rest, t);
    }
  }

  lemma UnifyFront(after: string)
    ensures UnifyBreaks("\r\n" + after) == "\n" + UnifyBreaks(after)
    ensures after == "" || after[0] != '\n' ==> UnifyBreaks("\r" + after) == "\n" + UnifyBreaks(after)
  {
    assert ("\r\n" + after)[2..] == after && ("\r" + after)[1..] == after;
  }

  /** A carriage return, together with the line feed behind it if there is one, becomes one line feed. */
  lemma BreakBecomesLineFeed(before: string, after: string, paired: bool)
    requires !paired ==> after == "" || after[0] != '\n'
    ensures UnifyBreaks(before + (if paired then "\r\n" else "\r") + after) ==
            UnifyBreaks(before) + "\n" + UnifyBreaks(after)
  {
    var rest := (if paired then "\r\n" else "\r") + after;
    assert before + (if paired then "\r\n" else "\r") + after == before + rest;
    UnifyFront(after);
    UnifyBoth(before, rest);
  }

  /** What stripping takes off: white space, from both ends, and nothing else. */
  lemma {:induction false} StripKeeps(s: string) returns (left: string, right: string)
    ensures s == left + StripRight(StripLeft(s)) + right
    ensures (forall c :: c in left ==> IsSpace(c)) && (forall c :: c in right ==> IsSpace(c))
  {
    left := StrippedLeft(s);
    right := StrippedRight(StripLeft(s));
  }

  lemma {:induction false} StrippedLeft(s: string) returns (left: string)
    ensures s == left + StripLeft(s) && forall c :: c in left ==> IsSpace(c)
  {
    left := "";
    if s != "" && IsSpace(s[0]) {
      left := StrippedLeft(s[1..]);
      left := [s[0]] + left;
    }
  }

  lemma {:induction false} StrippedRight(s: string) returns (right: string)
    ensures s == StripRight(s) + right && forall c :: c in right ==> IsSpace(c)
  {
    right := "";
    if s != "" && IsSpace(s[|s| - 1]) {
      right := StrippedRight(s[..|s| - 1]);
      right := right + [s[|s| - 1]];
    }
  }

  /** Normalized text is the source with its breaks unified, but for white space at both ends. */
  lemma NormalizeKeeps(s: string) returns (left: string, right: string)
    ensures UnifyBreaks(s) == left + Normalize(s) + right
    ensures (forall c :: c in left ==> IsSpace(c)) && (forall c :: c in right ==> IsSpace(c))
  {
    left, right := StripKeeps(UnifyBreaks(s));
  }

  lemma {:induction false} NoReturns(s: string)
    ensures '\r' !in UnifyBreaks(s)
  {
    if s != "" {
      NoReturns(s[if s[0] == '\r' && |s| > 1 && s[1] == '\n' then 2 else 1..]);
    }
  }

  lemma {:induction false} StripsLeft(s: string)
    ensures var t := StripLeft(s);
            (forall c :: c in t ==> c in s) && (t != "" ==> !IsSpace(t[0]))
  {
    if s != "" {
      StripsLeft(s[1..]);
    }
  }

  lemma {:induction false} StripsRight(s: string)
    ensures var t := StripRight(s);
            && (forall c :: c in t ==> c in s)
            && (t != "" ==> !IsSpace(t[|t| - 1]) && t[0] == s[0])
  {
    if s != "" && IsSpace(s[|s| - 1]) {
      StripsRight(s[..|s| - 1]);
    }
  }

  // ---- Chunks

  /** `from_` and `to` are offsets into the normalized text, `charStart` and `charEnd` what the locator says. */
  datatype Chunk = Chunk(ordinal: nat, from_: nat, to: nat, text: string, charStart: int, charEnd: int)

  datatype Params = Params(target: int, overlap: int) {
    predicate Valid() {
      target > 0 && overlap >= 0
    }

    /** How far the start moves from chunk to chunk: at least one character. */
    function Stride(): (d: int)
      requires Valid()
      ensures 1 <= d <= target
    {
      if overlap < target then target - overlap else 1
    }
  }

  const DEFAULT := Params(900, 100)

  function Min(a: int, b: int): int {
    if a < b then a else b
  }

  function MakeChunk(text: string, base: int, p: Params, start: nat, ordinal: nat): Chunk
    requires p.Valid() && start < |text|
  {
    var end := Min(|text|, start + p.target);
    Chunk(ordinal, start, end, text[start..end], base + start, base + end)
  }

  /** The chunks of `text` from position `start` on. */
  function Chunks(text: string, base: int, p: Params, start: nat, ordinal: nat): seq<Chunk>
    requires p.Valid()
    decreases |text| - start
  {
    if start >= |text| then []
    else
      var c := MakeChunk(text, base, p, start, ordinal);
      if c.to >= |text| then [c] else [c] + Chunks(text, base, p, start + p.Stride(), ordinal + 1)
  }

  lemma ChunksStep(before: seq<Chunk>, text: string, base: int, p: Params, start: nat, ordinal: nat)
    requires p.Valid() && start < |text|
    ensures var c := MakeChunk(text, base, p, start, ordinal);
            before + Chunks(text, base, p, start, ordinal) ==
            (before + [c]) + if c.to >= |text| then [] else Chunks(text, base, p, start + p.Stride(), ordinal + 1)
  {
  }

  /** The body of the loop of `_split_source`: one chunk, and where the next one starts. */
  method Cut(text: string, charStart: Option<int>, p: Params, start: nat, ordinal: nat)
    returns (chunk: Chunk, next: nat)
    requires p.Valid() && start < |text|
    ensures chunk == MakeChunk(text, charStart.Or(0), p, start, ordinal)
    ensures chunk.to < |text| ==> next == start + p.Stride()
    ensures next > start
  {
    var end := Min(|text|, start + p.target);
    var piece := text[start..end];
    chunk := Chunk(ordinal, start, end, piece,
                   if charStart.Some? then charStart.value + start else start,
                   if charStart.Some? then charStart.value + end else end);
    next := if end - p.overlap < start + 1 then start + 1 else end - p.overlap;
  }

  /** `_split_source`: normalize, then loop. */
  method Split(source: string, charStart: Option<int>, p: Params) returns (parts: seq<Chunk>)
    requires p.Valid()
    ensures parts == Chunks(Normalize(source), charStart.Or(0), p, 0, 0)
  {
    parts := SplitText(Normalize(source), charStart, p);
  }

  method SplitText(text: string, charStart: Option<int>, p: Params) returns (parts: seq<Chunk>)
    requires p.Valid()
    ensures parts == Chunks(text, charStart.Or(0), p, 0, 0)
  {
    parts := [];
    ghost var base := charStart.Or(0);
    var start: nat, ordinal: nat := 0, 0;
    while start < |text|
      invariant parts + Chunks(text, base, p, start, ordinal) == Chunks(text, base, p, 0, 0)
      decreases |text| - start
    {
      var chunk, next := Cut(text, charStart, p, start, ordinal);
      ChunksStep(parts, text, base, p, start, ordinal);
      parts := parts + [chunk];
      if chunk.to >= |text| {
        assert parts + [] == parts;
        break;
      }
      start, ordinal := next, ordinal + 1;
    }
  }

  ghost predicate IsSlice(text: string, base: int, c: Chunk) {
    && c.from_ < c.to <= |text|
    && c.text == text[c.from_..c.to]
    && c.charStart == base + c.from_ && c.charEnd == base + c.to
  }

  ghost predicate AreSlices(text: string, base: int, cs: seq<Chunk>, ordinal: nat) {
    forall k :: 0 <= k < |cs| ==> IsSlice(text, base, cs[k]) && cs[k].ordinal == ordinal + k
  }

  lemma OneMoreSlice(text: string, base: int, c: Chunk, cs: seq<Chunk>, ordinal: nat)
    requires IsSlice(text, base, c) && c.ordinal == ordinal && AreSlices(text, base, cs, ordinal + 1)
    ensures AreSlices(text, base, [c] + cs, ordinal)
  {
  }

  /** Every chunk is the slice its offsets claim, and they are numbered in order. */
  lemma {:induction false} ChunksAreSlices(text: string, base: int, p: Params, start: nat, ordinal: nat)
    requires p.Valid()
    ensures AreSlices(text, base, Chunks(text, base, p, start, ordinal), ordinal)
    decreases |text| - start
  {
    if start < |text| {
      var c := MakeChunk(text, base, p, start, ordinal);
      if c.to < |text| {
        ChunksAreSlices(text, base, p, start + p.Stride(), ordinal + 1);
        OneMoreSlice(text, base, c, Chunks(text, base, p, start + p.Stride(), ordinal + 1), ordinal);
      }
    }
  }

  ghost predicate Advancing(cs: seq<Chunk>, p: Params)
    requires p.Valid()
  {
    forall k :: 0 <= k < |cs| - 1 ==>
      cs[k].to == cs[k].from_ + p.target && cs[k + 1].from_ == cs[k].from_ + p.Stride()
  }

  lemma OneMoreAdvance(c: Chunk, cs: seq<Chunk>, p: Params)
    requires p.Valid() && Advancing(cs, p) && cs != []
    requires c.to == c.from_ + p.target && cs[0].from_ == c.from_ + p.Stride()
    ensures Advancing([c] + cs, p)
  {
    forall k | 0 <= k < |cs|
      ensures ([c] + cs)[k].to == ([c] + cs)[k].from_ + p.target
      ensures ([c] + cs)[k + 1].from_ == ([c] + cs)[k].from_ + p.Stride()
    {
      if k > 0 {
        assert ([c] + cs)[k] == cs[k - 1] && ([c] + cs)[k + 1] == cs[k];
      }
    }
  }

  /** Starts advance by the stride, all chunks but the last are full, the last one reaches the end. */
  lemma {:induction false} ChunksAdvance(text: string, base: int, p: Params, start: nat, ordinal: nat)
    requires p.Valid() && start < |text|
    ensures var cs := Chunks(text, base, p, start, ordinal);
            cs != [] && cs[0].from_ == start && cs[|cs| - 1].to == |text| && Advancing(cs, p)
    decreases |text| - start
  {
    var c := MakeChunk(text, base, p, start, ordinal);
    if c.to < |text| {
      var rest := Chunks(text, base, p, start + p.Stride(), ordinal + 1);
      ChunksAdvance(text, base, p, start + p.Stride(), ordinal + 1);
      OneMoreAdvance(c, rest, p);
      assert Chunks(text, base, p, start, ordinal) == [c] + rest;
    }
  }

  /** Every position of the text is inside some chunk. */
  lemma {:induction false} EveryPositionCovered(text: string, base: int, p: Params, start: nat, ordinal: nat, i: nat)
    returns (k: nat)
    requires p.Valid() && start <= i < |text|
    ensures var cs := Chunks(text, base, p, start, ordinal);
            k < |cs| && cs[k].from_ <= i < cs[k].to
    decreases |text| - start
  {
    var c := MakeChunk(text, base, p, start, ordinal);
    if i < c.to {
      k := 0;
    } else {
      k := EveryPositionCovered(text, base, p, start + p.Stride(), ordinal + 1, i);
      k := k + 1;
    }
  }

  /** Drop from every chunk but the first what it shares with its predecessor, and join. */
  function Rejoin(cs: seq<Chunk>, shared: nat): string {
    if cs == [] then ""
    else if |cs| == 1 then cs[0].text
    else Rejoin(cs[..|cs| - 1], shared)
         + (if shared <= |cs[|cs| - 1].text| then cs[|cs| - 1].text[shared..] else "")
  }

  lemma RejoinLast(cs: seq<Chunk>, c: Chunk, shared: nat)
    requires cs != [] && shared <= |c.text|
    ensures Rejoin(cs + [c], shared) == Rejoin(cs, shared) + c.text[shared..]
  {
    assert (cs + [c])[..|cs|] == cs;
  }

  /** Rejoining from the front: the first chunk, then what the rest gives without the shared characters. */
  lemma {:induction false} RejoinFront(c: Chunk, cs: seq<Chunk>, shared: nat)
    requires cs != [] && forall k :: 0 <= k < |cs| ==> shared <= |cs[k].text|
    ensures shared <= |Rejoin(cs, shared)|
    ensures Rejoin([c] + cs, shared) == c.text + Rejoin(cs, shared)[shared..]
  {
    var n := |cs| - 1;
    var last := cs[n];
    assert [c] + cs == ([c] + cs[..n]) + [last];
    RejoinLast([c] + cs[..n], last, shared);
    if n > 0 {
      assert cs == cs[..n] + [last];
      RejoinFront(c, cs[..n], shared);
      RejoinLast(cs[..n], last, shared);
      assert (Rejoin(cs[..n], shared) + last.text[shared..])[shared..]
             == Rejoin(cs[..n], shared)[shared..] + last.text[shared..];
    } else {
      assert [c] + cs[..0] == [c];
    }
  }

  /**
   Consecutive chunks share exactly `target - stride` characters: the overlap
   whenever that is smaller than the target.
   */
  lemma ChunksShare(text: string, base: int, p: Params, start: nat, ordinal: nat)
    requires p.Valid() && start < |text|
    ensures var cs := Chunks(text, base, p, start, ordinal);
            forall k :: 0 <= k < |cs| - 1 ==> cs[k].to - cs[k + 1].from_ == p.target - p.Stride()
    ensures p.overlap < p.target ==> p.target - p.Stride() == p.overlap
  {
    ChunksAdvance(text, base, p, start, ordinal);
  }

  /** Dropping what consecutive chunks share and joining gives the text back. */
  lemma {:induction false} RejoinGivesText(text: string, base: int, p: Params, start: nat, ordinal: nat)
    requires p.Valid() && start < |text|
    ensures Rejoin(Chunks(text, base, p, start, ordinal), p.target - p.Stride()) == text[start..]
    decreases |text| - start
  {
    var c := MakeChunk(text, base, p, start, ordinal);
    if c.to < |text| {
      var next := start + p.Stride();
      var shared := p.target - p.Stride();
      RejoinGivesText(text, base, p, next, ordinal + 1);
      SharedFits(text, base, p, next, ordinal + 1);
      RejoinFront(c, Chunks(text, base, p, next, ordinal + 1), shared);
      Glue(text, start, next, shared);
    }
  }

  lemma Glue(text: string, start: nat, next: nat, shared: nat)
    requires start <= next && next + shared <= |text|
    ensures text[start..next + shared] + text[next..][shared..] == text[start..]
  {
  }

  lemma {:induction false} SharedFits(text: string, base: int, p: Params, start: nat, ordinal: nat)
    requires p.Valid() && start + p.target - p.Stride() <= |text| && start < |text|
    ensures forall c :: c in Chunks(text, base, p, start, ordinal) ==> p.target - p.Stride() <= |c.text|
    decreases |text| - start
  {
    var c := MakeChunk(text, base, p, start, ordinal);
    if c.to < |text| {
      SharedFits(text, base, p, start + p.Stride(), ordinal + 1);
    }
  }

  function CeilDiv(a: nat, d: int): nat
    requires d > 0
  {
    (a + d - 1) / d
  }

  lemma CeilDivStep(a: nat, d: int)
    requires 0 < d && 0 < a
    ensures CeilDiv(a, d) == 1 + CeilDiv(if a < d then 0 else a - d, d)
  {
    var q := CeilDiv(a, d);
    var r := (a + d - 1) % d;
    assert a + d - 1 == q * d + r;
    if a < d {
      DivIs(a + d - 1, d, 1, a - 1);
      DivIs(d - 1, d, 0, d - 1);
    } else {
      assert a - d + d - 1 == (q - 1) * d + r;
      DivIs(a - 1, d, q - 1, r);
    }
  }

  lemma DivIs(x: nat, d: int, q: int, r: int)
    requires 0 < d && x == q * d + r && 0 <= r < d
    ensures x / d == q
  {
    var e := x / d - q;
    assert e * d == r - x % d;
    assert e >= 1 ==> e * d >= d;
    assert e <= -1 ==> e * d <= -d;
  }

  /** The number of chunks, for every overlap. */
  lemma {:induction false} ChunkCount(text: string, base: int, p: Params, start: nat, ordinal: nat)
    requires p.Valid() && start < |text|
    ensures var rest := |text| - start - p.target;
            |Chunks(text, base, p, start, ordinal)| == 1 + CeilDiv(if rest < 0 then 0 else rest, p.Stride())
    decreases |text| - start
  {
    var rest := |text| - start - p.target;
    if rest > 0 {
      ChunkCount(text, base, p, start + p.Stride(), ordinal + 1);
      CeilDivStep(rest, p.Stride());
    } else {
      DivIs(p.Stride() - 1, p.Stride(), 0, p.Stride() - 1);
    }
  }
}
