/**
 The fingerprint-keyed index cache of the retrieval engine (knowledge.py).
 SHA-256 and the canonical JSON that is hashed are injective: the fingerprint
 of a snapshot is identified with what is hashed, and the digest of a text is an
 injective function `sha` chosen once.
 */
module IndexCache {
  import opened Options
  import opened Chunker

  datatype Locator = Locator(
    filename: string, page: Option<int>, section: string, charStart: Option<int>,
    slide: Option<int>, sheet: string, cellRange: string)

  datatype Source = Source(
    id: string, filename: string, text: string, fingerprint: string, locator: Locator, metadata: string)

  datatype Snapshot = Snapshot(
    kb: string, engine: string, declared: string, config: string, sources: seq<Source>)

  /** Text digests, and the engines that are registered. */
  datatype Engines = Engines(sha: string -> string, exact: set<string>, native: set<string>)

  ghost predicate Injective(sha: string -> string) {
    forall s, t :: sha(s) == sha(t) ==> s == t
  }

  /** `_source_fp` */
  function SourceFingerprint(e: Engines, s: Source): string {
    if s.fingerprint != "" then s.fingerprint else (e.sha)(s.text)
  }

  /** What the fingerprint of a snapshot sees of a source: not its text, offsets or metadata. */
  datatype SourceView = SourceView(
    id: string, fingerprint: string, filename: string,
    page: Option<int>, section: string, slide: Option<int>, sheet: string, cellRange: string)

  datatype Key = Key(kb: string, declared: string, config: string, sources: seq<SourceView>, engine: string)

  function ViewOf(e: Engines, s: Source): SourceView {
    SourceView(s.id, SourceFingerprint(e, s), s.filename, s.locator.page, s.locator.section,
               s.locator.slide, s.locator.sheet, s.locator.cellRange)
  }

  /** The cache key (kb_id, fingerprint, engine_id). */
  function KeyOf(e: Engines, kb: Snapshot): Key {
    Key(kb.kb, kb.declared, kb.config, seq(|kb.sources|, i requires 0 <= i < |kb.sources| => ViewOf(e, kb.sources[i])),
        kb.engine)
  }

  /** A retrieval chunk: the slice, its locator and the metadata copied from its source. */
  datatype Indexed = Indexed(source: SourceView, filename: string, chunk: Chunk, metadata: string)

  function Base(s: Source): int {
    s.locator.charStart.Or(0)
  }

  function LocatorFilename(s: Source): string {
    if s.filename != "" then s.filename else s.locator.filename
  }

  function IndexSource(e: Engines, s: Source): seq<Indexed> {
    var chunks := Chunks(Normalize(s.text), Base(s), DEFAULT, 0, 0);
    seq(|chunks|, i requires 0 <= i < |chunks| =>
      Indexed(ViewOf(e, s), LocatorFilename(s), chunks[i], s.metadata))
  }

  function IndexSources(e: Engines, sources: seq<Source>): seq<Indexed> {
    if sources == [] then [] else IndexSource(e, sources[0]) + IndexSources(e, sources[1..])
  }

  datatype Built = Exact(of: Snapshot) | Native(chunks: seq<Indexed>)

  datatype UnknownEngine = UnknownEngine(engine: string)

  /** A fresh build; exact adapters are opaque functions of the snapshot. */
  function Build(e: Engines, kb: Snapshot): Result<Built, UnknownEngine> {
    if kb.engine in e.exact then Ok(Exact(kb))
    else if kb.engine in e.native then Ok(Native(IndexSources(e, kb.sources)))
    else Err(UnknownEngine(kb.engine))
  }

  // ---- What the key sees, and what an index holds

  predicate SameIdentity(e: Engines, s: Source, t: Source) {
    && s.id == t.id && s.filename == t.filename
    && s.locator.page == t.locator.page && s.locator.section == t.locator.section
    && s.locator.slide == t.locator.slide && s.locator.sheet == t.locator.sheet
    && s.locator.cellRange == t.locator.cellRange
    && (if s.fingerprint != "" then s.fingerprint else (e.sha)(s.text))
       == (if t.fingerprint != "" then t.fingerprint else (e.sha)(t.text))
  }

  /**
   Two snapshots have one key exactly if they are of one base and engine, with
   one declared fingerprint and configuration, and their sources have, one by
   one, the same id, file name, place and fingerprint, declared or computed.
   */
  lemma SameKeyIff(e: Engines, kb: Snapshot, old_: Snapshot)
    ensures KeyOf(e, kb) == KeyOf(e, old_) <==>
              && kb.kb == old_.kb && kb.engine == old_.engine
              && kb.declared == old_.declared && kb.config == old_.config
              && |kb.sources| == |old_.sources|
              && forall i :: 0 <= i < |kb.sources| ==> SameIdentity(e, kb.sources[i], old_.sources[i])
  {
    var a, b := KeyOf(e, kb).sources, KeyOf(e, old_).sources;
    if a == b {
      assert |kb.sources| == |a| == |b|;
      forall i | 0 <= i < |kb.sources|
        ensures SameIdentity(e, kb.sources[i], old_.sources[i])
      {
        assert a[i] == b[i];
      }
    }
    if |kb.sources| == |old_.sources| {
      assert forall i :: 0 <= i < |a| && SameIdentity(e, kb.sources[i], old_.sources[i]) ==> a[i] == b[i];
    }
  }

  /** A chunk of `s`: a slice of its normalized text that says where it stands in the source. */
  predicate IsChunkOf(s: Source, c: Indexed) {
    && c.chunk.from_ < c.chunk.to <= |Normalize(s.text)|
    && c.chunk.text == Normalize(s.text)[c.chunk.from_..c.chunk.to]
    && c.chunk.charStart == c.chunk.from_ + s.locator.charStart.Or(0)
    && c.chunk.charEnd == c.chunk.to + s.locator.charStart.Or(0)
    && c.filename == (if s.filename != "" then s.filename else s.locator.filename)
    && c.metadata == s.metadata
  }

  /**
   What a source contributes: chunks of 900 characters, of which each shares
   its last 100 with the next, from the beginning to the end of its text.
   */
  lemma SourceIsChunked(e: Engines, s: Source)
    ensures var cs := IndexSource(e, s);
            && (cs == [] <==> Normalize(s.text) == "")
            && (forall k :: 0 <= k < |cs| ==> IsChunkOf(s, cs[k]) && cs[k].chunk.ordinal == k)
            && (cs != [] ==> cs[0].chunk.from_ == 0 && cs[|cs| - 1].chunk.to == |Normalize(s.text)|)
            && (forall k :: 0 <= k < |cs| - 1 ==>
                  cs[k].chunk.to == cs[k].chunk.from_ + 900 && cs[k + 1].chunk.from_ == cs[k].chunk.to - 100)
  {
    var text := Normalize(s.text);
    if text != "" {
      ChunksAdvance(text, Base(s), DEFAULT, 0, 0);
      ChunksAreSlices(text, Base(s), DEFAULT, 0, 0);
    }
    var cs, chunks := IndexSource(e, s), Chunks(text, Base(s), DEFAULT, 0, 0);
    forall k | 0 <= k < |cs|
      ensures IsChunkOf(s, cs[k]) && cs[k].chunk.ordinal == k
    {
      assert cs[k] == Indexed(ViewOf(e, s), LocatorFilename(s), chunks[k], s.metadata);
      assert IsSlice(text, Base(s), chunks[k]);
    }
  }

  // ---- When is a cached index the fresh one?

  /** Chunks up to the metadata the fingerprint omits. */
  function Bare(c: Indexed): Indexed {
    c.(metadata := "")
  }

  function BareAll(cs: seq<Indexed>): seq<Indexed> {
    seq(|cs|, i requires 0 <= i < |cs| => Bare(cs[i]))
  }

  /** Two sources with one view yield the same chunks exactly under this condition. */
  ghost predicate SameContent(s: Source, t: Source) {
    && Normalize(s.text) == Normalize(t.text)
    && (Normalize(s.text) != "" ==> Base(s) == Base(t) && LocatorFilename(s) == LocatorFilename(t))
  }

  /** Equal chunk lists have equal texts, because rejoining them gives the text back. */
  lemma ChunksDetermineText(text: string, base: int, text': string, base': int)
    requires Chunks(text, base, DEFAULT, 0, 0) == Chunks(text', base', DEFAULT, 0, 0)
    ensures text == text' && (text != "" ==> base == base')
  {
    var cs := Chunks(text, base, DEFAULT, 0, 0);
    if text != "" {
      ChunksAdvance(text, base, DEFAULT, 0, 0);
      assert text' != "";
      RejoinGivesText(text, base, DEFAULT, 0, 0);
      RejoinGivesText(text', base', DEFAULT, 0, 0);
      ChunksAreSlices(text, base, DEFAULT, 0, 0);
      ChunksAreSlices(text', base', DEFAULT, 0, 0);
      assert IsSlice(text, base, cs[0]) && IsSlice(text', base', cs[0]);
      assert text[0..] == text && text'[0..] == text';
    } else if text' != "" {
      ChunksAdvance(text', base', DEFAULT, 0, 0);
      assert false;
    }
  }

  /**
   A source indexed earlier under the same view still has the chunks a fresh
   build gives, up to metadata, if and only if its normalized text, its offset
   base and its locator's file name are the same.
   */
  lemma StaleIffContentChanged(e: Engines, s: Source, t: Source)
    requires ViewOf(e, s) == ViewOf(e, t)
    ensures BareAll(IndexSource(e, s)) == BareAll(IndexSource(e, t)) <==> SameContent(s, t)
  {
    var a, b := IndexSource(e, s), IndexSource(e, t);
    var ca := Chunks(Normalize(s.text), Base(s), DEFAULT, 0, 0);
    var cb := Chunks(Normalize(t.text), Base(t), DEFAULT, 0, 0);
    if BareAll(a) == BareAll(b) {
      assert |ca| == |BareAll(a)| == |cb|;
      forall i | 0 <= i < |ca|
        ensures ca[i] == cb[i] && LocatorFilename(s) == LocatorFilename(t)
      {
        assert BareAll(a)[i] == BareAll(b)[i];
      }
      assert ca == cb;
      ChunksDetermineText(Normalize(s.text), Base(s), Normalize(t.text), Base(t));
      if Normalize(s.text) != "" {
        ChunksAdvance(Normalize(s.text), Base(s), DEFAULT, 0, 0);
        assert LocatorFilename(s) == LocatorFilename(t) by {
          assert ca[0] == cb[0];
        }
      }
    }
    if SameContent(s, t) {
      assert ca == cb;
      assert forall i :: 0 <= i < |a| ==> Bare(a[i]) == Bare(b[i]);
    }
  }

  /** For a source that declares no fingerprint only the offset base and the locator's file name can go stale. */
  lemma HashedTextIsFresh(e: Engines, s: Source, t: Source)
    requires Injective(e.sha)
    requires ViewOf(e, s) == ViewOf(e, t) && s.fingerprint == "" && t.fingerprint == ""
    ensures s.text == t.text
    ensures SameContent(s, t) <==>
            (Normalize(s.text) != "" ==>
               Base(s) == Base(t) && (s.filename == "" ==> s.locator.filename == t.locator.filename))
  {
  }

  /** A declared fingerprint hides every change of the text behind it: same key, different fresh build. */
  lemma DeclaredFingerprintHidesChanges(e: Engines, kb: Snapshot, s: Source, text: string)
    requires kb.engine in e.native && kb.engine !in e.exact
    requires kb.sources == [s] && s.fingerprint != ""
    requires Normalize(s.text) != Normalize(text)
    ensures var changed := kb.(sources := [s.(text := text)]);
            KeyOf(e, changed) == KeyOf(e, kb) && Build(e, changed) != Build(e, kb)
  {
    var t := s.(text := text);
    assert KeyOf(e, kb.(sources := [t])).sources == KeyOf(e, kb).sources;
    StaleIffContentChanged(e, s, t);
    assert IndexSources(e, [s]) == IndexSource(e, s) + IndexSources(e, []);
    assert IndexSources(e, [t]) == IndexSource(e, t) + IndexSources(e, []);
    assert IndexSource(e, s) + [] == IndexSource(e, s) && IndexSource(e, t) + [] == IndexSource(e, t);
  }

  // ---- Whole snapshots

  /** What of a source reaches a native index, its metadata aside. */
  datatype Matter = Matter(view: SourceView, filename: string, text: string, base: int)

  function MatterOf(e: Engines, s: Source): Matter {
    Matter(ViewOf(e, s), LocatorFilename(s), Normalize(s.text), Base(s))
  }

  function Before(m: Matter, ms: seq<Matter>): seq<Matter> {
    if m.text == "" then ms else [m] + ms
  }

  /** The sources that have any text, in order. */
  function Matters(e: Engines, sources: seq<Source>): seq<Matter> {
    if sources == [] then [] else Before(MatterOf(e, sources[0]), Matters(e, sources[1..]))
  }

  function Spread(m: Matter): seq<Indexed> {
    var chunks := Chunks(m.text, m.base, DEFAULT, 0, 0);
    seq(|chunks|, i requires 0 <= i < |chunks| => Indexed(m.view, m.filename, chunks[i], ""))
  }

  function SpreadAll(ms: seq<Matter>): seq<Indexed> {
    if ms == [] then [] else Spread(ms[0]) + SpreadAll(ms[1..])
  }

  lemma BareAppend(a: seq<Indexed>, b: seq<Indexed>)
    ensures BareAll(a + b) == BareAll(a) + BareAll(b)
  {
  }

  /** A native index is, up to metadata, what the sources with text spread out to. */
  lemma {:induction false} IndexIsSpread(e: Engines, sources: seq<Source>)
    ensures BareAll(IndexSources(e, sources)) == SpreadAll(Matters(e, sources))
  {
    if sources != [] {
      var m := MatterOf(e, sources[0]);
      IndexIsSpread(e, sources[1..]);
      BareAppend(IndexSource(e, sources[0]), IndexSources(e, sources[1..]));
      assert BareAll(IndexSource(e, sources[0])) == Spread(m);
      if m.text == "" {
        assert Spread(m) == [];
      } else {
        assert Matters(e, sources)[1..] == Matters(e, sources[1..]);
      }
    }
  }

  ghost predicate AllText(ms: seq<Matter>) {
    forall m :: m in ms ==> m.text != ""
  }

  lemma {:induction false} MattersHaveText(e: Engines, sources: seq<Source>)
    ensures AllText(Matters(e, sources))
  {
    if sources != [] {
      MattersHaveText(e, sources[1..]);
    }
  }

  /** Where a source begins in an index: its chunks are numbered from 0. */
  lemma SpreadNumbers(m: Matter)
    requires m.text != ""
    ensures Spread(m) != []
    ensures forall i :: 0 <= i < |Spread(m)| ==> Spread(m)[i].chunk.ordinal == i
  {
    ChunksAdvance(m.text, m.base, DEFAULT, 0, 0);
    ChunksAreSlices(m.text, m.base, DEFAULT, 0, 0);
  }

  lemma SpreadDeterminesMatter(m: Matter, n: Matter)
    requires m.text != "" && n.text != "" && Spread(m) == Spread(n)
    ensures m == n
  {
    var a, b := Chunks(m.text, m.base, DEFAULT, 0, 0), Chunks(n.text, n.base, DEFAULT, 0, 0);
    SpreadNumbers(m);
    assert |a| == |Spread(m)| == |b|;
    forall i | 0 <= i < |a|
      ensures a[i] == b[i]
    {
      assert Spread(m)[i] == Spread(n)[i];
    }
    assert a == b;
    ChunksDetermineText(m.text, m.base, n.text, n.base);
    assert Spread(m)[0] == Spread(n)[0];
  }

  /** The first source of an index ends where the numbering starts again. */
  function FirstEnd(index: seq<Indexed>, i: nat): nat
    requires i <= |index|
    decreases |index| - i
  {
    if i == |index| || index[i].chunk.ordinal == 0 then i else FirstEnd(index, i + 1)
  }

  lemma {:induction false} FirstSpread(ms: seq<Matter>, i: nat)
    requires AllText(ms) && ms != [] && 1 <= i <= |Spread(ms[0])|
    ensures FirstEnd(SpreadAll(ms), i) == |Spread(ms[0])|
    decreases |Spread(ms[0])| - i
  {
    assert ms[0] in ms;
    SpreadNumbers(ms[0]);
    if i < |Spread(ms[0])| {
      assert SpreadAll(ms)[i] == Spread(ms[0])[i];
      FirstSpread(ms, i + 1);
    } else if ms[1..] != [] {
      assert ms[1] in ms;
      SpreadNumbers(ms[1]);
      assert SpreadAll(ms)[i] == SpreadAll(ms[1..])[0] == Spread(ms[1])[0];
    }
  }

  lemma {:induction false} SpreadAllDetermines(ms: seq<Matter>, ns: seq<Matter>)
    requires AllText(ms) && AllText(ns) && SpreadAll(ms) == SpreadAll(ns)
    ensures ms == ns
  {
    NoSpread(ms);
    NoSpread(ns);
    if ms != [] {
      FirstSpread(ms, 1);
      FirstSpread(ns, 1);
      var k := |Spread(ms[0])|;
      assert Spread(ms[0]) == SpreadAll(ms)[..k] == SpreadAll(ns)[..k] == Spread(ns[0]);
      assert SpreadAll(ms[1..]) == SpreadAll(ms)[k..] == SpreadAll(ns)[k..] == SpreadAll(ns[1..]);
      assert ms[0] in ms && ns[0] in ns;
      SpreadDeterminesMatter(ms[0], ns[0]);
      SpreadAllDetermines(ms[1..], ns[1..]);
      assert ms == [ms[0]] + ms[1..] && ns == [ns[0]] + ns[1..];
    }
  }

  lemma NoSpread(ms: seq<Matter>)
    requires AllText(ms)
    ensures SpreadAll(ms) == [] <==> ms == []
    ensures ms != [] ==> |Spread(ms[0])| >= 1
  {
    if ms != [] {
      assert ms[0] in ms;
      SpreadNumbers(ms[0]);
    }
  }

  /**
   Two snapshots give the same native index, up to metadata, if and only if
   their sources that have text agree, one by one, on what reaches the index.
   */
  lemma SameIndexIff(e: Engines, ss: seq<Source>, ts: seq<Source>)
    ensures BareAll(IndexSources(e, ss)) == BareAll(IndexSources(e, ts)) <==> Matters(e, ss) == Matters(e, ts)
  {
    IndexIsSpread(e, ss);
    IndexIsSpread(e, ts);
    MattersHaveText(e, ss);
    MattersHaveText(e, ts);
    if SpreadAll(Matters(e, ss)) == SpreadAll(Matters(e, ts)) {
      SpreadAllDetermines(Matters(e, ss), Matters(e, ts));
    }
  }

  ghost predicate DistinctViews(e: Engines, sources: seq<Source>) {
    forall i, j :: 0 <= i < j < |sources| ==> ViewOf(e, sources[i]) != ViewOf(e, sources[j])
  }

  ghost predicate SameViews(e: Engines, ss: seq<Source>, ts: seq<Source>) {
    |ss| == |ts| && forall i :: 0 <= i < |ss| ==> ViewOf(e, ss[i]) == ViewOf(e, ts[i])
  }

  ghost predicate SameContents(ss: seq<Source>, ts: seq<Source>)
    requires |ss| == |ts|
  {
    forall i :: 0 <= i < |ss| ==> SameContent(ss[i], ts[i])
  }

  lemma {:induction false} MattersComeFrom(e: Engines, sources: seq<Source>, m: Matter)
    requires m in Matters(e, sources)
    ensures exists i :: 0 <= i < |sources| && MatterOf(e, sources[i]) == m
  {
    if MatterOf(e, sources[0]) != m {
      MattersComeFrom(e, sources[1..], m);
      var i :| 0 <= i < |sources[1..]| && MatterOf(e, sources[1..][i]) == m;
      assert MatterOf(e, sources[i + 1]) == m;
    }
  }

  /** No later source has the view of the first one. */
  lemma FirstViewIsItsOwn(e: Engines, ss: seq<Source>, m: Matter)
    requires ss != [] && DistinctViews(e, ss) && m in Matters(e, ss[1..])
    ensures m.view != ViewOf(e, ss[0])
  {
    MattersComeFrom(e, ss[1..], m);
    var i :| 0 <= i < |ss[1..]| && MatterOf(e, ss[1..][i]) == m;
    assert m.view == ViewOf(e, ss[i + 1]);
  }

  lemma BeforeAgree(m: Matter, ms: seq<Matter>, n: Matter, ns: seq<Matter>)
    requires m.view == n.view
    requires forall x :: x in ms || x in ns ==> x.view != m.view
    ensures Before(m, ms) == Before(n, ns) <==> ms == ns && (m == n || m.text == n.text == "")
  {
    if m.text != "" && n.text != "" {
      assert Before(m, ms)[0] == m && Before(m, ms)[1..] == ms;
      assert Before(n, ns)[0] == n && Before(n, ns)[1..] == ns;
    } else if m.text != "" {
      assert m in Before(m, ms);
    } else if n.text != "" {
      assert n in Before(n, ns);
    }
  }

  lemma ContentStep(ss: seq<Source>, ts: seq<Source>)
    requires |ss| == |ts| && ss != []
    ensures SameContents(ss, ts) <==> SameContent(ss[0], ts[0]) && SameContents(ss[1..], ts[1..])
  {
    if SameContents(ss[1..], ts[1..]) {
      assert forall i :: 0 < i < |ss| ==> ss[i] == ss[1..][i - 1] && ts[i] == ts[1..][i - 1];
    }
  }

  lemma ViewStep(e: Engines, ss: seq<Source>, ts: seq<Source>)
    requires SameViews(e, ss, ts) && DistinctViews(e, ss) && ss != []
    ensures SameViews(e, ss[1..], ts[1..]) && DistinctViews(e, ss[1..]) && DistinctViews(e, ts)
  {
    forall i, j | 0 <= i < j < |ts|
      ensures ViewOf(e, ts[i]) != ViewOf(e, ts[j])
    {
      assert ViewOf(e, ss[i]) != ViewOf(e, ss[j]);
    }
  }

  lemma {:induction false} MattersAgreeIff(e: Engines, ss: seq<Source>, ts: seq<Source>)
    requires SameViews(e, ss, ts) && DistinctViews(e, ss)
    ensures Matters(e, ss) == Matters(e, ts) <==> SameContents(ss, ts)
  {
    if ss != [] {
      ViewStep(e, ss, ts);
      MattersAgreeIff(e, ss[1..], ts[1..]);
      ContentStep(ss, ts);
      var m, n := MatterOf(e, ss[0]), MatterOf(e, ts[0]);
      assert m.view == n.view;
      forall x | x in Matters(e, ss[1..]) || x in Matters(e, ts[1..])
        ensures x.view != m.view
      {
        if x in Matters(e, ss[1..]) {
          FirstViewIsItsOwn(e, ss, x);
        } else {
          FirstViewIsItsOwn(e, ts, x);
        }
      }
      BeforeAgree(m, Matters(e, ss[1..]), n, Matters(e, ts[1..]));
    }
  }

  /**
   Under one key, for sources with different views (different ids, say), the
   cached native index is the fresh one, up to metadata, if and only if every
   source has kept its content.
   */
  lemma FreshIff(e: Engines, ss: seq<Source>, ts: seq<Source>)
    requires SameViews(e, ss, ts) && DistinctViews(e, ss)
    ensures BareAll(IndexSources(e, ss)) == BareAll(IndexSources(e, ts)) <==> SameContents(ss, ts)
  {
    SameIndexIff(e, ss, ts);
    MattersAgreeIff(e, ss, ts);
  }

  lemma KeyGivesViews(e: Engines, kb: Snapshot, old_: Snapshot)
    requires KeyOf(e, kb) == KeyOf(e, old_)
    ensures SameViews(e, kb.sources, old_.sources)
  {
    var a, b := KeyOf(e, kb).sources, KeyOf(e, old_).sources;
    assert |a| == |kb.sources| && |b| == |old_.sources|;
    assert forall i :: 0 <= i < |a| ==> a[i] == ViewOf(e, kb.sources[i]) && b[i] == ViewOf(e, old_.sources[i]);
  }

  /** Is what `_built` returned for `kb` a fresh build of `kb`, metadata of native chunks aside? */
  ghost predicate IsFresh(e: Engines, built: Built, kb: Snapshot) {
    match Build(e, kb)
    case Err(_) => false
    case Ok(Exact(of)) => built == Exact(of)
    case Ok(Native(chunks)) => built.Native? && BareAll(built.chunks) == BareAll(chunks)
  }

  /** What must not have changed since `old_` for its index to be a fresh one of `kb`. */
  ghost predicate Unchanged(e: Engines, kb: Snapshot, old_: Snapshot) {
    if kb.engine in e.exact then kb == old_ else Matters(e, kb.sources) == Matters(e, old_.sources)
  }

  lemma FreshIffUnchanged(e: Engines, kb: Snapshot, old_: Snapshot)
    requires KeyOf(e, kb) == KeyOf(e, old_) && Build(e, old_).Ok?
    ensures IsFresh(e, Build(e, old_).value, kb) <==> Unchanged(e, kb, old_)
    ensures kb.engine !in e.exact && DistinctViews(e, kb.sources) ==>
              |kb.sources| == |old_.sources| && (Unchanged(e, kb, old_) <==> SameContents(kb.sources, old_.sources))
  {
    KeyGivesViews(e, kb, old_);
    SameIndexIff(e, kb.sources, old_.sources);
    if DistinctViews(e, kb.sources) {
      MattersAgreeIff(e, kb.sources, old_.sources);
    }
  }

  // ---- The cache

  class Index {
    const engines: Engines
    var cache: map<Key, Built>
    /** The snapshot each generation was built from. */
    ghost var origin: map<Key, Snapshot>

    ghost predicate Valid()
      reads this
    {
      && origin.Keys == cache.Keys
      && (forall k :: k in cache ==> KeyOf(engines, origin[k]) == k && Build(engines, origin[k]) == Ok(cache[k]))
      && (forall k, l :: k in cache && l in cache && k.kb == l.kb && k.engine == l.engine ==> k == l)
    }

    constructor (engines: Engines)
      ensures Valid() && cache == map[] && this.engines == engines
    {
      this.engines := engines;
      cache := map[];
      origin := map[];
    }

    /**
     `_built`: the index of the generation with the snapshot's key. It is a
     fresh build of `kb` if and only if what reaches the index has not changed
     since the snapshot that started the generation; for a native engine and
     sources with different views, if every source has kept its content. Other
     generations of the same base and engine are dropped, all other entries stay.
     */
    method GetBuilt(kb: Snapshot) returns (r: Result<Built, UnknownEngine>)
      requires Valid()
      modifies this
      ensures Valid()
      ensures var key := KeyOf(engines, kb);
              && (key in old(cache) ==>
                    r == Ok(old(cache)[key]) && cache == old(cache) && origin == old(origin))
              && (key !in old(cache) ==> r == Build(engines, kb))
              && (r.Err? <==> key !in old(cache) && kb.engine !in engines.exact && kb.engine !in engines.native)
              && (key !in old(cache) && r.Err? ==> cache == old(cache) && origin == old(origin))
              && (r.Ok? ==>
                    && key in cache && cache[key] == r.value
                    && (IsFresh(engines, r.value, kb) <==> Unchanged(engines, kb, origin[key]))
                    && (key !in old(cache) ==> origin[key] == kb && IsFresh(engines, r.value, kb))
                    && (kb.engine !in engines.exact && DistinctViews(engines, kb.sources) ==>
                          && |kb.sources| == |origin[key].sources|
                          && (IsFresh(engines, r.value, kb) <==> SameContents(kb.sources, origin[key].sources))))
      ensures forall k :: k in cache && k != KeyOf(engines, kb) ==>
                k in old(cache) && cache[k] == old(cache)[k] && origin[k] == old(origin)[k]
      ensures forall k :: k in old(cache) && (k.kb != kb.kb || k.engine != kb.engine) ==> k in cache
    {
      var key := KeyOf(engines, kb);
      if key in cache {
        FreshIffUnchanged(engines, kb, origin[key]);
        return Ok(cache[key]);
      }
      var built: Built;
      if kb.engine in engines.exact {
        built := Exact(kb);
      } else if kb.engine in engines.native {
        built := Native(IndexSources(engines, kb.sources));
      } else {
        return Err(UnknownEngine(kb.engine));
      }
      Replace(kb, built);
      FreshIffUnchanged(engines, kb, kb);
      return Ok(built);
    }

    /** Drops the other generations of this base and engine and keeps the new one. */
    method Replace(kb: Snapshot, built: Built)
      requires Valid() && Build(engines, kb) == Ok(built) && KeyOf(engines, kb) !in cache
      modifies this
      ensures Valid()
      ensures var key := KeyOf(engines, kb);
              && key in cache && cache[key] == built && origin[key] == kb
              && (forall k :: k in cache && k != key ==>
                    k in old(cache) && cache[k] == old(cache)[k] && origin[k] == old(origin)[k])
              && (forall k :: k in old(cache) && (k.kb != kb.kb || k.engine != kb.engine) ==> k in cache)
    {
      var key := KeyOf(engines, kb);
      var stale := set k | k in cache && k.kb == kb.kb && k.engine == kb.engine;
      cache := cache - stale;
      origin := origin - stale;
      cache := cache[key := built];
      origin := origin[key := kb];
    }

    /** `invalidate`: drops every generation of the base, and nothing else. */
    method Invalidate(kb: string)
      requires Valid()
      modifies this
      ensures Valid()
      ensures forall k :: k in cache <==> k in old(cache) && k.kb != kb
      ensures forall k :: k in cache ==> cache[k] == old(cache)[k] && origin[k] == old(origin)[k]
    {
      var gone := set k | k in cache && k.kb == kb;
      cache := cache - gone;
      origin := origin - gone;
    }
  }
}
