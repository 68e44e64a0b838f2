/**
 The deep-research executor (research.py): the topic queue that its own blocks
 can extend, and the check that a block cites only what it was given. Model
 answers are oracles; `key` and `strip` stand for the string functions
 `.strip().lower()` and `.strip()`, about which nothing is assumed.
 */
module Research {
  import opened Options

  datatype Topic = Topic(title: string, overview: string)

  /** What `_run_block` returns that the queue depends on. */
  datatype Block = Block(completed: bool, appended: seq<Topic>)

  // ---- The topic queue

  predicate Seen(agenda: seq<Topic>, name: string, key: string -> string) {
    exists i :: 0 <= i < |agenda| && key(agenda[i].title) == name
  }

  /** `seen` is the set of all keys on the agenda. */
  ghost predicate Knows(seen: set<string>, agenda: seq<Topic>, key: string -> string) {
    forall name :: name in seen <==> Seen(agenda, name, key)
  }

  /** A proposed topic is taken if its key is new and there is room; `agenda` is every topic queued so far. */
  function Admit(agenda: seq<Topic>, t: Topic, max: int, key: string -> string): (r: seq<Topic>)
    ensures agenda <= r
  {
    if key(t.title) != "" && !Seen(agenda, key(t.title), key) && |agenda| < max then agenda + [t] else agenda
  }

  function AdmitAll(agenda: seq<Topic>, proposals: seq<Topic>, max: int, key: string -> string): (r: seq<Topic>)
    ensures agenda <= r
  {
    if proposals == [] then agenda
    else Admit(AdmitAll(agenda, proposals[..|proposals| - 1], max, key), proposals[|proposals| - 1], max, key)
  }

  /** Every topic ever queued, after the first `n` of them have been researched. */
  function Agenda(subtopics: seq<Topic>, n: nat, max: int, key: string -> string, research: (nat, Topic) -> Block):
      (r: seq<Topic>)
    ensures subtopics <= r
  {
    if n == 0 then subtopics
    else
      var before := Agenda(subtopics, n - 1, max, key, research);
      if n <= |before| then AdmitAll(before, research(n, before[n - 1]).appended, max, key) else before
  }

  /** The blocks that did not complete, by number, where block k researched `topics[k - 1]`. */
  function Failed(topics: seq<Topic>, research: (nat, Topic) -> Block): seq<nat> {
    if topics == [] then []
    else
      var n := |topics| - 1;
      Failed(topics[..n], research) + if research(n + 1, topics[n]).completed then [] else [n + 1]
  }

  predicate Fails(topics: seq<Topic>, k: nat, research: (nat, Topic) -> Block) {
    1 <= k <= |topics| && !research(k, topics[k - 1]).completed
  }

  lemma {:induction false} FailedInOrder(topics: seq<Topic>, research: (nat, Topic) -> Block)
    ensures var r := Failed(topics, research);
            && (forall k: nat :: k in r <==> Fails(topics, k, research))
            && (forall i, j :: 0 <= i < j < |r| ==> r[i] < r[j])
  {
    if topics != [] {
      var n := |topics| - 1;
      var earlier := Failed(topics[..n], research);
      FailedInOrder(topics[..n], research);
      forall k: nat
        ensures Fails(topics, k, research) <==>
                Fails(topics[..n], k, research) || (k == n + 1 && Fails(topics, k, research))
      {
      }
      forall i | 0 <= i < |earlier|
        ensures earlier[i] <= n
      {
        assert earlier[i] in earlier && Fails(topics[..n], earlier[i], research);
      }
    }
  }

  function Min(a: int, b: int): int {
    if a < b then a else b
  }

  /**
   The queue loop of `run_confirmed` terminates for every model: it researches,
   first in first out, exactly as many topics as the limit and the agenda allow,
   and is partial exactly when a block failed or a topic was left over.
   */
  method RunConfirmed(subtopics: seq<Topic>, maxQueue: int, key: string -> string, research: (nat, Topic) -> Block)
    returns (processed: seq<Topic>, failed: seq<nat>, partial: bool)
    ensures var agenda := Agenda(subtopics, |processed|, maxQueue, key, research);
            && |processed| == Min(if maxQueue < 0 then 0 else maxQueue, |agenda|)
            && processed == agenda[..|processed|]
            && failed == Failed(processed, research)
            && (partial <==> failed != [] || |processed| < |agenda|)
  {
    var queue, counter := subtopics, 0;
    var seen := SeenKeys(subtopics, key);
    processed, failed := [], [];
    ghost var agenda := subtopics;
    while queue != [] && counter < maxQueue
      invariant counter <= |agenda| && (counter > 0 ==> counter <= maxQueue)
      invariant agenda == Agenda(subtopics, counter, maxQueue, key, research)
      invariant processed == agenda[..counter] && queue == agenda[counter..]
      invariant failed == Failed(processed, research)
      invariant Knows(seen, agenda, key)
      decreases maxQueue - counter
    {
      var topic := queue[0];
      queue, counter := queue[1..], counter + 1;
      var block := research(counter, topic);
      assert (processed + [topic])[..|processed|] == processed;
      processed := processed + [topic];
      if !block.completed {
        failed := failed + [counter];
      }
      queue, seen, agenda := Enqueue(queue, counter, seen, block.appended, maxQueue, key, agenda);
      assert processed == agenda[..counter];
    }
    partial := failed != [] || queue != [];
  }

  /** The keys of the confirmed topics. */
  method SeenKeys(subtopics: seq<Topic>, key: string -> string) returns (seen: set<string>)
    ensures Knows(seen, subtopics, key)
  {
    seen := set t | t in subtopics :: key(t.title);
  }

  /** The loop over a block's proposals. */
  method Enqueue(queue: seq<Topic>, counter: nat, seen: set<string>, proposals: seq<Topic>, maxQueue: int,
                 key: string -> string, ghost agenda: seq<Topic>)
    returns (queue': seq<Topic>, seen': set<string>, ghost agenda': seq<Topic>)
    requires counter <= |agenda| && queue == agenda[counter..]
    requires Knows(seen, agenda, key)
    ensures agenda' == AdmitAll(agenda, proposals, maxQueue, key)
    ensures queue' == AdmitAll(agenda, proposals, maxQueue, key)[counter..]
    ensures Knows(seen', agenda', key)
  {
    queue', seen', agenda' := queue, seen, agenda;
    for i := 0 to |proposals|
      invariant agenda' == AdmitAll(agenda, proposals[..i], maxQueue, key)
      invariant counter <= |agenda'| && queue' == agenda'[counter..]
      invariant Knows(seen', agenda', key)
    {
      assert proposals[..i + 1][..i] == proposals[..i];
      var name := key(proposals[i].title);
      if name != "" && name !in seen' && |queue'| + counter < maxQueue {
        SeenGrows(agenda', proposals[i], key);
        seen' := seen' + {name};
        queue', agenda' := queue' + [proposals[i]], agenda' + [proposals[i]];
      }
    }
    assert proposals[..|proposals|] == proposals;
  }

  lemma SeenGrows(agenda: seq<Topic>, t: Topic, key: string -> string)
    ensures forall name :: Seen(agenda + [t], name, key) <==> Seen(agenda, name, key) || name == key(t.title)
  {
    forall name
      ensures Seen(agenda + [t], name, key) <==> Seen(agenda, name, key) || name == key(t.title)
    {
      if Seen(agenda, name, key) {
        var i :| 0 <= i < |agenda| && key(agenda[i].title) == name;
        assert (agenda + [t])[i] == agenda[i];
      }
      assert (agenda + [t])[|agenda|] == t;
    }
  }

  /** Appended topics fit, have a key, and repeat no key of an earlier topic. */
  ghost predicate WellAppended(agenda: seq<Topic>, from: nat, max: int, key: string -> string) {
    && from <= |agenda|
    && (|agenda| > from ==> |agenda| <= max)
    && (forall i :: from <= i < |agenda| ==> key(agenda[i].title) != "")
    && (forall i, j :: from <= i < |agenda| && 0 <= j < i ==> key(agenda[j].title) != key(agenda[i].title))
  }

  lemma AdmitWell(agenda: seq<Topic>, from: nat, t: Topic, max: int, key: string -> string)
    requires WellAppended(agenda, from, max, key)
    ensures WellAppended(Admit(agenda, t, max, key), from, max, key)
  {
    var r := Admit(agenda, t, max, key);
    forall i, j | from <= i < |r| && 0 <= j < i
      ensures key(r[j].title) != key(r[i].title)
    {
      assert r[j] == agenda[j];
    }
  }

  lemma {:induction false} AdmitAllWell(agenda: seq<Topic>, from: nat, proposals: seq<Topic>, max: int,
                                        key: string -> string)
    requires WellAppended(agenda, from, max, key)
    ensures WellAppended(AdmitAll(agenda, proposals, max, key), from, max, key)
    ensures |agenda| <= max ==> |AdmitAll(agenda, proposals, max, key)| <= max
  {
    if proposals != [] {
      var n := |proposals| - 1;
      AdmitAllWell(agenda, from, proposals[..n], max, key);
      AdmitWell(AdmitAll(agenda, proposals[..n], max, key), from, proposals[n], max, key);
    }
  }

  /** No topic is researched twice under one title key because a block proposed it again. */
  lemma {:induction false} NothingProposedTwice(subtopics: seq<Topic>, n: nat, max: int, key: string -> string,
                                                research: (nat, Topic) -> Block)
    ensures WellAppended(Agenda(subtopics, n, max, key, research), |subtopics|, max, key)
    ensures |subtopics| <= max ==> |Agenda(subtopics, n, max, key, research)| <= max
  {
    if n > 0 {
      NothingProposedTwice(subtopics, n - 1, max, key, research);
      var before := Agenda(subtopics, n - 1, max, key, research);
      if n <= |before| {
        AdmitAllWell(before, |subtopics|, research(n, before[n - 1]).appended, max, key);
      }
    }
  }

  /** A proposal is turned down only for lack of room, of a key, or of novelty. */
  lemma {:induction false} NothingDroppedWithRoom(agenda: seq<Topic>, proposals: seq<Topic>, max: int,
                                                  key: string -> string, k: nat)
    requires k < |proposals|
    ensures var r := AdmitAll(agenda, proposals, max, key);
            key(proposals[k].title) == "" || |r| >= max || Seen(r, key(proposals[k].title), key)
  {
    var n := |proposals| - 1;
    var before := AdmitAll(agenda, proposals[..n], max, key);
    var r := AdmitAll(agenda, proposals, max, key);
    if k < n {
      NothingDroppedWithRoom(agenda, proposals[..n], max, key, k);
      if Seen(before, key(proposals[k].title), key) {
        var i :| 0 <= i < |before| && key(before[i].title) == key(proposals[k].title);
        assert r[i] == before[i];
      }
    } else if key(proposals[k].title) != "" && |before| < max && !Seen(before, key(proposals[k].title), key) {
      assert r[|before|] == proposals[k];
    }
  }

  /** Nothing is queued but what was proposed. */
  lemma {:induction false} AdmittedWereProposed(agenda: seq<Topic>, proposals: seq<Topic>, max: int,
                                                key: string -> string)
    ensures forall t :: t in AdmitAll(agenda, proposals, max, key)[|agenda|..] ==> t in proposals
  {
    if proposals != [] {
      var n := |proposals| - 1;
      AdmittedWereProposed(agenda, proposals[..n], max, key);
      var before, r := AdmitAll(agenda, proposals[..n], max, key), AdmitAll(agenda, proposals, max, key);
      assert r == before || r[|agenda|..] == before[|agenda|..] + [proposals[n]];
    }
  }

  /**
   Every block gets its say: whatever block `k` proposed is on the agenda from
   then on, by its key, unless it has none or the agenda is full.
   */
  lemma {:induction false} ProposalsAreHeard(subtopics: seq<Topic>, n: nat, max: int, key: string -> string,
                                             research: (nat, Topic) -> Block, k: nat, p: Topic)
    requires 1 <= k <= n
    requires var before := Agenda(subtopics, k - 1, max, key, research);
             k <= |before| && p in research(k, before[k - 1]).appended
    ensures var r := Agenda(subtopics, n, max, key, research);
            key(p.title) == "" || |r| >= max || Seen(r, key(p.title), key)
    decreases n
  {
    var earlier, r := Agenda(subtopics, n - 1, max, key, research), Agenda(subtopics, n, max, key, research);
    if k == n {
      var proposals := research(k, earlier[k - 1]).appended;
      var i :| 0 <= i < |proposals| && proposals[i] == p;
      NothingDroppedWithRoom(earlier, proposals, max, key, i);
    } else {
      ProposalsAreHeard(subtopics, n - 1, max, key, research, k, p);
      assert earlier <= r;
      if Seen(earlier, key(p.title), key) {
        var i :| 0 <= i < |earlier| && key(earlier[i].title) == key(p.title);
        assert r[i] == earlier[i];
      }
    }
  }

  /** If the confirmed topics fit, nothing is ever left over; and then `partial` means a failed block. */
  lemma ConfirmedTopicsDrain(subtopics: seq<Topic>, processed: nat, max: int, key: string -> string,
                             research: (nat, Topic) -> Block)
    requires var agenda := Agenda(subtopics, processed, max, key, research);
             processed == Min(if max < 0 then 0 else max, |agenda|)
    ensures |subtopics| <= max ==> processed == |Agenda(subtopics, processed, max, key, research)|
    ensures processed < |Agenda(subtopics, processed, max, key, research)| ==> |subtopics| > max
  {
    NothingProposedTwice(subtopics, processed, max, key, research);
  }

  // ---- One block: grounding

  datatype RawClaim = RawClaim(text: string, ids: seq<string>)

  datatype Grounding = Grounded | Ungrounded | Invalid

  datatype Claim = Claim(text: string, ids: seq<string>, grounding: Grounding)

  /** The parsed block answer. */
  datatype Parsed = Parsed(summary: string, claims: seq<RawClaim>, topics: seq<Topic>)

  datatype BlockError = StructuredOutputInvalid | InvalidGrounding | MissingClaims | MissingSummary

  datatype BlockResult = BlockResult(summary: string, used: seq<string>, claims: seq<Claim>, appended: seq<Topic>,
                                     completed: bool, error: BlockError)

  /** Identifiers stripped, blank ones dropped. */
  function Cleaned(ids: seq<string>, strip: string -> string): seq<string> {
    if ids == [] then []
    else
      var n := |ids| - 1;
      Cleaned(ids[..n], strip) + if strip(ids[n]) == "" then [] else [strip(ids[n])]
  }

  lemma CleanedOne(ids: seq<string>, id: string, strip: string -> string)
    ensures Cleaned(ids + [id], strip) == Cleaned(ids, strip) + if strip(id) == "" then [] else [strip(id)]
  {
    assert (ids + [id])[..|ids|] == ids;
  }

  /** Identifiers are cleaned one by one, in order. */
  lemma {:induction false} CleanedBoth(ids: seq<string>, more: seq<string>, strip: string -> string)
    ensures Cleaned(ids + more, strip) == Cleaned(ids, strip) + Cleaned(more, strip)
  {
    if more == [] {
      assert ids + more == ids;
    } else {
      var front, last := more[..|more| - 1], more[|more| - 1];
      var all := ids + front;
      assert ids + more == all + [last] && more == front + [last];
      CleanedBoth(ids, front, strip);
      CleanedOne(all, last, strip);
      CleanedOne(front, last, strip);
    }
  }

  /** Some raw identifier strips to `id`, which is not blank. */
  predicate Names(ids: seq<string>, id: string, strip: string -> string) {
    id != "" && exists i :: i in ids && strip(i) == id
  }

  lemma {:induction false} CleanedAre(ids: seq<string>, id: string, strip: string -> string)
    ensures id in Cleaned(ids, strip) <==> Names(ids, id, strip)
  {
    if ids != [] {
      var front, last := ids[..|ids| - 1], ids[|ids| - 1];
      CleanedAre(front, id, strip);
      assert ids == front + [last];
      if Names(front, id, strip) {
        var i :| i in front && strip(i) == id;
        assert i in ids;
      }
      if strip(last) == id {
        assert last in ids;
      }
    }
  }

  predicate AllSupplied(ids: seq<string>, supplied: set<string>) {
    forall i :: i in ids ==> i in supplied
  }

  function Judged(raw: RawClaim, supplied: set<string>, strip: string -> string): Claim {
    var ids := Cleaned(raw.ids, strip);
    Claim(strip(raw.text), ids,
          if !AllSupplied(ids, supplied) then Invalid else if ids != [] then Grounded else Ungrounded)
  }

  function Claims(raw: seq<RawClaim>, supplied: set<string>, strip: string -> string): seq<Claim> {
    if raw == [] then []
    else
      var n := |raw| - 1;
      Claims(raw[..n], supplied, strip)
      + if strip(raw[n].text) == "" then [] else [Judged(raw[n], supplied, strip)]
  }

  /** The raw claim names something that was not supplied. */
  ghost predicate Overcites(raw: RawClaim, supplied: set<string>, strip: string -> string) {
    exists id :: Names(raw.ids, id, strip) && id !in supplied
  }

  /**
   How a claim is judged: it says what the raw one says and cites what that
   names; it is invalid exactly if it names an identifier that was not supplied,
   else grounded exactly if it names any.
   */
  lemma JudgedIs(raw: RawClaim, supplied: set<string>, strip: string -> string)
    ensures var c := Judged(raw, supplied, strip);
            && c.text == strip(raw.text)
            && (forall id :: id in c.ids <==> Names(raw.ids, id, strip))
            && (c.grounding.Invalid? <==> Overcites(raw, supplied, strip))
            && (c.grounding.Grounded? <==>
                  !Overcites(raw, supplied, strip) && exists id :: Names(raw.ids, id, strip))
  {
    var c := Judged(raw, supplied, strip);
    forall id
      ensures id in c.ids <==> Names(raw.ids, id, strip)
    {
      CleanedAre(raw.ids, id, strip);
    }
    if c.ids != [] {
      assert c.ids[0] in c.ids;
    }
  }

  lemma ClaimsOne(raw: seq<RawClaim>, claim: RawClaim, supplied: set<string>, strip: string -> string)
    ensures Claims(raw + [claim], supplied, strip) ==
            Claims(raw, supplied, strip) + if strip(claim.text) == "" then [] else [Judged(claim, supplied, strip)]
  {
    assert (raw + [claim])[..|raw|] == raw;
  }

  /** Claims are judged one by one, in order; those without a text are left out (`ClaimsOne`). */
  lemma {:induction false} ClaimsBoth(raw: seq<RawClaim>, more: seq<RawClaim>, supplied: set<string>,
                                      strip: string -> string)
    ensures Claims(raw + more, supplied, strip) == Claims(raw, supplied, strip) + Claims(more, supplied, strip)
  {
    if more == [] {
      assert raw + more == raw;
    } else {
      var front, last := more[..|more| - 1], more[|more| - 1];
      var all := raw + front;
      assert raw + more == all + [last] && more == front + [last];
      ClaimsBoth(raw, front, supplied, strip);
      ClaimsOne(all, last, supplied, strip);
      ClaimsOne(front, last, supplied, strip);
    }
  }

  /** The supplied ones of `ids` that `used` lacks, added in order of first use. */
  function Use(used: seq<string>, ids: seq<string>, supplied: set<string>): seq<string> {
    if ids == [] then used
    else
      var n := |ids| - 1;
      var before := Use(used, ids[..n], supplied);
      if ids[n] in supplied && ids[n] !in before then before + [ids[n]] else before
  }

  function Used(claims: seq<Claim>, supplied: set<string>): seq<string> {
    if claims == [] then []
    else Use(Used(claims[..|claims| - 1], supplied), claims[|claims| - 1].ids, supplied)
  }

  predicate Distinct(s: seq<string>) {
    forall i, j :: 0 <= i < j < |s| ==> s[i] != s[j]
  }

  lemma {:induction false} UseAdds(used: seq<string>, ids: seq<string>, supplied: set<string>)
    requires Distinct(used)
    ensures used <= Use(used, ids, supplied) && Distinct(Use(used, ids, supplied))
    ensures forall i :: i in Use(used, ids, supplied) <==> i in used || (i in ids && i in supplied)
  {
    if ids != [] {
      var n := |ids| - 1;
      UseAdds(used, ids[..n], supplied);
      assert ids == ids[..n] + [ids[n]];
    }
  }

  predicate Cites(claims: seq<Claim>, id: string) {
    exists c :: c in claims && id in c.ids
  }

  /** The citations of a block: each supplied identifier that some claim cites, once, and nothing else. */
  lemma {:induction false} UsedIsCitedAndSupplied(claims: seq<Claim>, supplied: set<string>)
    ensures Distinct(Used(claims, supplied))
    ensures forall id :: id in Used(claims, supplied) <==> id in supplied && Cites(claims, id)
  {
    if claims != [] {
      var n := |claims| - 1;
      UsedIsCitedAndSupplied(claims[..n], supplied);
      UseAdds(Used(claims[..n], supplied), claims[n].ids, supplied);
      forall id
        ensures Cites(claims, id) <==> Cites(claims[..n], id) || id in claims[n].ids
      {
        if Cites(claims, id) {
          var c :| c in claims && id in c.ids;
          assert c in claims[..n] || c == claims[n];
        }
      }
    }
  }

  predicate AnyInvalid(claims: seq<Claim>) {
    exists c :: c in claims && c.grounding == Invalid
  }

  /** The loop over the claims of an answer. */
  method Ground(raw: seq<RawClaim>, supplied: set<string>, strip: string -> string)
    returns (claims: seq<Claim>, used: seq<string>, invalid: bool)
    ensures claims == Claims(raw, supplied, strip) && used == Used(claims, supplied)
    ensures invalid <==> AnyInvalid(claims)
  {
    claims, used, invalid := [], [], false;
    for i := 0 to |raw|
      invariant claims == Claims(raw[..i], supplied, strip) && used == Used(claims, supplied)
      invariant invalid <==> AnyInvalid(claims)
    {
      assert raw[..i + 1][..i] == raw[..i];
      if strip(raw[i].text) == "" {
        continue;
      }
      var claim := Judged(raw[i], supplied, strip);
      assert (claims + [claim])[..|claims|] == claims;
      claims, invalid := claims + [claim], invalid || claim.grounding == Invalid;
      used := Use(used, claim.ids, supplied);
    }
    assert raw[..|raw|] == raw;
  }

  /** The proposals that keep a title when stripped, stripped. */
  function Titled(topics: seq<Topic>, strip: string -> string): seq<Topic> {
    if topics == [] then []
    else
      var last := topics[|topics| - 1];
      Titled(topics[..|topics| - 1], strip)
      + if strip(last.title) == "" then [] else [Topic(strip(last.title), strip(last.overview))]
  }

  /** Exactly the titled ones, at most as many as were proposed. */
  lemma {:induction false} TitledAre(topics: seq<Topic>, strip: string -> string)
    ensures |Titled(topics, strip)| <= |topics|
    ensures forall t :: t in Titled(topics, strip) <==>
              exists p :: p in topics && strip(p.title) != "" && t == Topic(strip(p.title), strip(p.overview))
  {
    if topics != [] {
      var n := |topics| - 1;
      TitledAre(topics[..n], strip);
      assert topics == topics[..n] + [topics[n]];
    }
  }

  /**
   `_run_block` after the model has answered; None when neither the answer nor
   its repair parses. A completed block still carries an error type, the last
   one of the chain.
   */
  method RunBlock(answer: Option<Parsed>, supplied: set<string>, strip: string -> string)
    returns (r: BlockResult)
    ensures answer.None? ==> r == BlockResult("", [], [], [], false, StructuredOutputInvalid)
    ensures answer.Some? ==>
              && r.claims == Claims(answer.value.claims, supplied, strip)
              && r.summary == strip(answer.value.summary)
              && r.used == Used(r.claims, supplied)
              && r.appended == Titled(answer.value.topics[..Min(2, |answer.value.topics|)], strip)
              && (r.completed <==> r.summary != "" && r.claims != [] && !AnyInvalid(r.claims))
              && (r.error == InvalidGrounding <==> AnyInvalid(r.claims))
              && (r.error == MissingClaims <==> r.claims == [])
              && (r.completed ==> r.error == MissingSummary)
  {
    if answer.None? {
      return BlockResult("", [], [], [], false, StructuredOutputInvalid);
    }
    var parsed := answer.value;
    var summary := strip(parsed.summary);
    var claims, used, invalid := Ground(parsed.claims, supplied, strip);
    var appended: seq<Topic> := [];
    var first := parsed.topics[..Min(2, |parsed.topics|)];
    for i := 0 to |first|
      invariant appended == Titled(first[..i], strip)
    {
      assert first[..i + 1][..i] == first[..i];
      var title := strip(first[i].title);
      if title != "" {
        appended := appended + [Topic(title, strip(first[i].overview))];
      }
    }
    assert first[..|first|] == first;
    var error := if invalid then InvalidGrounding
                 else if claims == [] then MissingClaims
                 else MissingSummary;
    r := BlockResult(summary, used, claims, appended, summary != "" && claims != [] && !invalid, error);
  }

  /** A completed block cites nothing but what it was supplied with, and loses none of its citations. */
  lemma CompletedBlockIsGrounded(claims: seq<Claim>, raw: seq<RawClaim>, supplied: set<string>,
                                 strip: string -> string)
    requires claims == Claims(raw, supplied, strip) && !AnyInvalid(claims)
    ensures forall id :: Cites(claims, id) <==> id in Used(claims, supplied)
    ensures forall c :: c in claims ==> (c.grounding == Grounded <==> c.ids != [])
  {
    UsedIsCitedAndSupplied(claims, supplied);
    ClaimsAreJudged(raw, supplied, strip);
    forall id | Cites(claims, id)
      ensures id in supplied
    {
      var c :| c in claims && id in c.ids;
      assert AllSupplied(c.ids, supplied);
    }
  }

  lemma {:induction false} ClaimsAreJudged(raw: seq<RawClaim>, supplied: set<string>, strip: string -> string)
    ensures forall c :: c in Claims(raw, supplied, strip) ==>
              && (c.grounding == Invalid <==> !AllSupplied(c.ids, supplied))
              && (c.grounding != Invalid ==> (c.grounding == Grounded <==> c.ids != []))
  {
    if raw != [] {
      ClaimsAreJudged(raw[..|raw| - 1], supplied, strip);
    }
  }
}
