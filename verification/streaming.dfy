/**
 From provider to tutor: assembling streamed tool calls and the bounded
 continuation of complete() (llm.py), the adapter that presents a complete()
 response as a stream (usage.py), and the two routes through `_call_round`
 (tutor.py).
 */
module Streaming {
  import opened History

  /** The strings one after the other. */
  function Join(parts: seq<string>): string {
    if parts == [] then "" else Join(parts[..|parts| - 1]) + parts[|parts| - 1]
  }

  /** Joining keeps the order: earlier strings come first. */
  lemma {:induction false} JoinBoth(parts: seq<string>, more: seq<string>)
    ensures Join(parts + more) == Join(parts) + Join(more)
  {
    if more == [] {
      assert parts + more == parts;
    } else {
      var n := |more| - 1;
      JoinBoth(parts, more[..n]);
      assert (parts + more)[..|parts + more| - 1] == parts + more[..n];
    }
  }

  lemma JoinOne(s: string)
    ensures Join([s]) == s
  {
    assert [s][..0] == [] && Join([]) == "";
  }

  // ---- Streamed tool calls

  /** One delta of one call; "" where the delta has no such field. */
  datatype Fragment = Fragment(index: int, id: string, name: string, arguments: string)

  datatype Entry = Entry(id: string, name: string, arguments: string)

  const BLANK := Entry("", "", "")

  function Extend(e: Entry, f: Fragment): Entry {
    Entry(e.id + f.id, e.name + f.name, e.arguments + f.arguments)
  }

  /** `tool_acc` after the fragments, in arrival order. */
  function Assemble(fs: seq<Fragment>): map<int, Entry> {
    if fs == [] then map[]
    else
      var acc := Assemble(fs[..|fs| - 1]);
      var f := fs[|fs| - 1];
      acc[f.index := Extend(if f.index in acc then acc[f.index] else BLANK, f)]
  }

  /** The fragments of one call, in order. */
  function Of(fs: seq<Fragment>, index: int): seq<Fragment> {
    if fs == [] then []
    else
      var earlier := Of(fs[..|fs| - 1], index);
      if fs[|fs| - 1].index == index then earlier + [fs[|fs| - 1]] else earlier
  }

  /** The concatenation of a call's own fragments, field by field. */
  function Joined(fs: seq<Fragment>): Entry {
    if fs == [] then BLANK else Extend(Joined(fs[..|fs| - 1]), fs[|fs| - 1])
  }

  function Ids(fs: seq<Fragment>): seq<string> {
    seq(|fs|, i requires 0 <= i < |fs| => fs[i].id)
  }

  function Names(fs: seq<Fragment>): seq<string> {
    seq(|fs|, i requires 0 <= i < |fs| => fs[i].name)
  }

  function Arguments(fs: seq<Fragment>): seq<string> {
    seq(|fs|, i requires 0 <= i < |fs| => fs[i].arguments)
  }

  lemma {:induction false} JoinedFields(fs: seq<Fragment>)
    ensures Joined(fs) == Entry(Join(Ids(fs)), Join(Names(fs)), Join(Arguments(fs)))
  {
    if fs != [] {
      var n := |fs| - 1;
      JoinedFields(fs[..n]);
      assert Ids(fs)[..n] == Ids(fs[..n]);
      assert Names(fs)[..n] == Names(fs[..n]);
      assert Arguments(fs)[..n] == Arguments(fs[..n]);
    }
  }

  /** A call's own fragments are those with its index, in arrival order. */
  lemma {:induction false} OfBoth(fs: seq<Fragment>, more: seq<Fragment>, index: int)
    ensures Of(fs + more, index) == Of(fs, index) + Of(more, index)
  {
    if more == [] {
      assert fs + more == fs;
    } else {
      var n := |more| - 1;
      OfBoth(fs, more[..n], index);
      OfLast(fs + more[..n], more[n], index);
      OfLast(more[..n], more[n], index);
      assert fs + more == (fs + more[..n]) + [more[n]];
      assert more == more[..n] + [more[n]];
    }
  }

  lemma OfLast(fs: seq<Fragment>, f: Fragment, index: int)
    ensures Of(fs + [f], index) == Of(fs, index) + if f.index == index then [f] else []
  {
    assert (fs + [f])[..|fs + [f]| - 1] == fs;
  }

  lemma JoinedStep(fs: seq<Fragment>, f: Fragment)
    ensures Joined(fs + [f]) == Extend(Joined(fs), f)
  {
    assert (fs + [f])[..|fs + [f]| - 1] == fs;
  }

  lemma {:induction false} AssembledIsJoined(fs: seq<Fragment>, index: int)
    ensures index in Assemble(fs) <==> Of(fs, index) != []
    ensures index in Assemble(fs) ==> Assemble(fs)[index] == Joined(Of(fs, index))
  {
    if fs != [] {
      var n := |fs| - 1;
      AssembledIsJoined(fs[..n], index);
      JoinedStep(Of(fs[..n], index), fs[n]);
      if fs[n].index == index && index !in Assemble(fs[..n]) {
        assert Of(fs[..n], index) == [] && Joined([]) == BLANK;
      }
    }
  }

  /** Each assembled call is, field by field, its own fragments joined in arrival order. */
  lemma CallIsItsFragments(fs: seq<Fragment>, index: int)
    ensures index in Assemble(fs) <==> Of(fs, index) != []
    ensures index in Assemble(fs) ==> Assemble(fs)[index] == Joined(Of(fs, index))
    ensures var own := Of(fs, index);
            index in Assemble(fs) ==>
              Assemble(fs)[index] == Entry(Join(Ids(own)), Join(Names(own)), Join(Arguments(own)))
  {
    AssembledIsJoined(fs, index);
    JoinedFields(Of(fs, index));
  }

  /** How fragments of different calls interleave makes no difference. */
  lemma InterleavingIsIrrelevant(fs: seq<Fragment>, gs: seq<Fragment>)
    requires forall index :: Of(fs, index) == Of(gs, index)
    ensures Assemble(fs) == Assemble(gs)
  {
    forall index
      ensures index in Assemble(fs) <==> index in Assemble(gs)
      ensures index in Assemble(fs) ==> Assemble(fs)[index] == Assemble(gs)[index]
    {
      CallIsItsFragments(fs, index);
      CallIsItsFragments(gs, index);
    }
  }

  ghost predicate Ascending(indices: seq<int>) {
    forall i, j :: 0 <= i < j < |indices| ==> indices[i] < indices[j]
  }

  /** The accumulation loop of `stream`. */
  method Accumulate(fs: seq<Fragment>) returns (acc: map<int, Entry>)
    ensures acc == Assemble(fs)
  {
    acc := map[];
    for i := 0 to |fs|
      invariant acc == Assemble(fs[..i])
    {
      assert fs[..i + 1][..i] == fs[..i];
      var f := fs[i];
      var entry := if f.index in acc then acc[f.index] else BLANK;
      acc := acc[f.index := Entry(entry.id + f.id, entry.name + f.name, entry.arguments + f.arguments)];
    }
    assert fs[..|fs|] == fs;
  }

  /** `sorted(s)`. */
  method Sorted(s: set<int>) returns (indices: seq<int>)
    ensures Ascending(indices)
    ensures forall index :: index in indices <==> index in s
  {
    indices := [];
    var todo := s;
    while todo != {}
      invariant Ascending(indices)
      invariant forall index :: index in s <==> index in indices || index in todo
      invariant forall i, t :: 0 <= i < |indices| && t in todo ==> indices[i] < t
      decreases todo
    {
      var least := Least(todo);
      indices, todo := indices + [least], todo - {least};
    }
  }

  method Pick<T(==)>(s: set<T>) returns (t: T)
    requires s != {}
    ensures t in s
  {
    t :| t in s;
  }

  method Least(s: set<int>) returns (least: int)
    requires s != {}
    ensures least in s && forall t :: t in s ==> least <= t
  {
    least := Pick(s);
    var rest := s;
    while rest != {}
      invariant least in s && rest <= s
      invariant forall t :: t in s ==> t in rest || least <= t
      decreases rest
    {
      var t := Pick(rest);
      if t < least {
        least := t;
      }
      rest := rest - {t};
    }
  }

  /** The calls `stream` emits: one per index seen, in ascending order of index. */
  method StreamCalls(fs: seq<Fragment>) returns (indices: seq<int>, calls: seq<Entry>)
    ensures Ascending(indices) && |calls| == |indices|
    ensures forall index :: index in indices <==> Of(fs, index) != []
    ensures forall i :: 0 <= i < |indices| ==> calls[i] == Joined(Of(fs, indices[i]))
    ensures forall i :: 0 <= i < |indices| ==>
              var own := Of(fs, indices[i]);
              calls[i] == Entry(Join(Ids(own)), Join(Names(own)), Join(Arguments(own)))
  {
    var acc := Accumulate(fs);
    indices := Sorted(acc.Keys);
    calls := [];
    for k := 0 to |indices|
      invariant |calls| == k
      invariant forall i :: 0 <= i < k ==> indices[i] in acc && calls[i] == acc[indices[i]]
    {
      assert indices[k] in indices;
      calls := calls + [acc[indices[k]]];
    }
    forall index
      ensures index in acc <==> Of(fs, index) != []
      ensures index in acc ==> acc[index] == Joined(Of(fs, index))
      ensures Joined(Of(fs, index)) ==
              Entry(Join(Ids(Of(fs, index))), Join(Names(Of(fs, index))), Join(Arguments(Of(fs, index))))
    {
      CallIsItsFragments(fs, index);
      JoinedFields(Of(fs, index));
    }
  }

  // ---- The continuation loop of complete()

  /** One provider answer; `calls` are decoded. */
  datatype Piece = Piece(text: string, calls: seq<Call>, reason: string)

  datatype Response = Response(text: string, calls: seq<Call>, finish: string, visibility: string)

  predicate Stops(p: Piece) {
    p.calls != [] || p.reason != "length"
  }

  /**
   The continuation loop: answers are requested until one has tool calls or is
   not cut off, at most `limit + 1` of them; the text of all is concatenated.
   */
  method Complete(provider: nat -> Piece, limit: nat) returns (r: Response, used: nat)
    ensures 1 <= used <= limit + 1
    ensures used <= limit ==> Stops(provider(used - 1))
    ensures forall k :: 0 <= k < used - 1 ==> !Stops(provider(k))
    ensures r.text == Join(seq(used, k requires 0 <= k < used => provider(k).text))
    ensures r.calls == provider(used - 1).calls && r.finish == provider(used - 1).reason
    ensures r.visibility == if r.calls != [] then "auto" else "answer"
  {
    var text := "";
    ghost var pieces: seq<string> := [];
    used := 0;
    while true
      invariant 0 <= used <= limit
      invariant pieces == seq(used, k requires 0 <= k < used => provider(k).text) && text == Join(pieces)
      invariant forall k :: 0 <= k < used ==> !Stops(provider(k))
      decreases limit - used
    {
      var p := provider(used);
      assert (pieces + [p.text])[..|pieces|] == pieces;
      text := text + p.text;
      pieces := pieces + [p.text];
      used := used + 1;
      assert pieces == seq(used, k requires 0 <= k < used => provider(k).text);
      if p.calls != [] {
        return Response(text, p.calls, p.reason, "auto"), used;
      }
      if p.reason != "length" || used > limit {
        return Response(text, [], p.reason, "answer"), used;
      }
    }
  }

  // ---- complete() seen through the observed stream

  datatype StreamItem =
    | AnswerItem(text: string)
    | NarrationItem(text: string)
    | CallItem(call: Call)
    | DoneItem(finish: string)

  predicate Visible(r: Response) {
    r.visibility == "answer" || (r.visibility == "auto" && r.calls == [])
  }

  function CallEvents(calls: seq<Call>): seq<StreamItem> {
    seq(|calls|, i requires 0 <= i < |calls| => CallItem(calls[i]))
  }

  /** ObservedLLMClient.stream over a client without a stream of its own. */
  function AsStream(r: Response): seq<StreamItem> {
    (if r.text == "" then [] else [if Visible(r) then AnswerItem(r.text) else NarrationItem(r.text)])
    + CallEvents(r.calls)
    + [DoneItem(r.finish)]
  }

  /** What `_call_round` logs: answer text shown, or narration suppressed, by its length. */
  datatype Logged = Shown(text: string) | Suppressed(chars: nat)

  /** What `_call_round` returns, and what it logs on the way. */
  datatype RoundResult = RoundResult(chunks: string, narration: string, calls: seq<Call>, finish: string,
                                     log: seq<Logged>)

  /** The direct route: call complete(). */
  function DirectRoute(r: Response): RoundResult {
    var visible := Visible(r);
    RoundResult(if visible then r.text else "",
                if visible then "" else r.text,
                r.calls, r.finish,
                if r.text == "" then [] else [if visible then Shown(r.text) else Suppressed(|r.text|)])
  }

  /** The state of the stream route before the stream is exhausted. */
  function Consume(state: RoundResult, e: StreamItem): RoundResult {
    match e
    case AnswerItem(text) =>
      if text == "" then state
      else state.(chunks := state.chunks + text, log := state.log + [Shown(text)])
    case NarrationItem(text) => state.(narration := state.narration + text)
    case CallItem(call) => if call == NO_KEYS then state else state.(calls := state.calls + [call])
    case DoneItem(finish) => state.(finish := finish)
  }

  function ConsumeAll(events: seq<StreamItem>): RoundResult {
    if events == [] then RoundResult("", "", [], "", [])
    else Consume(ConsumeAll(events[..|events| - 1]), events[|events| - 1])
  }

  /** The stream route: ambiguous text becomes an answer when no tool call followed. */
  function StreamRoute(events: seq<StreamItem>): RoundResult {
    var state := ConsumeAll(events);
    if state.narration == "" then state
    else if state.calls == [] then
      state.(chunks := state.chunks + state.narration, log := state.log + [Shown(state.narration)])
    else state.(log := state.log + [Suppressed(|state.narration|)])
  }

  /** Both: the stream breaks off because its signature does not fit, and complete() takes over. */
  function MixedRoute(events: seq<StreamItem>, r: Response): RoundResult {
    var shown, direct := ConsumeAll(events), DirectRoute(r);
    RoundResult(shown.chunks + direct.chunks, direct.narration, direct.calls, direct.finish, shown.log + direct.log)
  }

  /** The calls a stream delivers: empty objects are dropped. */
  function Truthy(calls: seq<Call>): seq<Call> {
    if calls == [] then []
    else Truthy(calls[..|calls| - 1]) + (if calls[|calls| - 1] == NO_KEYS then [] else [calls[|calls| - 1]])
  }

  lemma {:induction false} TruthyAll(calls: seq<Call>)
    ensures |Truthy(calls)| <= |calls|
    ensures Truthy(calls) == calls <==> NO_KEYS !in calls
    ensures |Truthy(calls)| == |calls| ==> NO_KEYS !in calls
  {
    if calls != [] {
      var n := |calls| - 1;
      TruthyAll(calls[..n]);
      assert calls == calls[..n] + [calls[n]];
    }
  }

  lemma {:induction false} ConsumeCalls(head: seq<StreamItem>, calls: seq<Call>)
    ensures ConsumeAll(head + CallEvents(calls))
            == ConsumeAll(head).(calls := ConsumeAll(head).calls + Truthy(calls))
  {
    var all := CallEvents(calls);
    if calls == [] {
      assert head + all == head;
    } else {
      var n := |calls| - 1;
      ConsumeCalls(head, calls[..n]);
      assert (head + all)[..|head + all| - 1] == head + CallEvents(calls[..n]);
    }
  }

  /** What the stream route makes of a response. */
  lemma StreamOfResponse(r: Response)
    ensures ConsumeAll(AsStream(r)) ==
            RoundResult(if Visible(r) then r.text else "", if Visible(r) then "" else r.text,
                        Truthy(r.calls), r.finish,
                        if r.text != "" && Visible(r) then [Shown(r.text)] else [])
  {
    var head := if r.text == "" then [] else [if Visible(r) then AnswerItem(r.text) else NarrationItem(r.text)];
    var calls := CallEvents(r.calls);
    ConsumeCalls(head, r.calls);
    var all := AsStream(r);
    assert all[..|all| - 1] == head + calls && all[|all| - 1] == DoneItem(r.finish);
    assert ConsumeAll(all) == Consume(ConsumeAll(head + calls), DoneItem(r.finish));
    if r.text != "" {
      assert head[..0] == [];
      assert ConsumeAll(head) == Consume(ConsumeAll([]), head[0]);
      assert "" + r.text == r.text;
    }
    assert ConsumeAll(head) ==
           RoundResult(if Visible(r) then r.text else "", if Visible(r) then "" else r.text, [], "",
                       if r.text != "" && Visible(r) then [Shown(r.text)] else []);
    assert [] + Truthy(r.calls) == Truthy(r.calls);
  }

  /**
   The observed-stream route gives the same chunks, narration, calls, finish
   reason and log as the direct route exactly when no call is an empty object
   and the response is not text with no calls that is marked neither "auto" nor
   "answer": such text the stream shows and the direct route suppresses.
   */
  lemma RoutesAgreeIff(r: Response)
    ensures StreamRoute(AsStream(r)) == DirectRoute(r) <==>
            NO_KEYS !in r.calls
            && !(r.text != "" && r.calls == [] && r.visibility != "auto" && r.visibility != "answer")
  {
    StreamOfResponse(r);
    TruthyAll(r.calls);
    var state := ConsumeAll(AsStream(r));
    if NO_KEYS !in r.calls {
      assert state.calls == r.calls;
    }
  }
}
