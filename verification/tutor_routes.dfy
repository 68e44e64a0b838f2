/**
 The two ways through a model round of the tutor machine: driven by the stream
 an observed client makes of a response, or by complete() with the response
 itself. Both end where `_call_round` ends with the result of that route.
 */
module TutorRoutes {
  import opened Options
  import opened History
  import opened Store
  import opened Grants
  import opened Tutor
  import opened TutorLoop
  import S = Streaming

  datatype Progress = Progress(loop: Loop, events: seq<Event>)

  function One(reg: Registry, row: Row, p: Progress, choice: Choice): Progress {
    var out := Round(reg, row, p.loop, choice);
    Progress(out.loop, Logged(p.events, out.emitted))
  }

  /** A choice of the environment, and the announcement it leads to. */
  function Settle(reg: Registry, row: Row, p: Progress, choice: Choice): Progress {
    var q := One(reg, row, p, choice);
    if q.loop.pc.Deliver? || q.loop.pc.Suppress? then One(reg, row, q, Go) else q
  }

  function Drive(reg: Registry, row: Row, p: Progress, choices: seq<Choice>): Progress {
    if choices == [] then p
    else Settle(reg, row, Drive(reg, row, p, choices[..|choices| - 1]), choices[|choices| - 1])
  }

  /** The round has come to `r`. */
  function Come(l: Loop, r: S.RoundResult, pc: Pc): Progress {
    Progress(WithRound(l, r).(pc := pc), EventsOf(r.log))
  }

  function Items(items: seq<S.StreamItem>): seq<Choice> {
    seq(|items|, i requires 0 <= i < |items| => Item(items[i]))
  }

  lemma AnswerShows(reg: Registry, row: Row, l: Loop, text: string)
    requires !row.state.Cancelled? && l.pc.Asking? && text != ""
    ensures Settle(reg, row, Progress(l, []), Item(S.AnswerItem(text))) ==
            Progress(l.(chunks := l.chunks + text), [AnswerDelta(text)])
  {
  }

  lemma ItemSettles(reg: Registry, row: Row, l: Loop, state: S.RoundResult, item: S.StreamItem)
    requires !row.state.Cancelled?
    ensures Settle(reg, row, Come(l, state, Asking), Item(item)) == Come(l, S.Consume(state, item), Asking)
  {
    if item.AnswerItem? && item.text != "" {
      EventsStep(state.log, S.Shown(item.text));
      EventsApart(reg, row, Come(l, state, Asking), Item(item));
      AnswerShows(reg, row, Come(l, state, Asking).loop, item.text);
    }
  }

  lemma {:induction false} ItemsSettle(reg: Registry, row: Row, l: Loop, items: seq<S.StreamItem>)
    requires !row.state.Cancelled?
    ensures Drive(reg, row, Come(l, NOTHING, Asking), Items(items)) == Come(l, S.ConsumeAll(items), Asking)
  {
    if items != [] {
      var n := |items| - 1;
      ItemsSettle(reg, row, l, items[..n]);
      assert Items(items)[..n] == Items(items[..n]);
      ItemSettles(reg, row, l, S.ConsumeAll(items[..n]), items[n]);
    }
  }

  /** Ambiguous text becomes an answer, or is announced as suppressed, in one more step. */
  lemma EndMoves(reg: Registry, row: Row, l: Loop)
    requires l.pc.Asking? && l.narration != ""
    ensures var told := if l.calls == [] then S.Shown(l.narration) else S.Suppressed(|l.narration|);
            Settle(reg, row, Progress(l, []), StreamEnd) ==
            Progress(l.(pc := Post, chunks := l.chunks + if l.calls == [] then l.narration else ""), [EventOf(told)])
  {
    assert l.chunks + "" == l.chunks;
  }

  lemma EventsApart(reg: Registry, row: Row, p: Progress, choice: Choice)
    ensures var from_ := Settle(reg, row, Progress(p.loop, []), choice);
            Settle(reg, row, p, choice) == Progress(from_.loop, p.events + from_.events)
  {
    var out := Round(reg, row, p.loop, choice);
    var more := Round(reg, row, out.loop, Go);
    LoggedApart(p.events, out.emitted, more.emitted);
  }

  lemma LoggedApart(events: seq<Event>, first: Option<Event>, second: Option<Event>)
    ensures Logged(events, first) == events + Logged([], first)
    ensures Logged(Logged(events, first), second) == events + Logged(Logged([], first), second)
  {
  }

  lemma EndSettles(reg: Registry, row: Row, l: Loop, items: seq<S.StreamItem>)
    ensures Settle(reg, row, Come(l, S.ConsumeAll(items), Asking), StreamEnd) == Come(l, S.StreamRoute(items), Post)
  {
    var state := S.ConsumeAll(items);
    var here := Come(l, state, Asking);
    if state.narration != "" {
      EventsStep(state.log, S.Shown(state.narration));
      EventsStep(state.log, S.Suppressed(|state.narration|));
      EventsApart(reg, row, here, StreamEnd);
      EndMoves(reg, row, here.loop);
    }
  }

  /** Driven by a whole stream, the machine ends the round with the result of the stream route. */
  lemma StreamDriven(reg: Registry, row: Row, l: Loop, items: seq<S.StreamItem>)
    requires !row.state.Cancelled?
    ensures Drive(reg, row, Come(l, NOTHING, Asking), Items(items) + [StreamEnd]) == Come(l, S.StreamRoute(items), Post)
  {
    ItemsSettle(reg, row, l, items);
    EndSettles(reg, row, l, items);
    assert (Items(items) + [StreamEnd])[..|items|] == Items(items);
  }

  lemma AnswerMoves(reg: Registry, row: Row, l: Loop, r: S.Response)
    requires !row.state.Cancelled? && l.pc.Completing?
    ensures var visible := S.Visible(r);
            Settle(reg, row, Progress(l, []), Answer(r)) ==
            Progress(l.(pc := Post, chunks := l.chunks + if visible then r.text else "",
                        narration := if visible then "" else r.text, calls := r.calls, finish := r.finish),
                     if r.text == "" then []
                     else [if visible then AnswerDelta(r.text) else Activity("model_narration")])
  {
    assert l.chunks + "" == l.chunks;
  }

  lemma AnswerSettles(reg: Registry, row: Row, l: Loop, r: S.Response)
    requires !row.state.Cancelled?
    ensures Settle(reg, row, Come(l, NOTHING, Completing), Answer(r)) == Come(l, S.DirectRoute(r), Post)
  {
    AnswerMoves(reg, row, Come(l, NOTHING, Completing).loop, r);
    DirectEvents(r);
    assert forall text: string :: "" + text == text;
  }

  /** Driven by complete() alone, it ends the round with the result of the direct route. */
  lemma CompleteDriven(reg: Registry, row: Row, l: Loop, r: S.Response)
    requires !row.state.Cancelled?
    ensures Drive(reg, row, Come(l, NOTHING, Asking), [StreamMismatch, Answer(r)]) == Come(l, S.DirectRoute(r), Post)
  {
    var choices, start := [StreamMismatch, Answer(r)], Come(l, NOTHING, Asking);
    assert choices[..1] == [StreamMismatch] && [StreamMismatch][..0] == [];
    assert Drive(reg, row, start, []) == start;
    assert Drive(reg, row, start, [StreamMismatch]) == Come(l, NOTHING, Completing);
    AnswerSettles(reg, row, l, r);
  }

  /**
   A response sent as a stream leaves the loop and the log as the response
   itself does exactly when no call is an empty object and it is not text with
   no calls that is marked neither "auto" nor "answer".
   */
  lemma RoutesMeetIff(reg: Registry, row: Row, l: Loop, r: S.Response)
    requires !row.state.Cancelled?
    ensures Drive(reg, row, Come(l, NOTHING, Asking), Items(S.AsStream(r)) + [StreamEnd])
            == Drive(reg, row, Come(l, NOTHING, Asking), [StreamMismatch, Answer(r)]) <==>
            NO_KEYS !in r.calls
            && !(r.text != "" && r.calls == [] && r.visibility != "auto" && r.visibility != "answer")
  {
    StreamDriven(reg, row, l, S.AsStream(r));
    CompleteDriven(reg, row, l, r);
    S.RoutesAgreeIff(r);
    S.StreamOfResponse(r);
    S.TruthyAll(r.calls);
  }
}
