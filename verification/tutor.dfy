/**
 The tutor run protocol (tutor.py) for one run: its checkpoint row, its event
 log, and any number of executor loops, cancel callers and resume callers that
 act on them. Every store call is one atomic step; UPDATE and the re-read that
 follows it are two. Steps of different callers interleave freely, and the
 language model, the tools and the callers' inputs are arbitrary choices.
 */
module Tutor {
  import opened Options
  import opened Grants
  import opened History
  import opened Store
  import S = Streaming

  // ---- Oracles

  /** What the outside world contributes to one step. */
  datatype Choice =
    | Go                                           // nothing: a store step or a local step
    | Item(item: S.StreamItem)                       // the stream yields an item
    | StreamEnd                                    // the stream is exhausted
    | StreamMismatch                               // TypeError: fall back to complete()
    | Answer(response: S.Response)                   // complete() returns
    | Raise                                        // model, argument decoding or projector raises
    | ToolReturns(content: string, sources: bool)  // the handler returns
    | ToolRaises                                   // the handler raises

  // ---- The executor loop

  datatype Pc =
    | Reload | Announce | Enter                        // create_run or resume has committed
    | Top | Asking | Deliver(text: string, last: bool) | Suppress | Completing | Post
    | SaveContinuation
    | Finish | FinishRace | FinishReload | EmitResult | EmitDone
    | Batch(i: nat) | ToolRun(i: nat) | EmitSources(i: nat, content: string)
    | NoteTool(i: nat, content: string) | SaveTool(i: nat)
    | AskCas(i: nat) | WaitRace(i: nat) | WaitReload(i: nat) | EmitWait(i: nat)
    | Fail | FailCas(current: Row) | FailReload(won: bool) | EmitError | EmitErrorDone
    | Returned
    | Crashed                                          // an exception left the loop unhandled

  /** Local variables of `_run_loop` and `_call_round`; `seg` numbers the wait/resume segment. */
  datatype Loop = Loop(
    pc: Pc,
    ctx: Context,
    seg: nat,
    run: Row,
    messages: seq<Message>,
    granted: set<string>,
    accumulated: string,
    rounds: nat,
    continuations: nat,
    chunks: string,
    narration: string,
    calls: seq<Call>,
    finish: string)

  datatype Out = Out(row: Row, emitted: Option<Event>, loop: Loop, ran: Option<string>)

  const CONTINUE_PROMPT := "Continue exactly from where the previous response was truncated."

  function Goto(row: Row, l: Loop, pc: Pc): Out {
    Out(row, None, l.(pc := pc), None)
  }

  function Emit(row: Row, l: Loop, e: Event, pc: Pc): Out {
    Out(row, Some(e), l.(pc := pc), None)
  }

  function SnapshotOf(l: Loop, pending: Option<string>): Snapshot {
    Snapshot(l.messages, l.granted, l.ctx.overrides, pending)
  }

  /** The cancelled return of `_call_round`. */
  function Abandon(row: Row, l: Loop): Out {
    Out(row, None, l.(pc := Post, chunks := "", narration := "", calls := [], finish := "cancelled"), None)
  }

  /** From the commit of create_run or resume up to the loop. */
  function Prologue(reg: Registry, row: Row, l: Loop): Out {
    match l.pc
    case Reload => Goto(row, l.(run := row), Announce)
    case Announce => Emit(row, l, Activity("run_started_or_resumed"), Enter)
    case Enter =>
      // outside the error handler: what raises here leaves the run as it is
      var granted := if l.granted != {} then Ok(l.granted) else GrantedTools(reg, l.ctx);
      if granted.Err? || MaxContinuations(l.ctx.overrides).None? then
        Goto(row, l, Crashed)
      else
        Goto(row, l.(granted := granted.value, accumulated := l.run.text, rounds := 0, continuations := 0,
                     chunks := "", narration := "", calls := [], finish := ""), Top)
    case _ => Out(row, None, l, None)
  }

  function AfterItem(row: Row, l: Loop, item: S.StreamItem): Out {
    match item
    case AnswerItem(text) => if text == "" then Goto(row, l, Asking) else Goto(row, l, Deliver(text, false))
    case NarrationItem(text) => Goto(row, l.(narration := l.narration + text), Asking)
    case CallItem(call) => Goto(row, if call == NO_KEYS then l else l.(calls := l.calls + [call]), Asking)
    case DoneItem(finish) => Goto(row, l.(finish := finish), Asking)
  }

  function AfterStream(row: Row, l: Loop): Out {
    if l.narration == "" then Goto(row, l, Post)
    else if l.calls == [] then Goto(row, l, Deliver(l.narration, true))
    else Goto(row, l, Suppress)
  }

  function AfterResponse(row: Row, l: Loop, r: S.Response): Out {
    var l := l.(finish := r.finish, calls := r.calls, narration := if S.Visible(r) then "" else r.text);
    if r.text == "" then Goto(row, l, Post)
    else if S.Visible(r) then Goto(row, l, Deliver(r.text, true))
    else Goto(row, l, Suppress)
  }

  /** One model round. */
  function Round(reg: Registry, row: Row, l: Loop, choice: Choice): Out {
    match (l.pc, choice)
    case (Top, _) =>
      if l.rounds == reg.MaxRounds() + 1 then Goto(row, l, Fail)
      else if row.state.Cancelled? then Goto(row, l, Returned)
      else if !row.state.Running? then Goto(row, l, Fail)
      else
        Goto(row, l.(run := row, rounds := l.rounds + 1, chunks := "", narration := "", calls := [],
                     finish := ""), Asking)
    case (Asking, Item(item)) => if row.state.Cancelled? then Abandon(row, l) else AfterItem(row, l, item)
    case (Asking, StreamEnd) => AfterStream(row, l)
    case (Asking, StreamMismatch) => Goto(row, l, Completing)
    case (Asking, Raise) => Goto(row, l, Fail)
    case (Deliver(text, last), _) =>
      Emit(row, l.(chunks := l.chunks + text), AnswerDelta(text), if last then Post else Asking)
    case (Suppress, _) => Emit(row, l, Activity("model_narration"), Post)
    case (Completing, Answer(response)) =>
      if row.state.Cancelled? then Abandon(row, l) else AfterResponse(row, l, response)
    case (Completing, Raise) => Goto(row, l, Fail)
    case _ => Out(row, None, l, None)
  }

  /** After a round: accumulate, re-read, and decide how the run goes on. */
  function Decide(row: Row, l: Loop): Out
    requires MaxContinuations(l.ctx.overrides).Some?
  {
    var visible := l.chunks;
    var l := l.(accumulated := l.accumulated + l.chunks, chunks := "");
    if row.state.Cancelled? then
      Goto(row, l, Returned)
    else
      var l := l.(run := row);
      if l.calls == [] && l.finish == "length"
         && l.continuations < MaxContinuations(l.ctx.overrides).value then
        Goto(row, l.(continuations := l.continuations + 1,
                     messages := l.messages + [Plain("assistant", visible), Plain("user", CONTINUE_PROMPT)]),
             SaveContinuation)
      else if l.calls == [] then
        Goto(row, l, Finish)
      else
        Goto(row, l.(messages := l.messages + [ToolCalls(l.narration, l.calls)]), Batch(0))
  }

  /** update_snapshot: on success the re-read record is overwritten by the next load before it is used. */
  function Save(row: Row, l: Loop, then_: Pc): Out {
    if Matches(row, row.area, {Running}, l.run.version) then
      Goto(Snapshotted(row, SnapshotOf(l, None), Some(l.accumulated)), l, then_)
    else
      Goto(row, l, Fail)
  }

  function Conclude(row: Row, l: Loop): Out {
    match l.pc
    case SaveContinuation => Save(row, l, Top)
    case Finish =>
      if Matches(row, row.area, {Running}, l.run.version) then
        Goto(Transitioned(row, Completed, Some(l.accumulated), None, Some(SnapshotOf(l, None))), l, FinishReload)
      else
        Goto(row, l, FinishRace)
    case FinishRace =>
      if !Terminal(row.state) then Goto(row, l, Fail)
      else if row.state.Cancelled? then Goto(row, l, Returned)
      else Goto(row, l, EmitResult)
    case FinishReload => Goto(row, l, if row.state.Cancelled? then Returned else EmitResult)
    case EmitResult => Emit(row, l, ResultEvent, EmitDone)
    case EmitDone => Emit(row, l, Done(Completed), Returned)
    case _ => Out(row, None, l, None)
  }

  /** Program points at which a loop still indexes into its batch of calls. */
  predicate WellIndexed(l: Loop) {
    && (l.pc.Batch? ==> l.pc.i <= |l.calls|)
    && ((l.pc.ToolRun? || l.pc.NoteTool? || l.pc.SaveTool? || l.pc.AskCas? || l.pc.WaitRace?
         || l.pc.WaitReload? || l.pc.EmitWait? || l.pc.EmitSources?) ==> l.pc.i < |l.calls|)
    && (l.pc.Post? ==> MaxContinuations(l.ctx.overrides).Some?)
  }

  /** The handler of a granted tool starts only after the checks of ToolSpec.execute. */
  predicate ToolStarts(reg: Registry, l: Loop, name: string) {
    name in l.granted && name in reg.tools && ExecutionAllowed(reg.tools[name], l.ctx)
  }

  function BatchStep(reg: Registry, row: Row, l: Loop, choice: Choice): Out
    requires WellIndexed(l)
  {
    match (l.pc, choice)
    case (Batch(i), _) =>
      if i == |l.calls| then Goto(row, l, Top)
      else if row.state.Cancelled? then Goto(row, l, Returned)
      else
        var l := l.(run := row);
        // arguments that cannot be bound raise
        if choice.Raise? || l.calls[i].name !in l.granted then Goto(row, l, Fail)
        else Goto(row, l, if l.calls[i].name == ASK_USER then AskCas(i) else ToolRun(i))
    case (ToolRun(i), ToolReturns(content, sources)) =>
      if !ToolStarts(reg, l, l.calls[i].name) then Goto(row, l, Fail)
      else Out(row, None, l.(pc := if sources then EmitSources(i, content) else NoteTool(i, content)),
               Some(l.calls[i].name))
    case (ToolRun(i), ToolRaises) =>
      Out(row, None, l.(pc := Fail), if ToolStarts(reg, l, l.calls[i].name) then Some(l.calls[i].name) else None)
    case (ToolRun(i), Raise) => Goto(row, l, Fail)
    case (EmitSources(i, content), _) => Emit(row, l, Sources(l.calls[i].name), NoteTool(i, content))
    case (NoteTool(i, content), _) =>
      Emit(row, l.(messages := l.messages + [ToolResult(l.calls[i].id, l.calls[i].name, content)]),
           Activity("tool_result"), SaveTool(i))
    case (SaveTool(i), _) => Save(row, l, Batch(i + 1))
    case (AskCas(i), _) =>
      var call := l.calls[i];
      if Matches(row, row.area, {Running}, l.run.version) then
        Goto(Transitioned(row, Waiting, Some(l.accumulated), Some(Wait(call.arguments, call.id)),
                          Some(SnapshotOf(l, Some(call.id)))), l, WaitReload(i))
      else
        Goto(row, l, WaitRace(i))
    case (WaitRace(i), _) =>
      if !Terminal(row.state) then Goto(row, l, Fail)
      else Goto(row, l, if row.state.Cancelled? then Returned else EmitWait(i))
    case (WaitReload(i), _) => Goto(row, l, if row.state.Cancelled? then Returned else EmitWait(i))
    case (EmitWait(i), _) => Emit(row, l, WaitForInput(l.calls[i].id), Returned)
    case _ => Out(row, None, l, None)
  }

  /** `_fail`. */
  function Failing(row: Row, l: Loop): Out {
    match l.pc
    case Fail =>
      if row.state.Cancelled? then Goto(row, l, Returned)
      else if row.state.Running? then Goto(row, l, FailCas(row))
      else if row.state.Error? then Goto(row, l, EmitError)
      else Goto(row, l, Returned)
    case FailCas(current) =>
      if Matches(row, row.area, {Running}, current.version) then
        Goto(Transitioned(row, Error, Some(current.text), None, None), l, FailReload(true))
      else
        Goto(row, l, FailReload(false))
    case FailReload(_) => Goto(row, l, if row.state.Error? then EmitError else Returned)
    case EmitError => Emit(row, l, ErrorEvent, EmitErrorDone)
    case EmitErrorDone => Emit(row, l, Done(Error), Returned)
    case _ => Out(row, None, l, None)
  }

  function LoopStep(reg: Registry, row: Row, l: Loop, choice: Choice): Out
    requires WellIndexed(l)
  {
    match l.pc
    case Reload | Announce | Enter => Prologue(reg, row, l)
    case Top | Asking | Deliver(_, _) | Suppress | Completing => Round(reg, row, l, choice)
    case Post => Decide(row, l)
    case SaveContinuation | Finish | FinishRace | FinishReload | EmitResult | EmitDone => Conclude(row, l)
    case Batch(_) | ToolRun(_) | EmitSources(_, _) | NoteTool(_, _) | SaveTool(_) | AskCas(_) | WaitRace(_)
       | WaitReload(_) | EmitWait(_) => BatchStep(reg, row, l, choice)
    case Fail | FailCas(_) | FailReload(_) | EmitError | EmitErrorDone => Failing(row, l)
    case Returned | Crashed => Out(row, None, l, None)
  }

  // ---- Callers of cancel and resume

  datatype Actor =
    | Exec(loop: Loop)
    | CancelLook | CancelReady(prior: Row) | CancelNote | CancelDone
    | ResumeLook(ctx: Context, content: string) | ResumeReady(prior: Row, ctx: Context, content: string)
    | Gone

  // ---- The whole run

  datatype Segment = Segment(ctx: Context, grant: set<string>)

  datatype Executed = Executed(name: string, seg: nat)

  /**
   `base` is the history the turn started from; `holder` is the actor whose
   create_run or resume committed last, `settler` the one whose
   compare-and-swap made the row terminal. `segments` are the contexts of
   start and of each committed resume with the grants they yield, `executed`
   the tool handlers started.
   */
  datatype World = World(
    row: Row,
    base: seq<Message>,
    events: seq<Event>,
    actors: map<nat, Actor>,
    holder: nat,
    settler: Option<nat>,
    segments: seq<Segment>,
    executed: seq<Executed>)

  datatype Step =
    | Act(who: nat, choice: Choice)
    | CallCancel(who: nat)
    | CallResume(who: nat, ctx: Context, content: string)
    | Restart

  function NewLoop(ctx: Context, seg: nat, row: Row, messages: seq<Message>, granted: set<string>): Loop {
    Loop(Reload, ctx, seg, row, messages, granted, "", 0, 0, "", "", [], "")
  }

  /** create_run has committed for a turn whose grant `_granted_tools` has computed. */
  ghost predicate Init(reg: Registry, w: World) {
    && |w.segments| == 1
    && var Segment(ctx, granted) := w.segments[0];
    && GrantedTools(reg, ctx) == Ok(granted)
    && w.row == NewRow(w.row.area, w.row.session, ctx.selected,
                       Some(Snapshot(w.base, granted, ctx.overrides, None)))
    && w.actors == map[0 := Exec(NewLoop(ctx, 0, w.row, w.base, granted))]
    && w.holder == 0 && w.settler == None && w.events == [] && w.executed == []
  }

  function Logged(events: seq<Event>, emitted: Option<Event>): seq<Event> {
    if emitted.Some? then events + [emitted.value] else events
  }

  /** The world after the loop `who` has made the step `out`. */
  function Moved(w: World, who: nat, out: Out): World {
    w.(row := out.row,
       events := Logged(w.events, out.emitted),
       actors := w.actors[who := Exec(out.loop)],
       settler := if Terminal(out.row.state) && !Terminal(w.row.state) then Some(who) else w.settler,
       executed := if out.ran.Some? then w.executed + [Executed(out.ran.value, out.loop.seg)] else w.executed)
  }

  function ExecStep(reg: Registry, w: World, who: nat, choice: Choice): World
    requires who in w.actors && w.actors[who].Exec? && WellIndexed(w.actors[who].loop)
  {
    Moved(w, who, LoopStep(reg, w.row, w.actors[who].loop, choice))
  }

  function CancelStep(w: World, who: nat): World
    requires who in w.actors
  {
    match w.actors[who]
    case CancelLook =>
      w.(actors := w.actors[who := if w.row.Active() then CancelReady(w.row) else Gone])
    case CancelReady(prior) =>
      if Matches(w.row, w.row.area, {prior.state}, prior.version) then
        w.(row := Transitioned(w.row, Cancelled, Some(prior.text), None, None),
           actors := w.actors[who := CancelNote], settler := Some(who))
      else
        w.(actors := w.actors[who := Gone])
    case CancelNote =>
      w.(events := w.events + [Activity("run_cancelled")], actors := w.actors[who := CancelDone])
    case CancelDone =>
      w.(events := w.events + [Done(Cancelled)], actors := w.actors[who := Gone])
    case _ => w
  }

  /** The history a resumed segment starts from: the snapshot's plus the answer to the pending call. */
  function ResumedMessages(prior: Row, content: string): seq<Message>
    requires prior.snap.Some?
  {
    var pending := prior.snap.value.pending;
    var id := if pending.Some? && pending.value != "" then pending.value
              else if prior.wait.Some? then prior.wait.value.callId
              else "";
    prior.snap.value.messages + [ToolResult(id, ASK_USER, content)]
  }

  function ResumeStep(reg: Registry, w: World, who: nat): World
    requires who in w.actors
  {
    match w.actors[who]
    case ResumeLook(ctx, content) =>
      // the selected capability must still be available and the current grant computable
      if w.row.state.Waiting? && w.row.snap.Some?
         && (w.row.selected != "" ==> ctx.CapabilityAvailable(w.row.selected))
         && GrantedTools(reg, ctx).Ok?
      then w.(actors := w.actors[who := ResumeReady(w.row, ctx, content)])
      else w.(actors := w.actors[who := Gone])
    case ResumeReady(prior, ctx, content) =>
      if Matches(w.row, w.row.area, {Waiting}, prior.version)
         && prior.snap.Some? && GrantedTools(reg, ctx).Ok? then
        var current := GrantedTools(reg, ctx).value;
        var granted := prior.snap.value.granted * current;
        var messages := ResumedMessages(prior, content);
        var overrides :=
          if prior.snap.value.overrides.NoOverrides? then ctx.overrides else prior.snap.value.overrides;
        // the snapshot is written with the caller's context, the loop runs in its child
        w.(row := Transitioned(w.row, Running, Some(prior.text), None,
                               Some(Snapshot(messages, granted, ctx.overrides, None))),
           actors := w.actors[who := Exec(NewLoop(ctx.Child(w.row.selected, overrides), |w.segments|, w.row,
                                                  messages, granted))],
           holder := who,
           segments := w.segments + [Segment(ctx, current)])
      else
        w.(actors := w.actors[who := Gone])
    case _ => w
  }

  /** The process dies; the next one marks a run it finds RUNNING as ERROR, without events. */
  function RestartStep(w: World): World {
    var row := if w.row.state.Running? then Transitioned(w.row, Error, Some(w.row.text), None, None) else w.row;
    w.(row := row, actors := map[], settler := None)
  }

  /** Total: a step that does not apply changes nothing. */
  function Next(reg: Registry, w: World, s: Step): World {
    match s
    case Act(who, choice) =>
      if who !in w.actors then w
      else if w.actors[who].Exec? then
        if WellIndexed(w.actors[who].loop) then ExecStep(reg, w, who, choice) else w
      else if w.actors[who].ResumeLook? || w.actors[who].ResumeReady? then ResumeStep(reg, w, who)
      else CancelStep(w, who)
    case CallCancel(who) => if who in w.actors then w else w.(actors := w.actors[who := CancelLook])
    case CallResume(who, ctx, content) =>
      if who in w.actors then w else w.(actors := w.actors[who := ResumeLook(ctx, content)])
    case Restart => RestartStep(w)
  }

  /** The world after a schedule. */
  function After(reg: Registry, w: World, steps: seq<Step>): World {
    if steps == [] then w else Next(reg, After(reg, w, steps[..|steps| - 1]), steps[|steps| - 1])
  }
}
