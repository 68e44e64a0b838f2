/**
 The executor loop in its own form: `_run_loop`, `_call_round` and `_fail` of
 tutor.py with their local variables, nested loops and store calls, while other
 actors act between any two of its atomic steps. Every step it takes is proved
 to be the step of the machine in Tutor, so what is proved of that machine over
 all schedules is proved of this loop.
 */
module TutorLoop {
  import opened Options
  import opened Grants
  import opened History
  import opened Store
  import opened Tutor
  import opened TutorSafety
  import opened TutorRuns
  import S = Streaming

  // ---- What the outside world contributes

  datatype Ending = Exhausted | Mismatch | Broken

  /** One model round: stream items, how the stream ends, and complete()'s answer unless that raises. */
  datatype Reply = Reply(items: seq<S.StreamItem>, ending: Ending, response: Option<S.Response>)

  /** One tool call: its arguments do not bind, or its handler returns, raises, or returns what cannot be projected. */
  datatype Handled = Unbound | Returns(content: string, sources: bool) | Raises

  /** How a part of the loop body ends: with another round, by returning, or by an exception. */
  datatype Exit = Again | Leave | Throw

  /** A step some other actor makes while process and loop live on. */
  predicate ByOthers(s: Step, me: nat) {
    !s.Restart? && (s.Act? ==> s.who != me)
  }

  lemma {:induction false} OthersLeaveMe(reg: Registry, w: World, steps: seq<Step>, me: nat)
    requires me in w.actors
    requires forall s :: s in steps ==> ByOthers(s, me)
    ensures me in After(reg, w, steps).actors && After(reg, w, steps).actors[me] == w.actors[me]
  {
    if steps != [] {
      var n := |steps| - 1;
      OthersLeaveMe(reg, w, steps[..n], me);
      OtherLeavesMe(reg, After(reg, w, steps[..n]), steps[n], me);
    }
  }

  lemma OtherLeavesMe(reg: Registry, w: World, s: Step, me: nat)
    requires me in w.actors && ByOthers(s, me)
    ensures me in Next(reg, w, s).actors && Next(reg, w, s).actors[me] == w.actors[me]
  {
  }

  lemma {:induction false} AfterBoth(reg: Registry, w: World, first: seq<Step>, then_: seq<Step>)
    ensures After(reg, w, first + then_) == After(reg, After(reg, w, first), then_)
  {
    if then_ == [] {
      assert first + then_ == first;
    } else {
      var n := |then_| - 1;
      AfterBoth(reg, w, first, then_[..n]);
      assert (first + then_)[..|first + then_| - 1] == first + then_[..n];
    }
  }

  lemma AfterOne(reg: Registry, w: World, steps: seq<Step>, s: Step)
    ensures After(reg, w, steps + [s]) == Next(reg, After(reg, w, steps), s)
  {
    assert (steps + [s])[..|steps + [s]| - 1] == steps;
  }

  lemma EnterStep(reg: Registry, row: Row, l: Loop, grant: set<string>)
    requires l.pc.Enter? && MaxContinuations(l.ctx.overrides).Some?
    requires if l.granted != {} then grant == l.granted else GrantedTools(reg, l.ctx) == Ok(grant)
    ensures LoopStep(reg, row, l, Go) ==
            Goto(row, l.(granted := grant, accumulated := l.run.text, rounds := 0, continuations := 0,
                         chunks := "", narration := "", calls := [], finish := ""), Top)
  {
  }

  // ---- What the loop does, in values

  /** The events this loop logged and the rows it wrote, in order. */
  datatype Deeds = Deeds(events: seq<Event>, rows: seq<Row>) {
    function Log(events: seq<Event>): Deeds {
      this.(events := this.events + events)
    }

    function Write(row: Row): Deeds {
      this.(rows := rows + [row])
    }
  }

  lemma LogBoth(d: Deeds, first: seq<Event>, second: seq<Event>)
    ensures d.Log(first).Log(second) == d.Log(first + second)
    ensures d.Log([]) == d
  {
  }

  lemma LogTwo(d: Deeds, e: Event, f: Event)
    ensures Deeds(Logged(Deeds(Logged(d.events, Some(e)), d.rows).events, Some(f)), d.rows) == d.Log([e, f])
    ensures Deeds(Logged(d.events, Some(e)), d.rows).Log([f]) == d.Log([e, f])
  {
  }

  function EventOf(l: S.Logged): Event {
    if l.Shown? then AnswerDelta(l.text) else Activity("model_narration")
  }

  function EventsOf(log: seq<S.Logged>): seq<Event> {
    if log == [] then [] else EventsOf(log[..|log| - 1]) + [EventOf(log[|log| - 1])]
  }

  lemma EventsStep(log: seq<S.Logged>, l: S.Logged)
    ensures EventsOf(log + [l]) == EventsOf(log) + [EventOf(l)]
  {
    assert (log + [l])[..|log + [l]| - 1] == log;
  }

  lemma {:induction false} EventsBoth(first: seq<S.Logged>, second: seq<S.Logged>)
    ensures EventsOf(first + second) == EventsOf(first) + EventsOf(second)
  {
    if second == [] {
      assert first + second == first;
    } else {
      var front, last := second[..|second| - 1], second[|second| - 1];
      EventsBoth(first, front);
      EventsStep(first + front, last);
      assert first + second == (first + front) + [last];
    }
  }

  const NOTHING := S.RoundResult("", "", [], "", [])

  const CANCELLED := S.RoundResult("", "", [], "cancelled", [])

  /** What a round yields if the run is not cancelled meanwhile; None when it raises. */
  function RoundOf(reply: Reply): Option<S.RoundResult> {
    match reply.ending
    case Exhausted => Some(S.StreamRoute(reply.items))
    case Broken => None
    case Mismatch =>
      if reply.response.None? then None else Some(S.MixedRoute(reply.items, reply.response.value))
  }

  function WithRound(l: Loop, r: S.RoundResult): Loop {
    l.(chunks := r.chunks, narration := r.narration, calls := r.calls, finish := r.finish)
  }

  /** From `l` and `before`, the round has come to `r`, all of it logged, and nothing else was done. */
  predicate Got(r: S.RoundResult, l: Loop, before: Deeds, l': Loop, did: Deeds) {
    l' == WithRound(l, r).(pc := l'.pc) && did == before.Log(EventsOf(r.log))
  }

  /** The run was found cancelled: the round yields nothing, and nothing was written. */
  predicate Abandoned(l: Loop, before: Deeds, l': Loop, did: Deeds, row: Row) {
    l' == WithRound(l, CANCELLED).(pc := l'.pc) && did.rows == before.rows && row.state.Cancelled?
  }

  function Saved(l: Loop, pending: Option<string>): Option<Snapshot> {
    Some(Snapshot(l.messages, l.granted, l.ctx.overrides, pending))
  }

  /** One more row was written: answer and history as they stand. */
  predicate SavedOnce(l: Loop, rows: seq<Row>, rows': seq<Row>) {
    && |rows'| == |rows| + 1 && rows' == rows + [rows'[|rows|]]
    && rows'[|rows|].text == l.accumulated && rows'[|rows|].snap == Saved(l, None)
  }

  /** A cancel came first: nothing was done. */
  predicate CancelledFirst(before: Deeds, did: Deeds, row: Row) {
    did == before && row.state.Cancelled?
  }

  /** The run is completed by this loop, with answer and history as they stand, and announced. */
  predicate CompletedHere(l: Loop, before: Deeds, did: Deeds, row: Row) {
    && did == before.Write(row).Log([ResultEvent, Done(Completed)])
    && row.state.Completed? && row.text == l.accumulated && row.snap == Saved(l, None)
  }

  /** The run is in ERROR by this loop, and announced. */
  predicate FailedHere(before: Deeds, did: Deeds, row: Row) {
    did == before.Write(row).Log([ErrorEvent, Done(Error)]) && row.state.Error?
  }

  /** The run was suspended by this loop at `call`, and the user asked unless a cancel came in between. */
  predicate Suspended(l: Loop, call: Call, before: Deeds, did: Deeds, row: Row) {
    && |did.rows| == |before.rows| + 1
    && (var waiting := did.rows[|before.rows|];
        && did.rows == before.rows + [waiting]
        && waiting.state.Waiting? && waiting.text == l.accumulated
        && waiting.wait == Some(Wait(call.arguments, call.id)) && waiting.snap == Saved(l, Some(call.id)))
    && (did.events == before.events + [WaitForInput(call.id)] || (did.events == before.events && row.state.Cancelled?))
  }

  /** How a turn that nothing went wrong in has ended its hold on the run: cancelled, completed, or asking the user. */
  predicate Ended(did: Deeds, row: Row) {
    var n := |did.events|;
    || row.state.Cancelled?
    || (n >= 2 && did.events[n - 2..] == [ResultEvent, Done(Completed)] && row.state.Completed?)
    || (n >= 1 && did.events[n - 1].WaitForInput?)
  }

  /** How one that something went wrong in has. */
  predicate EndedInError(did: Deeds, row: Row) {
    var n := |did.events|;
    || row.state.Cancelled?
    || (n >= 2 && did.events[n - 2..] == [ErrorEvent, Done(Error)] && row.state.Error?)
  }

  lemma LastTwo(events: seq<Event>, e: Event, f: Event)
    ensures (events + [e, f])[|events + [e, f]| - 2..] == [e, f]
  {
  }

  /** The `j`-th message behind `base` answers the `j`-th call, a granted tool other than `ask_user`. */
  predicate Answers(l: Loop, base: nat, j: nat) {
    && base + j < |l.messages| && j < |l.calls|
    && l.calls[j].name != ASK_USER && l.calls[j].name in l.granted
    && var m := l.messages[base + j];
       m.ToolResult? && m.callId == l.calls[j].id && m.name == l.calls[j].name
  }

  /** The `j`-th row saved the history up to that answer, and the answer text. */
  predicate Persisted(l: Loop, rows: seq<Row>, base: nat, j: nat) {
    && j < |rows| && base + j < |l.messages|
    && rows[j].text == l.accumulated
    && rows[j].snap == Some(Snapshot(l.messages[..base + j + 1], l.granted, l.ctx.overrides, None))
  }

  /**
   The first `k` calls are answered, in order, none of them `ask_user`; each
   answer was persisted, with the answers before it, as soon as it was there.
   */
  ghost predicate Answered(l: Loop, rows: seq<Row>, k: nat, base: seq<Message>) {
    && base <= l.messages
    && (forall j :: 0 <= j < k ==> Answers(l, |base|, j))
    && forall j :: 0 <= j < k ==> Persisted(l, rows, |base|, j)
  }

  /** `Answered`, and nothing else in history or rows. */
  ghost predicate JustAnswered(l: Loop, rows: seq<Row>, k: nat, base: seq<Message>) {
    Answered(l, rows, k, base) && |l.messages| == |base| + k && |rows| == k
  }

  /** The batch stopped at call `k`: the run was suspended there or found cancelled, or something raised. */
  ghost predicate StoppedAt(l: Loop, rows: seq<Row>, k: nat, base: seq<Message>, exit: Exit, row: Row) {
    && k < |l.calls| && Answered(l, rows, k, base)
    && (exit == Leave ==>
          && |l.messages| == |base| + k
          && (|| (row.state.Cancelled? && |rows| == k)
              || (&& l.calls[k].name == ASK_USER && |rows| == k + 1 && rows[k].state.Waiting?
                  && rows[k].wait == Some(Wait(l.calls[k].arguments, l.calls[k].id)))))
    && (exit == Throw ==> |l.messages| <= |base| + k + 1 && |rows| == k)
  }

  /** Results and rows that come later leave the earlier ones as they are. */
  lemma StillAnswered(l: Loop, rows: seq<Row>, k: nat, base: seq<Message>, l': Loop, rows': seq<Row>)
    requires JustAnswered(l, rows, k, base)
    requires l.messages <= l'.messages && rows <= rows'
    requires l'.calls == l.calls && l'.granted == l.granted && l'.ctx == l.ctx && l'.accumulated == l.accumulated
    ensures Answered(l', rows', k, base)
  {
    forall j | 0 <= j < k
      ensures Answers(l', |base|, j) && Persisted(l', rows', |base|, j)
    {
      assert Answers(l, |base|, j) && Persisted(l, rows, |base|, j);
      assert l'.messages[|base| + j] == l.messages[|base| + j];
      assert l'.messages[..|base| + j + 1] == l.messages[..|base| + j + 1];
    }
  }

  lemma OneMoreRow(before: seq<Row>, rows: seq<Row>, rows': seq<Row>)
    requires before <= rows && |rows'| == |rows| + 1 && rows' == rows + [rows'[|rows|]]
    ensures before <= rows' && rows'[|before|..] == rows[|before|..] + [rows'[|rows|]]
  {
  }

  /** One more answer, noted and persisted. */
  lemma AnswerOneMore(l: Loop, rows: seq<Row>, k: nat, base: seq<Message>, l': Loop, content: string, row: Row)
    requires JustAnswered(l, rows, k, base) && k < |l.calls|
    requires l.calls[k].name != ASK_USER && l.calls[k].name in l.granted
    requires l' == l.(run := l'.run, pc := l'.pc,
                      messages := l.messages + [ToolResult(l.calls[k].id, l.calls[k].name, content)])
    requires row.text == l'.accumulated && row.snap == Saved(l', None)
    ensures JustAnswered(l', rows + [row], k + 1, base)
  {
    StillAnswered(l, rows, k, base, l', rows + [row]);
    assert l'.messages[..|base| + k + 1] == l'.messages;
    assert Answers(l', |base|, k) && Persisted(l', rows + [row], |base|, k);
  }

  // ---- What holds of the worlds the loop runs in

  lemma LoopFacts(reg: Registry, origin: World, trace: seq<Step>, me: nat, l: Loop)
    requires WorldOk(reg, origin)
    requires var w := After(reg, origin, trace); me in w.actors && w.actors[me] == Exec(l) && Holding(l.pc)
    ensures OwnOk(After(reg, origin, trace).row, l)
  {
    Progress(reg, origin, trace);
    var w := After(reg, origin, trace);
    assert ActorOk(reg, w, me, w.actors[me]);
  }

  lemma TerminalStays(reg: Registry, origin: World, first: seq<Step>, more: seq<Step>)
    requires WorldOk(reg, origin)
    ensures var w := After(reg, origin, first);
            Terminal(w.row.state) ==> After(reg, w, more).row == w.row
  {
    Progress(reg, origin, first);
    Progress(reg, After(reg, origin, first), more);
  }

  /** One step of the loop `me`, then the others': `me` stands where it went, and a run it ended stays ended. */
  lemma StepAndOthers(reg: Registry, origin: World, trace: seq<Step>, me: nat, choice: Choice, out: Out,
                      theirs: seq<Step>)
    requires WorldOk(reg, origin) && forall s :: s in theirs ==> ByOthers(s, me)
    requires var w := After(reg, origin, trace);
             me in w.actors && w.actors[me].Exec? && WellIndexed(w.actors[me].loop) &&
             LoopStep(reg, w.row, w.actors[me].loop, choice) == out
    ensures var w := Moved(After(reg, origin, trace), me, out);
            var w' := After(reg, w, theirs);
            && w' == After(reg, origin, trace + [Act(me, choice)] + theirs)
            && me in w'.actors && w'.actors[me] == Exec(out.loop)
            && (Terminal(out.row.state) ==> w'.row == out.row)
  {
    AfterOne(reg, origin, trace, Act(me, choice));
    OthersLeaveMe(reg, Moved(After(reg, origin, trace), me, out), theirs, me);
    AfterBoth(reg, origin, trace + [Act(me, choice)], theirs);
    TerminalStays(reg, origin, trace + [Act(me, choice)], theirs);
  }

  // ---- The loop

  class TurnLoop {
    const reg: Registry
    const me: nat
    const ctx: Context
    /** What the others do after this loop's k-th atomic step. */
    const others: nat -> seq<Step>
    const replies: nat -> Reply
    /** By round and position in the batch. */
    const handlers: (nat, nat) -> Handled

    /** Row, log and the other actors. */
    var world: World
    var clock: nat
    /** The locals of `_run_loop` and `_call_round`, and the point the loop stands at. */
    var here: Loop
    ghost const origin: World
    ghost var trace: seq<Step>
    ghost var did: Deeds

    constructor (reg: Registry, world: World, me: nat, others: nat -> seq<Step>,
                 replies: nat -> Reply, handlers: (nat, nat) -> Handled)
      requires WorldOk(reg, world)
      requires me in world.actors && world.actors[me].Exec? && world.actors[me].loop.pc.Reload?
      requires forall k, s :: s in others(k) ==> ByOthers(s, me)
      ensures At(Reload) && this.reg == reg && this.me == me && this.world == world && origin == world
      ensures trace == [] && did == Deeds([], []) && here == world.actors[me].loop && ctx == here.ctx
    {
      this.reg, this.me, this.ctx := reg, me, world.actors[me].loop.ctx;
      this.others, this.replies, this.handlers := others, replies, handlers;
      this.world, clock, here := world, 0, world.actors[me].loop;
      origin, trace, did := world, [], Deeds([], []);
    }

    ghost predicate Valid()
      reads this
    {
      && WorldOk(reg, origin)
      && world == After(reg, origin, trace)
      && forall k, s :: s in others(k) ==> ByOthers(s, me)
    }

    /** The machine's loop stands at `pc` with this loop's locals. */
    ghost predicate At(pc: Pc)
      reads this
    {
      && Valid()
      && me in world.actors && world.actors[me] == Exec(here) && here.pc == pc && here.ctx == ctx && WellIndexed(here)
      && (pc.Reload? || pc.Announce? || pc.Enter? || pc.Crashed? || MaxContinuations(ctx.overrides).Some?)
    }

    ghost predicate Stands(exit: Exit)
      reads this
    {
      match exit
      case Again => At(Top)
      case Leave => At(Returned) && Ended(did, world.row)
      case Throw => At(Fail)
    }

    /** Call `i` of the round cannot be answered: it does not bind, is not granted, or its tool may not run or fails. */
    ghost predicate Faulty(l: Loop, i: nat) {
      && i < |l.calls|
      && var name := l.calls[i].name;
         || handlers(l.rounds, i).Unbound? || name !in l.granted
         || (name != ASK_USER && (!handlers(l.rounds, i).Returns? || !ToolStarts(reg, l, name)))
    }

    /** Something in the batch of `l` has gone wrong, or the run was cancelled. */
    ghost predicate BatchFails(l: Loop, row: Row) {
      row.state.Cancelled? || exists i :: Faulty(l, i)
    }

    /** Why a turn may fail: the model's answer or one of the calls in it, or a cancel. */
    ghost predicate RoundFails(l: Loop, row: Row) {
      BatchFails(l, row) || RoundOf(replies(l.rounds)).None?
    }

    /** What went wrong does not depend on what the loop has done since. */
    lemma StillFails(l: Loop, row: Row, l': Loop, row': Row)
      requires RoundFails(l, row) && (row.state.Cancelled? ==> row'.state.Cancelled?)
      requires l'.calls == l.calls && l'.rounds == l.rounds && l'.granted == l.granted && l'.ctx == l.ctx
      ensures RoundFails(l', row')
    {
      if i :| Faulty(l, i) {
        assert Faulty(l', i);
      }
    }

    /** While the loop holds the run it sees it RUNNING, as it loaded it, or CANCELLED. */
    lemma Owns(pc: Pc)
      requires At(pc) && Holding(pc)
      ensures OwnOk(world.row, here)
    {
      LoopFacts(reg, origin, trace, me, here);
    }

    /** One atomic step of this loop, then whatever the others do before its next one. */
    method Commit(choice: Choice, row: Row, emitted: Option<Event>, ran: Option<string>, next: Pc)
      requires Valid() && me in world.actors && world.actors[me].Exec? && WellIndexed(world.actors[me].loop)
      requires LoopStep(reg, world.row, world.actors[me].loop, choice) == Out(row, emitted, here.(pc := next), ran)
      requires here.ctx == ctx && WellIndexed(here.(pc := next))
      requires next.Announce? || next.Enter? || next.Crashed? || MaxContinuations(ctx.overrides).Some?
      modifies `world, `clock, `here, `trace, `did
      ensures At(next) && here == old(here).(pc := next) && old(trace) + [Act(me, choice)] <= trace
      ensures did == Deeds(Logged(old(did).events, emitted),
                           if row == old(world).row then old(did).rows else old(did).rows + [row])
      ensures Terminal(row.state) ==> world.row == row
    {
      var out, theirs := Out(row, emitted, here.(pc := next), ran), others(clock);
      StepAndOthers(reg, origin, trace, me, choice, out, theirs);
      did := Deeds(Logged(did.events, emitted), if row == world.row then did.rows else did.rows + [row]);
      here := out.loop;
      world := After(reg, Moved(world, me, out), theirs);
      trace, clock := trace + [Act(me, choice)] + theirs, clock + 1;
    }

    /** A step that reads the store, or nothing, and moves on. */
    method Proceed(next: Pc)
      requires Valid() && me in world.actors && world.actors[me].Exec? && WellIndexed(world.actors[me].loop)
      requires LoopStep(reg, world.row, world.actors[me].loop, Go) == Out(world.row, None, here.(pc := next), None)
      requires here.ctx == ctx && WellIndexed(here.(pc := next))
      requires next.Announce? || next.Enter? || next.Crashed? || MaxContinuations(ctx.overrides).Some?
      modifies `world, `clock, `here, `trace, `did
      ensures At(next) && here == old(here).(pc := next) && did == old(did)
      ensures Terminal(old(world).row.state) ==> world.row == old(world).row
    {
      Commit(Go, world.row, None, None, next);
    }

    // ---- _fail

    /** `_fail`: what it does with a run it finds RUNNING, in ERROR, or in any other state. */
    method HandleFailure()
      requires At(Fail)
      modifies `world, `clock, `here, `trace, `did
      ensures At(Returned) && here == old(here).(pc := Returned)
      ensures old(world).row.state.Running? ==>
                FailedHere(old(did), did, world.row) || CancelledFirst(old(did), did, world.row)
      ensures old(world).row.state.Error? ==>
                did == old(did).Log([ErrorEvent, Done(Error)]) && world.row == old(world).row
      ensures !old(world).row.state.Running? && !old(world).row.state.Error? ==> did == old(did)
      ensures old(world).row.state.Cancelled? ==> world.row == old(world).row
    {
      var current := world.row;
      FailStep(reg, current, here);
      if current.state.Cancelled? {
        Proceed(Returned);
      } else if current.state.Running? {
        Proceed(FailCas(current));
        MarkError(current);
      } else if current.state.Error? {
        Proceed(EmitError);
        ReportError();
      } else {
        Proceed(Returned);
      }
    }

    method MarkError(current: Row)
      requires At(FailCas(current))
      modifies `world, `clock, `here, `trace, `did
      ensures At(Returned) && here == old(here).(pc := Returned)
      ensures FailedHere(old(did), did, world.row) || CancelledFirst(old(did), did, world.row)
    {
      var row := world.row;
      ErrorStep(reg, row, here, current);
      if Matches(row, row.area, {Running}, current.version) {
        Commit(Go, Transitioned(row, Error, Some(current.text), None, None), None, None, FailReload(true));
        AfterMark(true);
      } else {
        Proceed(FailReload(false));
        Owns(FailReload(false));
        AfterMark(false);
      }
    }

    method AfterMark(won: bool)
      requires At(FailReload(won))
      modifies `world, `clock, `here, `trace, `did
      ensures At(Returned) && here == old(here).(pc := Returned)
      ensures did == if old(world).row.state.Error? then old(did).Log([ErrorEvent, Done(Error)]) else old(did)
      ensures Terminal(old(world).row.state) ==> world.row == old(world).row
    {
      if world.row.state.Error? {
        Proceed(EmitError);
        ReportError();
      } else {
        Proceed(Returned);
      }
    }

    method ReportError()
      requires At(EmitError)
      modifies `world, `clock, `here, `trace, `did
      ensures At(Returned) && here == old(here).(pc := Returned) && did == old(did).Log([ErrorEvent, Done(Error)])
      ensures Terminal(old(world).row.state) ==> world.row == old(world).row
    {
      LogTwo(did, ErrorEvent, Done(Error));
      Commit(Go, world.row, Some(ErrorEvent), None, EmitErrorDone);
      ReportErrorDone();
    }

    method ReportErrorDone()
      requires At(EmitErrorDone)
      modifies `world, `clock, `here, `trace, `did
      ensures At(Returned) && here == old(here).(pc := Returned) && did == old(did).Log([Done(Error)])
      ensures Terminal(old(world).row.state) ==> world.row == old(world).row
    {
      Commit(Go, world.row, Some(Done(Error)), None, Returned);
    }

    // ---- _call_round

    method AbandonRound(choice: Choice)
      requires (At(Asking) && choice.Item?) || (At(Completing) && choice.Answer?)
      requires world.row.state.Cancelled?
      modifies `world, `clock, `here, `trace, `did
      ensures At(Post) && Abandoned(old(here), old(did), here, did, world.row)
    {
      AbandonStep(reg, world.row, here, choice);
      here := WithRound(here, CANCELLED);
      Commit(choice, world.row, None, None, Post);
    }

    /** One item of the stream; true when the run was found cancelled. */
    method TakeItem(item: S.StreamItem, ghost r: S.RoundResult, ghost start: Loop, ghost before: Deeds)
      returns (cancelled: bool)
      requires At(Asking) && Got(r, start, before, here, did)
      modifies `world, `clock, `here, `trace, `did
      ensures cancelled ==> At(Post) && Abandoned(start, before, here, did, world.row)
      ensures !cancelled ==> At(Asking) && Got(S.Consume(r, item), start, before, here, did)
    {
      cancelled := world.row.state.Cancelled?;
      if cancelled {
        AbandonRound(Item(item));
      } else {
        ReadItem(item);
        if item.AnswerItem? && item.text != "" {
          EventsStep(r.log, S.Shown(item.text));
          LogBoth(before, EventsOf(r.log), [AnswerDelta(item.text)]);
        }
      }
    }

    method ReadItem(item: S.StreamItem)
      requires At(Asking) && !world.row.state.Cancelled?
      modifies `world, `clock, `here, `trace, `did
      ensures At(Asking)
      ensures match item
              case AnswerItem(text) =>
                && here == old(here).(chunks := old(here).chunks + text)
                && did == old(did).Log(if text == "" then [] else [AnswerDelta(text)])
              case NarrationItem(text) =>
                here == old(here).(narration := old(here).narration + text) && did == old(did)
              case CallItem(call) =>
                && here == old(here).(calls := old(here).calls + if call == NO_KEYS then [] else [call])
                && did == old(did)
              case DoneItem(reason) => here == old(here).(finish := reason) && did == old(did)
    {
      match item {
        case AnswerItem(text) =>
          ReadAnswer(text);
        case NarrationItem(text) =>
          here := here.(narration := here.narration + text);
          Commit(Item(item), world.row, None, None, Asking);
        case CallItem(call) =>
          if call != NO_KEYS {
            here := here.(calls := here.calls + [call]);
          }
          Commit(Item(item), world.row, None, None, Asking);
        case DoneItem(reason) =>
          here := here.(finish := reason);
          Commit(Item(item), world.row, None, None, Asking);
      }
    }

    method ReadAnswer(text: string)
      requires At(Asking) && !world.row.state.Cancelled?
      modifies `world, `clock, `here, `trace, `did
      ensures At(Asking) && here == old(here).(chunks := old(here).chunks + text)
      ensures did == old(did).Log(if text == "" then [] else [AnswerDelta(text)])
    {
      if text == "" {
        Commit(Item(S.AnswerItem(text)), world.row, None, None, Asking);
        assert old(here).chunks + "" == old(here).chunks;
      } else {
        Commit(Item(S.AnswerItem(text)), world.row, None, None, Deliver(text, false));
        Show(text, false);
      }
    }

    method Show(text: string, last: bool)
      requires At(Deliver(text, last))
      modifies `world, `clock, `here, `trace, `did
      ensures var next := if last then Post else Asking;
              At(next) && here == old(here).(chunks := old(here).chunks + text, pc := next)
      ensures did == old(did).Log([AnswerDelta(text)])
    {
      here := here.(chunks := here.chunks + text);
      Commit(Go, world.row, Some(AnswerDelta(text)), None, if last then Post else Asking);
    }

    method NoteSuppressed()
      requires At(Suppress)
      modifies `world, `clock, `here, `trace, `did
      ensures At(Post) && here == old(here).(pc := Post) && did == old(did).Log([Activity("model_narration")])
    {
      Commit(Go, world.row, Some(Activity("model_narration")), None, Post);
    }

    /** After the stream: ambiguous text is an answer if no tool call came. */
    method EndStream()
      requires At(Asking)
      modifies `world, `clock, `here, `trace, `did
      ensures At(Post)
      ensures var shown := if old(here).calls == [] then old(here).narration else "";
              here == old(here).(chunks := old(here).chunks + shown, pc := Post)
      ensures did == old(did).Log(if old(here).narration == "" then []
                                  else if old(here).calls == [] then [AnswerDelta(old(here).narration)]
                                  else [Activity("model_narration")])
    {
      assert here.chunks + "" == here.chunks;
      LogBoth(did, [], []);
      LeaveExhausted();
      if here.narration != "" {
        if here.calls == [] {
          Show(here.narration, true);
        } else {
          NoteSuppressed();
        }
      }
    }

    method LeaveExhausted()
      requires At(Asking)
      modifies `world, `clock, `here, `trace, `did
      ensures var next := if here.narration == "" then Post
                          else if here.calls == [] then Deliver(here.narration, true) else Suppress;
              At(next) && here == old(here).(pc := next) && did == old(did)
    {
      Commit(StreamEnd, world.row, None, None,
             if here.narration == "" then Post
             else if here.calls == [] then Deliver(here.narration, true) else Suppress);
    }

    /** The complete() path. */
    method TakeResponse(response: S.Response)
      requires At(Completing) && !world.row.state.Cancelled?
      modifies `world, `clock, `here, `trace, `did
      ensures At(Post)
      ensures var direct := S.DirectRoute(response);
              && here == WithRound(old(here), direct).(chunks := old(here).chunks + direct.chunks, pc := Post)
              && did == old(did).Log(EventsOf(direct.log))
    {
      DirectEvents(response);
      LogBoth(did, [], []);
      assert here.chunks + "" == here.chunks;
      AcceptResponse(response);
      if response.text != "" {
        if S.Visible(response) {
          Show(response.text, true);
        } else {
          NoteSuppressed();
        }
      }
    }

    method AcceptResponse(response: S.Response)
      requires At(Completing) && !world.row.state.Cancelled?
      modifies `world, `clock, `here, `trace, `did
      ensures var next := if response.text == "" then Post
                          else if S.Visible(response) then Deliver(response.text, true) else Suppress;
              && At(next) && did == old(did)
              && here == old(here).(finish := response.finish, calls := response.calls, pc := next,
                                    narration := if S.Visible(response) then "" else response.text)
    {
      here := here.(finish := response.finish, calls := response.calls,
                    narration := if S.Visible(response) then "" else response.text);
      Commit(Answer(response), world.row, None, None,
             if response.text == "" then Post
             else if S.Visible(response) then Deliver(response.text, true) else Suppress);
    }

    /** `_call_round`; false when it raised. */
    method CallRound(reply: Reply) returns (ok: bool)
      requires At(Asking) && here == WithRound(here, NOTHING)
      modifies `world, `clock, `here, `trace, `did
      ensures if ok then At(Post) else At(Fail)
      ensures ok ==> || (RoundOf(reply).Some? && Got(RoundOf(reply).value, old(here), old(did), here, did))
                     || Abandoned(old(here), old(did), here, did, world.row)
      ensures !ok ==> RoundOf(reply).None? && did.rows == old(did).rows && SameButRound(old(here), here)
    {
      LogBoth(did, [], []);
      for i := 0 to |reply.items|
        invariant At(Asking) && Got(S.ConsumeAll(reply.items[..i]), old(here), old(did), here, did)
      {
        assert reply.items[..i + 1][..i] == reply.items[..i];
        var cancelled := TakeItem(reply.items[i], S.ConsumeAll(reply.items[..i]), old(here), old(did));
        if cancelled {
          return true;
        }
      }
      assert reply.items[..|reply.items|] == reply.items;
      ok := EndRound(reply, old(here), old(did));
    }

    /** How the stream ends: exhausted, broken, or with a signature mismatch that makes way for complete(). */
    method EndRound(reply: Reply, ghost start: Loop, ghost before: Deeds) returns (ok: bool)
      requires At(Asking) && Got(S.ConsumeAll(reply.items), start, before, here, did)
      modifies `world, `clock, `here, `trace, `did
      ensures if ok then At(Post) else At(Fail)
      ensures ok ==> || (RoundOf(reply).Some? && Got(RoundOf(reply).value, start, before, here, did))
                     || Abandoned(start, before, here, did, world.row)
      ensures !ok ==> RoundOf(reply).None? && did.rows == before.rows && SameButRound(start, here)
    {
      match reply.ending {
        case Exhausted =>
          Exhaust(reply.items, start, before);
          ok := true;
        case Broken =>
          BreakOff(reply, start, before);
          ok := false;
        case Mismatch =>
          ok := FallBack(reply.response, reply.items, start, before);
      }
    }

    /** complete() takes over from a stream whose signature does not fit. */
    method FallBack(response: Option<S.Response>, ghost items: seq<S.StreamItem>, ghost start: Loop,
                    ghost before: Deeds)
      returns (ok: bool)
      requires At(Asking) && Got(S.ConsumeAll(items), start, before, here, did)
      modifies `world, `clock, `here, `trace, `did
      ensures if ok then At(Post) else At(Fail)
      ensures ok <==> response.Some?
      ensures ok ==> || Got(S.MixedRoute(items, response.value), start, before, here, did)
                     || Abandoned(start, before, here, did, world.row)
      ensures !ok ==> did.rows == before.rows && SameButRound(start, here)
    {
      LeaveStream();
      ok := AskComplete(response, items, start, before);
    }

    /** The stream raised. */
    method BreakOff(ghost reply: Reply, ghost start: Loop, ghost before: Deeds)
      requires At(Asking) && Got(S.ConsumeAll(reply.items), start, before, here, did) && reply.ending.Broken?
      modifies `world, `clock, `here, `trace, `did
      ensures At(Fail) && RoundOf(reply).None? && did.rows == before.rows && SameButRound(start, here)
    {
      Commit(Raise, world.row, None, None, Fail);
    }

    method LeaveStream()
      requires At(Asking)
      modifies `world, `clock, `here, `trace, `did
      ensures At(Completing) && here == old(here).(pc := Completing) && did == old(did)
    {
      Commit(StreamMismatch, world.row, None, None, Completing);
    }

    /** complete() raised. */
    method RaiseComplete()
      requires At(Completing)
      modifies `world, `clock, `here, `trace, `did
      ensures At(Fail) && here == old(here).(pc := Fail) && did == old(did)
    {
      Commit(Raise, world.row, None, None, Fail);
    }

    method Exhaust(ghost items: seq<S.StreamItem>, ghost start: Loop, ghost before: Deeds)
      requires At(Asking) && Got(S.ConsumeAll(items), start, before, here, did)
      modifies `world, `clock, `here, `trace, `did
      ensures At(Post) && Got(S.StreamRoute(items), start, before, here, did)
    {
      ghost var r := S.ConsumeAll(items);
      StreamEvents(items, before);
      assert r.chunks + "" == r.chunks;
      EndStream();
    }

    method AskComplete(response: Option<S.Response>, ghost items: seq<S.StreamItem>, ghost start: Loop,
                       ghost before: Deeds)
      returns (ok: bool)
      requires At(Completing) && Got(S.ConsumeAll(items), start, before, here, did)
      modifies `world, `clock, `here, `trace, `did
      ensures if ok then At(Post) else At(Fail)
      ensures ok <==> response.Some?
      ensures ok ==> || Got(S.MixedRoute(items, response.value), start, before, here, did)
                     || Abandoned(start, before, here, did, world.row)
      ensures !ok ==> did.rows == before.rows && SameButRound(start, here)
    {
      ok := response.Some?;
      if !ok {
        RaiseComplete();
      } else if world.row.state.Cancelled? {
        AbandonRound(Answer(response.value));
      } else {
        GetMixed(response.value, items, start, before);
      }
    }

    method GetMixed(response: S.Response, ghost items: seq<S.StreamItem>, ghost start: Loop, ghost before: Deeds)
      requires At(Completing) && Got(S.ConsumeAll(items), start, before, here, did) && !world.row.state.Cancelled?
      modifies `world, `clock, `here, `trace, `did
      ensures At(Post) && Got(S.MixedRoute(items, response), start, before, here, did)
    {
      ghost var shown, direct := S.ConsumeAll(items), S.DirectRoute(response);
      EventsBoth(shown.log, direct.log);
      LogBoth(before, EventsOf(shown.log), EventsOf(direct.log));
      TakeResponse(response);
    }

    // ---- Writes under the version last loaded

    /** update_snapshot after a cut-off answer */
    method SaveAnswer() returns (ok: bool)
      requires At(SaveContinuation)
      modifies `world, `clock, `here, `trace, `did
      ensures ok ==>
                && At(Top) && here == old(here).(pc := Top)
                && did.events == old(did).events && SavedOnce(here, old(did).rows, did.rows)
      ensures !ok ==> At(Fail) && here == old(here).(pc := Fail) && did == old(did) && world.row.state.Cancelled?
    {
      var row := world.row;
      ok := Matches(row, row.area, {Running}, here.run.version);
      if ok {
        Commit(Go, Snapshotted(row, SnapshotOf(here, None), Some(here.accumulated)), None, None, Top);
      } else {
        Owns(SaveContinuation);
        RefusedIffCancelled(world.row, here);
        Proceed(Fail);
      }
    }

    /** update_snapshot after a tool result */
    method SaveResult(i: nat) returns (ok: bool)
      requires At(SaveTool(i))
      modifies `world, `clock, `here, `trace, `did
      ensures ok ==>
                && At(Batch(i + 1)) && here == old(here).(pc := Batch(i + 1))
                && SavedOnce(here, old(did).rows, did.rows)
      ensures !ok ==> At(Fail) && here == old(here).(pc := Fail) && did == old(did) && world.row.state.Cancelled?
    {
      ok := Matches(world.row, world.row.area, {Running}, here.run.version);
      if ok {
        WriteResult(i);
      } else {
        Owns(SaveTool(i));
        RefusedIffCancelled(world.row, here);
        Proceed(Fail);
      }
    }

    method WriteResult(i: nat)
      requires At(SaveTool(i)) && Matches(world.row, world.row.area, {Running}, here.run.version)
      modifies `world, `clock, `here, `trace, `did
      ensures At(Batch(i + 1)) && here == old(here).(pc := Batch(i + 1))
      ensures SavedOnce(here, old(did).rows, did.rows)
    {
      SaveStep(reg, world.row, here, i);
      Commit(Go, SavedRow(world.row, here), None, None, Batch(i + 1));
    }

    /** The last answer: complete the run, or learn that it was cancelled. */
    method Complete() returns (exit: Exit)
      requires At(Finish)
      modifies `world, `clock, `here, `trace, `did
      ensures exit == Leave && Stands(exit) && here == old(here).(pc := Returned)
      ensures CompletedHere(here, old(did), did, world.row) || CancelledFirst(old(did), did, world.row)
    {
      var row := world.row;
      if Matches(row, row.area, {Running}, here.run.version) {
        WriteCompleted();
        exit := Leave;
      } else {
        Proceed(FinishRace);
        Owns(FinishRace);
        exit := LoseFinish();
      }
    }

    method WriteCompleted()
      requires At(Finish) && Matches(world.row, world.row.area, {Running}, here.run.version)
      modifies `world, `clock, `here, `trace, `did
      ensures At(Returned) && here == old(here).(pc := Returned)
      ensures CompletedHere(here, old(did), did, world.row) && Ended(did, world.row)
    {
      Commit(Go, Transitioned(world.row, Completed, Some(here.accumulated), None, Some(SnapshotOf(here, None))),
             None, None, FinishReload);
      ReportResult(FinishReload);
      LastTwo(old(did).events, ResultEvent, Done(Completed));
    }

    method LoseFinish() returns (exit: Exit)
      requires At(FinishRace)
      modifies `world, `clock, `here, `trace, `did
      ensures old(world).row.state.Cancelled? ==>
                && exit == Leave && here == old(here).(pc := Returned)
                && CancelledFirst(old(did), did, world.row) && Ended(did, world.row)
      ensures exit != Again && (exit == Leave ==> At(Returned)) && (exit == Throw ==> At(Fail))
    {
      if Terminal(world.row.state) {
        ReportResult(FinishRace);
        exit := Leave;
      } else {
        Proceed(Fail);
        exit := Throw;
      }
    }

    method ReportResult(at: Pc)
      requires At(at) && (at.FinishReload? || at.FinishRace?) && Terminal(world.row.state)
      modifies `world, `clock, `here, `trace, `did
      ensures At(Returned) && here == old(here).(pc := Returned) && world.row == old(world).row
      ensures did == if old(world).row.state.Cancelled? then old(did) else old(did).Log([ResultEvent, Done(Completed)])
    {
      if world.row.state.Cancelled? {
        Proceed(Returned);
      } else {
        Proceed(EmitResult);
        EmitResultAndDone();
      }
    }

    method EmitResultAndDone()
      requires At(EmitResult)
      modifies `world, `clock, `here, `trace, `did
      ensures At(Returned) && here == old(here).(pc := Returned)
      ensures did == old(did).Log([ResultEvent, Done(Completed)])
      ensures Terminal(old(world).row.state) ==> world.row == old(world).row
    {
      LogTwo(did, ResultEvent, Done(Completed));
      Commit(Go, world.row, Some(ResultEvent), None, EmitDone);
      ReportDone();
    }

    method ReportDone()
      requires At(EmitDone)
      modifies `world, `clock, `here, `trace, `did
      ensures At(Returned) && here == old(here).(pc := Returned) && did == old(did).Log([Done(Completed)])
      ensures Terminal(old(world).row.state) ==> world.row == old(world).row
    {
      Commit(Go, world.row, Some(Done(Completed)), None, Returned);
    }

    /** `ask_user`: suspend the run, or learn that it was cancelled. */
    method Suspend(i: nat) returns (exit: Exit)
      requires At(AskCas(i))
      modifies `world, `clock, `here, `trace, `did
      ensures exit == Leave && Stands(exit) && here == old(here).(pc := Returned)
      ensures || Suspended(here, here.calls[i], old(did), did, world.row)
              || CancelledFirst(old(did), did, world.row)
    {
      var row := world.row;
      if Matches(row, row.area, {Running}, here.run.version) {
        WriteWaiting(i);
        exit := Leave;
      } else {
        Proceed(WaitRace(i));
        Owns(WaitRace(i));
        exit := LoseWait(i);
      }
    }

    method WriteWaiting(i: nat)
      requires At(AskCas(i)) && Matches(world.row, world.row.area, {Running}, here.run.version)
      modifies `world, `clock, `here, `trace, `did
      ensures At(Returned) && here == old(here).(pc := Returned)
      ensures Suspended(here, here.calls[i], old(did), did, world.row) && Ended(did, world.row)
    {
      WaitStep(reg, world.row, here, i);
      var waiting, call := WaitingRow(world.row, here, here.calls[i]), here.calls[i];
      Commit(Go, waiting, None, None, WaitReload(i));
      ReportWait(WaitReload(i));
      WaitingRowIsSuspended(old(world).row, here, call, old(did), did, world.row);
    }

    method LoseWait(i: nat) returns (exit: Exit)
      requires At(WaitRace(i))
      modifies `world, `clock, `here, `trace, `did
      ensures old(world).row.state.Cancelled? ==>
                && exit == Leave && here == old(here).(pc := Returned)
                && CancelledFirst(old(did), did, world.row) && Ended(did, world.row)
      ensures exit != Again && (exit == Leave ==> At(Returned)) && (exit == Throw ==> At(Fail))
    {
      if Terminal(world.row.state) {
        ReportWait(WaitRace(i));
        exit := Leave;
      } else {
        Proceed(Fail);
        exit := Throw;
      }
    }

    method ReportWait(at: Pc)
      requires At(at) && (at.WaitReload? || (at.WaitRace? && Terminal(world.row.state)))
      modifies `world, `clock, `here, `trace, `did
      ensures At(Returned) && here == old(here).(pc := Returned)
      ensures old(world).row.state.Cancelled? ==> did == old(did) && world.row == old(world).row
      ensures !old(world).row.state.Cancelled? ==> did == old(did).Log([WaitForInput(old(here).calls[at.i].id)])
    {
      if world.row.state.Cancelled? {
        Proceed(Returned);
      } else {
        Proceed(EmitWait(at.i));
        EmitQuestion(at.i);
      }
    }

    method EmitQuestion(i: nat)
      requires At(EmitWait(i))
      modifies `world, `clock, `here, `trace, `did
      ensures At(Returned) && here == old(here).(pc := Returned)
      ensures did == old(did).Log([WaitForInput(old(here).calls[i].id)])
    {
      Commit(Go, world.row, Some(WaitForInput(here.calls[i].id)), None, Returned);
    }

    // ---- The batch

    /** execute_granted; then the result is noted and persisted. */
    method RunTool(i: nat, handled: Handled) returns (ok: bool)
      requires At(ToolRun(i))
      modifies `world, `clock, `here, `trace, `did
      ensures ok ==>
                && At(Batch(i + 1)) && handled.Returns?
                && ToolStarts(reg, old(here), old(here).calls[i].name)
                && here == Noted(old(here), i, handled.content).(pc := Batch(i + 1))
                && SavedOnce(here, old(did).rows, did.rows)
      ensures !ok ==>
                && At(Fail) && did.rows == old(did).rows
                && (|| here == old(here).(pc := Fail)
                    || (handled.Returns? && here == Noted(old(here), i, handled.content).(pc := Fail)))
      ensures !ok ==> || world.row.state.Cancelled? || !handled.Returns?
                      || !ToolStarts(reg, old(here), old(here).calls[i].name)
    {
      var name := here.calls[i].name;
      var starts := ToolStarts(reg, here, name);
      if !handled.Returns? {
        Commit(ToolRaises, world.row, None, if starts then Some(name) else None, Fail);
        ok := false;
      } else if !starts {
        Commit(ToolReturns(handled.content, handled.sources), world.row, None, None, Fail);
        ok := false;
      } else {
        KeepResult(i, handled.content, handled.sources);
        ok := SaveResult(i);
      }
    }

    /** The projected sources, if any, then the result event and the tool message. */
    method KeepResult(i: nat, content: string, sources: bool)
      requires At(ToolRun(i)) && ToolStarts(reg, here, here.calls[i].name)
      modifies `world, `clock, `here, `trace, `did
      ensures At(SaveTool(i)) && here == Noted(old(here), i, content).(pc := SaveTool(i))
      ensures did == old(did).Log((if sources then [Sources(old(here).calls[i].name)] else [])
                                  + [Activity("tool_result")])
    {
      CallHandler(i, content, sources);
      NoteResult(i, content);
    }

    method CallHandler(i: nat, content: string, sources: bool)
      requires At(ToolRun(i)) && ToolStarts(reg, here, here.calls[i].name)
      modifies `world, `clock, `here, `trace, `did
      ensures At(NoteTool(i, content)) && here == old(here).(pc := NoteTool(i, content))
      ensures did == old(did).Log(if sources then [Sources(old(here).calls[i].name)] else [])
    {
      StartTool(i, content, sources, if sources then EmitSources(i, content) else NoteTool(i, content));
      if sources {
        ShowSources(i, content);
      }
    }

    method StartTool(i: nat, content: string, sources: bool, next: Pc)
      requires At(ToolRun(i)) && ToolStarts(reg, here, here.calls[i].name)
      requires next == if sources then EmitSources(i, content) else NoteTool(i, content)
      modifies `world, `clock, `here, `trace, `did
      ensures At(next) && here == old(here).(pc := next) && did == old(did)
    {
      ToolReturnsStep(reg, world.row, here, i, content, sources);
      Commit(ToolReturns(content, sources), world.row, None, Some(here.calls[i].name), next);
    }

    method ShowSources(i: nat, content: string)
      requires At(EmitSources(i, content))
      modifies `world, `clock, `here, `trace, `did
      ensures At(NoteTool(i, content)) && here == old(here).(pc := NoteTool(i, content))
      ensures did == old(did).Log([Sources(old(here).calls[i].name)])
    {
      Commit(Go, world.row, Some(Sources(here.calls[i].name)), None, NoteTool(i, content));
    }

    method NoteResult(i: nat, content: string)
      requires At(NoteTool(i, content))
      modifies `world, `clock, `here, `trace, `did
      ensures At(SaveTool(i)) && here == Noted(old(here), i, content).(pc := SaveTool(i))
      ensures did == old(did).Log([Activity("tool_result")])
    {
      here := Noted(here, i, content);
      Commit(Go, world.row, Some(Activity("tool_result")), None, SaveTool(i));
    }

    /** The batch loop, and the next round if it gets through. */
    method RunBatch() returns (exit: Exit, ghost answered: nat)
      requires At(Batch(0))
      modifies `world, `clock, `here, `trace, `did
      ensures Stands(exit) && SameButBatch(old(here), here)
      ensures old(did).rows <= did.rows
      ensures var rows := did.rows[|old(did).rows|..];
              if exit == Again then answered == |here.calls| && JustAnswered(here, rows, answered, old(here).messages)
              else StoppedAt(here, rows, answered, old(here).messages, exit, world.row)
      ensures exit == Throw ==> BatchFails(here, world.row)
    {
      exit, answered := RunCalls(here, did);
      if exit == Again {
        EndBatch(old(here), old(did));
      }
    }

    method RunCalls(ghost start: Loop, ghost before: Deeds) returns (exit: Exit, ghost answered: nat)
      requires At(Batch(0)) && here == start && did == before
      modifies `world, `clock, `here, `trace, `did
      ensures SameButBatch(start, here) && before.rows <= did.rows
      ensures var rows := did.rows[|before.rows|..];
              if exit == Again then
                && At(Batch(|here.calls|)) && answered == |here.calls|
                && JustAnswered(here, rows, answered, start.messages)
              else Stands(exit) && StoppedAt(here, rows, answered, start.messages, exit, world.row)
      ensures exit == Throw ==> BatchFails(here, world.row)
    {
      for i := 0 to |here.calls|
        invariant At(Batch(i)) && SameButBatch(start, here) && before.rows <= did.rows
        invariant JustAnswered(here, did.rows[|before.rows|..], i, start.messages)
      {
        exit := RunCall(i, start, before);
        if exit != Again {
          return exit, i;
        }
      }
      return Again, |here.calls|;
    }

    method EndBatch(ghost start: Loop, ghost before: Deeds)
      requires At(Batch(|here.calls|)) && SameButBatch(start, here) && before.rows <= did.rows
      requires JustAnswered(here, did.rows[|before.rows|..], |here.calls|, start.messages)
      modifies `world, `clock, `here, `trace, `did
      ensures At(Top) && SameButBatch(start, here) && did == old(did)
      ensures JustAnswered(here, did.rows[|before.rows|..], |here.calls|, start.messages)
    {
      ghost var rows := did.rows[|before.rows|..];
      Proceed(Top);
      StillAnswered(old(here), rows, |old(here).calls|, start.messages, here, rows);
    }

    /** One call of the batch; Again means: on to the next call. */
    method RunCall(i: nat, ghost start: Loop, ghost before: Deeds) returns (exit: Exit)
      requires At(Batch(i)) && i < |here.calls| && SameButBatch(start, here) && before.rows <= did.rows
      requires JustAnswered(here, did.rows[|before.rows|..], i, start.messages)
      modifies `world, `clock, `here, `trace, `did
      ensures SameButBatch(start, here) && before.rows <= did.rows
      ensures var rows := did.rows[|before.rows|..];
              if exit == Again then At(Batch(i + 1)) && JustAnswered(here, rows, i + 1, start.messages)
              else Stands(exit) && StoppedAt(here, rows, i, start.messages, exit, world.row)
      ensures exit == Throw ==> world.row.state.Cancelled? || Faulty(here, i)
    {
      var handled := handlers(here.rounds, i);
      ghost var l, rows := here, did.rows[|before.rows|..];
      if world.row.state.Cancelled? {
        Proceed(Returned);
        StillAnswered(l, rows, i, start.messages, here, rows);
        exit := Leave;
      } else if handled.Unbound? || here.calls[i].name !in here.granted {
        RefuseCall(i, handled.Unbound?);
        StillAnswered(l, rows, i, start.messages, here, rows);
        exit := Throw;
      } else if here.calls[i].name == ASK_USER {
        exit := AskUser(i, start, before);
      } else {
        exit := UseTool(i, handled, start, before);
      }
    }

    method AskUser(i: nat, ghost start: Loop, ghost before: Deeds) returns (exit: Exit)
      requires At(Batch(i)) && i < |here.calls| && !world.row.state.Cancelled?
      requires here.calls[i].name == ASK_USER && ASK_USER in here.granted
      requires SameButBatch(start, here) && before.rows <= did.rows
      requires JustAnswered(here, did.rows[|before.rows|..], i, start.messages)
      modifies `world, `clock, `here, `trace, `did
      ensures exit == Leave && Stands(exit) && SameButBatch(start, here) && before.rows <= did.rows
      ensures StoppedAt(here, did.rows[|before.rows|..], i, start.messages, exit, world.row)
    {
      ghost var rows := did.rows[|before.rows|..];
      ReloadFor(i, AskCas(i));
      exit := Suspend(i);
      if did.rows != old(did).rows {
        OneMoreRow(before.rows, old(did).rows, did.rows);
      }
      StillAnswered(old(here), rows, i, start.messages, here, did.rows[|before.rows|..]);
    }

    method UseTool(i: nat, handled: Handled, ghost start: Loop, ghost before: Deeds) returns (exit: Exit)
      requires At(Batch(i)) && i < |here.calls| && !world.row.state.Cancelled?
      requires here.calls[i].name != ASK_USER && here.calls[i].name in here.granted
      requires SameButBatch(start, here) && before.rows <= did.rows
      requires JustAnswered(here, did.rows[|before.rows|..], i, start.messages)
      modifies `world, `clock, `here, `trace, `did
      ensures exit != Leave && SameButBatch(start, here) && before.rows <= did.rows
      ensures var rows := did.rows[|before.rows|..];
              if exit == Again then At(Batch(i + 1)) && JustAnswered(here, rows, i + 1, start.messages)
              else At(Fail) && StoppedAt(here, rows, i, start.messages, exit, world.row)
      ensures exit == Throw ==>
                world.row.state.Cancelled? || !handled.Returns? || !ToolStarts(reg, here, here.calls[i].name)
    {
      ghost var rows := did.rows[|before.rows|..];
      ReloadFor(i, ToolRun(i));
      var ok := RunTool(i, handled);
      if ok {
        OneMoreRow(before.rows, old(did).rows, did.rows);
        AnswerOneMore(old(here), rows, i, start.messages, here, handled.content, did.rows[|old(did).rows|]);
        exit := Again;
      } else {
        StillAnswered(old(here), rows, i, start.messages, here, rows);
        exit := Throw;
      }
    }

    /** Arguments that do not bind, or a tool that is not granted. */
    method RefuseCall(i: nat, unbound: bool)
      requires At(Batch(i)) && i < |here.calls| && !world.row.state.Cancelled?
      requires unbound || here.calls[i].name !in here.granted
      modifies `world, `clock, `here, `trace, `did
      ensures At(Fail) && here == old(here).(run := old(world).row, pc := Fail) && did == old(did)
    {
      here := here.(run := world.row);
      Commit(if unbound then Raise else Go, world.row, None, None, Fail);
    }

    /** The load before a call; the call is granted. */
    method ReloadFor(i: nat, next: Pc)
      requires At(Batch(i)) && i < |here.calls| && !world.row.state.Cancelled? && here.calls[i].name in here.granted
      requires next == if here.calls[i].name == ASK_USER then AskCas(i) else ToolRun(i)
      modifies `world, `clock, `here, `trace, `did
      ensures At(next) && here == old(here).(run := old(world).row, pc := next) && did == old(did)
    {
      CallStep(reg, world.row, here, i);
      here := here.(run := world.row);
      Proceed(next);
    }

    // ---- After a round

    /**
     What follows a round. If the run was cancelled: nothing. If the answer was
     cut off: the history asks for the rest and is persisted with the answer so
     far. If it was the last one: the run is completed. Otherwise the calls enter
     the history as a batch, and the batch is run.
     */
    method AfterRound() returns (exit: Exit)
      requires At(Post)
      modifies `world, `clock, `here, `trace, `did
      ensures Stands(exit) && here.rounds == old(here).rounds
      ensures here.continuations == old(here).continuations
                                    + if !old(world).row.state.Cancelled? && CutOff(old(here)) then 1 else 0
      ensures exit == Throw ==> BatchFails(here, world.row)
      ensures here.accumulated == old(here).accumulated + old(here).chunks && here.chunks == ""
      ensures old(world).row.state.Cancelled? ==>
                exit == Leave && did == old(did) && here.messages == old(here).messages
      ensures !old(world).row.state.Cancelled? && CutOff(old(here)) ==>
                && here.messages == old(here).messages
                                    + [Plain("assistant", old(here).chunks), Plain("user", CONTINUE_PROMPT)]
                && (exit == Again ==> SavedOnce(here, old(did).rows, did.rows) && did.events == old(did).events)
                && (exit != Again ==> exit == Throw && did == old(did))
      ensures !old(world).row.state.Cancelled? && !CutOff(old(here)) && old(here).calls == [] ==>
                && here.messages == old(here).messages && exit == Leave
                && (CompletedHere(here, old(did), did, world.row) || CancelledFirst(old(did), did, world.row))
      ensures !old(world).row.state.Cancelled? && old(here).calls != [] ==>
                BatchDone(old(here), old(did), here, did, exit, world.row)
    {
      if world.row.state.Cancelled? {
        here := here.(accumulated := here.accumulated + here.chunks, chunks := "");
        Proceed(Returned);
        exit := Leave;
      } else if CutOff(here) {
        AskToContinue();
        exit := SaveAndRepeat();
      } else {
        exit := KeepRound();
      }
    }

    /** The answer was cut off: the history records it and asks for the rest. */
    method AskToContinue()
      requires At(Post) && !world.row.state.Cancelled? && CutOff(here)
      modifies `world, `clock, `here, `trace, `did
      ensures At(SaveContinuation) && did == old(did)
      ensures here == Continued(old(here), old(world).row).(pc := SaveContinuation)
    {
      ContinueStep(world.row, here);
      here := Continued(here, world.row);
      Proceed(SaveContinuation);
    }

    method SaveAndRepeat() returns (exit: Exit)
      requires At(SaveContinuation)
      modifies `world, `clock, `here, `trace, `did
      ensures Stands(exit) && exit != Leave && here == old(here).(pc := here.pc)
      ensures exit == Throw ==> world.row.state.Cancelled?
      ensures if exit == Again then SavedOnce(here, old(did).rows, did.rows) && did.events == old(did).events
              else did == old(did)
    {
      var ok := SaveAnswer();
      exit := if ok then Again else Throw;
    }

    /** The round stands: it is the last one, or its calls enter the history as a batch. */
    method KeepRound() returns (exit: Exit)
      requires At(Post) && !world.row.state.Cancelled? && !CutOff(here)
      modifies `world, `clock, `here, `trace, `did
      ensures Stands(exit) && here.rounds == old(here).rounds && here.continuations == old(here).continuations
      ensures exit == Throw ==> BatchFails(here, world.row)
      ensures here.accumulated == old(here).accumulated + old(here).chunks && here.chunks == ""
      ensures old(here).calls == [] ==>
                && here.messages == old(here).messages && exit == Leave
                && (CompletedHere(here, old(did), did, world.row) || CancelledFirst(old(did), did, world.row))
      ensures old(here).calls != [] ==> BatchDone(old(here), old(did), here, did, exit, world.row)
    {
      if here.calls == [] {
        LastRound();
        exit := Complete();
      } else {
        EnterBatch();
        ghost var k;
        exit, k := RunBatch();
      }
    }

    method LastRound()
      requires At(Post) && !world.row.state.Cancelled? && !CutOff(here) && here.calls == []
      modifies `world, `clock, `here, `trace, `did
      ensures At(Finish) && here == Absorbed(old(here), old(world).row).(pc := Finish) && did == old(did)
    {
      here := Absorbed(here, world.row);
      Proceed(Finish);
    }

    method EnterBatch()
      requires At(Post) && !world.row.state.Cancelled? && here.calls != []
      modifies `world, `clock, `here, `trace, `did
      ensures At(Batch(0)) && did == old(did)
      ensures here == Absorbed(old(here), old(world).row).(pc := Batch(0), messages := BatchBase(old(here)))
    {
      here := Absorbed(here, world.row);
      here := here.(messages := here.messages + [ToolCalls(here.narration, here.calls)]);
      Proceed(Batch(0));
    }

    // ---- The rounds

    /** The body of the round loop. */
    method OneRound() returns (exit: Exit)
      requires At(Top) && here.rounds < reg.MaxRounds() + 1
      requires here.continuations <= MaxContinuations(ctx.overrides).value
      modifies `world, `clock, `here, `trace, `did
      ensures old(here).rounds <= here.rounds <= old(here).rounds + 1
      ensures exit == Again ==> here.rounds == old(here).rounds + 1
      ensures here.continuations <= MaxContinuations(ctx.overrides).value
      ensures Stands(exit)
      ensures exit == Throw ==>
                || RoundFails(here, world.row)
                || !(old(world).row.state.Running? || old(world).row.state.Cancelled?)
    {
      if world.row.state.Cancelled? {
        Proceed(Returned);
        exit := Leave;
      } else if !world.row.state.Running? {
        Proceed(Fail);
        exit := Throw;
      } else {
        StartRound();
        exit := PlayRound();
      }
    }

    method PlayRound() returns (exit: Exit)
      requires At(Asking) && here == WithRound(here, NOTHING)
      requires here.continuations <= MaxContinuations(ctx.overrides).value
      modifies `world, `clock, `here, `trace, `did
      ensures Stands(exit) && here.rounds == old(here).rounds
      ensures here.continuations <= MaxContinuations(ctx.overrides).value
      ensures exit == Throw ==> RoundFails(here, world.row)
    {
      var ok := CallRound(replies(here.rounds));
      if ok {
        exit := AfterRound();
      } else {
        exit := Throw;
      }
    }

    method StartRound()
      requires At(Top) && here.rounds < reg.MaxRounds() + 1 && world.row.state.Running?
      modifies `world, `clock, `here, `trace, `did
      ensures At(Asking) && did == old(did)
      ensures here == WithRound(old(here), NOTHING)
                        .(run := old(world).row, rounds := old(here).rounds + 1, pc := Asking)
    {
      RoundStep(reg, world.row, here);
      here := WithRound(here, NOTHING).(run := world.row, rounds := here.rounds + 1);
      Proceed(Asking);
    }

    /** The round loop; falling out of it is an error. */
    method Rounds() returns (exit: Exit)
      requires At(Top) && here.rounds == 0 && here.continuations == 0
      modifies `world, `clock, `here, `trace, `did
      ensures exit != Again && Stands(exit)
      ensures here.rounds <= reg.MaxRounds() + 1 && here.continuations <= MaxContinuations(ctx.overrides).value
      ensures exit == Throw ==> RoundFails(here, world.row) || here.rounds == reg.MaxRounds() + 1
    {
      exit := Again;
      while exit == Again && here.rounds < reg.MaxRounds() + 1
        invariant here.rounds <= reg.MaxRounds() + 1
        invariant Stands(exit) && here.continuations <= MaxContinuations(ctx.overrides).value
        invariant exit == Throw ==> RoundFails(here, world.row)
        decreases reg.MaxRounds() + 1 - here.rounds, exit == Again
      {
        Owns(Top);
        exit := OneRound();
      }
      if exit == Again {
        ExceedRounds();
        exit := Throw;
      }
    }

    method ExceedRounds()
      requires At(Top) && here.rounds == reg.MaxRounds() + 1
      modifies `world, `clock, `here, `trace, `did
      ensures At(Fail) && here == old(here).(pc := Fail)
    {
      Proceed(Fail);
    }

    /** The re-read and the activity event that come before `_run_loop`. */
    method Begin()
      requires At(Reload)
      modifies `world, `clock, `here, `trace, `did
      ensures At(Enter) && here == old(here).(run := old(world).row, pc := Enter)
      ensures did == old(did).Log([Activity("run_started_or_resumed")])
    {
      here := here.(run := world.row);
      Proceed(Announce);
      Commit(Go, world.row, Some(Activity("run_started_or_resumed")), None, Enter);
    }

    /** What precedes the handler of `_run_loop`: what raises here leaves the run as it is. */
    method SetUp() returns (entered: bool)
      requires At(Enter)
      requires here.granted == {} ==> GrantedTools(reg, ctx).Ok?
      modifies `world, `clock, `here, `trace, `did
      ensures entered <==> MaxContinuations(ctx.overrides).Some?
      ensures if entered then At(Top) && here.rounds == 0 && here.continuations == 0 else At(Crashed)
    {
      entered := MaxContinuations(ctx.overrides).Some?;
      if entered {
        var grant := if here.granted != {} then here.granted else GrantedTools(reg, ctx).value;
        EnterStep(reg, world.row, here, grant);
        EnterLoop(grant);
      } else {
        Proceed(Crashed);
      }
    }

    method EnterLoop(grant: set<string>)
      requires At(Enter) && MaxContinuations(ctx.overrides).Some?
      requires LoopStep(reg, world.row, here, Go) ==
               Goto(world.row, WithRound(here, NOTHING).(granted := grant, accumulated := here.run.text,
                                                         rounds := 0, continuations := 0), Top)
      modifies `world, `clock, `here, `trace, `did
      ensures At(Top) && here.rounds == 0 && here.continuations == 0
    {
      here := WithRound(here, NOTHING).(granted := grant, accumulated := here.run.text,
                                        rounds := 0, continuations := 0);
      Proceed(Top);
    }

    /** The exception handler around the rounds. */
    method Guard() returns (ghost exit: Exit)
      requires At(Top) && here.rounds == 0 && here.continuations == 0
      modifies `world, `clock, `here, `trace, `did
      ensures At(Returned) && exit != Again
      ensures here.rounds <= reg.MaxRounds() + 1 && here.continuations <= MaxContinuations(ctx.overrides).value
      ensures exit == Leave ==> Ended(did, world.row)
      ensures exit == Throw ==>
                && EndedInError(did, world.row)
                && (RoundFails(here, world.row) || here.rounds == reg.MaxRounds() + 1)
    {
      var left := Rounds();
      if left == Throw {
        Recover();
      }
      exit := left;
    }

    method Recover()
      requires At(Fail) && (RoundFails(here, world.row) || here.rounds == reg.MaxRounds() + 1)
      modifies `world, `clock, `here, `trace, `did
      ensures At(Returned) && here == old(here).(pc := Returned) && EndedInError(did, world.row)
      ensures RoundFails(here, world.row) || here.rounds == reg.MaxRounds() + 1
    {
      Owns(Fail);
      ghost var before, l, row := did, here, world.row;
      HandleFailure();
      LastTwo(before.events, ErrorEvent, Done(Error));
      if RoundFails(l, row) {
        StillFails(l, row, here, world.row);
      }
    }

    /**
     From the commit of create_run or resume to the return. Whatever model,
     tools and the other actors do, the turn ends. It returns, after at most
     `max_tool_rounds + 1` rounds and the continuations allowed, exactly when
     the continuation limit parses. If nothing raised, every call could be
     answered and the rounds sufficed, the run was then cancelled, or this turn
     completed it or asked the user, as its last events say; else it was
     cancelled or this turn failed it.
     */
    method Turn() returns (ghost exit: Exit)
      requires At(Reload)
      requires here.granted == {} ==> GrantedTools(reg, ctx).Ok?
      modifies `world, `clock, `here, `trace, `did
      ensures if MaxContinuations(ctx.overrides).Some?
              then && At(Returned) && here.rounds <= reg.MaxRounds() + 1
                   && here.continuations <= MaxContinuations(ctx.overrides).value
                   && exit != Again && (exit == Leave ==> Ended(did, world.row))
                   && (exit == Throw ==>
                         && EndedInError(did, world.row)
                         && (RoundFails(here, world.row) || here.rounds == reg.MaxRounds() + 1))
              else At(Crashed)
    {
      exit := Throw;
      Begin();
      var entered := SetUp();
      if entered {
        exit := Guard();
      }
    }
  }

  // ---- Values the contracts speak about

  predicate SameButRound(l: Loop, l': Loop) {
    l' == l.(chunks := l'.chunks, narration := l'.narration, calls := l'.calls, finish := l'.finish, pc := l'.pc)
  }

  predicate SameButBatch(l: Loop, l': Loop) {
    l' == l.(run := l'.run, messages := l'.messages, pc := l'.pc)
  }

  /** The tool message for call `i`. */
  function Noted(l: Loop, i: nat, content: string): Loop
    requires i < |l.calls|
  {
    l.(messages := l.messages + [ToolResult(l.calls[i].id, l.calls[i].name, content)])
  }

  /** The answer was cut off and may be continued. */
  predicate CutOff(l: Loop) {
    && l.calls == [] && l.finish == "length"
    && MaxContinuations(l.ctx.overrides).Some? && l.continuations < MaxContinuations(l.ctx.overrides).value
  }

  /** The round's text joins the answer; the run is the record just loaded. */
  function Absorbed(l: Loop, row: Row): Loop {
    l.(run := row, accumulated := l.accumulated + l.chunks, chunks := "")
  }

  /** The history records what was shown and asks for the rest. */
  function Continued(l: Loop, row: Row): Loop {
    Absorbed(l, row).(continuations := l.continuations + 1,
                      messages := l.messages + [Plain("assistant", l.chunks), Plain("user", CONTINUE_PROMPT)])
  }

  lemma ContinueStep(row: Row, l: Loop)
    requires l.pc.Post? && WellIndexed(l) && !row.state.Cancelled? && CutOff(l)
    ensures Decide(row, l) == Goto(row, Continued(l, row), SaveContinuation)
  {
  }

  function SavedRow(row: Row, l: Loop): Row {
    Snapshotted(row, SnapshotOf(l, None), Some(l.accumulated))
  }

  lemma ToolReturnsStep(reg: Registry, row: Row, l: Loop, i: nat, content: string, sources: bool)
    requires l.pc == ToolRun(i) && WellIndexed(l) && ToolStarts(reg, l, l.calls[i].name)
    ensures LoopStep(reg, row, l, ToolReturns(content, sources)) ==
            Out(row, None, l.(pc := if sources then EmitSources(i, content) else NoteTool(i, content)),
                Some(l.calls[i].name))
  {
  }

  function WaitingRow(row: Row, l: Loop, call: Call): Row {
    Transitioned(row, Waiting, Some(l.accumulated), Some(Wait(call.arguments, call.id)),
                 Some(SnapshotOf(l, Some(call.id))))
  }

  lemma WaitStep(reg: Registry, row: Row, l: Loop, i: nat)
    requires l.pc == AskCas(i) && WellIndexed(l) && Matches(row, row.area, {Running}, l.run.version)
    ensures LoopStep(reg, row, l, Go) == Out(WaitingRow(row, l, l.calls[i]), None, l.(pc := WaitReload(i)), None)
    ensures WaitingRow(row, l, l.calls[i]) != row
  {
  }

  lemma WaitingRowIsSuspended(row: Row, l: Loop, call: Call, before: Deeds, did: Deeds, row': Row)
    requires before.rows + [WaitingRow(row, l, call)] == did.rows
    requires did.events == before.events + [WaitForInput(call.id)]
             || (did.events == before.events && row'.state.Cancelled?)
    ensures Suspended(l, call, before, did, row')
  {
  }

  lemma CallStep(reg: Registry, row: Row, l: Loop, i: nat)
    requires l.pc == Batch(i) && i < |l.calls| && !row.state.Cancelled? && l.calls[i].name in l.granted
    ensures LoopStep(reg, row, l, Go) ==
            Out(row, None, l.(run := row, pc := if l.calls[i].name == ASK_USER then AskCas(i) else ToolRun(i)), None)
  {
  }

  lemma FailStep(reg: Registry, row: Row, l: Loop)
    requires l.pc == Fail
    ensures LoopStep(reg, row, l, Go) ==
            Out(row, None, l.(pc := if row.state.Running? then FailCas(row)
                                    else if row.state.Error? then EmitError else Returned), None)
  {
  }

  lemma ErrorStep(reg: Registry, row: Row, l: Loop, current: Row)
    requires l.pc == FailCas(current)
    ensures LoopStep(reg, row, l, Go) ==
            if Matches(row, row.area, {Running}, current.version) then
              Out(Transitioned(row, Error, Some(current.text), None, None), None, l.(pc := FailReload(true)), None)
            else Out(row, None, l.(pc := FailReload(false)), None)
  {
  }

  lemma AbandonStep(reg: Registry, row: Row, l: Loop, choice: Choice)
    requires (l.pc == Asking && choice.Item?) || (l.pc == Completing && choice.Answer?)
    requires row.state.Cancelled?
    ensures LoopStep(reg, row, l, choice) == Out(row, None, WithRound(l, CANCELLED).(pc := Post), None)
  {
  }

  lemma RoundStep(reg: Registry, row: Row, l: Loop)
    requires l.pc == Top && WellIndexed(l) && l.rounds < reg.MaxRounds() + 1 && row.state.Running?
    ensures LoopStep(reg, row, l, Go) ==
            Out(row, None, WithRound(l, NOTHING).(run := row, rounds := l.rounds + 1, pc := Asking), None)
  {
  }

  lemma SaveStep(reg: Registry, row: Row, l: Loop, i: nat)
    requires l.pc == SaveTool(i) && WellIndexed(l) && Matches(row, row.area, {Running}, l.run.version)
    ensures LoopStep(reg, row, l, Go) == Out(SavedRow(row, l), None, l.(pc := Batch(i + 1)), None)
    ensures SavedRow(row, l) != row
    ensures SavedRow(row, l).text == l.accumulated && SavedRow(row, l).snap == Saved(l, None)
  {
  }

  function BatchBase(l: Loop): seq<Message> {
    l.messages + [ToolCalls(l.narration, l.calls)]
  }

  /** The calls of the round `l` entered the history and were run, all of them or up to where the batch stopped. */
  ghost predicate BatchDone(l: Loop, before: Deeds, l': Loop, did: Deeds, exit: Exit, row: Row) {
    && l'.calls == l.calls && before.rows <= did.rows
    && var rows := did.rows[|before.rows|..];
       if exit == Again then JustAnswered(l', rows, |l'.calls|, BatchBase(l))
       else exists k :: StoppedAt(l', rows, k, BatchBase(l), exit, row)
  }

  lemma DirectEvents(r: S.Response)
    ensures EventsOf(S.DirectRoute(r).log) ==
            if r.text == "" then [] else [if S.Visible(r) then AnswerDelta(r.text) else Activity("model_narration")]
  {
    assert EventsOf([]) == [];
    EventsStep([], S.Shown(r.text));
    EventsStep([], S.Suppressed(|r.text|));
  }

  lemma StreamEvents(items: seq<S.StreamItem>, before: Deeds)
    ensures var r := S.ConsumeAll(items);
            before.Log(EventsOf(S.StreamRoute(items).log)) ==
            before.Log(EventsOf(r.log)).Log(if r.narration == "" then []
                                            else if r.calls == [] then [AnswerDelta(r.narration)]
                                            else [Activity("model_narration")])
  {
    var r := S.ConsumeAll(items);
    EventsStep(r.log, S.Shown(r.narration));
    EventsStep(r.log, S.Suppressed(|r.narration|));
    LogBoth(before, EventsOf(r.log), [AnswerDelta(r.narration)]);
    LogBoth(before, EventsOf(r.log), [Activity("model_narration")]);
    LogBoth(before, EventsOf(r.log), []);
    assert EventsOf(r.log) + [] == EventsOf(r.log);
  }

  /** The fallback to a fresh grant in `_run_loop` cannot fail: it fires only on a start that computed one. */
  lemma FallbackSucceeds(reg: Registry, start: World, steps: seq<Step>, me: nat)
    requires Init(reg, start)
    requires var w := After(reg, start, steps);
             me in w.actors && w.actors[me].Exec? && w.actors[me].loop.pc.Reload?
    ensures var l := After(reg, start, steps).actors[me].loop;
            l.granted == {} ==> GrantedTools(reg, l.ctx).Ok?
  {
    Reachable(reg, start, steps);
    var w := After(reg, start, steps);
    assert ActorOk(reg, w, me, w.actors[me]);
  }

  /**
   A whole segment, run beside others from any world the protocol reaches: the
   world it ends in is one the protocol reaches, its loop has made at most
   `max_tool_rounds + 1` rounds and has returned, and a run it still holds is not
   RUNNING; unless the continuation limit does not parse, and only then, in
   which case the exception has escaped.
   */
  method RunSegment(reg: Registry, ghost start: World, ghost steps: seq<Step>, w: World, me: nat,
                    others: nat -> seq<Step>, replies: nat -> Reply, handlers: (nat, nat) -> Handled)
    returns (ended: World, loop: Loop, ghost more: seq<Step>)
    requires Init(reg, start) && w == After(reg, start, steps)
    requires me in w.actors && w.actors[me].Exec? && w.actors[me].loop.pc.Reload?
    requires forall k, s :: s in others(k) ==> ByOthers(s, me)
    ensures ended == After(reg, start, steps + more)
    ensures me in ended.actors && ended.actors[me] == Exec(loop)
    ensures MaxContinuations(loop.ctx.overrides).None? ==> loop.pc.Crashed?
    ensures MaxContinuations(loop.ctx.overrides).Some? ==>
              && loop.pc.Returned? && loop.rounds <= reg.MaxRounds() + 1
              && (ended.holder == me ==> !ended.row.state.Running?)
  {
    FallbackSucceeds(reg, start, steps, me);
    Reachable(reg, start, steps);
    var turn := new TurnLoop(reg, w, me, others, replies, handlers);
    ghost var _ := turn.Turn();
    ended, loop, more := turn.world, turn.here, turn.trace;
    AfterBoth(reg, start, steps, more);
    SegmentsAreBounded(reg, start, steps + more, ended, me, loop);
  }
}
