/**
 Safety over whole runs of the tutor protocol: every world reached from
 create_run by any schedule, with any number of cancel and resume callers and
 process restarts.
 */
module TutorRuns {
  import opened Options
  import opened Grants
  import opened History
  import opened Store
  import opened Tutor
  import opened TutorSafety

  ghost predicate LoopOk(reg: Registry, w: World, l: Loop) {
    && OwnOk(w.row, l) && ConfigOk(l)
    && TextOk(w.row, Shown(w.events), l)
    && HistoryOk(w.base, w.row, l)
    && GrantOk(reg, w.segments, w.row, l)
  }

  /** A record read earlier is either still the row or has an older version. */
  ghost predicate Past(prior: Row, row: Row) {
    prior == row || prior.version < row.version
  }

  ghost predicate ActorOk(reg: Registry, w: World, who: nat, a: Actor) {
    match a
    case Exec(l) =>
      WellIndexed(l) && l.rounds <= reg.MaxRounds() + 1 && (Holding(l.pc) ==> who == w.holder && LoopOk(reg, w, l))
    case CancelReady(prior) => prior.Active() && Past(prior, w.row)
    case ResumeReady(prior, _, _) => prior.state.Waiting? && Past(prior, w.row)
    case _ => true
  }

  ghost predicate RowOk(reg: Registry, w: World) {
    && SegmentsOk(reg, w.segments)
    && TextRow(w.row, Shown(w.events)) && HistoryRow(w.base, w.row) && GrantRow(w.segments, w.row)
    && (forall e :: e in w.executed ==> ExecutedOk(reg, w.segments, e))
  }

  /** A RUNNING run has a live owner. */
  ghost predicate Owned(w: World) {
    w.row.state.Running? ==>
      w.holder in w.actors && w.actors[w.holder].Exec? && Holding(w.actors[w.holder].loop.pc)
  }

  /** The log announces at most one end, that of the state the row is in. */
  ghost predicate Announced(row: Row, events: seq<Event>) {
    && (Dones(events) == [] || (Dones(events) == [row.state] && Terminal(row.state)))
    && (ResultEvent in events ==> row.state.Completed?)
    && (ErrorEvent in events ==> row.state.Error?)
  }

  /** Only the actor that settled the run has its end still to announce. */
  ghost predicate SettlerAlone(w: World) {
    forall a :: a in w.actors && Settling(w.actors[a]).Some? ==>
      && w.settler == Some(a) && Dones(w.events) == []
      && Settling(w.actors[a]) == Some(w.row.state)
  }

  ghost predicate DoneOk(w: World) {
    Announced(w.row, w.events) && SettlerAlone(w)
  }

  lemma AnnouncedGrows(row: Row, events: seq<Event>, e: Option<Event>)
    requires Announced(row, events)
    requires e == Some(ResultEvent) ==> row.state.Completed?
    requires e == Some(ErrorEvent) ==> row.state.Error?
    requires e.Some? && e.value.Done? ==> Dones(events) == [] && e.value.state == row.state && Terminal(row.state)
    ensures Announced(row, Logged(events, e))
    ensures !(e.Some? && e.value.Done?) ==> Dones(Logged(events, e)) == Dones(events)
  {
    LogGrows(events, e);
  }

  ghost predicate ActorsOk(reg: Registry, w: World) {
    forall a :: a in w.actors ==> ActorOk(reg, w, a, w.actors[a])
  }

  ghost predicate WorldOk(reg: Registry, w: World) {
    RowOk(reg, w) && Owned(w) && DoneOk(w) && ActorsOk(reg, w)
  }

  /** What no step ever undoes. */
  ghost predicate Forward(w: World, w': World) {
    && w'.base == w.base
    && (w'.row == w.row || (!Terminal(w.row.state) && w'.row.version == w.row.version + 1))
    && w.row.snap.Some? && w'.row.snap.Some?
    && w.row.snap.value.messages <= w'.row.snap.value.messages
    && w'.row.snap.value.granted <= w.row.snap.value.granted
    && w.events <= w'.events
    && w.segments <= w'.segments
    && w.executed <= w'.executed
  }

  // ---- Steps of the executor loops

  lemma RoundBudget(reg: Registry, row: Row, l: Loop, choice: Choice)
    requires WellIndexed(l) && l.rounds <= reg.MaxRounds() + 1
    ensures LoopStep(reg, row, l, choice).loop.rounds <= reg.MaxRounds() + 1
  {
  }

  lemma HoldingKeepsRow(reg: Registry, w: World, who: nat, choice: Choice)
    requires WorldOk(reg, w)
    requires who in w.actors && w.actors[who].Exec? && Holding(w.actors[who].loop.pc)
    ensures var w' := ExecStep(reg, w, who, choice);
            RowOk(reg, w') && Owned(w') && Forward(w, w')
  {
    var l := w.actors[who].loop;
    var out := LoopStep(reg, w.row, l, choice);
    OwnershipStep(reg, w.row, l, choice);
    TextStep(reg, w.row, Shown(w.events), l, choice);
    HistoryStep(reg, w.base, w.row, l, choice);
    GrantStep(reg, w.segments, w.row, l, choice);
    LogGrows(w.events, out.emitted);
  }

  lemma HoldingKeepsSelf(reg: Registry, w: World, who: nat, choice: Choice)
    requires WorldOk(reg, w)
    requires who in w.actors && w.actors[who].Exec? && Holding(w.actors[who].loop.pc)
    ensures var w' := ExecStep(reg, w, who, choice); ActorOk(reg, w', who, w'.actors[who])
  {
    var l := w.actors[who].loop;
    var out := LoopStep(reg, w.row, l, choice);
    OwnershipStep(reg, w.row, l, choice);
    TextStep(reg, w.row, Shown(w.events), l, choice);
    HistoryStep(reg, w.base, w.row, l, choice);
    GrantStep(reg, w.segments, w.row, l, choice);
    RoundBudget(reg, w.row, l, choice);
    LogGrows(w.events, out.emitted);
  }

  lemma HoldingKeepsOthers(reg: Registry, w: World, who: nat, choice: Choice)
    requires WorldOk(reg, w)
    requires who in w.actors && w.actors[who].Exec? && Holding(w.actors[who].loop.pc)
    ensures ActorsOk(reg, ExecStep(reg, w, who, choice))
  {
    HoldingKeepsRow(reg, w, who, choice);
    HoldingKeepsSelf(reg, w, who, choice);
    var w' := ExecStep(reg, w, who, choice);
    forall a | a in w'.actors && a != who
      ensures ActorOk(reg, w', a, w'.actors[a])
    {
      assert ActorOk(reg, w, a, w.actors[a]);
    }
  }

  lemma HoldingAnnounces(w: World, who: nat, l: Loop, out: Out)
    requires DoneOk(w) && OwnOk(w.row, l) && OwnAfter(w.row, l, out)
    requires who in w.actors && w.actors[who] == Exec(l) && Holding(l.pc)
    ensures DoneOk(Moved(w, who, out))
  {
    assert Announced(out.row, w.events);
    AnnouncedGrows(out.row, w.events, out.emitted);
  }

  /** An actor that only announces leaves the settler the only one with something to announce. */
  lemma SettlerStays(w: World, who: nat, next: Actor, e: Option<Event>)
    requires SettlerAlone(w) && who in w.actors
    requires var done := e.Some? && e.value.Done?;
             && (done ==> Settling(w.actors[who]).Some? && Settling(next).None?)
             && (!done ==> Dones(Logged(w.events, e)) == Dones(w.events))
    requires Settling(next).Some? ==> Settling(w.actors[who]).Some? && Settling(next) == Some(w.row.state)
    ensures SettlerAlone(w.(events := Logged(w.events, e), actors := w.actors[who := next]))
  {
    var w' := w.(events := Logged(w.events, e), actors := w.actors[who := next]);
    forall a | a in w'.actors && Settling(w'.actors[a]).Some?
      ensures w'.settler == Some(a) && Dones(w'.events) == [] && Settling(w'.actors[a]) == Some(w'.row.state)
    {
      if a != who {
        assert Settling(w.actors[a]).Some?;
      }
    }
  }

  lemma HoldingKeepsDone(reg: Registry, w: World, who: nat, choice: Choice)
    requires WorldOk(reg, w)
    requires who in w.actors && w.actors[who].Exec? && Holding(w.actors[who].loop.pc)
    ensures DoneOk(ExecStep(reg, w, who, choice))
  {
    var l := w.actors[who].loop;
    OwnershipStep(reg, w.row, l, choice);
    HoldingAnnounces(w, who, l, LoopStep(reg, w.row, l, choice));
  }

  /** Loops that have handed the run over only announce. */
  lemma TailStep(reg: Registry, row: Row, l: Loop, choice: Choice)
    requires WellIndexed(l) && !Holding(l.pc)
    ensures var out := LoopStep(reg, row, l, choice);
            && WellIndexed(out.loop) && !Holding(out.loop.pc)
            && out.row == row && out.ran == None && ShownBy(out.emitted) == ""
  {
  }

  /** One that has nothing to announce keeps silent. */
  lemma QuietStep(reg: Registry, row: Row, l: Loop, choice: Choice)
    requires WellIndexed(l) && !Holding(l.pc) && Settling(Exec(l)) == None
    ensures var out := LoopStep(reg, row, l, choice);
            && out.emitted != Some(ResultEvent) && out.emitted != Some(ErrorEvent)
            && !(out.emitted.Some? && out.emitted.value.Done?)
            && Settling(Exec(out.loop)) == None
  {
  }

  lemma SettlingStep(reg: Registry, row: Row, l: Loop, choice: Choice)
    requires WellIndexed(l) && !Holding(l.pc)
    requires Settling(Exec(l)) == Some(row.state)
    ensures var out := LoopStep(reg, row, l, choice);
            && (Settling(Exec(out.loop)) == Some(row.state) || Settling(Exec(out.loop)) == None)
            && (out.emitted == Some(ResultEvent) ==> row.state.Completed?)
            && (out.emitted == Some(ErrorEvent) ==> row.state.Error?)
            && (out.emitted.Some? && out.emitted.value.Done? ==>
                  out.emitted.value.state == row.state && Settling(Exec(out.loop)) == None)
  {
  }

  /** A world that differs from `w` by announcements and by where a loop without the run stands. */
  ghost predicate TailMoved(reg: Registry, w: World, who: nat, w': World) {
    && who in w.actors && w.actors[who].Exec? && !Holding(w.actors[who].loop.pc)
    && w' == w.(events := w'.events, actors := w'.actors)
    && w.events <= w'.events && Shown(w'.events) == Shown(w.events)
    && exists l: Loop :: w'.actors == w.actors[who := Exec(l)] && !Holding(l.pc)
                         && WellIndexed(l) && l.rounds <= reg.MaxRounds() + 1
  }

  lemma TailMoves(reg: Registry, w: World, who: nat, choice: Choice)
    requires who in w.actors && w.actors[who].Exec? && !Holding(w.actors[who].loop.pc)
    requires ActorOk(reg, w, who, w.actors[who])
    ensures TailMoved(reg, w, who, ExecStep(reg, w, who, choice))
  {
    var l := w.actors[who].loop;
    var out := LoopStep(reg, w.row, l, choice);
    TailStep(reg, w.row, l, choice);
    RoundBudget(reg, w.row, l, choice);
    LogGrows(w.events, out.emitted);
    var w' := ExecStep(reg, w, who, choice);
    assert w'.actors == w.actors[who := Exec(out.loop)];
  }

  lemma TailKeepsRow(reg: Registry, w: World, who: nat, w': World)
    requires RowOk(reg, w) && Owned(w) && TailMoved(reg, w, who, w')
    ensures RowOk(reg, w') && Owned(w') && Forward(w, w')
  {
  }

  lemma TailKeepsActors(reg: Registry, w: World, who: nat, w': World)
    requires ActorsOk(reg, w) && TailMoved(reg, w, who, w')
    ensures ActorsOk(reg, w')
  {
    forall a | a in w'.actors && a != who
      ensures ActorOk(reg, w', a, w'.actors[a])
    {
      assert ActorOk(reg, w, a, w.actors[a]);
    }
  }

  lemma TailKeeps(reg: Registry, w: World, who: nat, choice: Choice)
    requires WorldOk(reg, w)
    requires who in w.actors && w.actors[who].Exec? && !Holding(w.actors[who].loop.pc)
    ensures var w' := ExecStep(reg, w, who, choice);
            RowOk(reg, w') && Owned(w') && ActorsOk(reg, w') && Forward(w, w')
  {
    assert ActorOk(reg, w, who, w.actors[who]);
    var w' := ExecStep(reg, w, who, choice);
    TailMoves(reg, w, who, choice);
    TailKeepsRow(reg, w, who, w');
    TailKeepsActors(reg, w, who, w');
  }

  lemma TailKeepsDone(reg: Registry, w: World, who: nat, choice: Choice)
    requires WorldOk(reg, w)
    requires who in w.actors && w.actors[who].Exec? && !Holding(w.actors[who].loop.pc)
    ensures DoneOk(ExecStep(reg, w, who, choice))
  {
    var l := w.actors[who].loop;
    var out := LoopStep(reg, w.row, l, choice);
    TailStep(reg, w.row, l, choice);
    if Settling(Exec(l)).Some? {
      SettlingStep(reg, w.row, l, choice);
    } else {
      QuietStep(reg, w.row, l, choice);
    }
    AnnouncedGrows(w.row, w.events, out.emitted);
    SettlerStays(w, who, Exec(out.loop), out.emitted);
  }

  // ---- Steps of cancel and resume callers

  lemma CancelKeeps(reg: Registry, w: World, who: nat)
    requires WorldOk(reg, w)
    requires who in w.actors && !w.actors[who].Exec?
    ensures var w' := CancelStep(w, who);
            RowOk(reg, w') && Owned(w') && Forward(w, w')
  {
    assert ActorOk(reg, w, who, w.actors[who]);
    CancelShowsNothing(w, who);
  }

  lemma CancelKeepsActors(reg: Registry, w: World, who: nat)
    requires WorldOk(reg, w)
    requires who in w.actors && !w.actors[who].Exec?
    ensures ActorsOk(reg, CancelStep(w, who))
  {
    var w' := CancelStep(w, who);
    assert ActorOk(reg, w, who, w.actors[who]);
    CancelShowsNothing(w, who);
    forall a | a in w'.actors && a != who
      ensures ActorOk(reg, w', a, w'.actors[a])
    {
      assert ActorOk(reg, w, a, w.actors[a]);
    }
  }

  lemma CancelShowsNothing(w: World, who: nat)
    requires who in w.actors && !w.actors[who].Exec?
    ensures w.events <= CancelStep(w, who).events && Shown(CancelStep(w, who).events) == Shown(w.events)
  {
    LogGrows(w.events, Some(Activity("run_cancelled")));
    LogGrows(w.events, Some(Done(Cancelled)));
  }

  lemma CancelKeepsDone(w: World, who: nat)
    requires DoneOk(w)
    requires who in w.actors && !w.actors[who].Exec?
    requires w.actors[who].CancelReady? ==> w.actors[who].prior.Active()
    ensures DoneOk(CancelStep(w, who))
  {
    match w.actors[who]
    case CancelReady(prior) => CancelWins(w, who, prior);
    case CancelNote => Announces(w, who, Activity("run_cancelled"), CancelDone);
    case CancelDone => Announces(w, who, Done(Cancelled), Gone);
    case _ =>
  }

  lemma Announces(w: World, who: nat, e: Event, next: Actor)
    requires DoneOk(w) && who in w.actors
    requires (w.actors[who] == CancelNote && e.Activity? && next == CancelDone)
             || (w.actors[who] == CancelDone && e == Done(Cancelled) && next == Gone)
    ensures DoneOk(w.(events := w.events + [e], actors := w.actors[who := next]))
  {
    AnnouncedGrows(w.row, w.events, Some(e));
    SettlerStays(w, who, next, Some(e));
  }

  lemma CancelWins(w: World, who: nat, prior: Row)
    requires DoneOk(w) && prior.Active()
    requires who in w.actors && w.actors[who] == CancelReady(prior)
    ensures DoneOk(CancelStep(w, who))
  {
  }

  /** The fallback to a fresh grant never fires on resume: the intersection holds `ask_user`. */
  lemma ResumedGrant(reg: Registry, segments: seq<Segment>, granted: set<string>, ctx: Context)
    requires SegmentsOk(reg, segments) && Within(segments, granted) && ASK_USER in granted
    requires GrantedTools(reg, ctx).Ok?
    ensures ASK_USER in granted * GrantedTools(reg, ctx).value
    ensures Within(segments + [Segment(ctx, GrantedTools(reg, ctx).value)],
                   granted * GrantedTools(reg, ctx).value)
    ensures SegmentsOk(reg, segments + [Segment(ctx, GrantedTools(reg, ctx).value)])
  {
    assert ASK_USER in segments[0].grant;
    assert GrantedBy(reg, segments[0].ctx, ASK_USER);
    AskUserGranted(reg, segments[0].ctx);
    AskUserGranted(reg, ctx);
  }

  /** A resume answers the pending call under the id it was asked with. */
  lemma ResumedHistory(base: seq<Message>, row: Row, content: string)
    requires HistoryRow(base, row) && row.state.Waiting?
    ensures ResumedMessages(row, content) ==
            row.snap.value.messages + [ToolResult(row.wait.value.callId, ASK_USER, content)]
    ensures Owes(base, ResumedMessages(row, content), [])
  {
    var call := Call(row.wait.value.callId, ASK_USER, row.wait.value.question);
    assert [call][1..] == [];
    OwesMore(base, row.snap.value.messages, [call], ToolResult(call.id, ASK_USER, content));
  }

  lemma ResumeKeepsRow(reg: Registry, w: World, who: nat)
    requires WorldOk(reg, w)
    requires who in w.actors && w.actors[who].ResumeReady?
    requires ResumeStep(reg, w, who).row != w.row
    ensures var w' := ResumeStep(reg, w, who);
            && w.row.state.Waiting? && Forward(w, w')
            && RowOk(reg, w') && Owned(w')
            && ActorOk(reg, w', who, w'.actors[who])
  {
    var ResumeReady(prior, ctx, content) := w.actors[who];
    assert ActorOk(reg, w, who, w.actors[who]);
    assert prior == w.row;
    ResumedGrant(reg, w.segments, w.row.snap.value.granted, ctx);
    ResumedHistory(w.base, w.row, content);
    assert prior.text == w.row.text;
  }

  lemma ResumeKeepsOthers(reg: Registry, w: World, who: nat)
    requires WorldOk(reg, w)
    requires who in w.actors && w.actors[who].ResumeReady?
    requires ResumeStep(reg, w, who).row != w.row
    ensures ActorsOk(reg, ResumeStep(reg, w, who)) && DoneOk(ResumeStep(reg, w, who))
  {
    var w' := ResumeStep(reg, w, who);
    ResumeKeepsRow(reg, w, who);
    forall a | a in w'.actors && a != who
      ensures ActorOk(reg, w', a, w'.actors[a])
    {
      assert ActorOk(reg, w, a, w.actors[a]);
    }
  }

  /** A caller that only leaves a note of where it stands changes nothing else. */
  lemma NoteKeeps(reg: Registry, w: World, who: nat, a: Actor)
    requires WorldOk(reg, w)
    requires who in w.actors ==> !w.actors[who].Exec?
    requires !a.Exec? && Settling(a) == None && ActorOk(reg, w, who, a)
    ensures var w' := w.(actors := w.actors[who := a]); WorldOk(reg, w') && Forward(w, w')
  {
    var w' := w.(actors := w.actors[who := a]);
    forall b | b in w'.actors && b != who
      ensures ActorOk(reg, w', b, w'.actors[b])
    {
      assert ActorOk(reg, w, b, w.actors[b]);
    }
  }

  lemma ResumeKeeps(reg: Registry, w: World, who: nat)
    requires WorldOk(reg, w)
    requires who in w.actors && (w.actors[who].ResumeLook? || w.actors[who].ResumeReady?)
    ensures var w' := ResumeStep(reg, w, who); WorldOk(reg, w') && Forward(w, w')
  {
    var w' := ResumeStep(reg, w, who);
    if w'.row != w.row {
      ResumeKeepsRow(reg, w, who);
      ResumeKeepsOthers(reg, w, who);
    } else {
      NoteKeeps(reg, w, who, w'.actors[who]);
    }
  }

  lemma StepKeeps(reg: Registry, w: World, s: Step)
    requires WorldOk(reg, w)
    ensures WorldOk(reg, Next(reg, w, s)) && Forward(w, Next(reg, w, s))
  {
    match s
    case Act(who, choice) =>
      if who in w.actors {
        assert ActorOk(reg, w, who, w.actors[who]);
        match w.actors[who] {
          case Exec(l) =>
            if Holding(l.pc) {
              HoldingKeepsRow(reg, w, who, choice);
              HoldingKeepsOthers(reg, w, who, choice);
              HoldingKeepsDone(reg, w, who, choice);
            } else {
              TailKeeps(reg, w, who, choice);
              TailKeepsDone(reg, w, who, choice);
            }
          case ResumeLook(_, _) => ResumeKeeps(reg, w, who);
          case ResumeReady(_, _, _) => ResumeKeeps(reg, w, who);
          case _ =>
            CancelKeeps(reg, w, who);
            CancelKeepsActors(reg, w, who);
            CancelKeepsDone(w, who);
        }
      }
    case CallCancel(who) =>
      if who !in w.actors {
        NoteKeeps(reg, w, who, CancelLook);
      }
    case CallResume(who, ctx, content) =>
      if who !in w.actors {
        NoteKeeps(reg, w, who, ResumeLook(ctx, content));
      }
    case Restart => RestartKeeps(reg, w);
  }

  lemma RestartKeeps(reg: Registry, w: World)
    requires WorldOk(reg, w)
    ensures WorldOk(reg, RestartStep(w)) && Forward(w, RestartStep(w))
  {
  }

  // ---- Whole runs

  lemma InitOk(reg: Registry, w: World)
    requires Init(reg, w)
    ensures WorldOk(reg, w)
  {
    var Segment(ctx, granted) := w.segments[0];
    assert GrantedTools(reg, ctx) == Ok(granted);
    assert Turn(w.base, w.base) == [];
    assert ctx.Child(ctx.selected, ctx.overrides) == ctx;
  }

  lemma {:induction false} Reachable(reg: Registry, w: World, steps: seq<Step>)
    requires Init(reg, w)
    ensures WorldOk(reg, After(reg, w, steps))
    ensures After(reg, w, steps).base == w.base
  {
    if steps == [] {
      InitOk(reg, w);
    } else {
      var n := |steps| - 1;
      Reachable(reg, w, steps[..n]);
      StepKeeps(reg, After(reg, w, steps[..n]), steps[n]);
    }
  }

  /** What a whole schedule never undoes. */
  ghost predicate Later(w: World, w': World) {
    && w'.base == w.base
    && (w'.row == w.row || (!Terminal(w.row.state) && w'.row.version > w.row.version))
    && w.row.snap.Some? && w'.row.snap.Some?
    && w.row.snap.value.messages <= w'.row.snap.value.messages
    && w'.row.snap.value.granted <= w.row.snap.value.granted
    && w.events <= w'.events && w.segments <= w'.segments && w.executed <= w'.executed
  }

  lemma {:induction false} Progress(reg: Registry, w: World, steps: seq<Step>)
    requires WorldOk(reg, w)
    ensures WorldOk(reg, After(reg, w, steps)) && Later(w, After(reg, w, steps))
  {
    if steps != [] {
      var n := |steps| - 1;
      Progress(reg, w, steps[..n]);
      StepKeeps(reg, After(reg, w, steps[..n]), steps[n]);
    }
  }

  /**
   The persisted answer is always a prefix of what the user was shown, and
   exactly that whenever the run waits or is completed, across any number of
   wait/resume segments and fallbacks from streaming to complete().
   */
  lemma AnswerTextIsWhatWasShown(reg: Registry, w: World, steps: seq<Step>)
    requires Init(reg, w)
    ensures var now := After(reg, w, steps);
            && now.row.text <= Shown(now.events)
            && (now.row.state.Waiting? || now.row.state.Completed? ==> now.row.text == Shown(now.events))
  {
    Reachable(reg, w, steps);
  }

  /**
   A terminal row is never rewritten; at most one `done` is ever logged and it
   names the state the row ends in; a cancelled run never gets a result, an
   error event only ever belongs to a failed one.
   */
  lemma TerminalStateIsFinal(reg: Registry, w: World, steps: seq<Step>, more: seq<Step>)
    requires Init(reg, w)
    ensures var now := After(reg, w, steps);
            var later := After(reg, now, more);
            && (Terminal(now.row.state) ==> later.row == now.row)
            && |Dones(later.events)| <= 1
            && (Dones(later.events) != [] ==>
                  Dones(later.events) == [later.row.state] && Terminal(later.row.state))
            && (later.row.state.Cancelled? ==> ResultEvent !in later.events && ErrorEvent !in later.events)
  {
    Reachable(reg, w, steps);
    Progress(reg, After(reg, w, steps), more);
  }

  /**
   Persisted histories only grow by appending, keep the batch discipline, owe
   exactly the pending `ask_user` while the run waits and nothing once it is
   completed; the wait payload exists exactly while the run waits.
   */
  lemma HistoryIsAppendOnly(reg: Registry, w: World, steps: seq<Step>, more: seq<Step>, now: World, later: World)
    requires Init(reg, w) && now == After(reg, w, steps) && later == After(reg, now, more)
    ensures now.row.snap.Some? && later.row.snap.Some?
    ensures now.row.snap.value.messages <= later.row.snap.value.messages
    ensures Disciplined(w.base, later.row.snap.value.messages)
    ensures later.row.wait.Some? <==> later.row.state.Waiting?
    ensures later.row.state.Waiting? ==>
              && Owes(w.base, later.row.snap.value.messages,
                      [Call(later.row.wait.value.callId, ASK_USER, later.row.wait.value.question)])
              && later.row.snap.value.pending == Some(later.row.wait.value.callId)
    ensures later.row.state.Completed? ==> Owes(w.base, later.row.snap.value.messages, [])
  {
    Reachable(reg, w, steps);
    Progress(reg, now, more);
  }

  /** The only way out of a wait other than a cancel appends exactly the pending call's answer. */
  lemma ResumeAnswersThePendingCall(reg: Registry, w: World, steps: seq<Step>, now: World, s: Step, next: World)
    requires Init(reg, w) && now == After(reg, w, steps) && next == Next(reg, now, s)
    requires now.row.state.Waiting? && next.row != now.row
    ensures now.row.snap.Some? && next.row.snap.Some? && now.row.wait.Some?
    ensures || (next.row.state.Cancelled? && next.row.snap == now.row.snap)
            || (&& next.row.state.Running? && s.Act? && s.who in now.actors
                && now.actors[s.who].ResumeReady? && now.actors[s.who].prior == now.row
                && next.row.snap.value.messages ==
                   now.row.snap.value.messages
                   + [ToolResult(now.row.wait.value.callId, ASK_USER, now.actors[s.who].content)]
                && Owes(w.base, next.row.snap.value.messages, []))
  {
    Reachable(reg, w, steps);
    StepKeeps(reg, now, s);
    if s.Act? && s.who in now.actors {
      assert ActorOk(reg, now, s.who, now.actors[s.who]);
      match now.actors[s.who] {
        case Exec(l) => TailStep(reg, now.row, l, s.choice);
        case ResumeReady(prior, ctx, content) => ResumedHistory(w.base, now.row, content);
        case _ =>
      }
    }
  }

  /** A loop of a resumed segment about to compute its grant. */
  predicate Resumed(a: Actor) {
    a.Exec? && a.loop.pc.Enter? && a.loop.seg > 0
  }

  /** Along any chain of segments the grant only shrinks and stays inside that of the start and of every resume. */
  lemma GrantsOnlyShrink(reg: Registry, w: World, steps: seq<Step>, more: seq<Step>, now: World, later: World)
    requires Init(reg, w) && now == After(reg, w, steps) && later == After(reg, now, more)
    ensures now.row.snap.Some? && later.row.snap.Some?
    ensures later.row.snap.value.granted <= now.row.snap.value.granted
    ensures SegmentsOk(reg, later.segments)
    ensures Within(later.segments, later.row.snap.value.granted)
  {
    Reachable(reg, w, steps);
    Progress(reg, now, more);
  }

  /**
   Every tool whose handler started was in the grant of every segment up to
   then and passed the current capability and permission checks.
   */
  lemma ExecutedWasGranted(reg: Registry, w: World, steps: seq<Step>, now: World, e: Executed)
    requires Init(reg, w) && now == After(reg, w, steps) && e in now.executed
    ensures e.seg < |now.segments| && forall k :: 0 <= k <= e.seg ==> e.name in now.segments[k].grant
    ensures e.name != ASK_USER && e.name in reg.tools
    ensures ExecutionAllowed(reg.tools[e.name], now.segments[e.seg].ctx)
  {
    Reachable(reg, w, steps);
    assert ExecutedOk(reg, now.segments, e);
  }

  /** On a resumed segment the fallback to a fresh grant cannot fire. */
  lemma ResumeNeverFallsBack(reg: Registry, w: World, steps: seq<Step>, now: World, who: nat)
    requires Init(reg, w) && now == After(reg, w, steps)
    requires who in now.actors && Resumed(now.actors[who])
    ensures ASK_USER in now.actors[who].loop.granted
  {
    Reachable(reg, w, steps);
    assert ActorOk(reg, now, who, now.actors[who]);
  }

  /**
   Whatever the model answers, a segment makes at most `max_tool_rounds + 1`
   rounds; when its loop has returned the run is not left RUNNING behind it, and
   a compare-and-swap of a loop is refused only if the run was cancelled.
   */
  lemma SegmentsAreBounded(reg: Registry, w: World, steps: seq<Step>, now: World, who: nat, l: Loop)
    requires Init(reg, w) && now == After(reg, w, steps)
    requires who in now.actors && now.actors[who] == Exec(l)
    ensures l.rounds <= reg.MaxRounds() + 1
    ensures l.pc.Returned? && who == now.holder ==> !now.row.state.Running?
    ensures now.row.state.Running? ==>
              now.holder in now.actors && now.actors[now.holder].Exec? && Holding(now.actors[now.holder].loop.pc)
    ensures l.pc.Finish? || l.pc.AskCas? || l.pc.SaveTool? || l.pc.SaveContinuation? ==>
              (Matches(now.row, now.row.area, {Running}, l.run.version) <==> !now.row.state.Cancelled?)
    ensures l.pc.Crashed? ==> MaxContinuations(l.ctx.overrides).None?
  {
    Reachable(reg, w, steps);
    assert ActorOk(reg, now, who, now.actors[who]);
    if l.pc.Finish? || l.pc.AskCas? || l.pc.SaveTool? || l.pc.SaveContinuation? {
      RefusedIffCancelled(now.row, l);
    }
  }

  lemma RefusedIffCancelled(row: Row, l: Loop)
    requires OwnOk(row, l) && (l.pc.Finish? || l.pc.AskCas? || l.pc.SaveTool? || l.pc.SaveContinuation?)
    ensures Matches(row, row.area, {Running}, l.run.version) <==> !row.state.Cancelled?
  {
  }

  /**
   An override that `int` cannot parse is read outside the loop's error
   handler. Exactly then the segment ends with the run still RUNNING and no
   `done`: the documented "never left running" fails on this input and holds on
   every other.
   */
  lemma UnparsableOverrideAbandonsTheRun(reg: Registry, w: World)
    requires Init(reg, w)
    ensures var now := Drive(reg, w, 0, 3);
            && now.row == w.row && now.row.state.Running?
            && 0 in now.actors && now.actors[0].Exec?
            && (now.actors[0].loop.pc.Crashed? <==> MaxContinuations(w.segments[0].ctx.overrides).None?)
            && (!now.actors[0].loop.pc.Crashed? ==> now.actors[0].loop.pc.Top?)
  {
    var Segment(ctx, granted) := w.segments[0];
    assert GrantedTools(reg, ctx) == Ok(granted);
    DriveStep(reg, w, 0, 0);
    DriveStep(reg, w, 0, 1);
    DriveStep(reg, w, 0, 2);
    var w1 := Drive(reg, w, 0, 1);
    var w2 := Drive(reg, w, 0, 2);
    assert w1.actors[0].loop.pc.Announce?;
    assert w2.actors[0].loop.pc.Enter? && w2.actors[0].loop.granted == granted;
  }

  /** `n` steps of one actor and nobody else. */
  function Drive(reg: Registry, w: World, who: nat, n: nat): World {
    if n == 0 then w else Next(reg, Drive(reg, w, who, n - 1), Act(who, Go))
  }

  lemma DriveStep(reg: Registry, w: World, who: nat, n: nat)
    ensures Drive(reg, w, who, 0) == w
    ensures Drive(reg, w, who, n + 1) == Next(reg, Drive(reg, w, who, n), Act(who, Go))
  {
  }

  // ---- What cancel and resume do

  /** The row a cancel writes: nothing but state, version and wait payload change. */
  function CancelledRow(row: Row): Row {
    row.(state := Cancelled, version := row.version + 1, wait := None)
  }

  /**
   A caller of cancel that has read `prior` cancels the run, text and history
   kept, if and only if the row is still what it read; else it changes nothing.
   */
  lemma CancelCancelsIff(reg: Registry, w: World, steps: seq<Step>, now: World, who: nat, prior: Row)
    requires Init(reg, w) && now == After(reg, w, steps)
    requires who in now.actors && now.actors[who] == CancelReady(prior)
    ensures var next := Next(reg, now, Act(who, Go));
            && (next.row.state.Cancelled? && next.row.version == now.row.version + 1 <==> now.row == prior)
            && next.row == (if now.row == prior then CancelledRow(now.row) else now.row)
            && next.events == now.events
            && next.actors == now.actors[who := if now.row == prior then CancelNote else Gone]
  {
    Reachable(reg, w, steps);
    assert ActorOk(reg, now, who, now.actors[who]);
  }

  /** Having cancelled, it logs `run_cancelled` and `done: cancelled`, one by one, whatever the others do in between. */
  lemma CancelAnnounces(reg: Registry, w: World, who: nat)
    requires who in w.actors && (w.actors[who] == CancelNote || w.actors[who] == CancelDone)
    ensures var next := Next(reg, w, Act(who, Go));
            && next.row == w.row
            && if w.actors[who] == CancelNote then
                 && next.events == w.events + [Activity("run_cancelled")]
                 && next.actors == w.actors[who := CancelDone]
               else
                 && next.events == w.events + [Done(Cancelled)]
                 && next.actors == w.actors[who := Gone]
  {
  }

  /** A cancel nobody interferes with cancels exactly the runs that are active. */
  lemma CancelAlone(reg: Registry, w: World, steps: seq<Step>, now: World, who: nat)
    requires Init(reg, w) && now == After(reg, w, steps) && who !in now.actors
    ensures var then_ := Drive(reg, Next(reg, now, CallCancel(who)), who, 4);
            if now.row.Active() then
              && then_.row == CancelledRow(now.row)
              && then_.events == now.events + [Activity("run_cancelled"), Done(Cancelled)]
            else then_.row == now.row && then_.events == now.events
  {
    var called := Next(reg, now, CallCancel(who));
    var w1 := Next(reg, called, Act(who, Go));
    DriveFour(reg, called, who);
    if now.row.Active() {
      assert w1.actors[who] == CancelReady(now.row) && w1.row == now.row;
      var w2 := Next(reg, w1, Act(who, Go));
      assert w2.row == CancelledRow(now.row) && w2.actors[who] == CancelNote;
      CancelAnnounces(reg, w2, who);
      CancelAnnounces(reg, Next(reg, w2, Act(who, Go)), who);
      assert now.events + [Activity("run_cancelled")] + [Done(Cancelled)]
             == now.events + [Activity("run_cancelled"), Done(Cancelled)];
    } else {
      assert w1.actors[who] == Gone;
    }
  }

  lemma DriveFour(reg: Registry, w: World, who: nat)
    ensures var w1 := Next(reg, w, Act(who, Go));
            var w2 := Next(reg, w1, Act(who, Go));
            var w3 := Next(reg, w2, Act(who, Go));
            && Drive(reg, w, who, 2) == w2
            && Drive(reg, w, who, 4) == Next(reg, w3, Act(who, Go))
  {
    DriveStep(reg, w, who, 0);
    DriveStep(reg, w, who, 1);
    DriveStep(reg, w, who, 2);
    DriveStep(reg, w, who, 3);
  }

  /**
   What a resume leaves: a RUNNING row whose history has the answer under the
   pending call's id and whose grant has lost what the caller's context no
   longer yields, and a loop that starts from both, in the caller's context but
   for the paused turn's selection and, if it had any, overrides.
   */
  predicate ResumedAs(reg: Registry, now: World, next: World, who: nat, ctx: Context, content: string)
    requires now.row.snap.Some? && now.row.wait.Some? && GrantedTools(reg, ctx).Ok?
  {
    var old_ := now.row.snap.value;
    var messages := old_.messages + [ToolResult(now.row.wait.value.callId, ASK_USER, content)];
    var granted := old_.granted * GrantedTools(reg, ctx).value;
    var overrides := if old_.overrides.NoOverrides? then ctx.overrides else old_.overrides;
    && next.row == now.row.(state := Running, version := now.row.version + 1, wait := None,
                            snap := Some(Snapshot(messages, granted, ctx.overrides, None)))
    && next.actors == now.actors[who := Exec(NewLoop(ctx.(selected := now.row.selected, overrides := overrides),
                                                     |now.segments|, now.row, messages, granted))]
    && next.holder == who && next.events == now.events
    && next.segments == now.segments + [Segment(ctx, GrantedTools(reg, ctx).value)]
  }

  lemma ReadyResumes(reg: Registry, w: World, who: nat, ctx: Context, content: string)
    requires HistoryRow(w.base, w.row) && w.row.state.Waiting? && GrantedTools(reg, ctx).Ok?
    requires who in w.actors && w.actors[who] == ResumeReady(w.row, ctx, content)
    ensures w.row.snap.Some? && w.row.wait.Some?
    ensures ResumedAs(reg, w, Next(reg, w, Act(who, Go)), who, ctx, content)
  {
  }

  /**
   A caller of resume that has read `prior` resumes the run if and only if the
   row is still what it read and its context yields a grant.
   */
  lemma ResumeResumesIff(reg: Registry, w: World, steps: seq<Step>, now: World, who: nat, prior: Row, ctx: Context,
                         content: string)
    requires Init(reg, w) && now == After(reg, w, steps)
    requires who in now.actors && now.actors[who] == ResumeReady(prior, ctx, content)
    ensures var next := Next(reg, now, Act(who, Go));
            && (next.row != now.row <==> now.row == prior && GrantedTools(reg, ctx).Ok?)
            && (next.row != now.row ==>
                  now.row.snap.Some? && now.row.wait.Some? && ResumedAs(reg, now, next, who, ctx, content))
            && (next.row == now.row ==> next == now.(actors := now.actors[who := Gone]))
  {
    Reachable(reg, w, steps);
    assert ActorOk(reg, now, who, now.actors[who]);
    if now.row == prior && GrantedTools(reg, ctx).Ok? {
      ReadyResumes(reg, now, who, ctx, content);
    }
  }

  lemma ResumedAside(reg: Registry, now: World, a: Actor, next: World, who: nat, ctx: Context, content: string)
    requires now.row.snap.Some? && now.row.wait.Some? && GrantedTools(reg, ctx).Ok?
    requires ResumedAs(reg, now.(actors := now.actors[who := a]), next, who, ctx, content)
    ensures ResumedAs(reg, now, next, who, ctx, content)
  {
  }

  /**
   A resume nobody interferes with resumes exactly the runs that wait, if the
   capability they were started for is still available and a grant can be computed.
   */
  lemma ResumeAlone(reg: Registry, w: World, steps: seq<Step>, now: World, who: nat, ctx: Context, content: string)
    requires Init(reg, w) && now == After(reg, w, steps) && who !in now.actors
    ensures var then_ := Drive(reg, Next(reg, now, CallResume(who, ctx, content)), who, 2);
            var resumes := && now.row.state.Waiting? && GrantedTools(reg, ctx).Ok?
                           && (now.row.selected != "" ==> ctx.CapabilityAvailable(now.row.selected));
            && (resumes ==> && now.row.snap.Some? && now.row.wait.Some?
                            && ResumedAs(reg, now, then_, who, ctx, content))
            && (!resumes ==> then_.row == now.row && then_.events == now.events && then_.holder == now.holder)
  {
    Reachable(reg, w, steps);
    var called := Next(reg, now, CallResume(who, ctx, content));
    var w1 := Next(reg, called, Act(who, Go));
    DriveFour(reg, called, who);
    if w1.actors[who] != Gone {
      assert w1 == now.(actors := now.actors[who := ResumeReady(now.row, ctx, content)]);
      ReadyResumes(reg, w1, who, ctx, content);
      ResumedAside(reg, now, w1.actors[who], Next(reg, w1, Act(who, Go)), who, ctx, content);
    }
  }

  /** Nobody is left who could announce anything, and nobody can become so. */
  predicate Silent(w: World) {
    Terminal(w.row.state) &&
    forall a :: a in w.actors ==> w.actors[a].CancelLook? || w.actors[a].ResumeLook? || w.actors[a].Gone?
  }

  lemma {:induction false} SilenceLasts(reg: Registry, w: World, steps: seq<Step>)
    requires Silent(w)
    ensures Silent(After(reg, w, steps))
    ensures After(reg, w, steps).row == w.row && After(reg, w, steps).events == w.events
  {
    if steps != [] {
      SilenceLasts(reg, w, steps[..|steps| - 1]);
    }
  }

  /**
   A restart fails the run it interrupts, its text and history kept, and leaves
   a run that waits or has ended as it is. The failure is silent: whatever is
   called afterwards, no event, not even a `done`, is ever logged for it.
   */
  lemma RestartFailsSilently(reg: Registry, w: World, more: seq<Step>)
    ensures var now := Next(reg, w, Restart);
            && now.events == w.events
            && now.row == (if w.row.state.Running? then
                             w.row.(state := Error, version := w.row.version + 1, wait := None)
                           else w.row)
            && (w.row.state.Running? ==>
                  After(reg, now, more).row == now.row && After(reg, now, more).events == w.events)
  {
    var now := Next(reg, w, Restart);
    if w.row.state.Running? {
      SilenceLasts(reg, now, more);
    }
  }

  /**
   Why recovery must not run beside a live loop: if it turns a RUNNING row into
   ERROR under a loop that is about to complete, the loop still announces
   "completed" for a row that says ERROR.
   */
  lemma RecoveryBesideALiveLoop(reg: Registry, w: World, who: nat)
    requires w.row.state.Running?
    requires who in w.actors && w.actors[who].Exec? && w.actors[who].loop.pc.Finish?
    requires w.actors[who].loop.run == w.row
    ensures var now := Drive(reg, w.(row := RestartStep(w).row), who, 4);
            && now.row.state.Error?
            && ResultEvent in now.events
            && Dones(now.events) == Dones(w.events) + [Completed]
  {
    var recovered := w.(row := RestartStep(w).row);
    var l := w.actors[who].loop;
    OnErrorRow(reg, recovered, who, l);
    var w1 := Next(reg, recovered, Act(who, Go));
    OnErrorRow(reg, w1, who, l.(pc := FinishRace));
    var w2 := Next(reg, w1, Act(who, Go));
    OnErrorRow(reg, w2, who, l.(pc := EmitResult));
    var w3 := Next(reg, w2, Act(who, Go));
    OnErrorRow(reg, w3, who, l.(pc := EmitDone));
    DriveStep(reg, recovered, who, 0);
    DriveStep(reg, recovered, who, 1);
    DriveStep(reg, recovered, who, 2);
    DriveStep(reg, recovered, who, 3);
    LogGrows(w2.events, Some(ResultEvent));
    LogGrows(w3.events, Some(Done(Completed)));
  }

  lemma OnErrorRow(reg: Registry, w: World, who: nat, l: Loop)
    requires w.row.state.Error? && who in w.actors && w.actors[who] == Exec(l)
    requires l.pc.Finish? || l.pc.FinishRace? || l.pc.EmitResult? || l.pc.EmitDone?
    ensures var w' := Next(reg, w, Act(who, Go));
            && w'.row == w.row && who in w'.actors
            && (l.pc.Finish? ==> w'.actors[who] == Exec(l.(pc := FinishRace)) && w'.events == w.events)
            && (l.pc.FinishRace? ==> w'.actors[who] == Exec(l.(pc := EmitResult)) && w'.events == w.events)
            && (l.pc.EmitResult? ==>
                  w'.actors[who] == Exec(l.(pc := EmitDone)) && w'.events == w.events + [ResultEvent])
            && (l.pc.EmitDone? ==> w'.events == w.events + [Done(Completed)])
  {
    assert Next(reg, w, Act(who, Go)) == Moved(w, who, Conclude(w.row, l));
  }
}
