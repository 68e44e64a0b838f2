/**
 Maintenance spans across processes (maintenance.py, `maintenance_lock`): each
 process has its own reader/writer gate, and every span also takes an advisory
 file lock on a handle of its own. A thread acts in its innermost span only.
 */
module Spans {
  import opened Options
  import opened Gate

  datatype Who = Who(process: nat, thread: Thread)

  /**
   Asking for the file lock, inside, leaving (which first asks for the shared
   file lock, also after a timeout), and holding that until the handle closes.
   */
  datatype Phase = Asking | Inside | Leaving(locked: bool) | Closing

  /** `timed`: begun with a timeout, without which asking for the file lock has no deadline. */
  datatype Span = Span(mode: Mode, timed: bool, phase: Phase) {
    /** The mode in which the span's handle holds the file lock. */
    function Held(): Option<Mode> {
      match phase
      case Asking => None
      case Inside => Some(mode)
      case Leaving(locked) => if locked then Some(mode) else None
      case Closing => Some(Shared)
    }
  }

  /** The file handle of a thread's span at some depth. */
  datatype Handle = Handle(who: Who, depth: nat)

  datatype System = System(gates: map<nat, World>, spans: map<Who, seq<Span>>) {
    function GateOf(process: nat): World {
      if process in gates then gates[process] else START
    }

    /** The spans a thread is in, outermost first. */
    function Of(who: Who): seq<Span> {
      if who in spans then spans[who] else []
    }

    function Held(h: Handle): Option<Mode> {
      if h.depth < |Of(h.who)| then Of(h.who)[h.depth].Held() else None
    }

    function Top(who: Who): Span
      requires Of(who) != []
    {
      Of(who)[|Of(who)| - 1]
    }

    function WithGate(process: nat, gate: World): System {
      this.(gates := gates[process := gate])
    }

    function WithTop(who: Who, phase: Phase): System
      requires Of(who) != []
    {
      var n := |Of(who)| - 1;
      this.(spans := spans[who := Of(who)[..n] + [Of(who)[n].(phase := phase)]])
    }
  }

  predicate Compatible(held: Option<Mode>, mode: Mode) {
    held.Some? ==> held.value.Shared? && mode.Shared?
  }

  /** Is the file lock free for the handle of `who`'s innermost span? Handles exclude each other, whoever owns them. */
  ghost predicate Grantable(s: System, who: Who, mode: Mode)
    requires s.Of(who) != []
  {
    forall h: Handle :: h != Handle(who, |s.Of(who)| - 1) ==> Compatible(s.Held(h), mode)
  }

  datatype Step =
    | Begin(who: Who, mode: Mode, timed: bool)
    | Move(who: Who)
    | GiveUp(who: Who)   // the file lock is refused once more, and its deadline has passed
    | Unlock(who: Who)   // a conversion of the file lock gives up the old lock before it has the new one

  ghost function BeginSpan(s: System, who: Who, mode: Mode, timed: bool): System {
    var gate := s.GateOf(who.process);
    var spans := s.Of(who);
    if spans != [] && !s.Top(who).phase.Inside? then s
    else
      var s' := s.WithGate(who.process, Gate.Next(gate, Enter(who.thread, mode)));
      if Blocked(gate.gate, who.thread, mode) then s'
      else s'.(spans := s.spans[who := spans + [Span(mode, timed, Asking)]])
  }

  ghost function MoveSpan(s: System, who: Who): System
    requires s.Of(who) != []
  {
    match s.Top(who).phase
    case Asking => if Grantable(s, who, s.Top(who).mode) then s.WithTop(who, Inside) else s
    case Inside => s.WithTop(who, Leaving(true))
    case Leaving(_) => if Grantable(s, who, Shared) then s.WithTop(who, Closing) else s
    case Closing =>
      s.WithGate(who.process, Gate.Next(s.GateOf(who.process), Leave(who.thread)))
       .(spans := s.spans[who := s.Of(who)[..|s.Of(who)| - 1]])
  }

  ghost function Next(s: System, step: Step): System {
    if step.Begin? then BeginSpan(s, step.who, step.mode, step.timed)
    else if s.Of(step.who) == [] then s
    else
      match step
      case Move(who) => MoveSpan(s, who)
      case GiveUp(who) =>
        if s.Top(who).phase.Asking? && s.Top(who).timed && !Grantable(s, who, s.Top(who).mode) then
          s.WithTop(who, Leaving(false))
        else s
      case Unlock(who) => if s.Top(who).phase == Leaving(true) then s.WithTop(who, Leaving(false)) else s
  }

  ghost function After(s: System, steps: seq<Step>): System {
    if steps == [] then s else Next(After(s, steps[..|steps| - 1]), steps[|steps| - 1])
  }

  const NOBODY := System(map[], map[])

  // ---- What every run keeps

  function Modes(spans: seq<Span>): seq<Mode> {
    seq(|spans|, i requires 0 <= i < |spans| => spans[i].mode)
  }

  /** A thread in several spans is in the body of all but the innermost. */
  ghost predicate OuterInside(s: System) {
    forall who, k: nat :: k + 1 < |s.Of(who)| ==> s.Of(who)[k].phase.Inside?
  }

  /** Two handles hold the file lock at a time only if both hold it shared. */
  ghost predicate LocksAgree(s: System) {
    forall g: Handle, h: Handle :: g != h && s.Held(g).Some? && s.Held(h).Some? ==> s.Held(g).value.Shared?
  }

  /** Each process's gate means what it should of the spans of that process. */
  ghost predicate GatesAgree(s: System) {
    && (forall p :: Meaning(s.GateOf(p)))
    && forall who: Who :: s.GateOf(who.process).Stack(who.thread) == Modes(s.Of(who))
  }

  ghost predicate Ok(s: System) {
    OuterInside(s) && LocksAgree(s) && GatesAgree(s)
  }

  /** What the innermost span's handle holds after a step, the file lock may have granted it. */
  ghost predicate MayHold(s: System, who: Who, phase: Phase)
    requires s.Of(who) != []
  {
    var held := s.Top(who).(phase := phase).Held();
    held.None? || held == s.Top(who).Held() || Grantable(s, who, held.value)
  }

  lemma TopKeepsLocks(s: System, who: Who, phase: Phase)
    requires LocksAgree(s) && s.Of(who) != [] && MayHold(s, who, phase)
    ensures LocksAgree(s.WithTop(who, phase))
  {
    var s' := s.WithTop(who, phase);
    var top := Handle(who, |s.Of(who)| - 1);
    forall h: Handle | h != top
      ensures s'.Held(h) == s.Held(h)
    {
    }
    forall g: Handle, h: Handle | g != h && s'.Held(g).Some? && s'.Held(h).Some?
      ensures s'.Held(g).value.Shared?
    {
      if g == top && s'.Held(g) != s.Held(g) {
        assert Compatible(s.Held(h), s'.Held(g).value);
      } else if h == top && s'.Held(h) != s.Held(h) {
        assert Compatible(s.Held(g), s'.Held(h).value);
      } else {
        assert s.Held(g).Some? && s.Held(h).Some?;
      }
    }
  }

  lemma TopKeeps(s: System, who: Who, phase: Phase)
    requires Ok(s) && s.Of(who) != [] && MayHold(s, who, phase)
    ensures Ok(s.WithTop(who, phase))
  {
    var s' := s.WithTop(who, phase);
    TopKeepsLocks(s, who, phase);
    assert Modes(s'.Of(who)) == Modes(s.Of(who));
    assert forall p :: s'.GateOf(p) == s.GateOf(p);
    forall u: Who
      ensures s'.GateOf(u.process).Stack(u.thread) == Modes(s'.Of(u))
    {
      assert s.GateOf(u.process).Stack(u.thread) == Modes(s.Of(u));
    }
  }

  lemma BeginKeeps(s: System, who: Who, mode: Mode, timed: bool)
    requires Ok(s)
    ensures Ok(BeginSpan(s, who, mode, timed))
  {
    BeginKeepsGates(s, who, mode, timed);
    BeginKeepsSpans(s, who, mode, timed);
  }

  lemma BeginKeepsSpans(s: System, who: Who, mode: Mode, timed: bool)
    requires OuterInside(s) && LocksAgree(s)
    ensures OuterInside(BeginSpan(s, who, mode, timed)) && LocksAgree(BeginSpan(s, who, mode, timed))
  {
    var s' := BeginSpan(s, who, mode, timed);
    forall h: Handle
      ensures s'.Held(h) == s.Held(h)
    {
    }
    forall u, k: nat | k + 1 < |s'.Of(u)|
      ensures s'.Of(u)[k].phase.Inside?
    {
      assert k + 1 < |s.Of(u)| ==> s.Of(u)[k].phase.Inside?;
    }
  }

  lemma BeginKeepsGates(s: System, who: Who, mode: Mode, timed: bool)
    requires GatesAgree(s)
    ensures GatesAgree(BeginSpan(s, who, mode, timed))
  {
    var s' := BeginSpan(s, who, mode, timed);
    var gate := s.GateOf(who.process);
    EnterKeeps(gate, who.thread, mode);
    forall p
      ensures Meaning(s'.GateOf(p))
    {
      assert Meaning(s.GateOf(p));
    }
    forall u: Who
      ensures s'.GateOf(u.process).Stack(u.thread) == Modes(s'.Of(u))
    {
      assert s.GateOf(u.process).Stack(u.thread) == Modes(s.Of(u));
      if u == who {
        assert Modes(s.Of(who) + [Span(mode, timed, Asking)]) == Modes(s.Of(who)) + [mode];
      }
    }
  }

  lemma CloseKeeps(s: System, who: Who)
    requires Ok(s) && s.Of(who) != [] && s.Top(who).phase.Closing?
    ensures Ok(MoveSpan(s, who))
  {
    CloseKeepsGates(s, who);
    CloseKeepsSpans(s, who);
  }

  lemma CloseKeepsSpans(s: System, who: Who)
    requires OuterInside(s) && LocksAgree(s) && s.Of(who) != [] && s.Top(who).phase.Closing?
    ensures OuterInside(MoveSpan(s, who)) && LocksAgree(MoveSpan(s, who))
  {
    var s' := MoveSpan(s, who);
    forall h: Handle | s'.Held(h).Some?
      ensures s'.Held(h) == s.Held(h)
    {
    }
    forall u, k: nat | k + 1 < |s'.Of(u)|
      ensures s'.Of(u)[k].phase.Inside?
    {
      assert s.Of(u)[k].phase.Inside?;
    }
  }

  lemma CloseKeepsGates(s: System, who: Who)
    requires GatesAgree(s) && s.Of(who) != [] && s.Top(who).phase.Closing?
    ensures GatesAgree(MoveSpan(s, who))
  {
    var s' := MoveSpan(s, who);
    assert s.GateOf(who.process).Stack(who.thread) == Modes(s.Of(who));
    LeaveKeeps(s.GateOf(who.process), who.thread);
    forall p
      ensures Meaning(s'.GateOf(p))
    {
      assert Meaning(s.GateOf(p));
    }
    forall u: Who
      ensures s'.GateOf(u.process).Stack(u.thread) == Modes(s'.Of(u))
    {
      assert s.GateOf(u.process).Stack(u.thread) == Modes(s.Of(u));
      if u == who {
        assert Modes(s'.Of(who)) == Modes(s.Of(who))[..|s.Of(who)| - 1];
      }
    }
  }

  lemma StepKeeps(s: System, step: Step)
    requires Ok(s)
    ensures Ok(Next(s, step))
  {
    if step.Begin? {
      BeginKeeps(s, step.who, step.mode, step.timed);
    } else if s.Of(step.who) != [] && Next(s, step) != s {
      var phase := s.Top(step.who).phase;
      if step.Move? && phase.Closing? {
        CloseKeeps(s, step.who);
      } else if step.Move? {
        TopKeeps(s, step.who, if phase.Asking? then Inside else if phase.Inside? then Leaving(true) else Closing);
      } else {
        TopKeeps(s, step.who, Leaving(false));
      }
    }
  }

  lemma {:induction false} RunKeeps(s: System, steps: seq<Step>)
    requires Ok(s)
    ensures Ok(After(s, steps))
  {
    if steps != [] {
      var n := |steps| - 1;
      RunKeeps(s, steps[..n]);
      StepKeeps(After(s, steps[..n]), steps[n]);
    }
  }

  lemma Reachable(steps: seq<Step>)
    ensures Ok(After(NOBODY, steps))
  {
    GateMeaning([]);
    assert forall who: Who :: NOBODY.Of(who) == [] && NOBODY.GateOf(who.process) == START;
    assert Modes([]) == [];
    RunKeeps(NOBODY, steps);
  }

  // ---- Exclusion

  predicate IsInside(s: System, h: Handle) {
    h.depth < |s.Of(h.who)| && s.Of(h.who)[h.depth].phase.Inside?
  }

  /**
   In every run, over any number of processes and threads, nested or not: in
   the body of an exclusive span nobody else is in the body of any span.
   */
  lemma ExclusiveSpanIsAlone(steps: seq<Step>, g: Handle, h: Handle)
    requires var s := After(NOBODY, steps);
             IsInside(s, g) && IsInside(s, h) && s.Of(g.who)[g.depth].mode.Exclusive?
    ensures g == h
  {
    Reachable(steps);
    var s := After(NOBODY, steps);
    assert s.Held(g) == Some(Exclusive) && s.Held(h).Some?;
  }

  /** When every span has ended, no handle holds the file lock and every gate is back at its initial values. */
  lemma AllEnded(steps: seq<Step>, process: nat, h: Handle)
    requires forall who :: After(NOBODY, steps).Of(who) == []
    ensures var s := After(NOBODY, steps);
            && s.GateOf(process).gate.readers == 0 && !s.GateOf(process).gate.writer
            && s.Held(h).None?
  {
    Reachable(steps);
    var gate := After(NOBODY, steps).GateOf(process);
    forall t
      ensures gate.Stack(t) == []
    {
      assert gate.Stack(t) == Modes(After(NOBODY, steps).Of(Who(process, t)));
    }
    assert forall t :: t in gate.stacks ==> gate.stacks[t] == gate.Stack(t);
    assert Outermost(gate, Shared) == {} && Outermost(gate, Exclusive) == {};
  }

  // ---- Who gets in, and out again

  /** Nobody of the process keeps an outermost span of this mode waiting at the gate. */
  ghost predicate GateFree(s: System, process: nat, mode: Mode) {
    forall t: Thread :: var spans := s.Of(Who(process, t)); spans == [] || (mode.Shared? && spans[0].mode.Shared?)
  }

  lemma GateIsFree(s: System, who: Who, mode: Mode)
    requires GatesAgree(s) && s.Of(who) == []
    ensures Blocked(s.GateOf(who.process).gate, who.thread, mode) <==> !GateFree(s, who.process, mode)
  {
    var gate := s.GateOf(who.process);
    assert Meaning(gate);
    BlockedMeans(gate, who.thread, mode);
    forall t: Thread
      ensures gate.Stack(t) == Modes(s.Of(Who(who.process, t)))
    {
      assert s.GateOf(Who(who.process, t).process).Stack(t) == Modes(s.Of(Who(who.process, t)));
    }
    if !GateFree(s, who.process, mode) {
      var t: Thread :| var spans := s.Of(Who(who.process, t));
                       spans != [] && !(mode.Shared? && spans[0].mode.Shared?);
      assert gate.Stack(t) != [] && (mode.Shared? ==> gate.Stack(t)[0] == Exclusive);
    }
  }

  /**
   In every run a thread that is in no span gets into one at once if and only if
   nobody of its process holds the gate against it and no handle of any process
   the file lock.
   */
  lemma FirstSpanEntersIff(before: seq<Step>, s: System, who: Who, mode: Mode, timed: bool)
    requires s == After(NOBODY, before) && s.Of(who) == []
    ensures Next(Next(s, Begin(who, mode, timed)), Move(who)).Of(who) == [Span(mode, timed, Inside)] <==>
            GateFree(s, who.process, mode) && forall h: Handle :: Compatible(s.Held(h), mode)
  {
    Reachable(before);
    GateIsFree(s, who, mode);
    var begun := Next(s, Begin(who, mode, timed));
    if GateFree(s, who.process, mode) {
      assert begun.Of(who) == [Span(mode, timed, Asking)];
      assert forall h: Handle :: begun.Held(h) == s.Held(h);
      assert s.Held(Handle(who, 0)) == None;
      assert Grantable(begun, who, mode) <==> forall h: Handle :: Compatible(s.Held(h), mode);
    } else {
      assert begun.Of(who) == [];
    }
  }

  /** `span` is the only one there is. */
  ghost predicate Alone(s: System, who: Who, span: Span) {
    s.Of(who) == [span] && forall u :: u != who ==> s.Of(u) == []
  }

  lemma LoneSpanMoves(s: System, who: Who, span: Span)
    requires Alone(s, who, span)
    ensures var s' := Next(s, Move(who));
            match span.phase
            case Asking => Alone(s', who, span.(phase := Inside))
            case Inside => Alone(s', who, span.(phase := Leaving(true)))
            case Leaving(_) => Alone(s', who, span.(phase := Closing))
            case Closing => forall u :: s'.Of(u) == []
  {
    forall h: Handle | h != Handle(who, 0)
      ensures s.Held(h) == None
    {
    }
    assert Grantable(s, who, span.mode) && Grantable(s, who, Shared);
    forall u | u != who
      ensures Next(s, Move(who)).Of(u) == s.Of(u)
    {
    }
  }

  /** A span begun while nobody is in any is entered, and left again, whatever its mode. */
  lemma LoneSpanPasses(before: seq<Step>, s: System, who: Who, mode: Mode, timed: bool)
    requires s == After(NOBODY, before) && forall u :: s.Of(u) == []
    ensures var begun := Next(s, Begin(who, mode, timed));
            && After(begun, Enters(who)).Of(who) == [Span(mode, timed, Inside)]
            && forall u :: After(begun, Passes(who)).Of(u) == []
  {
    Reachable(before);
    GateIsFree(s, who, mode);
    var begun := Next(s, Begin(who, mode, timed));
    assert Alone(begun, who, Span(mode, timed, Asking));
    LonePasses(begun, who, mode, timed);
  }

  lemma LonePasses(begun: System, who: Who, mode: Mode, timed: bool)
    requires Alone(begun, who, Span(mode, timed, Asking))
    ensures After(begun, Enters(who)).Of(who) == [Span(mode, timed, Inside)]
    ensures forall u :: After(begun, Passes(who)).Of(u) == []
  {
    AfterPasses(begun, who);
    LoneSpanMoves(begun, who, Span(mode, timed, Asking));
    var inside := Next(begun, Move(who));
    LoneSpanMoves(inside, who, Span(mode, timed, Inside));
    var leaving := Next(inside, Move(who));
    LoneSpanMoves(leaving, who, Span(mode, timed, Leaving(true)));
    LoneSpanMoves(Next(leaving, Move(who)), who, Span(mode, timed, Closing));
  }

  // ---- Why spans must not nest, and what a timeout is worth

  /** Does a span in mode `around` keep one of mode `mode` in its body waiting forever? */
  predicate Hopeless(around: Mode, mode: Mode, timed: bool) {
    around.Exclusive? || (mode.Exclusive? && !timed)
  }

  /** The innermost span of `who` waits for a lock that the span around it holds. */
  predicate Stuck(s: System, who: Who) {
    var n := |s.Of(who)| - 1;
    && n >= 1
    && s.Of(who)[n - 1].phase.Inside?
    && Hopeless(s.Of(who)[n - 1].mode, s.Top(who).mode, s.Top(who).timed)
    && (s.Top(who).phase.Asking? || (s.Of(who)[n - 1].mode.Exclusive? && s.Top(who).phase == Leaving(false)))
  }

  /** The innermost span of `who` is still there, and so is the one around it. */
  predicate SameAround(s: System, s': System, who: Who) {
    var n := |s.Of(who)|;
    n >= 2 && |s'.Of(who)| == n && s'.Of(who)[n - 2] == s.Of(who)[n - 2]
  }

  lemma StuckStays(s: System, who: Who, step: Step)
    requires Stuck(s, who)
    ensures Stuck(Next(s, step), who) && SameAround(s, Next(s, step), who)
  {
    var outer := Handle(who, |s.Of(who)| - 2);
    assert s.Held(outer) == Some(s.Of(who)[outer.depth].mode);
    assert forall mode :: !Compatible(s.Held(outer), mode) ==> !Grantable(s, who, mode);
    if step.who != who {
      assert Next(s, step).Of(who) == s.Of(who);
    }
  }

  lemma {:induction false} StuckForever(s: System, who: Who, steps: seq<Step>)
    requires Stuck(s, who)
    ensures Stuck(After(s, steps), who) && SameAround(s, After(s, steps), who)
  {
    if steps != [] {
      var n := |steps| - 1;
      StuckForever(s, who, steps[..n]);
      StuckStays(After(s, steps[..n]), who, steps[n]);
    }
  }

  /** A thread inside a span is never stopped by its own process's gate. */
  lemma GateLetsNest(s: System, who: Who, mode: Mode)
    requires GatesAgree(s) && s.Of(who) != []
    ensures !Blocked(s.GateOf(who.process).gate, who.thread, mode)
  {
    var gate := s.GateOf(who.process);
    assert Meaning(gate) && gate.Stack(who.thread) == Modes(s.Of(who));
    NoSpanNoCount(gate.Stack(who.thread));
  }

  /** A thread in a body begins another span: the gate lets it pass, and it asks for the file lock. */
  lemma NestedAsks(s: System, who: Who, mode: Mode, timed: bool)
    requires GatesAgree(s) && s.Of(who) != [] && s.Top(who).phase.Inside?
    ensures Next(s, Begin(who, mode, timed)).Of(who) == s.Of(who) + [Span(mode, timed, Asking)]
    ensures forall u :: u != who ==> Next(s, Begin(who, mode, timed)).Of(u) == s.Of(u)
  {
    GateLetsNest(s, who, mode);
  }

  /**
   The file lock a nested span asks for is the thread's own. In an exclusive
   body, with or without a timeout, and in a shared one if it asks exclusively
   without a timeout, it is still waiting after every further run.
   */
  lemma NestedIsStuck(s: System, who: Who, mode: Mode, timed: bool, steps: seq<Step>)
    requires GatesAgree(s) && s.Of(who) != [] && s.Top(who).phase.Inside?
    requires Hopeless(s.Top(who).mode, mode, timed)
    ensures var then_ := After(Next(s, Begin(who, mode, timed)), steps);
            Stuck(then_, who) && |then_.Of(who)| == |s.Of(who)| + 1
  {
    NestedAsks(s, who, mode, timed);
    var begun := Next(s, Begin(who, mode, timed));
    StuckForever(begun, who, steps);
  }

  /** And it takes the others with it: from then on no other thread gets into an exclusive body, if into any. */
  lemma StuckShutsOut(s: System, who: Who, steps: seq<Step>, h: Handle)
    requires Ok(s) && Stuck(s, who)
    requires h.who != who && IsInside(After(s, steps), h)
    ensures After(s, steps).Of(h.who)[h.depth].mode.Shared?
    ensures s.Of(who)[|s.Of(who)| - 2].mode.Shared?
  {
    RunKeeps(s, steps);
    StuckForever(s, who, steps);
    HolderShutsOut(After(s, steps), who, h);
  }

  lemma HolderShutsOut(s: System, who: Who, h: Handle)
    requires LocksAgree(s) && Stuck(s, who) && h.who != who && IsInside(s, h)
    ensures s.Of(h.who)[h.depth].mode.Shared? && s.Of(who)[|s.Of(who)| - 2].mode.Shared?
  {
    var outer := Handle(who, |s.Of(who)| - 2);
    assert s.Held(outer) == Some(s.Of(who)[outer.depth].mode);
    assert s.Held(h) == Some(s.Of(h.who)[h.depth].mode);
  }

  /** While a handle holds the file lock shared, no other one holds it exclusively. */
  lemma SharedHoldGrantsShared(s: System, who: Who, holder: Handle)
    requires LocksAgree(s) && s.Of(who) != [] && s.Held(holder) == Some(Shared)
    ensures Grantable(s, who, Shared)
  {
    forall h: Handle | h != Handle(who, |s.Of(who)| - 1)
      ensures Compatible(s.Held(h), Shared)
    {
      if h != holder && s.Held(h).Some? {
        assert s.Held(holder).Some?;
      }
    }
  }

  /** Gives up, waits for the clean-up's lock and closes. */
  function GivesUp(who: Who): seq<Step> {
    [] + [GiveUp(who)] + [Move(who)] + [Move(who)]
  }

  /** Gets in, leaves, and closes. */
  function Passes(who: Who): seq<Step> {
    [] + [Move(who)] + [Move(who)] + [Move(who)] + [Move(who)]
  }

  function Enters(who: Who): seq<Step> {
    [] + [Move(who)]
  }

  lemma AfterOne(s: System, steps: seq<Step>, step: Step)
    ensures After(s, steps + [step]) == Next(After(s, steps), step)
  {
    assert (steps + [step])[..|steps + [step]| - 1] == steps;
  }

  lemma AfterGivesUp(s: System, who: Who)
    ensures After(s, GivesUp(who)) == Next(Next(Next(s, GiveUp(who)), Move(who)), Move(who))
  {
    assert After(s, []) == s;
    AfterOne(s, [], GiveUp(who));
    AfterOne(s, [] + [GiveUp(who)], Move(who));
    AfterOne(s, [] + [GiveUp(who)] + [Move(who)], Move(who));
  }

  lemma AfterPasses(s: System, who: Who)
    ensures After(s, Enters(who)) == Next(s, Move(who))
    ensures After(s, Passes(who)) == Next(Next(Next(Next(s, Move(who)), Move(who)), Move(who)), Move(who))
  {
    assert After(s, []) == s;
    AfterOne(s, [], Move(who));
    AfterOne(s, Enters(who), Move(who));
    AfterOne(s, Enters(who) + [Move(who)], Move(who));
    AfterOne(s, Enters(who) + [Move(who)] + [Move(who)], Move(who));
  }

  /** From the clean-up on, in a shared body. */
  lemma CleanUpEnds(s: System, who: Who, body: seq<Span>, span: Span)
    requires LocksAgree(s) && s.Of(who) == body + [span] && span.phase.Leaving?
    requires body != [] && body[|body| - 1].phase.Inside? && body[|body| - 1].mode.Shared?
    ensures Next(Next(s, Move(who)), Move(who)).Of(who) == body
  {
    SharedHoldGrantsShared(s, who, Handle(who, |body| - 1));
    assert s.Of(who)[..|body|] == body;
    var closing := Next(s, Move(who));
    assert closing.Of(who) == body + [span.(phase := Closing)];
    assert closing.Of(who)[..|body|] == body;
  }

  /** In a shared body a nested exclusive span with a timeout gives up and gets out again. */
  lemma NestedTimesOut(s: System, who: Who)
    requires Ok(s) && s.Of(who) != [] && s.Top(who).phase.Inside? && s.Top(who).mode.Shared?
    ensures After(Next(s, Begin(who, Exclusive, true)), GivesUp(who)).Of(who) == s.Of(who)
  {
    NestedAsks(s, who, Exclusive, true);
    BeginKeeps(s, who, Exclusive, true);
    var begun, body := Next(s, Begin(who, Exclusive, true)), s.Of(who);
    AfterGivesUp(begun, who);
    assert begun.Held(Handle(who, |body| - 1)) == Some(Shared);
    assert !Compatible(begun.Held(Handle(who, |body| - 1)), Exclusive);
    assert begun.Of(who)[..|body|] == body;
    var gone := Next(begun, GiveUp(who));
    assert gone.Of(who) == body + [Span(Exclusive, true, Leaving(false))];
    StepKeeps(begun, GiveUp(who));
    CleanUpEnds(gone, who, body, Span(Exclusive, true, Leaving(false)));
  }

  lemma AskerGetsIn(s: System, who: Who, body: seq<Span>, timed: bool)
    requires LocksAgree(s) && s.Of(who) == body + [Span(Shared, timed, Asking)]
    requires body != [] && body[|body| - 1].phase.Inside? && body[|body| - 1].mode.Shared?
    ensures Next(s, Move(who)).Of(who) == body + [Span(Shared, timed, Inside)]
  {
    SharedHoldGrantsShared(s, who, Handle(who, |body| - 1));
    assert s.Of(who)[..|body|] == body;
  }

  /** In a shared body a nested shared span gets in. */
  lemma NestedSharedGetsIn(s: System, who: Who, timed: bool)
    requires Ok(s) && s.Of(who) != [] && s.Top(who).phase.Inside? && s.Top(who).mode.Shared?
    ensures After(Next(s, Begin(who, Shared, timed)), Enters(who)).Of(who) ==
            s.Of(who) + [Span(Shared, timed, Inside)]
  {
    NestedAsks(s, who, Shared, timed);
    BeginKeeps(s, who, Shared, timed);
    var begun := Next(s, Begin(who, Shared, timed));
    AfterPasses(begun, who);
    AskerGetsIn(begun, who, s.Of(who), timed);
  }

  /** And out again. */
  lemma NestedSharedPasses(s: System, who: Who, timed: bool)
    requires Ok(s) && s.Of(who) != [] && s.Top(who).phase.Inside? && s.Top(who).mode.Shared?
    ensures After(Next(s, Begin(who, Shared, timed)), Passes(who)).Of(who) == s.Of(who)
  {
    var begun, body := Next(s, Begin(who, Shared, timed)), s.Of(who);
    NestedSharedGetsIn(s, who, timed);
    AfterPasses(begun, who);
    BeginKeeps(s, who, Shared, timed);
    var inside := Next(begun, Move(who));
    StepKeeps(begun, Move(who));
    StepKeeps(inside, Move(who));
    assert inside.Of(who)[..|body|] == body;
    var leaving := Next(inside, Move(who));
    assert leaving.Of(who) == body + [Span(Shared, timed, Leaving(true))];
    CleanUpEnds(leaving, who, body, Span(Shared, timed, Leaving(true)));
  }

  /** Some continuation takes the thread back to the body it was in. */
  ghost predicate CanEnd(begun: System, who: Who, body: seq<Span>) {
    exists steps :: After(begun, steps).Of(who) == body
  }

  /** Some continuation takes the thread into the body of its new span. */
  ghost predicate CanEnter(begun: System, who: Who, body: seq<Span>, mode: Mode, timed: bool) {
    exists steps :: After(begun, steps).Of(who) == body + [Span(mode, timed, Inside)]
  }

  /**
   Which nested spans can end? In every run a span begun in a body has a
   continuation in which it ends if and only if the innermost span around it is
   shared, and it is itself shared or has a timeout.
   */
  lemma NestedCanEndIff(before: seq<Step>, s: System, who: Who, mode: Mode, timed: bool)
    requires s == After(NOBODY, before) && s.Of(who) != [] && s.Top(who).phase.Inside?
    ensures CanEnd(Next(s, Begin(who, mode, timed)), who, s.Of(who)) <==>
            s.Top(who).mode.Shared? && (mode.Shared? || timed)
  {
    Reachable(before);
    var begun := Next(s, Begin(who, mode, timed));
    if Hopeless(s.Top(who).mode, mode, timed) {
      forall steps
        ensures After(begun, steps).Of(who) != s.Of(who)
      {
        NestedIsStuck(s, who, mode, timed, steps);
      }
    } else if mode.Shared? {
      NestedSharedPasses(s, who, timed);
    } else {
      NestedTimesOut(s, who);
    }
  }

  /** And which can be entered? If and only if that one and the new one are both shared: no upgrade ever gets in. */
  lemma NestedCanEnterIff(before: seq<Step>, s: System, who: Who, mode: Mode, timed: bool)
    requires s == After(NOBODY, before) && s.Of(who) != [] && s.Top(who).phase.Inside?
    ensures CanEnter(Next(s, Begin(who, mode, timed)), who, s.Of(who), mode, timed) <==>
            s.Top(who).mode.Shared? && mode.Shared?
  {
    Reachable(before);
    BeginKeeps(s, who, mode, timed);
    var begun := Next(s, Begin(who, mode, timed));
    if s.Top(who).mode.Shared? && mode.Shared? {
      NestedSharedGetsIn(s, who, timed);
    } else {
      forall steps
        ensures After(begun, steps).Of(who) != s.Of(who) + [Span(mode, timed, Inside)]
      {
        EnteredAreShared(begun, who, s.Of(who), Span(mode, timed, Inside), steps);
      }
    }
  }

  lemma EnteredAreShared(begun: System, who: Who, body: seq<Span>, span: Span, steps: seq<Step>)
    requires Ok(begun) && body != [] && span.phase.Inside?
    ensures After(begun, steps).Of(who) == body + [span] ==>
              body[|body| - 1].mode.Shared? && span.mode.Shared?
  {
    RunKeeps(begun, steps);
    var then_ := After(begun, steps);
    if then_.Of(who) == body + [span] {
      AllBodiesShared(then_, who, |body|);
      AllBodiesShared(then_, who, |body| - 1);
    }
  }

  /** The gate grants an upgrade, the file lock never does: in nested bodies all spans are shared. */
  lemma NestedBodiesAreShared(steps: seq<Step>, who: Who, k: nat)
    requires var s := After(NOBODY, steps);
             |s.Of(who)| >= 2 && s.Top(who).phase.Inside? && k < |s.Of(who)|
    ensures After(NOBODY, steps).Of(who)[k].mode.Shared?
  {
    Reachable(steps);
    AllBodiesShared(After(NOBODY, steps), who, k);
  }

  lemma AllBodiesShared(s: System, who: Who, k: nat)
    requires OuterInside(s) && LocksAgree(s)
    requires |s.Of(who)| >= 2 && s.Top(who).phase.Inside? && k < |s.Of(who)|
    ensures s.Of(who)[k].mode.Shared?
  {
    var n := |s.Of(who)| - 1;
    var g, h := Handle(who, k), Handle(who, if k == n then n - 1 else n);
    assert s.Of(who)[n - 1].phase.Inside? && (k < n ==> s.Of(who)[k].phase.Inside?);
    assert s.Held(g).Some? && s.Held(h).Some?;
  }

  ghost predicate NobodyElseExclusive(s: System, who: Who)
    requires s.Of(who) != []
  {
    forall h: Handle :: h != Handle(who, |s.Of(who)| - 1) ==> s.Held(h) != Some(Exclusive)
  }

  /**
   A span that has timed out on the file lock gets out by itself if and only if
   no other handle holds the lock exclusively: its clean-up asks for the shared
   lock, without a deadline.
   */
  lemma TimedOutGetsOutIff(s: System, who: Who)
    requires s.Of(who) != [] && s.Top(who).phase == Leaving(false)
    ensures Next(Next(s, Move(who)), Move(who)).Of(who) == s.Of(who)[..|s.Of(who)| - 1] <==>
            NobodyElseExclusive(s, who)
  {
    var n := |s.Of(who)| - 1;
    var closing := Next(s, Move(who));
    if NobodyElseExclusive(s, who) {
      forall h: Handle | h != Handle(who, n)
        ensures Compatible(s.Held(h), Shared)
      {
        assert s.Held(h) != Some(Exclusive);
      }
      assert closing.Of(who) == s.Of(who)[..n] + [s.Top(who).(phase := Closing)];
      assert closing.Of(who)[..n] == s.Of(who)[..n];
    } else {
      var h: Handle :| h != Handle(who, n) && s.Held(h) == Some(Exclusive);
      assert !Compatible(s.Held(h), Shared);
      assert closing == s;
    }
  }

  /** It outlasts the holder: it is still there after every run in which an exclusive body elsewhere is not left. */
  lemma {:induction false} TimedOutOutlastsHolder(s: System, who: Who, holder: Handle, steps: seq<Step>)
    requires s.Of(who) != [] && s.Top(who).phase == Leaving(false)
    requires holder.who != who && s.Held(holder) == Some(Exclusive)
    requires forall step :: step in steps ==> step.who != holder.who
    ensures After(s, steps).Of(who) == s.Of(who) && After(s, steps).Of(holder.who) == s.Of(holder.who)
  {
    if steps != [] {
      var n := |steps| - 1;
      TimedOutOutlastsHolder(s, who, holder, steps[..n]);
      var then_ := After(s, steps[..n]);
      assert steps[n] in steps;
      assert then_.Held(holder) == Some(Exclusive);
      assert Next(then_, steps[n]).Of(holder.who) == then_.Of(holder.who);
      TimedOutStays(then_, who, holder, steps[n]);
    }
  }

  lemma TimedOutStays(s: System, who: Who, holder: Handle, step: Step)
    requires s.Of(who) != [] && s.Top(who).phase == Leaving(false)
    requires holder.who != who && s.Held(holder) == Some(Exclusive)
    ensures Next(s, step).Of(who) == s.Of(who)
  {
    assert !Compatible(s.Held(holder), Shared);
  }
}
