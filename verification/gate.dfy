/**
 The re-entrant in-process reader/writer gate of the maintenance lock
 (maintenance.py), with its per-thread counters.
 */
module Gate {

  datatype Mode = Shared | Exclusive

  datatype Counts = Counts(shared: int, exclusive: int)

  type Thread = nat

  /** `_readers`, `_writer` and `_thread_counts`. */
  datatype State = State(readers: int, writer: bool, counts: map<Thread, Counts>) {
    function Of(t: Thread): Counts {
      if t in counts then counts[t] else Counts(0, 0)
    }
  }

  const INITIAL := State(0, false, map[])

  predicate Fresh(c: Counts) {
    c.shared == 0 && c.exclusive == 0
  }

  /** Must `_acquire_in_process` wait? */
  predicate Blocked(g: State, t: Thread, mode: Mode) {
    Fresh(g.Of(t)) && (g.writer || (mode.Exclusive? && g.readers != 0))
  }

  /** `setdefault`: the entry that a waiting or timed-out thread leaves behind. */
  function Registered(g: State, t: Thread): State {
    g.(counts := g.counts[t := g.Of(t)])
  }

  function Acquired(g: State, t: Thread, mode: Mode): State {
    var c := g.Of(t);
    match mode
    case Exclusive =>
      g.(writer := g.writer || Fresh(c), counts := g.counts[t := c.(exclusive := c.exclusive + 1)])
    case Shared =>
      g.(readers := if Fresh(c) then g.readers + 1 else g.readers,
         counts := g.counts[t := c.(shared := c.shared + 1)])
  }

  function Released(g: State, t: Thread, mode: Mode): State {
    var c := g.Of(t);
    var left := if mode.Exclusive? then c.(exclusive := c.exclusive - 1) else c.(shared := c.shared - 1);
    State(
      if mode.Shared? && Fresh(left) then g.readers - 1 else g.readers,
      if mode.Exclusive? && Fresh(left) then false else g.writer,
      if Fresh(left) then g.counts - {t} else if t in g.counts then g.counts[t := left] else g.counts)
  }

  // ---- Runs of any number of threads

  /** `stacks[t]`: the spans thread `t` is inside of, outermost first. */
  datatype World = World(gate: State, stacks: map<Thread, seq<Mode>>) {
    function Stack(t: Thread): seq<Mode> {
      if t in stacks then stacks[t] else []
    }
  }

  /** Leave ends the innermost span: context managers release in LIFO order. */
  datatype Step = Enter(t: Thread, mode: Mode) | Leave(t: Thread)

  function Next(w: World, s: Step): World {
    match s
    case Enter(t, mode) =>
      if Blocked(w.gate, t, mode) then w.(gate := Registered(w.gate, t))  // waits, or times out
      else World(Acquired(w.gate, t, mode), w.stacks[t := w.Stack(t) + [mode]])
    case Leave(t) =>
      var stack := w.Stack(t);
      if stack == [] then w
      else World(Released(w.gate, t, stack[|stack| - 1]), w.stacks[t := stack[..|stack| - 1]])
  }

  function After(w: World, steps: seq<Step>): World {
    if steps == [] then w else Next(After(w, steps[..|steps| - 1]), steps[|steps| - 1])
  }

  const START := World(INITIAL, map[])

  function Occurrences(stack: seq<Mode>, mode: Mode): nat {
    if stack == [] then 0
    else Occurrences(stack[..|stack| - 1], mode) + (if stack[|stack| - 1] == mode then 1 else 0)
  }

  /** The threads whose outermost span has the given mode. */
  function Outermost(w: World, mode: Mode): set<Thread> {
    set t | t in w.stacks && w.stacks[t] != [] && w.stacks[t][0] == mode
  }

  /** What the three module variables mean. */
  ghost predicate Meaning(w: World) {
    && (forall t :: w.gate.Of(t) ==
          Counts(Occurrences(w.Stack(t), Shared), Occurrences(w.Stack(t), Exclusive)))
    && w.gate.readers == |Outermost(w, Shared)|
    && (w.gate.writer <==> Outermost(w, Exclusive) != {})
    && (w.gate.writer ==> Outermost(w, Shared) == {} && |Outermost(w, Exclusive)| == 1)
  }

  lemma {:induction false} NoSpanNoCount(stack: seq<Mode>)
    ensures stack == [] <==> Occurrences(stack, Shared) == 0 && Occurrences(stack, Exclusive) == 0
  {
  }

  lemma Pushed(stack: seq<Mode>, mode: Mode, m: Mode)
    ensures Occurrences(stack + [mode], m) == Occurrences(stack, m) + (if mode == m then 1 else 0)
  {
    assert (stack + [mode])[..|stack|] == stack;
  }

  lemma WaitKeeps(w: World, t: Thread)
    requires Meaning(w)
    ensures Meaning(w.(gate := Registered(w.gate, t)))
  {
    var w' := w.(gate := Registered(w.gate, t));
    assert forall u :: w'.gate.Of(u) == w.gate.Of(u) && w'.Stack(u) == w.Stack(u);
    assert forall m :: Outermost(w', m) == Outermost(w, m);
  }

  lemma NestKeeps(w: World, t: Thread, mode: Mode)
    requires Meaning(w) && w.Stack(t) != []
    ensures Meaning(World(Acquired(w.gate, t, mode), w.stacks[t := w.Stack(t) + [mode]]))
  {
    var stack := w.Stack(t) + [mode];
    var w' := World(Acquired(w.gate, t, mode), w.stacks[t := stack]);
    NoSpanNoCount(w.Stack(t));
    forall m
      ensures Occurrences(stack, m) == Occurrences(w.Stack(t), m) + (if mode == m then 1 else 0)
      ensures Outermost(w', m) == Outermost(w, m)
    {
      Pushed(w.Stack(t), mode, m);
      assert stack[0] == w.Stack(t)[0];
    }
    assert forall u :: u != t ==> w'.gate.Of(u) == w.gate.Of(u) && w'.Stack(u) == w.Stack(u);
  }

  lemma FirstKeeps(w: World, t: Thread, mode: Mode)
    requires Meaning(w) && w.Stack(t) == [] && !Blocked(w.gate, t, mode)
    ensures Meaning(World(Acquired(w.gate, t, mode), w.stacks[t := [mode]]))
  {
    var w' := World(Acquired(w.gate, t, mode), w.stacks[t := [mode]]);
    NoSpanNoCount([]);
    Pushed([], mode, Shared);
    Pushed([], mode, Exclusive);
    assert [] + [mode] == [mode];
    assert Outermost(w', mode) == Outermost(w, mode) + {t};
    assert forall m :: m != mode ==> Outermost(w', m) == Outermost(w, m);
    assert forall u :: u != t ==> w'.gate.Of(u) == w.gate.Of(u) && w'.Stack(u) == w.Stack(u);
  }

  lemma EnterKeeps(w: World, t: Thread, mode: Mode)
    requires Meaning(w)
    ensures Meaning(Next(w, Enter(t, mode)))
  {
    if Blocked(w.gate, t, mode) {
      WaitKeeps(w, t);
    } else if w.Stack(t) != [] {
      NestKeeps(w, t, mode);
    } else {
      assert [] + [mode] == [mode];
      FirstKeeps(w, t, mode);
    }
  }

  /** An inner span ends: the thread's outermost span stays. */
  lemma LeaveInner(w: World, t: Thread, w': World)
    requires Meaning(w) && |w.Stack(t)| > 1 && w' == Next(w, Leave(t))
    ensures Meaning(w')
  {
    var stack := w.Stack(t);
    var rest := stack[..|stack| - 1];
    NoSpanNoCount(rest);
    assert rest[0] == stack[0];
    forall m
      ensures Outermost(w', m) == Outermost(w, m)
    {
      forall u
        ensures u in Outermost(w', m) <==> u in Outermost(w, m)
      {
        assert w'.Stack(u) == if u == t then rest else w.Stack(u);
      }
    }
    assert forall u :: u != t ==> w'.gate.Of(u) == w.gate.Of(u) && w'.Stack(u) == w.Stack(u);
  }

  /** The outermost span ends: the thread is outside. */
  lemma LeaveLast(w: World, t: Thread, w': World)
    requires Meaning(w) && |w.Stack(t)| == 1 && w' == Next(w, Leave(t))
    ensures Meaning(w')
  {
    var mode := w.Stack(t)[0];
    assert w.Stack(t)[..0] == [];
    NoSpanNoCount([]);
    assert t in Outermost(w, mode);
    forall m
      ensures Outermost(w', m) == Outermost(w, m) - {t}
    {
      forall u
        ensures u in Outermost(w', m) <==> u in Outermost(w, m) && u != t
      {
        assert w'.Stack(u) == if u == t then [] else w.Stack(u);
      }
    }
    assert forall u :: u != t ==> w'.gate.Of(u) == w.gate.Of(u) && w'.Stack(u) == w.Stack(u);
    assert forall m :: m != mode ==> t !in Outermost(w, m);
    assert forall m :: m != mode ==> Outermost(w, m) - {t} == Outermost(w, m);
    assert |Outermost(w, mode) - {t}| == |Outermost(w, mode)| - 1;
  }

  lemma LeaveKeeps(w: World, t: Thread)
    requires Meaning(w) && w.Stack(t) != []
    ensures Meaning(Next(w, Leave(t)))
  {
    if |w.Stack(t)| == 1 {
      LeaveLast(w, t, Next(w, Leave(t)));
    } else {
      LeaveInner(w, t, Next(w, Leave(t)));
    }
  }

  /** Over every run the counters mean what they should, after timeouts and upgrades too. */
  lemma {:induction false} GateMeaning(steps: seq<Step>)
    ensures Meaning(After(START, steps))
  {
    if steps == [] {
      assert Outermost(START, Shared) == {} && Outermost(START, Exclusive) == {};
    } else {
      var n := |steps| - 1;
      GateMeaning(steps[..n]);
      var w := After(START, steps[..n]);
      match steps[n]
      case Enter(t, mode) => EnterKeeps(w, t, mode);
      case Leave(t) =>
        if w.Stack(t) != [] {
          LeaveKeeps(w, t);
        }
    }
  }

  ghost predicate OthersIdle(w: World, t: Thread) {
    forall u :: u != t ==> w.Stack(u) == []
  }

  lemma OnlyMember(s: set<Thread>, t: Thread)
    requires t in s && |s| == 1
    ensures s == {t}
  {
    assert |s - {t}| == 0;
  }

  lemma AloneInside(w: World, t: Thread)
    requires Meaning(w) && w.Stack(t) != [] && w.Stack(t)[0] == Exclusive
    ensures OthersIdle(w, t)
  {
    assert t in Outermost(w, Exclusive);
    OnlyMember(Outermost(w, Exclusive), t);
    forall u | u != t
      ensures w.Stack(u) == []
    {
      assert u !in Outermost(w, Shared) && u !in Outermost(w, Exclusive);
    }
  }

  /** A span whose thread entered exclusively first excludes every other thread. */
  lemma ExclusiveExcludes(steps: seq<Step>, t: Thread)
    requires var stack := After(START, steps).Stack(t); stack != [] && stack[0] == Exclusive
    ensures OthersIdle(After(START, steps), t)
  {
    GateMeaning(steps);
    AloneInside(After(START, steps), t);
  }

  /** A run in which `u` reads while `t` enters the spans `stack`. */
  function UpgradeRun(t: Thread, u: Thread, stack: seq<Mode>): seq<Step> {
    if stack == [] then [Enter(u, Shared)]
    else UpgradeRun(t, u, stack[..|stack| - 1]) + [Enter(t, stack[|stack| - 1])]
  }

  lemma {:induction false} UpgradeIsGranted(t: Thread, u: Thread, stack: seq<Mode>)
    requires t != u && (stack != [] ==> stack[0] == Shared)
    ensures var w := After(START, UpgradeRun(t, u, stack));
            w.Stack(t) == stack && w.Stack(u) == [Shared] && !w.gate.writer
  {
    var run := UpgradeRun(t, u, stack);
    if stack == [] {
      AfterOne(START, [], Enter(u, Shared));
      assert [] + [Enter(u, Shared)] == run;
    } else {
      var n := |stack| - 1;
      UpgradeIsGranted(t, u, stack[..n]);
      var before := UpgradeRun(t, u, stack[..n]);
      GateMeaning(before);
      assert stack == stack[..n] + [stack[n]];
      AfterOne(START, before, Enter(t, stack[n]));
      UpgradeEnters(After(START, before), t, u, stack[..n], stack[n]);
    }
  }

  lemma AfterOne(w: World, steps: seq<Step>, s: Step)
    ensures After(w, steps + [s]) == Next(After(w, steps), s)
  {
    assert (steps + [s])[..|steps + [s]| - 1] == steps;
  }

  lemma UpgradeEnters(w: World, t: Thread, u: Thread, stack: seq<Mode>, mode: Mode)
    requires t != u && Meaning(w) && w.Stack(t) == stack && w.Stack(u) == [Shared] && !w.gate.writer
    requires stack == [] ==> mode == Shared
    requires stack != [] ==> stack[0] == Shared
    ensures var w' := Next(w, Enter(t, mode));
            w'.Stack(t) == stack + [mode] && w'.Stack(u) == [Shared] && !w'.gate.writer
  {
    NoSpanNoCount(stack);
  }

  /**
   Exactly when does being inside the spans `stack` exclude every other
   thread, in every run? When the outermost of them is exclusive. An exclusive
   span nested in a shared one only bumps a counter and excludes nobody.
   */
  lemma ExclusionIffOutermostExclusive(t: Thread, u: Thread, stack: seq<Mode>)
    requires t != u && stack != []
    ensures (forall steps :: After(START, steps).Stack(t) == stack ==> OthersIdle(After(START, steps), t))
            <==> stack[0] == Exclusive
  {
    if stack[0] == Exclusive {
      forall steps | After(START, steps).Stack(t) == stack
        ensures OthersIdle(After(START, steps), t)
      {
        ExclusiveExcludes(steps, t);
      }
    } else {
      UpgradeIsGranted(t, u, stack);
      var w := After(START, UpgradeRun(t, u, stack));
      assert w.Stack(u) != [];
    }
  }

  /** When all spans have ended both fields are back at their initial values, whatever timed out on the way. */
  lemma AllEndedIsInitial(steps: seq<Step>)
    requires forall t :: After(START, steps).Stack(t) == []
    ensures After(START, steps).gate.readers == 0 && !After(START, steps).gate.writer
  {
    GateMeaning(steps);
    var w := After(START, steps);
    assert forall t :: t in w.stacks ==> w.Stack(t) == [];
    assert Outermost(w, Shared) == {} && Outermost(w, Exclusive) == {};
  }

  /**
   Who gets in: a thread inside a span always may nest; an outermost shared
   span waits exactly for a thread that entered exclusively, an outermost
   exclusive span exactly for any thread that is inside anything.
   */
  lemma WhoMustWait(steps: seq<Step>, t: Thread, mode: Mode)
    ensures var w := After(START, steps);
            Blocked(w.gate, t, mode) <==>
              && w.Stack(t) == []
              && exists u :: w.Stack(u) != [] && (mode.Shared? ==> w.Stack(u)[0] == Exclusive)
  {
    GateMeaning(steps);
    BlockedMeans(After(START, steps), t, mode);
  }

  lemma BlockedMeans(w: World, t: Thread, mode: Mode)
    requires Meaning(w)
    ensures Blocked(w.gate, t, mode) <==>
              && w.Stack(t) == []
              && exists u :: w.Stack(u) != [] && (mode.Shared? ==> w.Stack(u)[0] == Exclusive)
  {
    NoSpanNoCount(w.Stack(t));
    if w.gate.readers != 0 {
      var u :| u in Outermost(w, Shared);
      assert w.Stack(u) != [];
    }
    if w.gate.writer {
      var u :| u in Outermost(w, Exclusive);
      assert w.Stack(u) != [] && w.Stack(u)[0] == Exclusive;
    }
    forall u | w.Stack(u) != []
      ensures u in Outermost(w, Shared) || u in Outermost(w, Exclusive)
    {
    }
    assert w.gate.readers == 0 ==> Outermost(w, Shared) == {};
  }

  /**
   LIFO matters. In every run, if a thread in a shared span inside an exclusive
   one ended the outer span first, the count of readers would fall below its
   meaning and the writer's mark would stay for good: every thread that is in no
   span would wait, though nobody is in one.
   */
  lemma NonLifoReleaseCorrupts(steps: seq<Step>, t: Thread)
    requires After(START, steps).Stack(t) == [Exclusive, Shared]
    ensures var done := Released(Released(After(START, steps).gate, t, Exclusive), t, Shared);
            && done.readers == -1 && done.writer
            && forall u, mode: Mode :: Fresh(done.Of(u)) && Blocked(done, u, mode)
  {
    GateMeaning(steps);
    var w := After(START, steps);
    AloneInside(w, t);
    assert t in Outermost(w, Exclusive);
    assert Outermost(w, Shared) == {};
    assert Occurrences([Exclusive, Shared], Shared) == 1 && Occurrences([Exclusive, Shared], Exclusive) == 1 by {
      assert [] + [Exclusive] == [Exclusive] && [Exclusive] + [Shared] == [Exclusive, Shared];
      NoSpanNoCount([]);
      Pushed([], Exclusive, Shared);
      Pushed([], Exclusive, Exclusive);
      Pushed([Exclusive], Shared, Shared);
      Pushed([Exclusive], Shared, Exclusive);
    }
    NoSpanNoCount([]);
    forall u
      ensures Fresh(Released(Released(w.gate, t, Exclusive), t, Shared).Of(u))
    {
      if u != t {
        assert w.Stack(u) == [];
      }
    }
  }

  // ---- The gate object

  class ReaderWriterGate {
    var gate: State
    /** The `with` blocks each thread is inside of. */
    var stacks: map<Thread, seq<Mode>>

    function View(): World
      reads this
    {
      World(gate, stacks)
    }

    ghost predicate Valid()
      reads this
    {
      Meaning(View())
    }

    constructor ()
      ensures Valid() && View() == START
    {
      gate := INITIAL;
      stacks := map[];
      new;
      GateMeaning([]);
    }

    /** One pass through the condition variable: grant, or leave the caller waiting. */
    method TryAcquire(me: Thread, mode: Mode) returns (granted: bool)
      requires Valid()
      modifies this
      ensures Valid()
      ensures granted <==> !Blocked(old(gate), me, mode)
      ensures View() == Next(old(View()), Enter(me, mode))
    {
      EnterKeeps(View(), me, mode);
      ghost var goal := Next(View(), Enter(me, mode));
      var c := gate.Of(me);
      granted := false;
      if mode == Exclusive && c.exclusive == 0 && c.shared == 0 {
        if gate.readers != 0 || gate.writer {
          gate := gate.(counts := gate.counts[me := c]);
          assert View() == goal;
          return;
        }
        gate := gate.(writer := true, counts := gate.counts[me := c.(exclusive := c.exclusive + 1)]);
      } else if mode == Exclusive {
        gate := gate.(counts := gate.counts[me := c.(exclusive := c.exclusive + 1)]);
      } else if c.exclusive != 0 || c.shared != 0 {
        gate := gate.(counts := gate.counts[me := c.(shared := c.shared + 1)]);
      } else {
        if gate.writer {
          gate := gate.(counts := gate.counts[me := c]);
          assert View() == goal;
          return;
        }
        gate := gate.(readers := gate.readers + 1, counts := gate.counts[me := c.(shared := c.shared + 1)]);
      }
      stacks := stacks[me := View().Stack(me) + [mode]];
      granted := true;
      assert View() == goal;
    }

    /** Ends the innermost span of the caller, which names its mode. */
    method Release(me: Thread, mode: Mode)
      requires Valid()
      requires View().Stack(me) != [] && View().Stack(me)[|View().Stack(me)| - 1] == mode
      modifies this
      ensures Valid()
      ensures View() == Next(old(View()), Leave(me))
    {
      LeaveKeeps(View(), me);
      ghost var goal := Next(View(), Leave(me));
      NoSpanNoCount(View().Stack(me));
      var c := gate.Of(me);
      var readers, writer := gate.readers, gate.writer;
      if mode == Exclusive {
        c := c.(exclusive := c.exclusive - 1);
        if c.exclusive == 0 && c.shared == 0 {
          writer := false;
        }
      } else {
        c := c.(shared := c.shared - 1);
        if c.shared == 0 && c.exclusive == 0 {
          readers := readers - 1;
        }
      }
      var counts := gate.counts;
      if c.exclusive == 0 && c.shared == 0 {
        counts := counts - {me};
      } else {
        counts := counts[me := c];
      }
      gate := State(readers, writer, counts);
      stacks := stacks[me := View().Stack(me)[..|View().Stack(me)| - 1]];
      assert View() == goal;
    }

    /** The wait loop: while it is blocked, other threads run; a deadline ends it empty-handed. */
    method Acquire(me: Thread, mode: Mode, wakeups: seq<seq<Step>>) returns (granted: bool)
      requires Valid()
      requires forall k, s :: 0 <= k < |wakeups| && s in wakeups[k] ==> s.t != me
      modifies this
      ensures Valid()
      ensures View().Stack(me) == old(View()).Stack(me) + (if granted then [mode] else [])
      ensures !Blocked(old(gate), me, mode) ==> granted
      ensures old(View()).Stack(me) != [] ==> granted
    {
      NoSpanNoCount(View().Stack(me));
      granted := TryAcquire(me, mode);
      var k := 0;
      while !granted && k < |wakeups|
        invariant Valid() && 0 <= k <= |wakeups|
        invariant View().Stack(me) == old(View()).Stack(me) + (if granted then [mode] else [])
        invariant !Blocked(old(gate), me, mode) ==> granted
        invariant old(View()).Stack(me) != [] ==> granted
      {
        OthersRun(me, wakeups[k]);
        granted := TryAcquire(me, mode);
        k := k + 1;
      }
    }

    method OthersRun(ghost me: Thread, steps: seq<Step>)
      requires Valid()
      requires forall s :: s in steps ==> s.t != me
      modifies this
      ensures Valid() && View().Stack(me) == old(View()).Stack(me)
    {
      for i := 0 to |steps|
        invariant Valid() && View().Stack(me) == old(View()).Stack(me)
      {
        if steps[i].Enter? {
          var _ := TryAcquire(steps[i].t, steps[i].mode);
        } else {
          LeaveIfInside(steps[i].t);
        }
      }
    }

    method LeaveIfInside(t: Thread)
      requires Valid()
      modifies this
      ensures Valid() && View() == Next(old(View()), Leave(t))
    {
      var stack := View().Stack(t);
      if stack != [] {
        Release(t, stack[|stack| - 1]);
      }
    }
  }
}
