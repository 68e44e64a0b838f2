/**
 The replan loop of the deep-solve executor (solve.py): a queue of plan steps
 that the model can replace while it is worked off. Model answers are oracles,
 numbered in the order they are asked for.
 */
module Solve {
  import opened Options

  datatype PlanStep = PlanStep(id: string, title: string, instruction: string)

  datatype Plan = Plan(steps: seq<PlanStep>, ready: bool)

  /** The parsed answer to one step; "" where it has no such field. */
  datatype Answer = Answer(status: string, summary: string)

  datatype Draft = Draft(title: string, instruction: string)

  datatype Record = Record(step: PlanStep, status: string, summary: string)

  datatype Solution = Solution(done: seq<Record>, replans: nat, partial: bool)

  datatype NotReady = NotReady

  function Clamp(n: int): nat {
    if n < 0 then 0 else if n > 3 then 3 else n
  }

  function Budget(own: int, requested: Option<int>): nat {
    Clamp(requested.Or(own))
  }

  /** What is asked for, or else the solver's own limit, from none up to three. */
  lemma BudgetIs(own: int, requested: Option<int>)
    ensures var n := if requested.Some? then requested.value else own;
            var budget := Budget(own, requested);
            budget <= 3 && (0 <= n <= 3 ==> budget == n) && (n < 0 ==> budget == 0) && (n > 3 ==> budget == 3)
  {
  }

  predicate Succeeds(a: Answer) {
    a.status == "completed" && a.summary != ""
  }

  predicate Usable(d: Draft) {
    d.title != "" && d.instruction != ""
  }

  /** The usable drafts of a revision, numbered by their place among all drafts. */
  function Revised(drafts: seq<Draft>, id: nat -> string): (steps: seq<PlanStep>)
    ensures steps == [] <==> forall d :: d in drafts ==> !Usable(d)
    ensures forall s :: s in steps ==> s.title != "" && s.instruction != ""
  {
    if drafts == [] then []
    else
      var n := |drafts| - 1;
      assert drafts == drafts[..n] + [drafts[n]];
      Revised(drafts[..n], id)
      + if Usable(drafts[n]) then [PlanStep(id(n + 1), drafts[n].title, drafts[n].instruction)] else []
  }

  /** The draft at place `n` has title and instruction, and the step is that. */
  predicate IsStepOf(drafts: seq<Draft>, id: nat -> string, n: nat, step: PlanStep) {
    && n < |drafts| && drafts[n].title != "" && drafts[n].instruction != ""
    && step == PlanStep(id(n + 1), drafts[n].title, drafts[n].instruction)
  }

  /** The steps of a revision are its drafts that have title and instruction, numbered by their place. */
  lemma {:induction false} RevisedAre(drafts: seq<Draft>, id: nat -> string, step: PlanStep)
    ensures step in Revised(drafts, id) <==> exists n: nat :: IsStepOf(drafts, id, n, step)
  {
    if drafts != [] {
      var m := |drafts| - 1;
      RevisedAre(drafts[..m], id, step);
      if n: nat :| IsStepOf(drafts[..m], id, n, step) {
        assert IsStepOf(drafts, id, n, step);
      }
      if n: nat :| IsStepOf(drafts, id, n, step) {
        assert n < m ==> IsStepOf(drafts[..m], id, n, step);
      }
      assert step in Revised(drafts, id) && step !in Revised(drafts[..m], id) ==> IsStepOf(drafts, id, m, step);
    }
  }

  /** They come in the order of the drafts: a longer revision begins with the steps of a shorter one. */
  lemma {:induction false} RevisedInOrder(drafts: seq<Draft>, id: nat -> string, n: nat)
    requires n <= |drafts|
    ensures Revised(drafts[..n], id) <= Revised(drafts, id)
    ensures |Revised(drafts, id)| <= |Revised(drafts[..n], id)| + |drafts| - n
  {
    if n < |drafts| {
      var m := |drafts| - 1;
      assert drafts[..m][..n] == drafts[..n];
      RevisedInOrder(drafts[..m], id, n);
    } else {
      assert drafts[..n] == drafts;
    }
  }

  /** The steps worked off: of each plan the first `cuts[i]`. */
  function Worked(plans: seq<seq<PlanStep>>, cuts: seq<nat>): seq<PlanStep>
    requires |plans| == |cuts| && forall i :: 0 <= i < |cuts| ==> cuts[i] <= |plans[i]|
  {
    if plans == [] then []
    else
      var n := |plans| - 1;
      Worked(plans[..n], cuts[..n]) + plans[n][..cuts[n]]
  }

  function StepsOf(done: seq<Record>): (steps: seq<PlanStep>)
    ensures |steps| == |done|
  {
    seq(|done|, i requires 0 <= i < |done| => done[i].step)
  }

  predicate AllCompleted(done: seq<Record>) {
    forall r :: r in done ==> r.status == "completed" && r.summary != ""
  }

  /** The plans followed: the given one, then each revision; a plan was left at a step that failed. */
  ghost predicate Follows(plans: seq<seq<PlanStep>>, cuts: seq<nat>, plan: Plan, revisions: nat -> seq<Draft>,
                          id: nat -> string)
  {
    && |plans| == |cuts| >= 1
    && plans[0] == plan.steps
    && (forall i :: 0 < i < |plans| ==> plans[i] == Revised(revisions(i - 1), id) && plans[i] != [])
    && (forall i :: 0 <= i < |plans| - 1 ==> cuts[i] < |plans[i]|)
    && cuts[|plans| - 1] <= |plans[|plans| - 1]|
  }

  /** `Worked` grows by the next step of the last plan. */
  lemma WorkedStep(plans: seq<seq<PlanStep>>, cuts: seq<nat>)
    requires |plans| == |cuts| >= 1 && forall i :: 0 <= i < |cuts| ==> cuts[i] <= |plans[i]|
    requires cuts[|cuts| - 1] < |plans[|cuts| - 1]|
    ensures var n := |cuts| - 1;
            Worked(plans, cuts[n := cuts[n] + 1]) == Worked(plans, cuts) + [plans[n][cuts[n]]]
  {
    var n := |cuts| - 1;
    assert cuts[n := cuts[n] + 1][..n] == cuts[..n];
    assert plans[n][..cuts[n] + 1] == plans[n][..cuts[n]] + [plans[n][cuts[n]]];
  }

  lemma WorkedRevision(plans: seq<seq<PlanStep>>, cuts: seq<nat>, next: seq<PlanStep>)
    requires |plans| == |cuts| && forall i :: 0 <= i < |cuts| ==> cuts[i] <= |plans[i]|
    ensures Worked(plans + [next], cuts + [0]) == Worked(plans, cuts)
  {
    assert (plans + [next])[..|plans|] == plans && (cuts + [0])[..|cuts|] == cuts;
  }

  /** The state of the loop: what is done is what the plans followed say, the queue is the rest of the last. */
  ghost predicate Working(plans: seq<seq<PlanStep>>, cuts: seq<nat>, queue: seq<PlanStep>, done: seq<Record>) {
    && |plans| == |cuts| >= 1
    && (forall i :: 0 <= i < |cuts| ==> cuts[i] <= |plans[i]|)
    && queue == plans[|plans| - 1][cuts[|plans| - 1]..]
    && AllCompleted(done) && StepsOf(done) == Worked(plans, cuts)
  }

  lemma FollowsOn(plans: seq<seq<PlanStep>>, cuts: seq<nat>, plan: Plan, revisions: nat -> seq<Draft>,
                  id: nat -> string)
    requires Follows(plans, cuts, plan, revisions, id) && cuts[|cuts| - 1] < |plans[|cuts| - 1]|
    ensures Follows(plans, cuts[|cuts| - 1 := cuts[|cuts| - 1] + 1], plan, revisions, id)
  {
  }

  lemma FollowsRevision(plans: seq<seq<PlanStep>>, cuts: seq<nat>, plan: Plan, revisions: nat -> seq<Draft>,
                        id: nat -> string, next: seq<PlanStep>)
    requires Follows(plans, cuts, plan, revisions, id) && cuts[|cuts| - 1] < |plans[|cuts| - 1]|
    requires next == Revised(revisions(|plans| - 1), id) && next != []
    ensures Follows(plans + [next], cuts + [0], plan, revisions, id)
  {
    var plans', cuts' := plans + [next], cuts + [0];
    forall i | 0 < i < |plans'|
      ensures plans'[i] == Revised(revisions(i - 1), id) && plans'[i] != []
    {
      if i < |plans| {
        assert plans'[i] == plans[i];
      }
    }
    forall i | 0 <= i < |plans'| - 1
      ensures cuts'[i] < |plans'[i]|
    {
      assert plans'[i] == plans[i] && cuts'[i] == cuts[i];
    }
  }

  /**
   Of the answers asked for so far `asks` are those that decided the recorded
   steps, in order; every other one was no success and led to a revision.
   */
  ghost predicate Decided(done: seq<Record>, asks: seq<nat>, asked: nat, answers: nat -> Answer) {
    && |asks| == |done|
    && (forall i, j :: 0 <= i < j < |asks| ==> asks[i] < asks[j])
    && (forall i :: 0 <= i < |asks| ==> asks[i] < asked && DecidedBy(done[i], answers(asks[i])))
    && forall n :: 0 <= n < asked && n !in asks ==> answers(n).status != "completed" || answers(n).summary == ""
  }

  /** A step is completed exactly if the answer says so and has a summary, which is recorded. */
  predicate DecidedBy(r: Record, a: Answer) {
    && r.summary == a.summary && (r.status == "completed" || r.status == "blocked")
    && (r.status == "completed" <==> a.status == "completed" && a.summary != "")
  }

  lemma DecidesStep(done: seq<Record>, asks: seq<nat>, asked: nat, answers: nat -> Answer, r: Record)
    requires Decided(done, asks, asked, answers) && DecidedBy(r, answers(asked))
    ensures Decided(done + [r], asks + [asked], asked + 1, answers)
  {
    assert forall n :: n in asks + [asked] <==> n in asks || n == asked;
  }

  lemma DecidesRevision(done: seq<Record>, asks: seq<nat>, asked: nat, answers: nat -> Answer)
    requires Decided(done, asks, asked, answers) && !Succeeds(answers(asked))
    ensures Decided(done, asks, asked + 1, answers)
  {
  }

  lemma Stops(plans: seq<seq<PlanStep>>, cuts: seq<nat>, queue: seq<PlanStep>, done: seq<Record>, summary: string)
    requires Working(plans, cuts, queue, done) && queue != []
    ensures Reports(plans, cuts, done + [Record(queue[0], "blocked", summary)], true)
  {
  }

  lemma Finishes(plans: seq<seq<PlanStep>>, cuts: seq<nat>, done: seq<Record>)
    requires Working(plans, cuts, [], done)
    ensures Reports(plans, cuts, done, false)
  {
  }

  lemma Completes(plans: seq<seq<PlanStep>>, cuts: seq<nat>, queue: seq<PlanStep>, done: seq<Record>, a: Answer)
    requires Working(plans, cuts, queue, done) && queue != [] && Succeeds(a)
    ensures var n := |cuts| - 1;
            Working(plans, cuts[n := cuts[n] + 1], queue[1..], done + [Record(queue[0], a.status, a.summary)])
  {
    WorkedStep(plans, cuts);
    assert StepsOf(done + [Record(queue[0], a.status, a.summary)]) == StepsOf(done) + [queue[0]];
  }

  lemma Replans(plans: seq<seq<PlanStep>>, cuts: seq<nat>, queue: seq<PlanStep>, done: seq<Record>,
                next: seq<PlanStep>)
    requires Working(plans, cuts, queue, done)
    ensures Working(plans + [next], cuts + [0], next, done)
  {
    WorkedRevision(plans, cuts, next);
  }

  /**
   What a solution says: the completed steps, in order, of the plans followed,
   and then one blocked step exactly when `partial`, namely the step at which
   the last plan stopped.
   */
  ghost predicate Reports(plans: seq<seq<PlanStep>>, cuts: seq<nat>, done: seq<Record>, partial: bool) {
    exists queue, completed ::
      && Working(plans, cuts, queue, completed)
      && if partial then queue != [] && exists summary :: done == completed + [Record(queue[0], "blocked", summary)]
         else queue == [] && done == completed
  }

  /** The state of the loop, with what it has asked for. */
  ghost predicate Loops(plans: seq<seq<PlanStep>>, cuts: seq<nat>, asks: seq<nat>, queue: seq<PlanStep>,
                        done: seq<Record>, plan: Plan, answers: nat -> Answer, revisions: nat -> seq<Draft>,
                        id: nat -> string)
  {
    && Follows(plans, cuts, plan, revisions, id) && Working(plans, cuts, queue, done)
    && Decided(done, asks, |done| + |plans| - 1, answers)
  }

  /** What a solution says of the plans followed and the answers asked for. */
  ghost predicate Tells(plans: seq<seq<PlanStep>>, cuts: seq<nat>, asks: seq<nat>, done: seq<Record>, partial: bool,
                        plan: Plan, answers: nat -> Answer, revisions: nat -> seq<Draft>, id: nat -> string)
  {
    && Follows(plans, cuts, plan, revisions, id) && Reports(plans, cuts, done, partial)
    && Decided(done, asks, |done| + |plans| - 1, answers)
  }

  lemma LoopStarts(plan: Plan, answers: nat -> Answer, revisions: nat -> seq<Draft>, id: nat -> string)
    ensures Loops([plan.steps], [0], [], plan.steps, [], plan, answers, revisions, id)
  {
    assert Worked([plan.steps][..0], [0][..0]) == [];
  }

  lemma LoopFinishes(plans: seq<seq<PlanStep>>, cuts: seq<nat>, asks: seq<nat>, done: seq<Record>, plan: Plan,
                     answers: nat -> Answer, revisions: nat -> seq<Draft>, id: nat -> string)
    requires Loops(plans, cuts, asks, [], done, plan, answers, revisions, id)
    ensures Tells(plans, cuts, asks, done, false, plan, answers, revisions, id)
  {
    Finishes(plans, cuts, done);
  }

  lemma LoopCompletes(plans: seq<seq<PlanStep>>, cuts: seq<nat>, asks: seq<nat>, queue: seq<PlanStep>,
                      done: seq<Record>, plan: Plan, answers: nat -> Answer, revisions: nat -> seq<Draft>,
                      id: nat -> string)
    requires Loops(plans, cuts, asks, queue, done, plan, answers, revisions, id) && queue != []
    requires Succeeds(answers(|done| + |plans| - 1))
    ensures var asked, n := |done| + |plans| - 1, |cuts| - 1;
            var r := Record(queue[0], answers(asked).status, answers(asked).summary);
            Loops(plans, cuts[n := cuts[n] + 1], asks + [asked], queue[1..], done + [r], plan, answers, revisions, id)
  {
    var asked := |done| + |plans| - 1;
    var a := answers(asked);
    Completes(plans, cuts, queue, done, a);
    FollowsOn(plans, cuts, plan, revisions, id);
    DecidesStep(done, asks, asked, answers, Record(queue[0], a.status, a.summary));
  }

  lemma LoopReplans(plans: seq<seq<PlanStep>>, cuts: seq<nat>, asks: seq<nat>, queue: seq<PlanStep>,
                    done: seq<Record>, plan: Plan, answers: nat -> Answer, revisions: nat -> seq<Draft>,
                    id: nat -> string)
    requires Loops(plans, cuts, asks, queue, done, plan, answers, revisions, id) && queue != []
    requires !Succeeds(answers(|done| + |plans| - 1))
    requires Revised(revisions(|plans| - 1), id) != []
    ensures var revised := Revised(revisions(|plans| - 1), id);
            Loops(plans + [revised], cuts + [0], asks, revised, done, plan, answers, revisions, id)
  {
    var revised := Revised(revisions(|plans| - 1), id);
    DecidesRevision(done, asks, |done| + |plans| - 1, answers);
    Replans(plans, cuts, queue, done, revised);
    FollowsRevision(plans, cuts, plan, revisions, id, revised);
  }

  lemma LoopStops(plans: seq<seq<PlanStep>>, cuts: seq<nat>, asks: seq<nat>, queue: seq<PlanStep>,
                  done: seq<Record>, plan: Plan, answers: nat -> Answer, revisions: nat -> seq<Draft>,
                  id: nat -> string)
    requires Loops(plans, cuts, asks, queue, done, plan, answers, revisions, id) && queue != []
    requires !Succeeds(answers(|done| + |plans| - 1))
    ensures var asked := |done| + |plans| - 1;
            var r := Record(queue[0], "blocked", answers(asked).summary);
            Tells(plans, cuts, asks + [asked], done + [r], true, plan, answers, revisions, id)
  {
    var asked := |done| + |plans| - 1;
    Stops(plans, cuts, queue, done, answers(asked).summary);
    DecidesStep(done, asks, asked, answers, Record(queue[0], "blocked", answers(asked).summary));
  }

  /**
   The loop of `solve` terminates for every model. A partial solution stopped
   because the budget was used up or because the revision asked for had no
   usable step; any other has worked off the last plan to its end.
   */
  method SolvePlan(plan: Plan, own: int, requested: Option<int>, answers: nat -> Answer,
                   revisions: nat -> seq<Draft>, id: nat -> string)
    returns (result: Result<Solution, NotReady>, ghost plans: seq<seq<PlanStep>>, ghost cuts: seq<nat>,
             ghost asks: seq<nat>)
    ensures result.Err? <==> !plan.ready
    ensures result.Ok? ==>
      var Solution(done, replans, partial) := result.value;
      && Tells(plans, cuts, asks, done, partial, plan, answers, revisions, id)
      && replans <= Budget(own, requested)
      && (!partial ==> |plans| == replans + 1)
      && (partial ==> || (|plans| == replans + 1 && replans == Budget(own, requested))
                      || (|plans| == replans && Revised(revisions(replans - 1), id) == []))
  {
    plans, cuts, asks := [plan.steps], [0], [];
    if !plan.ready {
      return Err(NotReady), plans, cuts, asks;
    }
    var budget := Budget(own, requested);
    var queue, done, replans, asked := plan.steps, [], 0, 0;
    LoopStarts(plan, answers, revisions, id);
    while queue != []
      invariant replans <= budget && |plans| == |cuts| == replans + 1 && asked == |done| + replans
      invariant Loops(plans, cuts, asks, queue, done, plan, answers, revisions, id)
      decreases budget - replans, |queue|
    {
      var s, answer := queue[0], answers(asked);
      if Succeeds(answer) {
        LoopCompletes(plans, cuts, asks, queue, done, plan, answers, revisions, id);
        asks, cuts := asks + [asked], cuts[replans := cuts[replans] + 1];
        queue, done, asked := queue[1..], done + [Record(s, answer.status, answer.summary)], asked + 1;
        continue;
      }
      if replans >= budget {
        LoopStops(plans, cuts, asks, queue, done, plan, answers, revisions, id);
        asks := asks + [asked];
        return Ok(Solution(done + [Record(s, "blocked", answer.summary)], replans, true)), plans, cuts, asks;
      }
      var revised := Revised(revisions(replans), id);
      if revised == [] {
        LoopStops(plans, cuts, asks, queue, done, plan, answers, revisions, id);
        asks := asks + [asked];
        return Ok(Solution(done + [Record(s, "blocked", answer.summary)], replans + 1, true)), plans, cuts, asks;
      }
      LoopReplans(plans, cuts, asks, queue, done, plan, answers, revisions, id);
      queue, plans, cuts := revised, plans + [revised], cuts + [0];
      replans, asked := replans + 1, asked + 1;
    }
    LoopFinishes(plans, cuts, asks, done, plan, answers, revisions, id);
    result := Ok(Solution(done, replans, false));
  }

  /** Every solution: its completed steps form a prefix, and `partial` says whether a blocked one follows. */
  lemma PartialIffBlocked(plans: seq<seq<PlanStep>>, cuts: seq<nat>, done: seq<Record>, partial: bool)
    requires Reports(plans, cuts, done, partial)
    ensures partial <==> !AllCompleted(done)
    ensures forall i :: 0 <= i < |done| - 1 ==> done[i].status == "completed"
    ensures partial ==> done != [] && done[|done| - 1].status == "blocked"
    ensures Worked(plans, cuts) == StepsOf(if partial then done[..|done| - 1] else done)
  {
    var queue, completed :| && Working(plans, cuts, queue, completed)
                            && if partial then queue != []
                                               && exists summary ::
                                                    done == completed + [Record(queue[0], "blocked", summary)]
                               else queue == [] && done == completed;
    if partial {
      assert done[..|done| - 1] == completed;
    }
  }

  /** Without a revision, a solution that is not partial is the given plan, step for step. */
  lemma UnrevisedIsThePlan(plans: seq<seq<PlanStep>>, cuts: seq<nat>, done: seq<Record>)
    requires Reports(plans, cuts, done, false) && |plans| == 1
    ensures StepsOf(done) == plans[0]
  {
    assert Worked(plans[..0], cuts[..0]) == [];
  }
}
