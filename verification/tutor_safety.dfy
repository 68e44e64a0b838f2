/**
 What every reachable world of the tutor protocol satisfies, for every
 schedule and every oracle. The invariant has one part per concern; the loop's
 own part (LoopOk) is kept by its own steps, phase by phase, and the other
 actors can disturb it only by making the row terminal.
 */
module TutorSafety {
  import opened Options
  import opened Grants
  import opened History
  import opened Store
  import opened Tutor

  // ---- Vocabulary

  /** The concatenation, in sequence order, of the answer text shown to the user. */
  function Shown(events: seq<Event>): string {
    if events == [] then ""
    else
      var before := Shown(events[..|events| - 1]);
      match events[|events| - 1]
      case AnswerDelta(text) => before + text
      case _ => before
  }

  function Dones(events: seq<Event>): seq<RunState> {
    if events == [] then []
    else
      var before := Dones(events[..|events| - 1]);
      match events[|events| - 1]
      case Done(state) => before + [state]
      case _ => before
  }

  /** The answer text a step shows. */
  function ShownBy(e: Option<Event>): string {
    if e.Some? && e.value.AnswerDelta? then e.value.text else ""
  }

  lemma LogGrows(events: seq<Event>, e: Option<Event>)
    ensures Shown(Logged(events, e)) == Shown(events) + ShownBy(e)
    ensures Dones(Logged(events, e)) ==
            if e.Some? && e.value.Done? then Dones(events) + [e.value.state] else Dones(events)
  {
    if e.Some? {
      assert (events + [e.value])[..|events|] == events;
    }
  }

  /** Program points at which the loop still acts as the owner of a RUNNING run. */
  predicate Holding(pc: Pc) {
    match pc
    case FinishReload | EmitResult | EmitDone => false
    case WaitReload(_) | EmitWait(_) => false
    case FailReload(won) => !won
    case EmitError | EmitErrorDone | Returned => false
    case _ => true
  }

  /** The terminal state an actor has put the row in and not yet announced with `done`. */
  function Settling(a: Actor): Option<RunState> {
    match a
    case CancelNote | CancelDone => Some(Cancelled)
    case Exec(l) =>
      (match l.pc
       case FinishReload | EmitResult | EmitDone => Some(Completed)
       case FailReload(won) => if won then Some(Error) else None
       case EmitError | EmitErrorDone => Some(Error)
       case _ => None)
    case _ => None
  }

  // ---- Ownership: who may write the row

  /** Points at which the loaded record must still be the row when the run is RUNNING. */
  predicate Fresh(pc: Pc) {
    match pc
    case Announce | Enter | SaveContinuation | Finish | AskCas(_) => true
    case ToolRun(_) | EmitSources(_, _) | NoteTool(_, _) | SaveTool(_) => true
    case _ => false
  }

  /**
   A holding loop sees its run RUNNING or CANCELLED, nothing else, and loses a
   compare-and-swap only to a cancel.
   */
  ghost predicate OwnOk(row: Row, l: Loop) {
    && WellIndexed(l)
    && (row.state.Running? || row.state.Cancelled?)
    && (row.state.Running? ==>
          && !l.pc.FinishRace? && !l.pc.WaitRace? && !l.pc.FailReload?
          && (Fresh(l.pc) ==> l.run == row)
          && (l.pc.FailCas? ==> l.pc.current == row))
  }

  ghost predicate OwnAfter(row: Row, l: Loop, out: Out) {
    && WellIndexed(out.loop)
    && (out.row == row || (row.state.Running? && out.row.version == row.version + 1))
    && (Holding(out.loop.pc) ==> OwnOk(out.row, out.loop))
    && (!Holding(out.loop.pc) ==> !out.row.state.Running?)
    && (out.row.state == row.state || !Terminal(out.row.state) ==> Settling(Exec(out.loop)) == None)
    && (out.row.state != row.state && Terminal(out.row.state) ==>
          Settling(Exec(out.loop)) == Some(out.row.state))
    && (out.emitted.Some? ==> !out.emitted.value.ResultEvent? && !out.emitted.value.ErrorEvent?
                              && !out.emitted.value.Done?)
    && out.loop.seg == l.seg
  }

  ghost predicate ConfigOk(l: Loop) {
    && (!Early(l.pc) && !l.pc.Crashed? ==> MaxContinuations(l.ctx.overrides).Some?)
    && (l.pc.Crashed? ==> MaxContinuations(l.ctx.overrides).None?)
  }

  predicate InRound(pc: Pc) {
    pc.Top? || pc.Asking? || pc.Deliver? || pc.Suppress? || pc.Completing?
  }

  predicate InFailure(pc: Pc) {
    pc.Fail? || pc.FailCas? || (pc.FailReload? && !pc.won)
  }

  lemma OwnPrologue(reg: Registry, row: Row, l: Loop)
    requires OwnOk(row, l) && ConfigOk(l) && Early(l.pc)
    ensures OwnAfter(row, l, Prologue(reg, row, l))
  {
  }

  lemma OwnRounds(reg: Registry, row: Row, l: Loop, choice: Choice)
    requires OwnOk(row, l) && ConfigOk(l) && InRound(l.pc)
    ensures OwnAfter(row, l, Round(reg, row, l, choice))
  {
  }

  lemma OwnDecisions(row: Row, l: Loop)
    requires OwnOk(row, l) && ConfigOk(l)
    ensures l.pc.Post? ==> OwnAfter(row, l, Decide(row, l))
    ensures l.pc.SaveContinuation? || l.pc.Finish? || l.pc.FinishRace? ==> OwnAfter(row, l, Conclude(row, l))
  {
  }

  lemma OwnFailings(row: Row, l: Loop)
    requires OwnOk(row, l) && ConfigOk(l) && InFailure(l.pc)
    ensures OwnAfter(row, l, Failing(row, l))
  {
  }

  lemma OwnBatchCalls(reg: Registry, row: Row, l: Loop, choice: Choice)
    requires OwnOk(row, l) && ConfigOk(l)
    requires l.pc.Batch? || l.pc.ToolRun? || l.pc.EmitSources? || l.pc.NoteTool?
    ensures OwnAfter(row, l, BatchStep(reg, row, l, choice))
  {
  }

  lemma OwnBatchWrites(reg: Registry, row: Row, l: Loop, choice: Choice)
    requires OwnOk(row, l) && ConfigOk(l)
    requires l.pc.SaveTool? || l.pc.AskCas? || l.pc.WaitRace?
    ensures OwnAfter(row, l, BatchStep(reg, row, l, choice))
  {
  }

  predicate InBatch(pc: Pc) {
    match pc
    case Batch(_) | ToolRun(_) | EmitSources(_, _) | NoteTool(_, _) | SaveTool(_) | AskCas(_) | WaitRace(_) => true
    case _ => false
  }

  lemma OwnershipStep(reg: Registry, row: Row, l: Loop, choice: Choice)
    requires Holding(l.pc) && OwnOk(row, l) && ConfigOk(l)
    ensures OwnAfter(row, l, LoopStep(reg, row, l, choice))
  {
    if Early(l.pc) {
      OwnPrologue(reg, row, l);
    } else if InRound(l.pc) {
      OwnRounds(reg, row, l, choice);
    } else if InFailure(l.pc) {
      OwnFailings(row, l);
    } else if l.pc.SaveTool? || l.pc.AskCas? || l.pc.WaitRace? {
      OwnBatchWrites(reg, row, l, choice);
    } else if InBatch(l.pc) {
      OwnBatchCalls(reg, row, l, choice);
    } else {
      OwnDecisions(row, l);
    }
  }

  predicate Early(pc: Pc) {
    pc.Reload? || pc.Announce? || pc.Enter?
  }

  // ---- Text: what the row persists and what the user was shown

  ghost predicate TextRow(row: Row, shown: string) {
    && row.text <= shown
    && (row.state.Waiting? || row.state.Completed? ==> row.text == shown)
  }

  /** Points behind a round: its chunks are in `accumulated`. */
  predicate Settled(pc: Pc) {
    match pc
    case Top | SaveContinuation | Finish | AskCas(_) | Batch(_) => true
    case ToolRun(_) | EmitSources(_, _) | NoteTool(_, _) | SaveTool(_) => true
    case _ => false
  }

  predicate Failed(pc: Pc) {
    pc.Fail? || pc.FailCas? || pc.FailReload? || pc.Crashed?
  }

  ghost predicate TextOk(row: Row, shown: string, l: Loop) {
    row.state.Running? ==>
      && (Early(l.pc) ==> row.text == shown)
      && (!Early(l.pc) && !Failed(l.pc) ==> l.accumulated + l.chunks == shown)
      && (Settled(l.pc) ==> l.chunks == "")
  }

  ghost predicate TextAfter(row: Row, shown: string, out: Out) {
    && TextRow(out.row, shown + ShownBy(out.emitted))
    && (Holding(out.loop.pc) ==> TextOk(out.row, shown + ShownBy(out.emitted), out.loop))
  }

  lemma TextPrologue(reg: Registry, row: Row, shown: string, l: Loop)
    requires OwnOk(row, l) && Early(l.pc)
    requires TextRow(row, shown) && TextOk(row, shown, l)
    ensures TextAfter(row, shown, Prologue(reg, row, l))
  {
    assert shown + "" == shown;
    assert l.run.text + "" == l.run.text;
  }

  lemma TextRounds(reg: Registry, row: Row, shown: string, l: Loop, choice: Choice)
    requires OwnOk(row, l) && InRound(l.pc)
    requires TextRow(row, shown) && TextOk(row, shown, l)
    ensures TextAfter(row, shown, Round(reg, row, l, choice))
  {
    var out := Round(reg, row, l, choice);
    assert out.row == row && out.loop.accumulated == l.accumulated;
    if l.pc.Deliver? {
      assert ShownBy(out.emitted) == l.pc.text;
      assert l.accumulated + (l.chunks + l.pc.text) == (l.accumulated + l.chunks) + l.pc.text;
    } else {
      assert ShownBy(out.emitted) == "" && shown + "" == shown;
    }
  }

  lemma TextRest(row: Row, shown: string, l: Loop)
    requires OwnOk(row, l)
    requires TextRow(row, shown) && TextOk(row, shown, l)
    ensures l.pc.Post? ==> TextAfter(row, shown, Decide(row, l))
    ensures l.pc.SaveContinuation? || l.pc.Finish? || l.pc.FinishRace? ==> TextAfter(row, shown, Conclude(row, l))
    ensures Failed(l.pc) && !l.pc.Crashed? && Holding(l.pc) ==> TextAfter(row, shown, Failing(row, l))
  {
    assert shown + "" == shown;
    assert l.accumulated + "" == l.accumulated;
    assert l.accumulated + l.chunks + "" == l.accumulated + l.chunks;
  }

  lemma TextBatch(reg: Registry, row: Row, shown: string, l: Loop, choice: Choice)
    requires OwnOk(row, l) && InBatch(l.pc)
    requires TextRow(row, shown) && TextOk(row, shown, l)
    ensures TextAfter(row, shown, BatchStep(reg, row, l, choice))
  {
    assert shown + "" == shown;
    assert l.accumulated + "" == l.accumulated;
  }

  lemma TextStep(reg: Registry, row: Row, shown: string, l: Loop, choice: Choice)
    requires Holding(l.pc) && OwnOk(row, l)
    requires TextRow(row, shown) && TextOk(row, shown, l)
    ensures TextAfter(row, shown, LoopStep(reg, row, l, choice))
  {
    assert shown + "" == shown;
    if Early(l.pc) {
      TextPrologue(reg, row, shown, l);
    } else if InRound(l.pc) {
      TextRounds(reg, row, shown, l, choice);
    } else if InBatch(l.pc) {
      TextBatch(reg, row, shown, l, choice);
    } else {
      TextRest(row, shown, l);
    }
  }

  // ---- History: what the persisted turn owes

  function Turn(base: seq<Message>, messages: seq<Message>): seq<Message>
    requires base <= messages
  {
    messages[|base|..]
  }

  ghost predicate Owes(base: seq<Message>, messages: seq<Message>, owed: seq<Call>) {
    base <= messages && Owed(Turn(base, messages)) == Some(owed)
  }

  ghost predicate Disciplined(base: seq<Message>, messages: seq<Message>) {
    base <= messages && Owed(Turn(base, messages)).Some?
  }

  /**
   A persisted history always reads as a disciplined turn; a waiting one owes
   exactly the pending `ask_user`, a completed one owes nothing.
   */
  ghost predicate HistoryRow(base: seq<Message>, row: Row) {
    && row.snap.Some?
    && Disciplined(base, row.snap.value.messages)
    && (row.wait.Some? <==> row.state.Waiting?)
    && (row.state.Waiting? ==>
          && Owes(base, row.snap.value.messages,
                  [Call(row.wait.value.callId, ASK_USER, row.wait.value.question)])
          && row.snap.value.pending == Some(row.wait.value.callId))
    && (row.state.Completed? ==> Owes(base, row.snap.value.messages, []))
  }

  /** What the history owes at each program point; None where nothing is claimed. */
  function OwedAt(l: Loop): Option<seq<Call>>
    requires WellIndexed(l)
  {
    match l.pc
    case Batch(i) => Some(Expected(l.calls[i..]))
    case ToolRun(i) => Some(Expected(l.calls[i..]))
    case EmitSources(i, _) => Some(Expected(l.calls[i..]))
    case NoteTool(i, _) => Some(Expected(l.calls[i..]))
    case SaveTool(i) => Some(Expected(l.calls[i + 1..]))
    case AskCas(i) => Some([l.calls[i]])
    case Fail | FailCas(_) | FailReload(_) | Crashed => None
    case WaitRace(_) => None
    case _ => Some([])
  }

  predicate CallOk(l: Loop)
    requires WellIndexed(l)
  {
    match l.pc
    case ToolRun(i) => l.calls[i].name != ASK_USER && l.calls[i].name in l.granted
    case EmitSources(i, _) => l.calls[i].name != ASK_USER
    case NoteTool(i, _) => l.calls[i].name != ASK_USER
    case AskCas(i) => l.calls[i].name == ASK_USER && ASK_USER in l.granted
    case _ => true
  }

  ghost predicate HistoryOk(base: seq<Message>, row: Row, l: Loop)
    requires WellIndexed(l)
  {
    && CallOk(l)
    && (OwedAt(l).Some? ==> Owes(base, l.messages, OwedAt(l).value))
    && (row.state.Running? && OwedAt(l).Some? ==> row.snap.Some? && row.snap.value.messages <= l.messages)
  }

  lemma OwesMore(base: seq<Message>, messages: seq<Message>, owed: seq<Call>, m: Message)
    requires Owes(base, messages, owed) && Settle(owed, m).Some?
    ensures Owes(base, messages + [m], Settle(owed, m).value)
  {
    assert Turn(base, messages + [m]) == Turn(base, messages) + [m];
    OwedAppend(Turn(base, messages), m);
  }

  ghost predicate HistoryAfter(base: seq<Message>, row: Row, out: Out) {
    && WellIndexed(out.loop)
    && HistoryRow(base, out.row)
    && row.snap.Some? && row.snap.value.messages <= out.row.snap.value.messages
    && (Holding(out.loop.pc) ==> HistoryOk(base, out.row, out.loop))
  }

  /** How a step touches the persisted history, without saying what the history means. */
  ghost predicate Effect(row: Row, l: Loop, out: Out)
    requires WellIndexed(l)
  {
    && WellIndexed(out.loop) && CallOk(out.loop)
    && (|| out.row == row
        || (row.state.Running? && out.row.state.Error? && out.row.snap == row.snap && out.row.wait.None?)
        || (&& row.state.Running? && OwedAt(l).Some?
            && out.row.snap.Some? && out.row.snap.value.messages == l.messages
            && (out.row.wait.None? ==>
                  out.row.state.Running? || (out.row.state.Completed? && OwedAt(l) == Some([])))
            && (out.row.wait.Some? ==>
                  && out.row.state.Waiting?
                  && OwedAt(l) == Some([Call(out.row.wait.value.callId, ASK_USER, out.row.wait.value.question)])
                  && out.row.snap.value.pending == Some(out.row.wait.value.callId))))
  }

  ghost predicate SameDebt(l: Loop, out: Out)
    requires WellIndexed(l) && WellIndexed(out.loop)
  {
    out.loop.messages == l.messages && (OwedAt(out.loop).None? || OwedAt(out.loop) == OwedAt(l))
  }

  lemma EffectRow(base: seq<Message>, row: Row, l: Loop, out: Out)
    requires WellIndexed(l) && Effect(row, l, out)
    requires HistoryRow(base, row) && HistoryOk(base, row, l)
    ensures HistoryRow(base, out.row)
    ensures row.snap.value.messages <= out.row.snap.value.messages
    ensures Holding(out.loop.pc) && SameDebt(l, out) ==> HistoryOk(base, out.row, out.loop)
  {
  }

  ghost predicate Tame(row: Row, l: Loop, out: Out)
    requires WellIndexed(l)
  {
    Effect(row, l, out) && (!l.pc.NoteTool? && Holding(out.loop.pc) ==> SameDebt(l, out))
  }

  lemma EffectPrologue(reg: Registry, row: Row, l: Loop)
    requires OwnOk(row, l) && ConfigOk(l) && Early(l.pc)
    ensures Tame(row, l, Prologue(reg, row, l))
  {
  }

  lemma EffectRounds(reg: Registry, row: Row, l: Loop, choice: Choice)
    requires OwnOk(row, l) && ConfigOk(l) && InRound(l.pc)
    ensures Tame(row, l, Round(reg, row, l, choice))
  {
    RoundFrame(reg, row, l, choice);
    assert OwedAt(l) == Some([]);
  }

  /** A model round touches neither row nor history nor grant. */
  lemma RoundFrame(reg: Registry, row: Row, l: Loop, choice: Choice)
    requires WellIndexed(l) && ConfigOk(l) && InRound(l.pc)
    ensures var out := Round(reg, row, l, choice);
            && out.row == row && out.ran == None
            && out.loop.messages == l.messages && out.loop.granted == l.granted
            && out.loop.ctx == l.ctx && out.loop.seg == l.seg
            && (InRound(out.loop.pc) || out.loop.pc.Post? || out.loop.pc.Fail? || out.loop.pc.Returned?)
  {
  }

  lemma EffectConclusions(row: Row, l: Loop)
    requires OwnOk(row, l) && ConfigOk(l) && row.wait.None?
    requires l.pc.SaveContinuation? || l.pc.Finish? || l.pc.FinishRace?
    ensures Tame(row, l, Conclude(row, l))
  {
  }

  lemma EffectFailings(row: Row, l: Loop)
    requires OwnOk(row, l) && ConfigOk(l) && InFailure(l.pc)
    ensures Tame(row, l, Failing(row, l))
  {
  }

  lemma HistoryDecision(base: seq<Message>, row: Row, l: Loop)
    requires OwnOk(row, l) && ConfigOk(l) && l.pc.Post?
    requires HistoryRow(base, row) && HistoryOk(base, row, l)
    ensures HistoryAfter(base, row, Decide(row, l))
  {
    var first, second := Plain("assistant", l.chunks), Plain("user", CONTINUE_PROMPT);
    OwesMore(base, l.messages, [], first);
    OwesMore(base, l.messages + [first], [], second);
    assert l.messages + [first] + [second] == l.messages + [first, second];
    OwesMore(base, l.messages, [], ToolCalls(l.narration, l.calls));
    assert l.calls[0..] == l.calls;
  }

  lemma EffectNextCall(reg: Registry, row: Row, l: Loop, choice: Choice)
    requires OwnOk(row, l) && l.pc.Batch?
    ensures Tame(row, l, BatchStep(reg, row, l, choice))
  {
    var out := BatchStep(reg, row, l, choice);
    assert out.row == row && out.loop.messages == l.messages && out.loop.calls == l.calls;
    if l.pc.i < |l.calls| {
      ExpectedStep(l.calls, l.pc.i);
    } else {
      assert l.calls[l.pc.i..] == [];
    }
  }

  lemma EffectRun(reg: Registry, row: Row, l: Loop, choice: Choice)
    requires OwnOk(row, l) && ConfigOk(l) && CallOk(l) && l.pc.ToolRun?
    ensures Tame(row, l, BatchStep(reg, row, l, choice))
  {
  }

  lemma EffectNote(reg: Registry, row: Row, l: Loop, choice: Choice)
    requires OwnOk(row, l) && ConfigOk(l) && CallOk(l) && (l.pc.EmitSources? || l.pc.NoteTool?)
    ensures Tame(row, l, BatchStep(reg, row, l, choice))
  {
  }

  lemma EffectRace(reg: Registry, row: Row, l: Loop, choice: Choice)
    requires OwnOk(row, l) && ConfigOk(l) && CallOk(l) && l.pc.WaitRace?
    ensures Tame(row, l, BatchStep(reg, row, l, choice))
  {
  }

  lemma EffectSave(reg: Registry, row: Row, l: Loop, choice: Choice)
    requires OwnOk(row, l) && ConfigOk(l) && CallOk(l) && row.wait.None?
    requires l.pc.SaveTool?
    ensures Tame(row, l, BatchStep(reg, row, l, choice))
  {
  }

  lemma EffectWait(reg: Registry, row: Row, l: Loop, choice: Choice)
    requires OwnOk(row, l) && ConfigOk(l) && CallOk(l) && row.wait.None?
    requires l.pc.AskCas?
    ensures Tame(row, l, BatchStep(reg, row, l, choice))
  {
  }

  lemma EffectBatch(reg: Registry, row: Row, l: Loop, choice: Choice)
    requires OwnOk(row, l) && ConfigOk(l) && CallOk(l) && InBatch(l.pc)
    requires l.pc.SaveTool? || l.pc.AskCas? ==> row.wait.None?
    ensures Tame(row, l, BatchStep(reg, row, l, choice))
  {
    if l.pc.SaveTool? {
      EffectSave(reg, row, l, choice);
    } else if l.pc.AskCas? {
      EffectWait(reg, row, l, choice);
    } else if l.pc.Batch? {
      EffectNextCall(reg, row, l, choice);
    } else if l.pc.ToolRun? {
      EffectRun(reg, row, l, choice);
    } else if l.pc.WaitRace? {
      EffectRace(reg, row, l, choice);
    } else {
      EffectNote(reg, row, l, choice);
    }
  }

  lemma HistoryBatch(reg: Registry, base: seq<Message>, row: Row, l: Loop, choice: Choice)
    requires OwnOk(row, l) && ConfigOk(l) && InBatch(l.pc)
    requires HistoryRow(base, row) && HistoryOk(base, row, l)
    ensures HistoryAfter(base, row, BatchStep(reg, row, l, choice))
  {
    var out := BatchStep(reg, row, l, choice);
    EffectBatch(reg, row, l, choice);
    EffectRow(base, row, l, out);
    if l.pc.NoteTool? {
      var call := l.calls[l.pc.i];
      ExpectedStep(l.calls, l.pc.i);
      OwesMore(base, l.messages, Expected(l.calls[l.pc.i..]), ToolResult(call.id, call.name, l.pc.content));
    }
  }

  lemma HistoryStep(reg: Registry, base: seq<Message>, row: Row, l: Loop, choice: Choice)
    requires Holding(l.pc) && OwnOk(row, l) && ConfigOk(l)
    requires HistoryRow(base, row) && HistoryOk(base, row, l)
    ensures HistoryAfter(base, row, LoopStep(reg, row, l, choice))
  {
    if l.pc.Post? {
      HistoryDecision(base, row, l);
    } else if InBatch(l.pc) {
      HistoryBatch(reg, base, row, l, choice);
    } else {
      if Early(l.pc) {
        EffectPrologue(reg, row, l);
      } else if InRound(l.pc) {
        EffectRounds(reg, row, l, choice);
      } else if InFailure(l.pc) {
        EffectFailings(row, l);
      } else if !l.pc.Crashed? {
        EffectConclusions(row, l);
      }
      EffectRow(base, row, l, LoopStep(reg, row, l, choice));
    }
  }

  // ---- Grants

  /** `granted` is inside the grant of every segment. */
  ghost predicate Within(segments: seq<Segment>, granted: set<string>) {
    forall k :: 0 <= k < |segments| ==> granted <= segments[k].grant
  }

  ghost predicate SegmentsOk(reg: Registry, segments: seq<Segment>) {
    && segments != []
    && forall k :: 0 <= k < |segments| ==> GrantedTools(reg, segments[k].ctx) == Ok(segments[k].grant)
  }

  ghost predicate GrantRow(segments: seq<Segment>, row: Row) {
    && row.snap.Some?
    && Within(segments, row.snap.value.granted)
    && (row.state.Waiting? ==> ASK_USER in row.snap.value.granted)
  }

  ghost predicate GrantOk(reg: Registry, segments: seq<Segment>, row: Row, l: Loop)
    requires WellIndexed(l)
  {
    && l.seg + 1 == |segments|
    && l.ctx == segments[l.seg].ctx.Child(l.ctx.selected, l.ctx.overrides)
    && Within(segments, l.granted)
    && CallOk(l)
    && (Early(l.pc) && ASK_USER !in l.granted ==>
          |segments| == 1 && l.ctx == segments[0].ctx && l.granted == segments[0].grant)
    && (row.state.Running? ==> row.snap.Some? && l.granted <= row.snap.value.granted)
  }

  ghost predicate ExecutedOk(reg: Registry, segments: seq<Segment>, e: Executed) {
    && e.seg < |segments|
    && (forall k :: 0 <= k <= e.seg ==> e.name in segments[k].grant)
    && e.name != ASK_USER && e.name in reg.tools
    && ExecutionAllowed(reg.tools[e.name], segments[e.seg].ctx)
  }

  ghost predicate GrantAfter(reg: Registry, segments: seq<Segment>, row: Row, l: Loop, out: Out) {
    && WellIndexed(out.loop)
    && GrantRow(segments, out.row)
    && row.snap.Some? && out.row.snap.value.granted <= row.snap.value.granted
    && (Holding(out.loop.pc) ==> GrantOk(reg, segments, out.row, out.loop) && ConfigOk(out.loop))
    && (out.ran.Some? ==> ExecutedOk(reg, segments, Executed(out.ran.value, l.seg)))
  }

  /** The fallback `granted_tools or self._granted_tools(c)` never changes the grant. */
  lemma GrantPrologue(reg: Registry, segments: seq<Segment>, row: Row, l: Loop)
    requires OwnOk(row, l) && SegmentsOk(reg, segments) && Early(l.pc)
    requires GrantRow(segments, row) && GrantOk(reg, segments, row, l)
    ensures GrantAfter(reg, segments, row, l, Prologue(reg, row, l))
    ensures Prologue(reg, row, l).loop.granted == l.granted
  {
    assert GrantedTools(reg, segments[0].ctx) == Ok(segments[0].grant);
  }

  lemma GrantRounds(reg: Registry, segments: seq<Segment>, row: Row, l: Loop, choice: Choice)
    requires OwnOk(row, l) && ConfigOk(l)
    requires GrantRow(segments, row) && GrantOk(reg, segments, row, l)
    requires InRound(l.pc)
    ensures GrantAfter(reg, segments, row, l, Round(reg, row, l, choice))
  {
    RoundFrame(reg, row, l, choice);
    GrantUnchanged(reg, segments, row, l, Round(reg, row, l, choice));
  }

  lemma GrantUnchanged(reg: Registry, segments: seq<Segment>, row: Row, l: Loop, out: Out)
    requires WellIndexed(l) && GrantRow(segments, row) && GrantOk(reg, segments, row, l)
    requires WellIndexed(out.loop) && CallOk(out.loop) && !Early(out.loop.pc) && ConfigOk(out.loop)
    requires out.row == row && out.ran == None && out.loop.granted == l.granted
    requires out.loop.ctx == l.ctx && out.loop.seg == l.seg
    ensures GrantAfter(reg, segments, row, l, out)
  {
  }

  lemma GrantDecisions(reg: Registry, segments: seq<Segment>, row: Row, l: Loop)
    requires OwnOk(row, l) && ConfigOk(l)
    requires GrantRow(segments, row) && GrantOk(reg, segments, row, l)
    requires l.pc.Post?
    ensures GrantAfter(reg, segments, row, l, Decide(row, l))
  {
  }

  lemma GrantConclusions(reg: Registry, segments: seq<Segment>, row: Row, l: Loop)
    requires OwnOk(row, l) && ConfigOk(l)
    requires GrantRow(segments, row) && GrantOk(reg, segments, row, l)
    requires l.pc.SaveContinuation? || l.pc.Finish? || l.pc.FinishRace?
    ensures GrantAfter(reg, segments, row, l, Conclude(row, l))
  {
  }

  lemma GrantFailings(reg: Registry, segments: seq<Segment>, row: Row, l: Loop)
    requires OwnOk(row, l) && ConfigOk(l)
    requires GrantRow(segments, row) && GrantOk(reg, segments, row, l)
    requires InFailure(l.pc)
    ensures GrantAfter(reg, segments, row, l, Failing(row, l))
  {
  }

  lemma GrantBatchCalls(reg: Registry, segments: seq<Segment>, row: Row, l: Loop, choice: Choice)
    requires OwnOk(row, l) && ConfigOk(l) && SegmentsOk(reg, segments)
    requires l.pc.Batch? || l.pc.EmitSources? || l.pc.NoteTool?
    requires GrantRow(segments, row) && GrantOk(reg, segments, row, l)
    ensures GrantAfter(reg, segments, row, l, BatchStep(reg, row, l, choice))
  {
  }

  lemma GrantToolRun(reg: Registry, segments: seq<Segment>, row: Row, l: Loop, choice: Choice)
    requires OwnOk(row, l) && ConfigOk(l) && SegmentsOk(reg, segments) && l.pc.ToolRun?
    requires GrantRow(segments, row) && GrantOk(reg, segments, row, l)
    ensures GrantAfter(reg, segments, row, l, BatchStep(reg, row, l, choice))
  {
    SegmentTool(reg, segments, l.seg, l.calls[l.pc.i].name, l.ctx);
  }

  lemma GrantBatchWrites(reg: Registry, segments: seq<Segment>, row: Row, l: Loop, choice: Choice)
    requires OwnOk(row, l) && ConfigOk(l)
    requires l.pc.SaveTool? || l.pc.AskCas? || l.pc.WaitRace?
    requires GrantRow(segments, row) && GrantOk(reg, segments, row, l)
    ensures GrantAfter(reg, segments, row, l, BatchStep(reg, row, l, choice))
  {
  }

  lemma SegmentTool(reg: Registry, segments: seq<Segment>, k: nat, name: string, ctx: Context)
    requires SegmentsOk(reg, segments) && k < |segments|
    requires name in segments[k].grant && name != ASK_USER
    requires ctx == segments[k].ctx.Child(ctx.selected, ctx.overrides)
    ensures name in reg.tools
    ensures ExecutionAllowed(reg.tools[name], segments[k].ctx) && ExecutionAllowed(reg.tools[name], ctx)
  {
    GrantedIsExecutable(reg, segments[k].ctx, name, ctx.selected, ctx.overrides);
  }

  lemma GrantStep(reg: Registry, segments: seq<Segment>, row: Row, l: Loop, choice: Choice)
    requires Holding(l.pc) && OwnOk(row, l) && ConfigOk(l) && SegmentsOk(reg, segments)
    requires GrantRow(segments, row) && GrantOk(reg, segments, row, l)
    ensures GrantAfter(reg, segments, row, l, LoopStep(reg, row, l, choice))
  {
    if Early(l.pc) {
      GrantPrologue(reg, segments, row, l);
    } else if l.pc.SaveTool? || l.pc.AskCas? || l.pc.WaitRace? {
      GrantBatchWrites(reg, segments, row, l, choice);
    } else if l.pc.ToolRun? {
      GrantToolRun(reg, segments, row, l, choice);
    } else if InBatch(l.pc) {
      GrantBatchCalls(reg, segments, row, l, choice);
    } else if l.pc.Post? {
      GrantDecisions(reg, segments, row, l);
    } else if InRound(l.pc) {
      GrantRounds(reg, segments, row, l, choice);
    } else if InFailure(l.pc) {
      GrantFailings(reg, segments, row, l);
    } else if !l.pc.Crashed? {
      GrantConclusions(reg, segments, row, l);
    }
  }
}
