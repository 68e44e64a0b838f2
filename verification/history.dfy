/**
 The message history of a tutor turn (tutor.py) and the discipline its
 tool-call batches follow. After an assistant message with tool calls the
 history owes one tool message per call, in order, up to and including the
 first `ask_user`; calls behind that one are never answered.
 */
module History {
  import opened Options
  import opened Grants

  /** A decoded tool call; the arguments are an opaque JSON text. */
  datatype Call = Call(id: string, name: string, arguments: string)

  /** A call object without a single key, which Python takes for false; the arguments of others are at least "{}". */
  const NO_KEYS := Call("", "", "")

  datatype Message =
    | Plain(role: string, content: string)
    | ToolCalls(narration: string, calls: seq<Call>)
    | ToolResult(callId: string, name: string, content: string)

  /** The calls of a batch that get an answer. */
  function Expected(calls: seq<Call>): seq<Call> {
    if calls == [] then []
    else if calls[0].name == ASK_USER then [calls[0]]
    else [calls[0]] + Expected(calls[1..])
  }

  /** Reading one more message: what is owed after it, None when it is out of place. */
  function Settle(owed: seq<Call>, m: Message): Option<seq<Call>> {
    match m
    case Plain(_, _) => if owed == [] then Some([]) else None
    case ToolCalls(_, calls) => if owed == [] then Some(Expected(calls)) else None
    case ToolResult(id, name, _) =>
      if owed != [] && owed[0].id == id && owed[0].name == name then Some(owed[1..]) else None
  }

  /** The calls still owed at the end of `turn`; None when the turn breaks the discipline. */
  function Owed(turn: seq<Message>): Option<seq<Call>> {
    if turn == [] then
      Some([])
    else
      var before := Owed(turn[..|turn| - 1]);
      if before.None? then None else Settle(before.value, turn[|turn| - 1])
  }

  lemma OwedAppend(turn: seq<Message>, m: Message)
    ensures Owed(turn + [m]) ==
            if Owed(turn).None? then None else Settle(Owed(turn).value, m)
  {
    assert (turn + [m])[..|turn|] == turn;
  }

  /** A batch answered up to `i`, none of the answered calls being `ask_user`. */
  lemma {:induction false} ExpectedStep(calls: seq<Call>, i: nat)
    requires i < |calls|
    ensures Expected(calls[i..]) ==
            if calls[i].name == ASK_USER then [calls[i]] else [calls[i]] + Expected(calls[i + 1..])
  {
    assert calls[i..][1..] == calls[i + 1..];
  }

  /** Do the answers name a prefix of the expected calls, in order? */
  ghost predicate AnswerPrefix(calls: seq<Call>, answers: seq<Message>) {
    && |answers| <= |calls|
    && forall k :: 0 <= k < |answers| ==>
         answers[k].ToolResult? && answers[k].callId == calls[k].id && answers[k].name == calls[k].name
  }

  lemma PrefixStep(calls: seq<Call>, answers: seq<Message>, m: Message)
    requires AnswerPrefix(calls, answers)
    ensures AnswerPrefix(calls, answers + [m]) <==>
            && |answers| < |calls| && m.ToolResult?
            && m.callId == calls[|answers|].id && m.name == calls[|answers|].name
  {
    assert (answers + [m])[|answers|] == m;
    assert forall k :: 0 <= k < |answers| ==> (answers + [m])[k] == answers[k];
  }

  lemma PrefixOfPrefix(calls: seq<Call>, answers: seq<Message>, m: Message)
    requires AnswerPrefix(calls, answers + [m])
    ensures AnswerPrefix(calls, answers)
  {
    assert forall k :: 0 <= k < |answers| ==> (answers + [m])[k] == answers[k];
  }

  /**
   Independent reading of the same discipline, for a batch on its own: after
   the envelope, answers are in order exactly when they name a prefix of the
   expected calls, and what is owed is the rest.
   */
  lemma {:induction false} BatchAnswers(narration: string, calls: seq<Call>, answers: seq<Message>)
    requires forall m :: m in answers ==> m.ToolResult?
    ensures var owed := Owed([ToolCalls(narration, calls)] + answers);
            && (owed.Some? <==> AnswerPrefix(Expected(calls), answers))
            && (owed.Some? ==> owed.value == Expected(calls)[|answers|..])
  {
    var head := [ToolCalls(narration, calls)];
    var expected := Expected(calls);
    if answers == [] {
      assert head + answers == [] + head;
      OwedAppend([], head[0]);
      assert Owed([]) == Some([]);
    } else {
      var n := |answers| - 1;
      var m := answers[n];
      assert m in answers && answers == answers[..n] + [m];
      BatchAnswers(narration, calls, answers[..n]);
      assert head + answers == (head + answers[..n]) + [m];
      OwedAppend(head + answers[..n], m);
      if AnswerPrefix(expected, answers[..n]) {
        PrefixStep(expected, answers[..n], m);
        assert n < |expected| ==> expected[n..][0] == expected[n] && expected[n..][1..] == expected[n + 1..];
      } else if AnswerPrefix(expected, answers) {
        PrefixOfPrefix(expected, answers[..n], m);
      }
    }
  }
}
