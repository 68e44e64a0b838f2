/**
 The execution store (execution_store.py): checkpoint rows that are advanced
 only by compare-and-swap, the partial unique index over active turns
 (db.py), and the append-only event log.
 */
module Store {
  import opened Options
  import opened Grants
  import opened History

  datatype RunState = Running | Waiting | Completed | Cancelled | Error

  predicate Terminal(s: RunState) {
    s.Completed? || s.Cancelled? || s.Error?
  }

  datatype Wait = Wait(question: string, callId: string)

  /** execution_snapshot_json, reduced to what `resume` reads back. */
  datatype Snapshot = Snapshot(
    messages: seq<Message>,
    granted: set<string>,
    overrides: Overrides,
    pending: Option<string>)

  datatype Row = Row(
    area: string,
    session: string,
    state: RunState,
    version: nat,
    text: string,
    selected: string,
    wait: Option<Wait>,
    snap: Option<Snapshot>)
  {
    /** Rows the unique index `uq_native_active_turn_per_session` counts. */
    predicate Active() {
      state.Running? || state.Waiting?
    }
  }

  type Rows = map<string, Row>

  datatype StoreError =
    | SessionBusy
    | MissingRun
    | ForeignArea
    | Rejected(state: RunState, version: nat)
    | UniqueViolation
    | BadTarget

  // ---- One row: the SET clauses of the two UPDATE statements

  function NewRow(area: string, session: string, selected: string, snap: Option<Snapshot>): Row {
    Row(area, session, Running, 0, "", selected, None, snap)
  }

  function Transitioned(r: Row, target: RunState, text: Option<string>, wait: Option<Wait>,
                        snap: Option<Snapshot>): Row {
    r.(state := target,
       version := r.version + 1,
       text := text.Or(r.text),
       wait := if wait.Some? || !target.Waiting? then wait else r.wait,
       snap := if snap.Some? then snap else r.snap)
  }

  function Snapshotted(r: Row, snap: Snapshot, text: Option<string>): Row {
    r.(version := r.version + 1, text := text.Or(r.text), snap := Some(snap))
  }

  /** The WHERE clause: same area, expected version, one of the expected states. */
  predicate Matches(r: Row, area: string, from: set<RunState>, expected: nat) {
    r.area == area && r.version == expected && r.state in from
  }

  // ---- All rows: the store as a state machine

  ghost predicate OneActivePerSession(rows: Rows) {
    forall i, j | i in rows && j in rows && rows[i].Active() && rows[j].Active() ::
      rows[i].area == rows[j].area && rows[i].session == rows[j].session ==> i == j
  }

  predicate SessionHasActive(rows: Rows, area: string, session: string, except: set<string>) {
    exists i :: i in rows && i !in except && rows[i].Active()
                && rows[i].area == area && rows[i].session == session
  }

  datatype Op =
    | Create(id: string, area: string, session: string, selected: string, initial: Option<Snapshot>)
    | Transition(id: string, area: string, from: set<RunState>, target: RunState, expected: nat,
                 text: Option<string>, wait: Option<Wait>, snap: Option<Snapshot>)
    | UpdateSnapshot(id: string, area: string, expected: nat, now: Snapshot, text: Option<string>)

  /** The row an operation writes, or the reason why it writes none. */
  function Outcome(rows: Rows, op: Op): Result<Row, StoreError> {
    match op
    case Create(id, area, session, selected, snap) =>
      if id in rows || SessionHasActive(rows, area, session, {}) then Err(SessionBusy)
      else Ok(NewRow(area, session, selected, snap))
    case Transition(id, area, from, target, expected, text, wait, snap) =>
      if id !in rows then Err(MissingRun)
      else if rows[id].area != area then Err(ForeignArea)
      else if !Matches(rows[id], area, from, expected) then
        Err(Rejected(rows[id].state, rows[id].version))
      else
        var next := Transitioned(rows[id], target, text, wait, snap);
        if next.Active() && SessionHasActive(rows, area, next.session, {id}) then Err(UniqueViolation)
        else Ok(next)
    case UpdateSnapshot(id, area, expected, snap, text) =>
      if id !in rows then Err(MissingRun)
      else if rows[id].area != area then Err(ForeignArea)
      else if !Matches(rows[id], area, {Running}, expected) then
        Err(Rejected(rows[id].state, rows[id].version))
      else Ok(Snapshotted(rows[id], snap, text))
  }

  function Perform(rows: Rows, op: Op): Rows {
    var o := Outcome(rows, op);
    if o.Ok? then rows[op.id := o.value] else rows
  }

  function PerformAll(rows: Rows, ops: seq<Op>): Rows
    decreases |ops|
  {
    if ops == [] then rows else PerformAll(Perform(rows, ops[0]), ops[1..])
  }

  /** How many of `ops` write row `id`, creation included. */
  function WritesTo(rows: Rows, ops: seq<Op>, id: string): nat
    decreases |ops|
  {
    if ops == [] then 0
    else (if ops[0].id == id && Outcome(rows, ops[0]).Ok? then 1 else 0)
         + WritesTo(Perform(rows, ops[0]), ops[1..], id)
  }

  lemma PerformKeepsIndex(rows: Rows, op: Op)
    requires OneActivePerSession(rows)
    ensures OneActivePerSession(Perform(rows, op))
  {
  }

  /**
   Over every sequence of store calls from an empty store: at most one active
   run per (area, session), and `version` is the number of writes to the row
   after its creation, so no successful write is ever lost or counted twice.
   */
  lemma {:induction false} StoreRuns(rows: Rows, ops: seq<Op>)
    requires OneActivePerSession(rows)
    ensures OneActivePerSession(PerformAll(rows, ops))
    ensures forall id :: id in rows ==>
      && id in PerformAll(rows, ops)
      && PerformAll(rows, ops)[id].version == rows[id].version + WritesTo(rows, ops, id)
    ensures forall id :: id !in rows && id in PerformAll(rows, ops) ==>
      PerformAll(rows, ops)[id].version + 1 == WritesTo(rows, ops, id)
    decreases |ops|
  {
    if ops != [] {
      PerformKeepsIndex(rows, ops[0]);
      StoreRuns(Perform(rows, ops[0]), ops[1..]);
    }
  }

  /** Does `op` win the compare-and-swap on version `v` of row `id`? */
  predicate Wins(rows: Rows, op: Op, id: string, v: nat) {
    && op.id == id && !op.Create? && op.expected == v
    && Outcome(rows, op).Ok?
  }

  /**
   Of all the callers that read the same version of a row and try to advance
   it, at most one succeeds, whatever happens in between. In particular of any
   number of concurrent resumes of one wait at most one succeeds.
   */
  lemma OneWinnerPerVersion(rows: Rows, op: Op, between: seq<Op>, late: Op, id: string, v: nat)
    requires OneActivePerSession(rows)
    requires Wins(rows, op, id, v)
    ensures !Wins(PerformAll(Perform(rows, op), between), late, id, v)
  {
    PerformKeepsIndex(rows, op);
    StoreRuns(Perform(rows, op), between);
  }

  /** ... and the first one to try does succeed: a resume of an untouched wait is never refused. */
  lemma FirstResumeWins(rows: Rows, id: string, text: Option<string>, snap: Option<Snapshot>)
    requires OneActivePerSession(rows)
    requires id in rows && rows[id].state.Waiting?
    ensures Wins(rows, Transition(id, rows[id].area, {Waiting}, Running, rows[id].version, text, None, snap),
                 id, rows[id].version)
  {
  }

  /**
   For a row that is active the unique index can refuse nothing: the outcome is
   the compare-and-swap on that row alone, so one run can be studied by itself.
   */
  lemma OneRowAtATime(rows: Rows, id: string, from: set<RunState>, target: RunState, expected: nat,
                      text: Option<string>, wait: Option<Wait>, snap: Option<Snapshot>)
    requires OneActivePerSession(rows) && id in rows && rows[id].Active()
    ensures var o := Outcome(rows, Transition(id, rows[id].area, from, target, expected, text, wait, snap));
            && (o.Ok? <==> Matches(rows[id], rows[id].area, from, expected))
            && (o.Ok? ==> o.value == Transitioned(rows[id], target, text, wait, snap))
  {
  }

  // ---- What the calls write

  /** Another run of the session is RUNNING or WAITING. */
  predicate OtherActive(rows: Rows, id: string, area: string, session: string) {
    exists i :: i in rows && i != id && rows[i].Active() && rows[i].area == area && rows[i].session == session
  }

  /**
   A transition writes exactly if the row is there, in the caller's area, at
   the version and in one of the states expected, and, should it become active,
   is the only active one of its session; and then state, version and what was
   passed is all that changes. Every other call leaves all rows alone.
   */
  lemma TransitionWritesIff(rows: Rows, id: string, area: string, from: set<RunState>, target: RunState,
                            expected: nat, text: Option<string>, wait: Option<Wait>, snap: Option<Snapshot>)
    ensures var op := Transition(id, area, from, target, expected, text, wait, snap);
            var rows' := Perform(rows, op);
            && (Outcome(rows, op).Ok? <==>
                  && id in rows && rows[id].area == area && rows[id].version == expected && rows[id].state in from
                  && (target.Running? || target.Waiting? ==> !OtherActive(rows, id, area, rows[id].session)))
            && (Outcome(rows, op).Err? ==> rows' == rows)
            && (Outcome(rows, op).Ok? ==>
                  && id in rows'
                  && rows' == rows[id := rows[id].(state := target, version := expected + 1, text := rows'[id].text,
                                                   wait := rows'[id].wait, snap := rows'[id].snap)]
                  && rows'[id].text == text.Or(rows[id].text)
                  && (snap.Some? ==> rows'[id].snap == snap) && (snap.None? ==> rows'[id].snap == rows[id].snap)
                  && rows'[id].wait == if target.Waiting? && wait.None? then rows[id].wait else wait)
  {
    var op := Transition(id, area, from, target, expected, text, wait, snap);
    if id in rows && SessionHasActive(rows, area, rows[id].session, {id}) {
      var i :| i in rows && i !in {id} && rows[i].Active() && rows[i].area == area
               && rows[i].session == rows[id].session;
      assert OtherActive(rows, id, area, rows[id].session);
    }
  }

  /** A snapshot is written exactly to a RUNNING row of the caller's area at the version expected. */
  lemma SnapshotWritesIff(rows: Rows, id: string, area: string, expected: nat, snap: Snapshot, text: Option<string>)
    ensures var op := UpdateSnapshot(id, area, expected, snap, text);
            var written := && id in rows && rows[id].area == area
                           && rows[id].version == expected && rows[id].state.Running?;
            && (Outcome(rows, op).Ok? <==> written)
            && Perform(rows, op) ==
               if written then
                 rows[id := rows[id].(version := expected + 1, snap := Some(snap), text := text.Or(rows[id].text))]
               else rows
  {
  }

  /** A run is created exactly under a new id in a session without an active one, RUNNING, empty and at version 0. */
  lemma CreateWritesIff(rows: Rows, id: string, area: string, session: string, selected: string,
                        snap: Option<Snapshot>)
    ensures var op := Create(id, area, session, selected, snap);
            var written := id !in rows && !OtherActive(rows, id, area, session);
            && (Outcome(rows, op).Ok? <==> written)
            && Perform(rows, op) ==
               if written then rows[id := Row(area, session, Running, 0, "", selected, None, snap)] else rows
  {
    if SessionHasActive(rows, area, session, {}) {
      var i :| i in rows && i !in {} && rows[i].Active() && rows[i].area == area && rows[i].session == session;
      assert i != id ==> OtherActive(rows, id, area, session);
    }
  }

  // ---- The store object

  datatype Event =
    | AnswerDelta(text: string)
    | Activity(kind: string)
    | Sources(tool: string)
    | WaitForInput(callId: string)
    | ResultEvent
    | ErrorEvent
    | Done(state: RunState)

  datatype LogEntry = LogEntry(run: string, event: Event)

  function Replay(log: seq<LogEntry>, run: string, after: nat, limit: nat): seq<(nat, Event)>
    decreases |log| - after
  {
    if after >= |log| || limit == 0 then []
    else if log[after].run == run then [(after + 1, log[after].event)] + Replay(log, run, after + 1, limit - 1)
    else Replay(log, run, after + 1, limit)
  }

  /**
   A page of the events of `run` behind `after`: at most `limit` of them, each
   an entry of that run under its own number, ascending, none left out between
   the cursor and the last one, and none up to the end of the log if there was
   room for more.
   */
  ghost predicate IsPage(log: seq<LogEntry>, run: string, after: nat, limit: nat, page: seq<(nat, Event)>) {
    && |page| <= limit
    && (forall k :: 0 <= k < |page| ==>
          EntryOf(log, run, after, page[k].0) && page[k].1 == log[page[k].0 - 1].event)
    && (forall j, k :: 0 <= j < k < |page| ==> page[j].0 < page[k].0)
    && forall n :: EntryOf(log, run, after, n) && (|page| < limit || (page != [] && n <= page[|page| - 1].0)) ==>
         (n, log[n - 1].event) in page
  }

  /** `n` is the sequence number of an entry of `run` behind the cursor. */
  predicate EntryOf(log: seq<LogEntry>, run: string, after: nat, n: nat) {
    after < n <= |log| && log[n - 1].run == run
  }

  lemma {:induction false} ReplayIsPage(log: seq<LogEntry>, run: string, after: nat, limit: nat)
    ensures IsPage(log, run, after, limit, Replay(log, run, after, limit))
    decreases |log| - after
  {
    if after < |log| && limit > 0 {
      if log[after].run == run {
        ReplayIsPage(log, run, after + 1, limit - 1);
        PageGrows(log, run, after, limit, Replay(log, run, after + 1, limit - 1));
      } else {
        ReplayIsPage(log, run, after + 1, limit);
        PageSkips(log, run, after, limit, Replay(log, run, after + 1, limit));
      }
    }
  }

  lemma PageGrows(log: seq<LogEntry>, run: string, after: nat, limit: nat, rest: seq<(nat, Event)>)
    requires after < |log| && log[after].run == run && limit > 0 && IsPage(log, run, after + 1, limit - 1, rest)
    ensures IsPage(log, run, after, limit, [(after + 1, log[after].event)] + rest)
  {
    var first := (after + 1, log[after].event);
    var page := [first] + rest;
    assert forall k :: 0 < k < |page| ==> page[k] == rest[k - 1];
    assert page[0] == first;
    assert forall x :: x in page <==> x == first || x in rest;
    assert forall n :: EntryOf(log, run, after, n) <==> n == after + 1 || EntryOf(log, run, after + 1, n);
  }

  lemma PageSkips(log: seq<LogEntry>, run: string, after: nat, limit: nat, page: seq<(nat, Event)>)
    requires after < |log| && log[after].run != run && IsPage(log, run, after + 1, limit, page)
    ensures IsPage(log, run, after, limit, page)
  {
    assert forall n :: EntryOf(log, run, after, n) <==> EntryOf(log, run, after + 1, n);
  }

  /**
   Replay cursors compose: reading a page and then reading on from the
   sequence number of its last event gives what one larger page gives, so no
   event is missed or seen twice across a reconnect.
   */
  lemma {:induction false} ReplayPages(log: seq<LogEntry>, run: string, after: nat, first: nat, second: nat)
    ensures var page := Replay(log, run, after, first);
            var cursor := if page == [] then after else page[|page| - 1].0;
            |page| == first ==>
              Replay(log, run, after, first + second) == page + Replay(log, run, cursor, second)
    ensures var page := Replay(log, run, after, first);
            |page| < first ==> Replay(log, run, after, first + second) == page
    decreases |log| - after
  {
    if after < |log| && first > 0 {
      if log[after].run == run {
        ReplayPages(log, run, after + 1, first - 1, second);
        var rest := Replay(log, run, after + 1, first - 1);
        var page := [(after + 1, log[after].event)] + rest;
        assert page[1..] == rest;
        assert rest != [] ==> page[|page| - 1] == rest[|rest| - 1];
        assert forall tail: seq<(nat, Event)> ::
            [(after + 1, log[after].event)] + (rest + tail) == page + tail;
      } else {
        ReplayPages(log, run, after + 1, first, second);
      }
    }
  }

  class ExecutionStore {
    var rows: Rows
    var log: seq<LogEntry>

    ghost predicate Valid()
      reads this
    {
      OneActivePerSession(rows)
    }

    constructor ()
      ensures Valid() && rows == map[] && log == []
    {
      rows := map[];
      log := [];
    }

    method Load(id: string, area: string) returns (r: Result<Row, StoreError>)
      ensures r == if id !in rows then Err(MissingRun)
                   else if rows[id].area != area then Err(ForeignArea)
                   else Ok(rows[id])
    {
      if id !in rows {
        return Err(MissingRun);
      }
      if rows[id].area != area {
        return Err(ForeignArea);
      }
      return Ok(rows[id]);
    }

    /** INSERT under the unique index; every integrity error means "session busy". */
    method CreateRun(id: string, area: string, session: string, selected: string, snap: Option<Snapshot>)
      returns (r: Result<Row, StoreError>)
      requires Valid()
      modifies this`rows
      ensures Valid()
      ensures rows == Perform(old(rows), Create(id, area, session, selected, snap))
      ensures r == Outcome(old(rows), Create(id, area, session, selected, snap))
    {
      if id in rows || SessionHasActive(rows, area, session, {}) {
        return Err(SessionBusy);
      }
      rows := rows[id := NewRow(area, session, selected, snap)];
      return Ok(rows[id]);
    }

    /** UPDATE ... WHERE version and state match, then re-read. */
    method DoTransition(id: string, area: string, from: set<RunState>, target: RunState, expected: nat,
                        text: Option<string>, wait: Option<Wait>, snap: Option<Snapshot>)
      returns (r: Result<Row, StoreError>)
      requires Valid()
      modifies this`rows
      ensures Valid()
      ensures rows == Perform(old(rows), Transition(id, area, from, target, expected, text, wait, snap))
      ensures r == Outcome(old(rows), Transition(id, area, from, target, expected, text, wait, snap))
    {
      ghost var op := Transition(id, area, from, target, expected, text, wait, snap);
      PerformKeepsIndex(rows, op);
      if id in rows && Matches(rows[id], area, from, expected) {
        var next := Transitioned(rows[id], target, text, wait, snap);
        if next.Active() && SessionHasActive(rows, area, next.session, {id}) {
          return Err(UniqueViolation);
        }
        rows := rows[id := next];
        return Ok(next);
      }
      var current := Load(id, area);
      if current.Err? {
        return current;
      }
      return Err(Rejected(current.value.state, current.value.version));
    }

    method DoUpdateSnapshot(id: string, area: string, expected: nat, snap: Snapshot, text: Option<string>)
      returns (r: Result<Row, StoreError>)
      requires Valid()
      modifies this`rows
      ensures Valid()
      ensures rows == Perform(old(rows), UpdateSnapshot(id, area, expected, snap, text))
      ensures r == Outcome(old(rows), UpdateSnapshot(id, area, expected, snap, text))
    {
      PerformKeepsIndex(rows, UpdateSnapshot(id, area, expected, snap, text));
      if id in rows && Matches(rows[id], area, {Running}, expected) {
        rows := rows[id := Snapshotted(rows[id], snap, text)];
        return Ok(rows[id]);
      }
      var current := Load(id, area);
      if current.Err? {
        return current;
      }
      return Err(Rejected(current.value.state, current.value.version));
    }

    method AppendEvent(run: string, event: Event) returns (sequence: nat)
      modifies this`log
      ensures log == old(log) + [LogEntry(run, event)] && sequence == |log|
    {
      log := log + [LogEntry(run, event)];
      sequence := |log|;
    }

    /** The page of a run's events after a cursor; the limit is clamped to 1..5000. */
    method Events(id: string, area: string, after: int, limit: int)
      returns (r: Result<seq<(nat, Event)>, StoreError>)
      ensures r.Ok? <==> id in rows && rows[id].area == area
      ensures r.Ok? ==> r.value == Replay(log, id, if after < 0 then 0 else after,
                                          if limit < 1 then 1 else if limit < 5000 then limit else 5000)
      ensures r.Ok? ==> IsPage(log, id, if after < 0 then 0 else after,
                               if limit < 1 then 1 else if limit < 5000 then limit else 5000, r.value)
    {
      var row := Load(id, area);
      if row.Err? {
        return Err(row.error);
      }
      var cap := if limit < 1 then 1 else if limit < 5000 then limit else 5000;
      var i := if after < 0 then 0 else after;
      ghost var start := i;
      var page: seq<(nat, Event)> := [];
      while i < |log| && |page| < cap
        invariant 0 <= start <= i && |page| <= cap
        invariant page + Replay(log, id, i, cap - |page|) == Replay(log, id, start, cap)
        decreases |log| - i
      {
        if log[i].run == id {
          page := page + [(i + 1, log[i].event)];
        }
        i := i + 1;
      }
      ReplayIsPage(log, id, start, cap);
      return Ok(page);
    }

    method RecoverRow(id: string, target: RunState)
      requires Valid() && Terminal(target)
      requires id in rows && rows[id].state.Running?
      modifies this`rows
      ensures Valid()
      ensures rows == old(rows)[id := Transitioned(old(rows)[id], target, Some(old(rows)[id].text), None, None)]
    {
      var row := rows[id];
      var moved := DoTransition(id, row.area, {Running}, target, row.version, Some(row.text), None, None);
    }

    /** Startup recovery: every RUNNING row becomes `target`, every other row stays as it is. */
    method RecoverStaleRunning(target: RunState) returns (r: Result<set<string>, StoreError>)
      requires Valid()
      modifies this`rows
      ensures Valid()
      ensures !(target.Error? || target.Cancelled?) ==> r == Err(BadTarget) && rows == old(rows)
      ensures target.Error? || target.Cancelled? ==>
        r == Ok(RunningIds(old(rows))) && Recovered(old(rows), rows, target, {})
    {
      if !(target.Error? || target.Cancelled?) {
        return Err(BadTarget);
      }
      r := Ok(RunningIds(rows));
      RecoverEach(target, RunningIds(rows));
    }

    method RecoverEach(target: RunState, ids: set<string>)
      requires Valid() && Terminal(target)
      requires ids == RunningIds(rows)
      modifies this`rows
      ensures Valid() && Recovered(old(rows), rows, target, {})
    {
      var stale := ids;
      ghost var before := rows;
      while stale != {}
        invariant Valid() && stale <= RunningIds(before)
        invariant Recovered(before, rows, target, stale)
        decreases |stale|
      {
        var id :| id in stale;
        RecoverRow(id, target);
        stale := stale - {id};
      }
    }
  }

  function RunningIds(rows: Rows): set<string> {
    set i | i in rows && rows[i].state.Running?
  }

  /** `now` is `before` with its RUNNING rows outside `todo` moved to `target`, their text kept. */
  ghost predicate Recovered(before: Rows, now: Rows, target: RunState, todo: set<string>) {
    && now.Keys == before.Keys
    && forall i :: i in before ==>
         now[i] == if before[i].state.Running? && i !in todo
                   then Transitioned(before[i], target, Some(before[i].text), None, None)
                   else before[i]
  }
}
