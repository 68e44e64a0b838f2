/**
 The fixed-window rate limiter of the authentication routes (remote_auth.py).
 Call times are reals; lemmas that need them in order, as calls of one key are
 counted, require it (`Ordered`).
 */
module Limiter {

  /** The window length in seconds and the attempts admitted per window, as configured. */
  datatype Config = Config(window: real, attempts: int)

  /** `_RATE_LIMITER[key]`. */
  datatype Entry = Entry(count: nat, start: real)

  /** The entry that the call at `now` is counted in: the stored one, or a fresh window. */
  function Window(cfg: Config, table: map<string, Entry>, key: string, now: real): Entry {
    if key in table && now - table[key].start <= cfg.window then table[key] else Entry(0, now)
  }

  predicate Admits(cfg: Config, e: Entry) {
    e.count < cfg.attempts
  }

  function Counted(cfg: Config, e: Entry): Entry {
    if Admits(cfg, e) then e.(count := e.count + 1) else e
  }

  /** The table after the calls of one key at `times`. */
  function Table(cfg: Config, key: string, times: seq<real>): map<string, Entry> {
    if times == [] then map[]
    else
      var before := Table(cfg, key, times[..|times| - 1]);
      before[key := Counted(cfg, Window(cfg, before, key, times[|times| - 1]))]
  }

  /** The window the call number `i` falls into, and whether it is admitted. */
  function At(cfg: Config, key: string, times: seq<real>, i: nat): Entry
    requires i < |times|
  {
    Window(cfg, Table(cfg, key, times[..i]), key, times[i])
  }

  predicate Admitted(cfg: Config, key: string, times: seq<real>, i: nat)
    requires i < |times|
  {
    Admits(cfg, At(cfg, key, times, i))
  }

  /** How many of the calls `from..to` are admitted. */
  function Admissions(cfg: Config, key: string, times: seq<real>, from: nat, to: nat): nat
    requires from <= to <= |times|
  {
    if from == to then 0
    else Admissions(cfg, key, times, from, to - 1) + (if Admitted(cfg, key, times, to - 1) then 1 else 0)
  }

  predicate Ordered(times: seq<real>) {
    forall i, j :: 0 <= i <= j < |times| ==> times[i] <= times[j]
  }

  lemma TableStep(cfg: Config, key: string, times: seq<real>, i: nat)
    requires i < |times|
    ensures Table(cfg, key, times[..i + 1]) ==
            Table(cfg, key, times[..i])[key := Counted(cfg, At(cfg, key, times, i))]
  {
    assert times[..i + 1][..i] == times[..i];
    assert times[..i + 1][i] == times[i];
  }

  /** Does the call `i` open a window of its own? */
  predicate Opens(cfg: Config, key: string, times: seq<real>, i: nat)
    requires i < |times|
  {
    key !in Table(cfg, key, times[..i]) || times[i] - Table(cfg, key, times[..i])[key].start > cfg.window
  }

  /** Within one window the stored count grows by exactly the admissions. */
  lemma {:induction false} OneWindow(cfg: Config, key: string, times: seq<real>, from: nat, to: nat)
    requires from < to <= |times|
    requires forall i :: from < i < to ==> !Opens(cfg, key, times, i)
    ensures key in Table(cfg, key, times[..to])
    ensures Admissions(cfg, key, times, from, to) + At(cfg, key, times, from).count
            == Table(cfg, key, times[..to])[key].count
    ensures Table(cfg, key, times[..to])[key].start == At(cfg, key, times, from).start
  {
    TableStep(cfg, key, times, to - 1);
    if from + 1 < to {
      OneWindow(cfg, key, times, from, to - 1);
      assert !Opens(cfg, key, times, to - 1);
    } else {
      assert Admissions(cfg, key, times, from, from) == 0;
    }
  }

  /** A stored count is between one and the configured attempts (or zero when none are configured). */
  lemma {:induction false} CountBounds(cfg: Config, key: string, times: seq<real>)
    requires times != []
    ensures key in Table(cfg, key, times)
    ensures var count := Table(cfg, key, times)[key].count;
            if cfg.attempts <= 0 then count == 0 else 1 <= count <= cfg.attempts
  {
    if |times| > 1 {
      CountBounds(cfg, key, times[..|times| - 1]);
    }
  }

  lemma {:induction false} Split(cfg: Config, key: string, times: seq<real>, from: nat, mid: nat, to: nat)
    requires from <= mid <= to <= |times|
    ensures Admissions(cfg, key, times, from, to)
            == Admissions(cfg, key, times, from, mid) + Admissions(cfg, key, times, mid, to)
  {
    if mid < to {
      Split(cfg, key, times, from, mid, to - 1);
    }
  }

  /** The last call in `from..to` that opens a window, if one does. */
  lemma {:induction false} LastOpening(cfg: Config, key: string, times: seq<real>, from: nat, to: nat) returns (r: int)
    requires from <= to <= |times|
    ensures r == -1 || from <= r < to
    ensures r >= 0 ==> Opens(cfg, key, times, r) && forall i :: r < i < to ==> !Opens(cfg, key, times, i)
    ensures r == -1 ==> forall i :: from <= i < to ==> !Opens(cfg, key, times, i)
  {
    if from == to {
      r := -1;
    } else if Opens(cfg, key, times, to - 1) {
      r := to - 1;
    } else {
      r := LastOpening(cfg, key, times, from, to - 1);
    }
  }

  /** At most `attempts` admissions per window. */
  lemma PerWindow(cfg: Config, key: string, times: seq<real>, from: nat, to: nat)
    requires from < to <= |times|
    requires forall i :: from < i < to ==> !Opens(cfg, key, times, i)
    ensures Admissions(cfg, key, times, from, to) <= if cfg.attempts <= 0 then 0 else cfg.attempts
    ensures !Opens(cfg, key, times, from) && cfg.attempts >= 1 ==>
              Admissions(cfg, key, times, from, to) <= cfg.attempts - 1
  {
    OneWindow(cfg, key, times, from, to);
    CountBounds(cfg, key, times[..to]);
    if !Opens(cfg, key, times, from) {
      CountBounds(cfg, key, times[..from]);
    }
  }

  /** A call at most one window length before one that opens a window does not open one itself. */
  lemma OpenedBefore(cfg: Config, key: string, times: seq<real>, i: nat, r: nat)
    requires Ordered(times) && i < r < |times|
    requires times[r] - times[i] <= cfg.window && Opens(cfg, key, times, r)
    ensures forall k :: i <= k < r ==> !Opens(cfg, key, times, k)
  {
    assert times[..0] == [] && Opens(cfg, key, times, 0);
    var r0 := LastOpening(cfg, key, times, 0, r);
    OneWindow(cfg, key, times, r0, r);
    assert times[r] - times[r0] > cfg.window;
  }

  /**
   Over every non-decreasing sequence of call times, a closed interval as long
   as the window sees at most 2N - 1 admissions: it cannot hold both the call
   that opens a window and the one that opens the next.
   */
  lemma AnyInterval(cfg: Config, key: string, times: seq<real>, i: nat, j: nat)
    requires Ordered(times) && i <= j < |times|
    requires times[j] - times[i] <= cfg.window
    ensures Admissions(cfg, key, times, i, j + 1) <=
            if cfg.attempts <= 0 then 0 else 2 * cfg.attempts - 1
  {
    var r := LastOpening(cfg, key, times, i + 1, j + 1);
    if r == -1 {
      PerWindow(cfg, key, times, i, j + 1);
    } else {
      OpenedBefore(cfg, key, times, i, r);
      PerWindow(cfg, key, times, i, r);
      PerWindow(cfg, key, times, r, j + 1);
      Split(cfg, key, times, i, r, j + 1);
    }
  }

  /**
   A call is refused exactly when its window has used up its attempts: it
   belongs to the window opened by `from`, and that window has admitted N.
   */
  lemma RefusedIffUsedUp(cfg: Config, key: string, times: seq<real>, from: nat, i: nat)
    requires from <= i < |times|
    requires Opens(cfg, key, times, from) && forall k :: from < k <= i ==> !Opens(cfg, key, times, k)
    ensures !Admitted(cfg, key, times, i) <==> Admissions(cfg, key, times, from, i) >= cfg.attempts
  {
    if from < i {
      OneWindow(cfg, key, times, from, i);
      assert !Opens(cfg, key, times, i);
    }
  }

  /**
   With N >= 1 a call made more than a window after the call that opened the
   current window opens the next one and is admitted, whatever was refused in between.
   */
  lemma LateCallAdmitted(cfg: Config, key: string, times: seq<real>, from: nat, i: nat)
    requires cfg.attempts >= 1 && from < i < |times|
    requires Opens(cfg, key, times, from) && forall k :: from < k < i ==> !Opens(cfg, key, times, k)
    ensures times[i] - times[from] > cfg.window <==> Opens(cfg, key, times, i)
    ensures Opens(cfg, key, times, i) ==> Admitted(cfg, key, times, i)
  {
    OneWindow(cfg, key, times, from, i);
  }

  /** The current window did not start after the last call. */
  lemma {:induction false} StartBounds(cfg: Config, key: string, times: seq<real>)
    requires Ordered(times) && times != []
    ensures key in Table(cfg, key, times) && Table(cfg, key, times)[key].start <= times[|times| - 1]
  {
    if |times| > 1 {
      StartBounds(cfg, key, times[..|times| - 1]);
    }
  }

  /**
   Whoever waits gets in: with N >= 1 a call more than a window after the one
   before it is admitted, however many calls had been refused.
   */
  lemma PatientCallAdmitted(cfg: Config, key: string, times: seq<real>, i: nat)
    requires cfg.attempts >= 1 && Ordered(times) && i < |times|
    requires i > 0 ==> times[i] - times[i - 1] > cfg.window
    ensures Opens(cfg, key, times, i) && Admitted(cfg, key, times, i)
  {
    if i > 0 {
      StartBounds(cfg, key, times[..i]);
    }
  }

  // ---- The bound 2N - 1 is attained

  function Repeat(t: real, n: nat): seq<real> {
    seq(n, _ => t)
  }

  /** One call, the rest of its window at the window's end, and a full window after that. */
  function Burst(cfg: Config): seq<real>
    requires cfg.attempts >= 1
  {
    [0.0] + Repeat(cfg.window, cfg.attempts - 1) + Repeat(cfg.window + cfg.window, cfg.attempts)
  }

  lemma BurstAt(cfg: Config, i: nat)
    requires cfg.attempts >= 1 && i < 2 * cfg.attempts
    ensures |Burst(cfg)| == 2 * cfg.attempts
    ensures Burst(cfg)[i] == if i == 0 then 0.0 else if i < cfg.attempts then cfg.window else cfg.window + cfg.window
  {
  }

  /** The stored entry after the first `i` calls of the burst. */
  function BurstEntry(cfg: Config, i: nat): Entry
    requires cfg.attempts >= 1
  {
    if i <= cfg.attempts then Entry(i, 0.0) else Entry(i - cfg.attempts, cfg.window + cfg.window)
  }

  lemma BurstStep(cfg: Config, key: string, i: nat, now: real)
    requires cfg.attempts >= 1 && cfg.window > 0.0 && 1 <= i < 2 * cfg.attempts
    requires now == if i < cfg.attempts then cfg.window else cfg.window + cfg.window
    ensures Admits(cfg, Window(cfg, map[key := BurstEntry(cfg, i)], key, now))
    ensures Counted(cfg, Window(cfg, map[key := BurstEntry(cfg, i)], key, now)) == BurstEntry(cfg, i + 1)
  {
  }

  lemma {:induction false} BurstTable(cfg: Config, key: string, i: nat)
    requires cfg.attempts >= 1 && cfg.window > 0.0 && 0 < i <= 2 * cfg.attempts
    ensures |Burst(cfg)| == 2 * cfg.attempts
    ensures Table(cfg, key, Burst(cfg)[..i]) == map[key := BurstEntry(cfg, i)]
  {
    BurstAt(cfg, i - 1);
    TableStep(cfg, key, Burst(cfg), i - 1);
    if i == 1 {
      assert Burst(cfg)[..0] == [];
    } else {
      BurstTable(cfg, key, i - 1);
      BurstStep(cfg, key, i - 1, Burst(cfg)[i - 1]);
    }
  }

  lemma {:induction false} BurstAdmissions(cfg: Config, key: string, to: nat)
    requires cfg.attempts >= 1 && cfg.window > 0.0 && 1 <= to <= 2 * cfg.attempts
    ensures |Burst(cfg)| == 2 * cfg.attempts
    ensures Admissions(cfg, key, Burst(cfg), 1, to) == to - 1
  {
    BurstAt(cfg, to - 1);
    if to > 1 {
      BurstAdmissions(cfg, key, to - 1);
      BurstTable(cfg, key, to - 1);
      BurstStep(cfg, key, to - 1, Burst(cfg)[to - 1]);
    }
  }

  /** For every limit and window some calls fill a window-long interval with 2N - 1 admissions. */
  lemma BoundAttained(cfg: Config, key: string)
    requires cfg.attempts >= 1 && cfg.window > 0.0
    ensures var times := Burst(cfg);
            && |times| == 2 * cfg.attempts && Ordered(times)
            && times[|times| - 1] - times[1] <= cfg.window
            && Admissions(cfg, key, times, 1, |times|) == 2 * cfg.attempts - 1
  {
    var times := Burst(cfg);
    BurstAdmissions(cfg, key, 2 * cfg.attempts);
    BurstAt(cfg, 1);
    BurstAt(cfg, 2 * cfg.attempts - 1);
    forall i, j | 0 <= i <= j < |times|
      ensures times[i] <= times[j]
    {
      BurstAt(cfg, i);
      BurstAt(cfg, j);
    }
  }

  // ---- Many clients

  /** A call under the key of its scope and client. */
  datatype Request = Request(key: string, time: real)

  /** The calls of one key among all. */
  function TimesOf(requests: seq<Request>, key: string): seq<real> {
    if requests == [] then []
    else
      var last := requests[|requests| - 1];
      TimesOf(requests[..|requests| - 1], key) + if last.key == key then [last.time] else []
  }

  /** The key's entry is the one its own calls leave. */
  ghost predicate OwnEntry(cfg: Config, requests: seq<Request>, table: map<string, Entry>, key: string) {
    var own := Table(cfg, key, TimesOf(requests, key));
    (key in table <==> key in own) && (key in table ==> table[key] == own[key])
  }

  /** Clients do not disturb each other. */
  ghost predicate Separate(cfg: Config, requests: seq<Request>, table: map<string, Entry>) {
    forall key: string :: OwnEntry(cfg, requests, table, key)
  }

  lemma TimesStep(requests: seq<Request>, r: Request, key: string)
    ensures TimesOf(requests + [r], key) == TimesOf(requests, key) + if r.key == key then [r.time] else []
  {
    assert (requests + [r])[..|requests + [r]| - 1] == requests;
  }

  /** The entry the next call is counted in, were its key's calls the only ones. */
  function NextEntry(cfg: Config, requests: seq<Request>, r: Request): Entry {
    Window(cfg, Table(cfg, r.key, TimesOf(requests, r.key)), r.key, r.time)
  }

  lemma CallerStep(cfg: Config, requests: seq<Request>, table: map<string, Entry>, r: Request)
    requires OwnEntry(cfg, requests, table, r.key)
    ensures Window(cfg, table, r.key, r.time) == NextEntry(cfg, requests, r)
    ensures OwnEntry(cfg, requests + [r], table[r.key := Counted(cfg, NextEntry(cfg, requests, r))], r.key)
  {
    var times := TimesOf(requests, r.key);
    assert (times + [r.time])[..|times + [r.time]| - 1] == times;
    TimesStep(requests, r, r.key);
  }

  lemma OtherStep(cfg: Config, requests: seq<Request>, table: map<string, Entry>, r: Request, e: Entry, key: string)
    requires OwnEntry(cfg, requests, table, key) && key != r.key
    ensures OwnEntry(cfg, requests + [r], table[r.key := e], key)
  {
    TimesStep(requests, r, key);
    assert TimesOf(requests, key) + [] == TimesOf(requests, key);
  }

  lemma SeparateStep(cfg: Config, requests: seq<Request>, table: map<string, Entry>, r: Request)
    requires Separate(cfg, requests, table)
    ensures Window(cfg, table, r.key, r.time) == NextEntry(cfg, requests, r)
    ensures Separate(cfg, requests + [r], table[r.key := Counted(cfg, NextEntry(cfg, requests, r))])
  {
    assert OwnEntry(cfg, requests, table, r.key);
    CallerStep(cfg, requests, table, r);
    var e := Counted(cfg, NextEntry(cfg, requests, r));
    var all, next := requests + [r], table[r.key := e];
    forall key: string
      ensures OwnEntry(cfg, all, next, key)
    {
      assert OwnEntry(cfg, requests, table, key);
      if key != r.key {
        OtherStep(cfg, requests, table, r, e, key);
      }
    }
  }

  lemma NobodyYet(cfg: Config)
    ensures Separate(cfg, [], map[])
  {
  }

  /** Is the request number `i` refused, going by the calls with its own key alone? */
  predicate Refused(cfg: Config, requests: seq<Request>, i: nat)
    requires i < |requests|
  {
    var key := requests[i].key;
    var times := TimesOf(requests[..i + 1], key);
    times == [] || !Admitted(cfg, key, times, |times| - 1)
  }

  lemma RefusedByOwnCalls(cfg: Config, requests: seq<Request>, i: nat)
    requires i < |requests|
    ensures var times := TimesOf(requests[..i + 1], requests[i].key);
            times == TimesOf(requests[..i], requests[i].key) + [requests[i].time]
    ensures Refused(cfg, requests, i) <==> !Admits(cfg, NextEntry(cfg, requests[..i], requests[i]))
  {
    var r := requests[i];
    var times := TimesOf(requests[..i], r.key);
    assert requests[..i + 1] == requests[..i] + [r];
    TimesStep(requests[..i], r, r.key);
    assert (times + [r.time])[..|times|] == times;
  }

  /** The call number `n` among all, answered from a table that is right for the calls before it. */
  lemma NextCall(cfg: Config, all: seq<Request>, n: nat, table: map<string, Entry>)
    requires n < |all| && Separate(cfg, all[..n], table)
    ensures var e := Window(cfg, table, all[n].key, all[n].time);
            && (Refused(cfg, all, n) <==> !Admits(cfg, e))
            && Separate(cfg, all[..n + 1], table[all[n].key := Counted(cfg, e)])
  {
    SeparateStep(cfg, all[..n], table, all[n]);
    RefusedByOwnCalls(cfg, all, n);
    assert all[..n + 1] == all[..n] + [all[n]];
  }

  /** The answers to the calls from number `from_` on. */
  ghost predicate Answers(cfg: Config, all: seq<Request>, from_: nat, answers: seq<bool>) {
    from_ + |answers| <= |all| && forall k :: 0 <= k < |answers| ==> (answers[k] <==> Refused(cfg, all, from_ + k))
  }

  lemma NextAnswer(cfg: Config, all: seq<Request>, from_: nat, answers: seq<bool>, table: map<string, Entry>)
    requires from_ + |answers| < |all| && Separate(cfg, all[..from_ + |answers|], table)
    requires Answers(cfg, all, from_, answers)
    ensures var n := from_ + |answers|;
            var e := Window(cfg, table, all[n].key, all[n].time);
            && Answers(cfg, all, from_, answers + [!Admits(cfg, e)])
            && Separate(cfg, all[..n + 1], table[all[n].key := Counted(cfg, e)])
  {
    NextCall(cfg, all, from_ + |answers|, table);
  }

  class RateLimiter {
    var table: map<string, Entry>

    constructor (ghost cfg: Config)
      ensures table == map[] && Separate(cfg, [], table)
    {
      table := map[];
      NobodyYet(cfg);
    }

    /** `_rate_limit_exceeded` */
    method Exceeded(cfg: Config, scope: string, ip: string, now: real) returns (exceeded: bool)
      modifies this
      ensures var key := scope + ":" + ip;
              var e := Window(cfg, old(table), key, now);
              exceeded == !Admits(cfg, e) && table == old(table)[key := Counted(cfg, e)]
    {
      exceeded := Count(cfg, scope + ":" + ip, now);
    }

    /** Its body under the key: one step, under the lock, with a time read before it. */
    method Count(cfg: Config, key: string, now: real) returns (exceeded: bool)
      modifies this
      ensures var e := Window(cfg, old(table), key, now);
              exceeded == !Admits(cfg, e) && table == old(table)[key := Counted(cfg, e)]
    {
      var count, start := 0, now;
      if key in table {
        count, start := table[key].count, table[key].start;
      }
      if now - start > cfg.window {
        count := 0;
        start := now;
      }
      if count >= cfg.attempts {
        table := table[key := Entry(count, start)];
        return true;
      }
      table := table[key := Entry(count + 1, start)];
      return false;
    }

    /**
     Any calls of any clients, whatever calls were answered `before` them: each
     is answered as the lemmas say of all calls so far with its own key.
     */
    method Calls(cfg: Config, requests: seq<Request>, ghost before: seq<Request>) returns (answers: seq<bool>)
      requires Separate(cfg, before, table)
      modifies this
      ensures |answers| == |requests| && Answers(cfg, before + requests, |before|, answers)
      ensures Separate(cfg, before + requests, table)
    {
      answers := [];
      ghost var all := before + requests;
      assert all[..|before|] == before;
      for i := 0 to |requests|
        invariant |answers| == i && Separate(cfg, all[..|before| + i], table)
        invariant Answers(cfg, all, |before|, answers)
      {
        assert all[|before| + i] == requests[i];
        NextAnswer(cfg, all, |before|, answers, table);
        var e := Count(cfg, requests[i].key, requests[i].time);
        answers := answers + [e];
      }
      assert all[..|all|] == all;
    }
  }
}
