/**
 Device sessions (remote_auth.py): login, refresh-token rotation, revocation
 and access-token authentication. Reads are steps of their own; each write
 transaction, from its first statement to its commit, is one atomic step.
 Tokens and digests are identified, every issued token being new.
 */
module Tokens {
  import opened Options

  datatype Device = Device(name: string, revoked: bool)

  /** `chain` is the token the login issued that this one descends from. */
  datatype RefreshRow = RefreshRow(device: nat, expires: nat, consumed: bool, replacedBy: Option<nat>, chain: nat)

  datatype AccessRow = AccessRow(device: nat, expires: nat)

  datatype Event =
    | LoggedIn(device: nat, token: nat)
    | Refreshed(old_: nat, new_: nat, device: nat)
    | Revoked(device: nat)
    | Authenticated(access: nat, device: nat)

  /** A request between two of its steps, with what it has read so far. */
  datatype Request =
    | Login(name: string)
    | LoginFound(name: string, found: Option<nat>)
    | Refresh(token: nat, device: nat, now: nat)
    | RefreshRowRead(token: nat, device: nat, now: nat)
    | RefreshDeviceRead(token: nat, device: nat, now: nat)
    | Revoke(device: nat)
    | RevokeRead(device: nat)
    | Auth(access: nat, now: nat)
    | AuthRowRead(access: nat, device: nat)
    | Finished

  /** Tables, clock, requests in flight and the order in which decisions were made. */
  datatype World = World(
    devices: map<nat, Device>,
    refresh: map<nat, RefreshRow>,
    access: map<nat, AccessRow>,
    nextToken: nat,
    nextDevice: nat,
    now: nat,
    requests: map<nat, Request>,
    log: seq<Event>)

  datatype Config = Config(accessTtl: nat, refreshTtl: nat)

  datatype Step =
    | Tick
    | Arrive(id: nat, request: Request)
    | Proceed(id: nat)

  predicate Live(w: World, token: nat) {
    token in w.refresh && !w.refresh[token].consumed
  }

  /** The unrevoked device a login by this name reuses, if any. */
  ghost predicate Candidate(w: World, name: string, device: Option<nat>) {
    match device
    case Some(d) => d in w.devices && !w.devices[d].revoked && w.devices[d].name == name
    case None => forall d :: d in w.devices && !w.devices[d].revoked ==> w.devices[d].name != name
  }

  lemma CandidateExists(w: World, name: string)
    ensures exists device :: Candidate(w, name, device)
  {
    if d :| d in w.devices && !w.devices[d].revoked && w.devices[d].name == name {
      assert Candidate(w, name, Some(d));
    } else {
      assert Candidate(w, name, None);
    }
  }

  /** `_issue_token_pair` in the caller's transaction; `chain` None starts a new chain. */
  function Issue(cfg: Config, w: World, device: nat, chain: Option<nat>): World {
    var token := w.nextToken;
    w.(refresh := w.refresh[token := RefreshRow(device, w.now + cfg.refreshTtl, false, None, chain.Or(token))],
       access := w.access[token := AccessRow(device, w.now + cfg.accessTtl)],
       nextToken := token + 1)
  }

  function Finish(w: World, id: nat): World {
    w.(requests := w.requests[id := Finished])
  }

  /** The write transaction of a login: a device if none was found, and a token pair. */
  function CommitLogin(cfg: Config, w: World, name: string, found: Option<nat>): World {
    var device := found.Or(w.nextDevice);
    var w1 := if found.Some? then w
              else w.(devices := w.devices[device := Device(name, false)], nextDevice := w.nextDevice + 1);
    Issue(cfg, w1, device, None).(log := w.log + [LoggedIn(device, w.nextToken)])
  }

  /** The write transaction of a refresh: conditional consume, then issue. */
  function CommitRefresh(cfg: Config, w: World, token: nat, device: nat, now: nat): World {
    if Live(w, token) && w.refresh[token].expires > now then
      var row := w.refresh[token];
      var consumed := row.(consumed := true, replacedBy := Some(w.nextToken));
      Issue(cfg, w.(refresh := w.refresh[token := consumed]), device, Some(row.chain))
        .(log := w.log + [Refreshed(token, w.nextToken, device)])
    else w
  }

  /** The write transaction of a revoke: mark the device, delete its unconsumed tokens. */
  function CommitRevoke(w: World, device: nat): World
    requires device in w.devices
  {
    w.(devices := w.devices[device := w.devices[device].(revoked := true)],
       refresh := map t | t in w.refresh && (w.refresh[t].device != device || w.refresh[t].consumed) :: w.refresh[t],
       access := map t | t in w.access && w.access[t].device != device :: w.access[t],
       log := w.log + [Revoked(device)])
  }

  ghost function Proceeds(cfg: Config, w: World, id: nat): World
    requires id in w.requests
  {
    match w.requests[id]
    case Login(name) =>
      CandidateExists(w, name);
      var device :| Candidate(w, name, device);
      w.(requests := w.requests[id := LoginFound(name, device)])
    case LoginFound(name, device) => Finish(CommitLogin(cfg, w, name, device), id)
    case Refresh(token, device, now) =>
      if Live(w, token) && w.refresh[token].device == device && w.refresh[token].expires > now then
        w.(requests := w.requests[id := RefreshRowRead(token, device, now)])
      else Finish(w, id)
    case RefreshRowRead(token, device, now) =>
      if device in w.devices && !w.devices[device].revoked then
        w.(requests := w.requests[id := RefreshDeviceRead(token, device, now)])
      else Finish(w, id)
    case RefreshDeviceRead(token, device, now) => Finish(CommitRefresh(cfg, w, token, device, now), id)
    case Revoke(device) =>
      if device in w.devices then w.(requests := w.requests[id := RevokeRead(device)]) else Finish(w, id)
    case RevokeRead(device) => if device in w.devices then Finish(CommitRevoke(w, device), id) else Finish(w, id)
    case Auth(access, now) =>
      if access in w.access && w.access[access].expires > now then
        w.(requests := w.requests[id := AuthRowRead(access, w.access[access].device)])
      else Finish(w, id)
    case AuthRowRead(access, device) =>
      if device in w.devices && !w.devices[device].revoked then
        Finish(w.(log := w.log + [Authenticated(access, device)]), id)
      else Finish(w, id)
    case Finished => w
  }

  predicate IsStart(r: Request) {
    r.Login? || r.Refresh? || r.Revoke? || r.Auth?
  }

  ghost function Next(cfg: Config, w: World, s: Step): World {
    match s
    case Tick => w.(now := w.now + 1)
    case Arrive(id, r) => if id in w.requests || !IsStart(r) then w else w.(requests := w.requests[id := r])
    case Proceed(id) => if id in w.requests then Proceeds(cfg, w, id) else w
  }

  ghost function After(cfg: Config, steps: seq<Step>): World {
    if steps == [] then World(map[], map[], map[], 0, 0, 0, map[], [])
    else Next(cfg, After(cfg, steps[..|steps| - 1]), steps[|steps| - 1])
  }

  // ---- Invariant

  ghost predicate RowsOk(w: World) {
    && (forall t :: t in w.refresh ==> t < w.nextToken && w.refresh[t].chain <= t)
    && (forall d :: d in w.devices ==> d < w.nextDevice)
  }

  /** A rotation chain has at most one unconsumed token, and it is the chain's youngest. */
  ghost predicate ChainsOk(w: World) {
    forall t: nat, u: nat :: t in w.refresh && Live(w, u) && w.refresh[t].chain == w.refresh[u].chain ==> t <= u
  }

  /** Once a refresh has seen its device unrevoked, a revoke takes its token away. */
  ghost predicate RequestOk(w: World, r: Request) {
    match r
    case LoginFound(_, found) => found.Some? ==> found.value in w.devices
    case RefreshRowRead(token, device, _) =>
      token < w.nextToken && (token in w.refresh ==> w.refresh[token].device == device)
    case RefreshDeviceRead(token, device, _) =>
      && token < w.nextToken && (token in w.refresh ==> w.refresh[token].device == device)
      && device in w.devices && (w.devices[device].revoked ==> !Live(w, token))
    case _ => true
  }

  ghost predicate RequestsOk(w: World) {
    forall id :: id in w.requests ==> RequestOk(w, w.requests[id])
  }

  /** Every rotation in the log has consumed its token for good. */
  ghost predicate RotationOk(w: World, e: Event) {
    e.Refreshed? ==>
      && e.old_ < e.new_ < w.nextToken
      && (e.old_ in w.refresh ==> w.refresh[e.old_].consumed && w.refresh[e.old_].replacedBy == Some(e.new_))
  }

  predicate Touches(e: Event, device: nat) {
    (e.Refreshed? || e.Authenticated?) && e.device == device
  }

  ghost predicate LogOk(w: World) {
    && (forall e :: e in w.log ==> RotationOk(w, e))
    && (forall e :: e in w.log && e.Revoked? ==> e.device in w.devices && w.devices[e.device].revoked)
    && (forall i, j :: 0 <= i < j < |w.log| && w.log[i].Refreshed? && w.log[j].Refreshed? ==>
          w.log[i].old_ != w.log[j].old_ && w.log[i].new_ != w.log[j].new_)
    && (forall i, j :: 0 <= i < j < |w.log| && w.log[i].Revoked? ==> !Touches(w.log[j], w.log[i].device))
  }

  ghost predicate Ok(w: World) {
    RowsOk(w) && ChainsOk(w) && RequestsOk(w) && LogOk(w)
  }

  // ---- The three write transactions

  lemma LoginKeepsTables(cfg: Config, w: World, name: string, found: Option<nat>)
    requires RowsOk(w) && ChainsOk(w)
    ensures RowsOk(CommitLogin(cfg, w, name, found)) && ChainsOk(CommitLogin(cfg, w, name, found))
  {
  }

  lemma LoginKeepsRequests(cfg: Config, w: World, name: string, found: Option<nat>)
    requires RowsOk(w) && RequestsOk(w)
    ensures RequestsOk(CommitLogin(cfg, w, name, found))
  {
    var w' := CommitLogin(cfg, w, name, found);
    assert forall t :: t in w.refresh ==> w'.refresh[t] == w.refresh[t];
    forall id | id in w'.requests
      ensures RequestOk(w', w'.requests[id])
    {
      assert RequestOk(w, w.requests[id]);
    }
  }

  lemma LoginKeepsLog(cfg: Config, w: World, name: string, found: Option<nat>)
    requires RowsOk(w) && LogOk(w)
    ensures LogOk(CommitLogin(cfg, w, name, found))
  {
    var w' := CommitLogin(cfg, w, name, found);
    assert forall t :: t in w.refresh ==> w'.refresh[t] == w.refresh[t];
    forall e | e in w'.log
      ensures RotationOk(w', e)
    {
      assert e in w.log || e.LoggedIn?;
    }
  }

  lemma LoginKeeps(cfg: Config, w: World, name: string, found: Option<nat>)
    requires Ok(w)
    ensures Ok(CommitLogin(cfg, w, name, found))
  {
    LoginKeepsTables(cfg, w, name, found);
    LoginKeepsRequests(cfg, w, name, found);
    LoginKeepsLog(cfg, w, name, found);
  }

  lemma RefreshKeepsTables(cfg: Config, w: World, token: nat, device: nat, now: nat)
    requires RowsOk(w) && ChainsOk(w)
    ensures RowsOk(CommitRefresh(cfg, w, token, device, now)) && ChainsOk(CommitRefresh(cfg, w, token, device, now))
  {
  }

  lemma RefreshKeepsRequests(cfg: Config, w: World, token: nat, device: nat, now: nat)
    requires RowsOk(w) && RequestsOk(w)
    ensures RequestsOk(CommitRefresh(cfg, w, token, device, now))
  {
    var w' := CommitRefresh(cfg, w, token, device, now);
    forall id | id in w'.requests
      ensures RequestOk(w', w'.requests[id])
    {
      assert RequestOk(w, w.requests[id]);
    }
  }

  /** Each rotation in the log, the new one too, has consumed its token. */
  lemma RefreshKeepsRotations(cfg: Config, w: World, token: nat, device: nat, now: nat)
    requires RowsOk(w) && (forall e :: e in w.log ==> RotationOk(w, e))
    ensures var w' := CommitRefresh(cfg, w, token, device, now);
            forall e :: e in w'.log ==> RotationOk(w', e)
  {
    var w' := CommitRefresh(cfg, w, token, device, now);
    forall e | e in w'.log
      ensures RotationOk(w', e)
    {
      if e in w.log {
        assert RotationOk(w, e);
      }
    }
  }

  lemma RefreshKeepsLog(cfg: Config, w: World, token: nat, device: nat, now: nat)
    requires RowsOk(w) && LogOk(w) && RequestOk(w, RefreshDeviceRead(token, device, now))
    ensures LogOk(CommitRefresh(cfg, w, token, device, now))
  {
    RefreshKeepsRotations(cfg, w, token, device, now);
    var w' := CommitRefresh(cfg, w, token, device, now);
    if w' != w {
      assert !w.devices[device].revoked;
      forall e | e in w.log && e.Refreshed?
        ensures e.old_ != token && e.new_ < w.nextToken
      {
        assert RotationOk(w, e);
      }
    }
  }

  lemma RefreshKeeps(cfg: Config, w: World, token: nat, device: nat, now: nat)
    requires Ok(w) && RequestOk(w, RefreshDeviceRead(token, device, now))
    ensures Ok(CommitRefresh(cfg, w, token, device, now))
  {
    RefreshKeepsTables(cfg, w, token, device, now);
    RefreshKeepsRequests(cfg, w, token, device, now);
    RefreshKeepsLog(cfg, w, token, device, now);
  }

  lemma RevokeKeeps(w: World, device: nat)
    requires Ok(w) && device in w.devices
    ensures Ok(CommitRevoke(w, device))
  {
    var w' := CommitRevoke(w, device);
    forall id | id in w'.requests
      ensures RequestOk(w', w'.requests[id])
    {
      assert RequestOk(w, w.requests[id]);
    }
    forall e | e in w'.log
      ensures RotationOk(w', e)
    {
      if e in w.log {
        assert RotationOk(w, e);
      }
    }
  }

  // ---- Every step

  lemma FinishKeeps(w: World, id: nat, r: Request)
    requires Ok(w) && RequestOk(w, r)
    ensures Ok(w.(requests := w.requests[id := r]))
  {
    var w' := w.(requests := w.requests[id := r]);
    forall k | k in w'.requests
      ensures RequestOk(w', w'.requests[k])
    {
      assert k != id ==> RequestOk(w, w.requests[k]);
    }
    assert forall e :: RotationOk(w, e) ==> RotationOk(w', e);
  }

  lemma AuthKeeps(w: World, access: nat, device: nat)
    requires Ok(w) && device in w.devices && !w.devices[device].revoked
    ensures Ok(w.(log := w.log + [Authenticated(access, device)]))
  {
    var w' := w.(log := w.log + [Authenticated(access, device)]);
    forall id | id in w'.requests
      ensures RequestOk(w', w'.requests[id])
    {
      assert RequestOk(w, w.requests[id]);
    }
    assert forall e :: RotationOk(w, e) ==> RotationOk(w', e);
  }

  predicate Writes(r: Request) {
    r.LoginFound? || r.RefreshDeviceRead? || r.RevokeRead?
  }

  /** The last steps of login, refresh and revoke. */
  lemma WriteKeeps(cfg: Config, w: World, id: nat)
    requires Ok(w) && id in w.requests && Writes(w.requests[id])
    ensures Ok(Proceeds(cfg, w, id))
  {
    assert RequestOk(w, w.requests[id]);
    match w.requests[id]
    case LoginFound(name, device) =>
      LoginKeeps(cfg, w, name, device);
      FinishKeeps(CommitLogin(cfg, w, name, device), id, Finished);
    case RefreshDeviceRead(token, device, now) =>
      RefreshKeeps(cfg, w, token, device, now);
      FinishKeeps(CommitRefresh(cfg, w, token, device, now), id, Finished);
    case RevokeRead(device) =>
      if device in w.devices {
        RevokeKeeps(w, device);
        FinishKeeps(CommitRevoke(w, device), id, Finished);
      } else {
        FinishKeeps(w, id, Finished);
      }
  }

  lemma ProceedsKeeps(cfg: Config, w: World, id: nat)
    requires Ok(w) && id in w.requests
    ensures Ok(Proceeds(cfg, w, id))
  {
    assert RequestOk(w, w.requests[id]);
    if Writes(w.requests[id]) {
      WriteKeeps(cfg, w, id);
    } else if w.requests[id].AuthRowRead? {
      var AuthRowRead(access, device) := w.requests[id];
      if device in w.devices && !w.devices[device].revoked {
        AuthKeeps(w, access, device);
        FinishKeeps(w.(log := w.log + [Authenticated(access, device)]), id, Finished);
      } else {
        FinishKeeps(w, id, Finished);
      }
    } else {
      FinishKeeps(w, id, Proceeds(cfg, w, id).requests[id]);
    }
  }

  lemma {:induction false} Reachable(cfg: Config, steps: seq<Step>)
    ensures Ok(After(cfg, steps))
  {
    if steps != [] {
      var n := |steps| - 1;
      Reachable(cfg, steps[..n]);
      var w := After(cfg, steps[..n]);
      match steps[n]
      case Tick =>
        assert forall r :: RequestOk(w, r) ==> RequestOk(w.(now := w.now + 1), r);
        assert forall e :: RotationOk(w, e) ==> RotationOk(w.(now := w.now + 1), e);
      case Arrive(id, r) => FinishKeeps(w, id, if IsStart(r) then r else Finished);
      case Proceed(id) =>
        if id in w.requests {
          ProceedsKeeps(cfg, w, id);
        }
    }
  }

  /** In every interleaving a refresh token is rotated at most once, into a token of its own. */
  lemma OneSuccessorPerToken(cfg: Config, steps: seq<Step>, i: nat, j: nat)
    requires var log := After(cfg, steps).log;
             i < j < |log| && log[i].Refreshed? && log[j].Refreshed?
    ensures var log := After(cfg, steps).log;
            log[i].old_ != log[j].old_ && log[i].new_ != log[j].new_
  {
    Reachable(cfg, steps);
  }

  /** The rotation chain that a login starts never holds two unconsumed tokens. */
  lemma OneLiveTokenPerChain(cfg: Config, steps: seq<Step>, t: nat, u: nat)
    requires var w := After(cfg, steps);
             Live(w, t) && Live(w, u) && w.refresh[t].chain == w.refresh[u].chain
    ensures t == u
  {
    Reachable(cfg, steps);
  }

  /**
   After the revoke of a device has committed, no refresh of that device
   commits and no access token of it authenticates, whatever was in flight at
   the time and whatever tokens a racing login still inserts.
   */
  lemma RevokeIsFinal(cfg: Config, steps: seq<Step>, i: nat, j: nat)
    requires var log := After(cfg, steps).log; i < j < |log| && log[i].Revoked?
    ensures var log := After(cfg, steps).log;
            && !(log[j].Refreshed? && log[j].device == log[i].device)
            && !(log[j].Authenticated? && log[j].device == log[i].device)
  {
    Reachable(cfg, steps);
    assert !Touches(After(cfg, steps).log[j], After(cfg, steps).log[i].device);
  }

  // ---- What the requests do

  /**
   The write of a revoke: it is logged, the device is revoked and is left
   without an unconsumed refresh token and without an access token; other
   devices keep theirs.
   */
  lemma RevokeRevokes(cfg: Config, w: World, id: nat, device: nat)
    requires id in w.requests && w.requests[id] == RevokeRead(device) && device in w.devices
    ensures var next := Next(cfg, w, Proceed(id));
            && next.log == w.log + [Revoked(device)]
            && next.devices == w.devices[device := Device(w.devices[device].name, true)]
            && (forall t :: Live(next, t) <==> Live(w, t) && w.refresh[t].device != device)
            && (forall t :: t in next.refresh ==> t in w.refresh && next.refresh[t] == w.refresh[t])
            && (forall t :: t in w.refresh && w.refresh[t].consumed ==> t in next.refresh)
            && (forall a :: a in next.access <==> a in w.access && w.access[a].device != device)
            && (forall a :: a in next.access ==> next.access[a] == w.access[a])
  {
  }

  /** Is the token one that its device may use at `now`? */
  predicate Usable(w: World, token: nat, device: nat, now: nat) {
    && token in w.refresh && !w.refresh[token].consumed && w.refresh[token].expires > now
    && w.refresh[token].device == device && device in w.devices && !w.devices[device].revoked
  }

  /** A new token pair of `device`, with the lifetimes configured. */
  predicate Issued(cfg: Config, w: World, next: World, device: nat, chain: nat) {
    var token := w.nextToken;
    && next.nextToken == token + 1
    && token in next.refresh
    && next.refresh[token] == RefreshRow(device, w.now + cfg.refreshTtl, false, None, chain)
    && next.access == w.access[token := AccessRow(device, w.now + cfg.accessTtl)]
  }

  /** The old token is consumed by the new one, and both belong to one chain. */
  predicate Rotated(cfg: Config, w: World, next: World, token: nat, device: nat) {
    && token in w.refresh && Issued(cfg, w, next, device, w.refresh[token].chain)
    && next.log == w.log + [Refreshed(token, w.nextToken, device)]
    && next.devices == w.devices
    && next.refresh == w.refresh[token := w.refresh[token].(consumed := true, replacedBy := Some(w.nextToken))]
                                [w.nextToken := next.refresh[w.nextToken]]
  }

  predicate SameTables(w: World, next: World) {
    next.devices == w.devices && next.refresh == w.refresh && next.access == w.access && next.log == w.log
  }

  /**
   In every run the write of a refresh rotates its token if and only if that is
   still usable: unconsumed, unexpired, and of a device that is not revoked.
   */
  lemma RefreshRotatesIff(cfg: Config, steps: seq<Step>, w: World, id: nat, token: nat, device: nat, now: nat)
    requires w == After(cfg, steps)
    requires id in w.requests && w.requests[id] == RefreshDeviceRead(token, device, now)
    ensures var next := Next(cfg, w, Proceed(id));
            if Usable(w, token, device, now) then Rotated(cfg, w, next, token, device) else SameTables(w, next)
  {
    Reachable(cfg, steps);
    assert RequestOk(w, w.requests[id]);
    if Usable(w, token, device, now) {
      RefreshWrites(cfg, w, id, token, device, now);
    }
  }

  ghost function Served(cfg: Config, w: World, id: nat, r: Request, n: nat): World {
    if n == 0 then Next(cfg, w, Arrive(id, r)) else Next(cfg, Served(cfg, w, id, r, n - 1), Proceed(id))
  }

  /** The two reads of a refresh pass exactly the usable tokens. */
  lemma RefreshChecks(cfg: Config, w: World, id: nat, token: nat, device: nat, now: nat)
    requires id !in w.requests
    ensures var read := Served(cfg, w, id, Refresh(token, device, now), 2);
            read == w.(requests := w.requests[id := if Usable(w, token, device, now) then
                                                      RefreshDeviceRead(token, device, now)
                                                    else Finished])
  {
    var r := Refresh(token, device, now);
    var w0 := Served(cfg, w, id, r, 0);
    var w1 := Served(cfg, w, id, r, 1);
    assert w0 == w.(requests := w.requests[id := r]);
    var found := Live(w, token) && w.refresh[token].device == device && w.refresh[token].expires > now;
    assert w1 == w.(requests := w.requests[id := if found then RefreshRowRead(token, device, now) else Finished]);
  }

  lemma RefreshWrites(cfg: Config, w: World, id: nat, token: nat, device: nat, now: nat)
    requires RowsOk(w) && id in w.requests && w.requests[id] == RefreshDeviceRead(token, device, now)
    requires Usable(w, token, device, now)
    ensures Rotated(cfg, w, Next(cfg, w, Proceed(id)), token, device)
  {
    assert token < w.nextToken;
  }

  lemma RotatedAside(cfg: Config, w: World, requests: map<nat, Request>, next: World, token: nat, device: nat)
    requires Rotated(cfg, w.(requests := requests), next, token, device)
    ensures Rotated(cfg, w, next, token, device)
  {
  }

  /** A refresh nobody interferes with rotates exactly the usable tokens. */
  lemma RefreshAlone(cfg: Config, steps: seq<Step>, w: World, id: nat, token: nat, device: nat, now: nat)
    requires w == After(cfg, steps) && id !in w.requests
    ensures var next := Served(cfg, w, id, Refresh(token, device, now), 3);
            if Usable(w, token, device, now) then Rotated(cfg, w, next, token, device) else SameTables(w, next)
  {
    Reachable(cfg, steps);
    RefreshChecks(cfg, w, id, token, device, now);
    RefreshEnds(cfg, w, id, token, device, now);
  }

  lemma RefreshEnds(cfg: Config, w: World, id: nat, token: nat, device: nat, now: nat)
    requires RowsOk(w)
    ensures var usable := Usable(w, token, device, now);
            var read := w.(requests := w.requests[id := if usable then RefreshDeviceRead(token, device, now)
                                                        else Finished]);
            var next := Next(cfg, read, Proceed(id));
            if usable then Rotated(cfg, w, next, token, device) else SameTables(w, next)
  {
    if Usable(w, token, device, now) {
      var read := w.(requests := w.requests[id := RefreshDeviceRead(token, device, now)]);
      RefreshWrites(cfg, read, id, token, device, now);
      RotatedAside(cfg, w, read.requests, Next(cfg, read, Proceed(id)), token, device);
    }
  }

  /** A revoke nobody interferes with, of any known device, leaves nothing of it usable. */
  lemma RevokeAlone(cfg: Config, w: World, id: nat, device: nat)
    requires id !in w.requests
    ensures var next := Served(cfg, w, id, Revoke(device), 2);
            if device in w.devices then
              && next.log == w.log + [Revoked(device)]
              && device in next.devices && next.devices[device].revoked
              && (forall t :: Live(next, t) ==> next.refresh[t].device != device)
              && (forall a :: a in next.access ==> next.access[a].device != device)
            else SameTables(w, next)
  {
    var w0 := Served(cfg, w, id, Revoke(device), 0);
    var w1 := Served(cfg, w, id, Revoke(device), 1);
    assert w0.requests == w.requests[id := Revoke(device)];
    if device in w.devices {
      assert w1.requests[id] == RevokeRead(device);
      RevokeRevokes(cfg, w1, id, device);
    }
  }

  /** An access token authenticates exactly while its row is there, unexpired, and its device not revoked. */
  lemma AuthAlone(cfg: Config, w: World, id: nat, access: nat, now: nat)
    requires id !in w.requests
    ensures var next := Served(cfg, w, id, Auth(access, now), 2);
            && next.devices == w.devices && next.refresh == w.refresh && next.access == w.access
            && next.log == w.log + if access in w.access && w.access[access].expires > now
                                      && w.access[access].device in w.devices
                                      && !w.devices[w.access[access].device].revoked
                                   then [Authenticated(access, w.access[access].device)] else []
  {
    var w0 := Served(cfg, w, id, Auth(access, now), 0);
    var w1 := Served(cfg, w, id, Auth(access, now), 1);
    assert w0.requests == w.requests[id := Auth(access, now)];
    assert w.log + [] == w.log;
    if access in w.access && w.access[access].expires > now {
      assert w1.requests[id] == AuthRowRead(access, w.access[access].device);
    }
  }

  /**
   A login nobody interferes with logs its device in, an unrevoked one of that
   name if there is any and a new one otherwise, and issues it a pair that
   starts a chain of its own.
   */
  lemma LoginAlone(cfg: Config, w: World, id: nat, name: string) returns (device: nat)
    requires id !in w.requests
    ensures var next := Served(cfg, w, id, Login(name), 2);
            && next.log == w.log + [LoggedIn(device, w.nextToken)]
            && Issued(cfg, w, next, device, w.nextToken)
            && next.refresh == w.refresh[w.nextToken := next.refresh[w.nextToken]]
            && (Candidate(w, name, None) ==>
                  device == w.nextDevice && next.devices == w.devices[device := Device(name, false)])
            && (!Candidate(w, name, None) ==> Candidate(w, name, Some(device)) && next.devices == w.devices)
  {
    var w0 := Served(cfg, w, id, Login(name), 0);
    var w1 := Served(cfg, w, id, Login(name), 1);
    assert w0 == w.(requests := w.requests[id := Login(name)]);
    var found: Option<nat> := w1.requests[id].found;
    assert Candidate(w0, name, found);
    assert forall d: Option<nat> :: Candidate(w0, name, d) <==> Candidate(w, name, d);
    device := found.Or(w.nextDevice);
  }

  // ---- Where access tokens come from

  /** The log tells of a login or a refresh that gave the device the access token. */
  predicate WasIssued(log: seq<Event>, access: nat, device: nat) {
    exists e :: e in log && (e == LoggedIn(device, access) || (e.Refreshed? && e.new_ == access && e.device == device))
  }

  ghost predicate AccessOk(w: World) {
    forall a :: a in w.access ==> WasIssued(w.log, a, w.access[a].device)
  }

  ghost predicate ChecksOk(w: World) {
    forall id :: id in w.requests && w.requests[id].AuthRowRead? ==>
      WasIssued(w.log, w.requests[id].access, w.requests[id].device)
  }

  ghost predicate UsesOk(log: seq<Event>) {
    forall j :: 0 <= j < |log| && log[j].Authenticated? ==> WasIssued(log[..j], log[j].access, log[j].device)
  }

  /** Every access token around, being checked, or used. */
  ghost predicate IssuesOk(w: World) {
    AccessOk(w) && ChecksOk(w) && UsesOk(w.log)
  }

  lemma IssuedStays(log: seq<Event>, log': seq<Event>, access: nat, device: nat)
    requires log <= log' && WasIssued(log, access, device)
    ensures WasIssued(log', access, device)
  {
    var e :| e in log && (e == LoggedIn(device, access) || (e.Refreshed? && e.new_ == access && e.device == device));
    assert e in log';
  }

  /** What a step logs: nothing, an end of a request, or an authentication that was being checked. */
  lemma LogStep(cfg: Config, w: World, s: Step)
    ensures var log := Next(cfg, w, s).log;
            || log == w.log
            || (&& |log| == |w.log| + 1 && log == w.log + [log[|w.log|]]
                && var e := log[|w.log|];
                   e.Authenticated? ==>
                     s.Proceed? && s.id in w.requests && w.requests[s.id] == AuthRowRead(e.access, e.device))
  {
  }

  /** An access row was there, or is new with the event just logged. */
  lemma AccessStep(cfg: Config, w: World, s: Step, a: nat)
    requires a in Next(cfg, w, s).access
    ensures var w' := Next(cfg, w, s);
            || (a in w.access && w.access[a] == w'.access[a])
            || (&& |w'.log| == |w.log| + 1
                && var e := w'.log[|w.log|];
                   || e == LoggedIn(w'.access[a].device, a)
                   || (e.Refreshed? && e.new_ == a && e.device == w'.access[a].device))
  {
  }

  /** A request moves only by its own steps. */
  lemma OwnRequest(cfg: Config, w: World, id: nat)
    requires id in w.requests
    ensures id in Proceeds(cfg, w, id).requests
    ensures Proceeds(cfg, w, id).requests == w.requests[id := Proceeds(cfg, w, id).requests[id]]
  {
    if Writes(w.requests[id]) {
      OwnWrite(cfg, w, id);
    }
  }

  lemma OwnWrite(cfg: Config, w: World, id: nat)
    requires id in w.requests && Writes(w.requests[id])
    ensures Proceeds(cfg, w, id).requests == w.requests[id := Finished]
  {
  }

  /** An authentication checks a row that it has found. */
  lemma OwnCheck(cfg: Config, w: World, id: nat)
    requires id in w.requests && id in Proceeds(cfg, w, id).requests && Proceeds(cfg, w, id).requests[id].AuthRowRead?
    ensures var r := Proceeds(cfg, w, id).requests[id]; r.access in w.access && w.access[r.access].device == r.device
  {
  }

  lemma CheckStep(cfg: Config, w: World, s: Step, id: nat)
    requires id in Next(cfg, w, s).requests && Next(cfg, w, s).requests[id].AuthRowRead?
    ensures var r := Next(cfg, w, s).requests[id];
            || (id in w.requests && w.requests[id] == r)
            || (r.access in w.access && w.access[r.access].device == r.device)
  {
    if s.Proceed? && s.id in w.requests {
      OwnRequest(cfg, w, s.id);
      if s.id == id {
        OwnCheck(cfg, w, id);
      }
    }
  }

  lemma AccessKeeps(cfg: Config, w: World, s: Step)
    requires AccessOk(w)
    ensures AccessOk(Next(cfg, w, s))
  {
    var w' := Next(cfg, w, s);
    LogStep(cfg, w, s);
    forall a | a in w'.access
      ensures WasIssued(w'.log, a, w'.access[a].device)
    {
      AccessStep(cfg, w, s, a);
      if a in w.access && w.access[a] == w'.access[a] {
        IssuedStays(w.log, w'.log, a, w.access[a].device);
      } else {
        assert w'.log[|w.log|] in w'.log;
      }
    }
  }

  lemma ChecksKeep(cfg: Config, w: World, s: Step)
    requires AccessOk(w) && ChecksOk(w)
    ensures ChecksOk(Next(cfg, w, s))
  {
    var w' := Next(cfg, w, s);
    LogStep(cfg, w, s);
    forall id | id in w'.requests && w'.requests[id].AuthRowRead?
      ensures WasIssued(w'.log, w'.requests[id].access, w'.requests[id].device)
    {
      CheckStep(cfg, w, s, id);
      IssuedStays(w.log, w'.log, w'.requests[id].access, w'.requests[id].device);
    }
  }

  lemma UsesKeep(cfg: Config, w: World, s: Step)
    requires ChecksOk(w) && UsesOk(w.log)
    ensures UsesOk(Next(cfg, w, s).log)
  {
    LogStep(cfg, w, s);
    var log := Next(cfg, w, s).log;
    forall j | 0 <= j < |log| && log[j].Authenticated?
      ensures WasIssued(log[..j], log[j].access, log[j].device)
    {
      assert log[..j] == w.log[..j];
      if j < |w.log| {
        assert log[j] == w.log[j];
      } else {
        assert w.log[..j] == w.log;
      }
    }
  }

  lemma {:induction false} IssuesReachable(cfg: Config, steps: seq<Step>)
    ensures IssuesOk(After(cfg, steps))
  {
    if steps != [] {
      var n := |steps| - 1;
      IssuesReachable(cfg, steps[..n]);
      AccessKeeps(cfg, After(cfg, steps[..n]), steps[n]);
      ChecksKeep(cfg, After(cfg, steps[..n]), steps[n]);
      UsesKeep(cfg, After(cfg, steps[..n]), steps[n]);
    }
  }

  /** In every run, what authenticates for a device is an access token a login or a refresh has issued to it before. */
  lemma AuthenticatedWasIssued(cfg: Config, steps: seq<Step>, j: nat)
    requires var log := After(cfg, steps).log; j < |log| && log[j].Authenticated?
    ensures var log := After(cfg, steps).log; WasIssued(log[..j], log[j].access, log[j].device)
  {
    IssuesReachable(cfg, steps);
  }
}
