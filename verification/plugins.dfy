/**
 The plugin lifecycle (pg_plugin_runtime/runtime.py): state records advanced by
 install, enable, disable, uninstall, update and rollback over the manifests
 of the deployed bundle.
 */
module Plugins {
  import opened Options

  datatype Manifest = Manifest(version: string, requires_: seq<string>, defaultEnabled: bool)

  datatype Lifecycle = Installed | EnabledState | DisabledState | Updating | RollbackAvailable | Uninstalled

  datatype Record = Record(enabled: bool, version: string, lifecycle: Lifecycle, previous: Option<string>)

  datatype Failure =
    | UnknownPlugin | AlreadyInstalled | NotInstalled | DependencyDisabled(id: string)
    | RequiredBy(ids: set<string>) | NoUpdate | NoRollbackVersion | BundleNotActive

  /** Why `discover` raises. */
  datatype BadBundle = DuplicateId(id: string) | MissingDependencies(id: string, missing: seq<string>)

  datatype World = World(manifests: map<string, Manifest>, states: map<string, Record>) {
    predicate Enabled(id: string) {
      && id in states && states[id].enabled
      && !states[id].lifecycle.Uninstalled? && !states[id].lifecycle.Installed? && !states[id].lifecycle.Updating?
    }

    predicate Present(id: string) {
      id in states && !states[id].lifecycle.Uninstalled?
    }

    function Dependants(id: string): set<string> {
      set p | p in manifests && id in manifests[p].requires_ && Enabled(p)
    }
  }

  datatype Op =
    | Install(id: string) | Enable(id: string) | Disable(id: string) | Uninstall(id: string)
    | Update(id: string) | Rollback(id: string)

  /** The record a completed operation leaves, or why it fails. */
  function Outcome(w: World, op: Op): Result<Record, Failure> {
    if op.id !in w.manifests then Err(UnknownPlugin)
    else
      var m := w.manifests[op.id];
      if op.Install? && w.Present(op.id) then Err(AlreadyInstalled)
      else if op.Install? then
        Ok(Record(false, m.version, Installed,
                  if op.id in w.states then Some(w.states[op.id].version) else None))
      else if !w.Present(op.id) then Err(NotInstalled)
      else Change(w, op, m, w.states[op.id])
  }

  /** An operation on an installed plugin. */
  function Change(w: World, op: Op, m: Manifest, r: Record): Result<Record, Failure> {
    match op
    case Enable(id) =>
      var d := FirstDisabled(w, m.requires_);
      if d.Some? then Err(DependencyDisabled(d.value))
      else Ok(r.(enabled := true, lifecycle := EnabledState))
    case Disable(id) =>
      if w.Dependants(id) != {} then Err(RequiredBy(w.Dependants(id)))
      else Ok(r.(enabled := false, lifecycle := DisabledState))
    case Uninstall(id) =>
      if w.Dependants(id) != {} then Err(RequiredBy(w.Dependants(id)))
      else Ok(r.(enabled := false, lifecycle := Uninstalled))
    case Update(id) =>
      if m.version == r.version then Err(NoUpdate)
      else Ok(Record(r.enabled, m.version, RollbackAvailable, Some(r.version)))
    case Rollback(id) =>
      if r.previous.Or("") == "" then Err(NoRollbackVersion)
      else if m.version != r.previous.value then Err(BundleNotActive)
      else Ok(Record(r.enabled, m.version, if r.enabled then EnabledState else DisabledState, Some(r.version)))
    case Install(_) => Err(AlreadyInstalled)
  }

  /** The first requirement, in manifest order, that is not enabled. */
  function FirstDisabled(w: World, deps: seq<string>): Option<string> {
    if deps == [] then None
    else if !w.Enabled(deps[0]) then Some(deps[0])
    else FirstDisabled(w, deps[1..])
  }

  lemma {:induction false} NoneDisabled(w: World, deps: seq<string>)
    ensures FirstDisabled(w, deps).None? <==> forall d :: d in deps ==> w.Enabled(d)
  {
    if deps != [] {
      NoneDisabled(w, deps[1..]);
      assert deps == [deps[0]] + deps[1..];
    }
  }

  function Perform(w: World, op: Op): World {
    var o := Outcome(w, op);
    if o.Ok? then w.(states := w.states[op.id := o.value]) else w
  }

  function PerformAll(w: World, ops: seq<Op>): World {
    if ops == [] then w else Perform(PerformAll(w, ops[..|ops| - 1]), ops[|ops| - 1])
  }

  // ---- What completed operations do

  /** An operation that does not complete changes nothing, one that does nothing but the record of its plugin. */
  lemma OnlyItsOwnRecord(w: World, op: Op)
    ensures var w' := Perform(w, op);
            && w'.manifests == w.manifests
            && (Outcome(w, op).Err? ==> w' == w)
            && (Outcome(w, op).Ok? ==> op.id in w'.states && w'.states == w.states[op.id := w'.states[op.id]])
  {
  }

  predicate Known(w: World, id: string) {
    id in w.manifests && w.Present(id)
  }

  /** An absent plugin of the bundle can be installed: at the bundle's version, and off. */
  lemma InstallIff(w: World, id: string)
    ensures Outcome(w, Install(id)).Ok? <==> id in w.manifests && !w.Present(id)
    ensures Outcome(w, Install(id)).Ok? ==>
              var w' := Perform(w, Install(id));
              && w'.Present(id) && !w'.Enabled(id) && w'.states[id].version == w.manifests[id].version
              && w'.states[id].previous == (if id in w.states then Some(w.states[id].version) else None)
  {
  }

  /** A plugin can be enabled exactly if all it requires is; then it is on, at its version. */
  lemma EnableIff(w: World, id: string)
    ensures Outcome(w, Enable(id)).Ok? <==>
              Known(w, id) && forall d :: d in w.manifests[id].requires_ ==> w.Enabled(d)
    ensures Outcome(w, Enable(id)).Ok? ==>
              var w' := Perform(w, Enable(id));
              && w'.Enabled(id)
              && w'.states[id].version == w.states[id].version && w'.states[id].previous == w.states[id].previous
    ensures Outcome(w, Enable(id)).Err? && Known(w, id) ==>
              var e := Outcome(w, Enable(id)).error;
              && e.DependencyDisabled? && !w.Enabled(e.id)
              && exists k :: IsFirstOff(w, w.manifests[id].requires_, k, e.id)
  {
    if Known(w, id) {
      NoneDisabled(w, w.manifests[id].requires_);
      if FirstDisabled(w, w.manifests[id].requires_).Some? {
        var k := FirstIsDisabled(w, w.manifests[id].requires_);
        assert IsFirstOff(w, w.manifests[id].requires_, k, w.manifests[id].requires_[k]);
      }
    }
  }

  /** The `k`-th requirement is `d`, and those before it are on. */
  predicate IsFirstOff(w: World, deps: seq<string>, k: nat, d: string) {
    k < |deps| && deps[k] == d && forall before :: before in deps[..k] ==> w.Enabled(before)
  }

  lemma {:induction false} FirstIsDisabled(w: World, deps: seq<string>) returns (k: nat)
    requires FirstDisabled(w, deps).Some?
    ensures k < |deps| && deps[k] == FirstDisabled(w, deps).value && !w.Enabled(deps[k])
    ensures forall d :: d in deps[..k] ==> w.Enabled(d)
  {
    k := 0;
    if w.Enabled(deps[0]) {
      k := FirstIsDisabled(w, deps[1..]);
      k := k + 1;
      assert deps[..k] == [deps[0]] + deps[1..][..k - 1];
    }
  }

  /** A plugin requires `id` and is on. */
  predicate Depends(w: World, p: string, id: string) {
    p in w.manifests && w.Enabled(p) && id in w.manifests[p].requires_
  }

  /** A plugin can be disabled exactly if nothing that is on requires it; then it is off, and still there. */
  lemma DisableIff(w: World, id: string)
    ensures Outcome(w, Disable(id)).Ok? <==> Known(w, id) && forall p :: !Depends(w, p, id)
    ensures Outcome(w, Disable(id)).Ok? ==>
              var w' := Perform(w, Disable(id));
              && w'.Present(id) && !w'.Enabled(id)
              && w'.states[id].version == w.states[id].version && w'.states[id].previous == w.states[id].previous
    ensures Outcome(w, Disable(id)).Err? && Known(w, id) ==>
              var e := Outcome(w, Disable(id)).error;
              e.RequiredBy? && forall p :: p in e.ids <==> Depends(w, p, id)
  {
    DependantsDepend(w, id);
  }

  lemma DependantsDepend(w: World, id: string)
    ensures forall p :: p in w.Dependants(id) <==> Depends(w, p, id)
    ensures w.Dependants(id) == {} <==> forall p :: !Depends(w, p, id)
  {
    if p :| Depends(w, p, id) {
      assert p in w.Dependants(id);
    }
  }

  /** It can be uninstalled under the same condition, and then is absent. */
  lemma UninstallIff(w: World, id: string)
    ensures Outcome(w, Uninstall(id)).Ok? <==> Known(w, id) && forall p :: !Depends(w, p, id)
    ensures Outcome(w, Uninstall(id)).Ok? ==>
              var w' := Perform(w, Uninstall(id));
              !w'.Present(id) && !w'.Enabled(id) && w'.states[id].version == w.states[id].version
  {
    DependantsDepend(w, id);
  }

  /** A plugin can be updated exactly if the bundle has another version; then it is at that one, its flag kept. */
  lemma UpdateIff(w: World, id: string)
    ensures Outcome(w, Update(id)).Ok? <==> Known(w, id) && w.manifests[id].version != w.states[id].version
    ensures Outcome(w, Update(id)).Ok? ==>
              var w' := Perform(w, Update(id));
              && w'.Present(id) && w'.states[id].version == w.manifests[id].version
              && w'.states[id].previous == Some(w.states[id].version)
              && (w'.Enabled(id) <==> w.states[id].enabled)
  {
  }

  /** It can be rolled back exactly if a version is remembered, not an empty one, and the bundle has that version. */
  lemma RollbackIff(w: World, id: string)
    ensures Outcome(w, Rollback(id)).Ok? <==>
              && Known(w, id) && w.states[id].previous.Some? && w.states[id].previous.value != ""
              && w.states[id].previous.value == w.manifests[id].version
    ensures Outcome(w, Rollback(id)).Ok? ==>
              var w' := Perform(w, Rollback(id));
              && w'.Present(id) && w'.states[id].version == w.manifests[id].version
              && w'.states[id].previous == Some(w.states[id].version)
              && (w'.Enabled(id) <==> w.states[id].enabled)
  {
  }

  // ---- Dependency closure

  ghost predicate Closed(w: World) {
    forall p, d :: p in w.manifests && w.Enabled(p) && d in w.manifests[p].requires_ ==> w.Enabled(d)
  }

  /** At operation boundaries no update is half done and only an enabled state carries the flag. */
  ghost predicate Tidy(w: World) {
    forall id :: id in w.states ==>
      && !w.states[id].lifecycle.Updating?
      && (w.states[id].enabled ==> w.states[id].lifecycle.EnabledState? || w.states[id].lifecycle.RollbackAvailable?)
  }

  /**
   What a completed operation on `id` may do to the enabled plugins: switch
   `id` on only over enabled requirements, off only without enabled dependants.
   */
  ghost predicate Follows(w: World, w': World, id: string) {
    && Tidy(w') && w'.manifests == w.manifests
    && (forall p :: p != id ==> (w'.Enabled(p) <==> w.Enabled(p)))
    && (w'.Enabled(id) && !w.Enabled(id) ==>
          id in w.manifests && forall d :: d in w.manifests[id].requires_ ==> w.Enabled(d))
    && (w.Enabled(id) && !w'.Enabled(id) ==> w.Dependants(id) == {})
  }

  lemma PerformFollows(w: World, op: Op)
    requires Tidy(w)
    ensures Follows(w, Perform(w, op), op.id)
  {
    if Outcome(w, op).Ok? {
      NoneDisabled(w, w.manifests[op.id].requires_);
    }
  }

  lemma FollowsKeeps(w: World, w': World, id: string)
    requires Closed(w) && Follows(w, w', id)
    ensures Closed(w')
  {
    forall p, d | p in w'.manifests && w'.Enabled(p) && d in w'.manifests[p].requires_
      ensures w'.Enabled(d)
    {
      assert w.Enabled(d);
      if d == id && w.Enabled(p) {
        assert p in w.Dependants(id);
      }
    }
  }

  /** Every sequence of operations, completed or refused, keeps the enabled plugins dependency-closed. */
  lemma {:induction false} ClosureIsKept(w: World, ops: seq<Op>)
    requires Closed(w) && Tidy(w)
    ensures Closed(PerformAll(w, ops)) && Tidy(PerformAll(w, ops))
    ensures PerformAll(w, ops).manifests == w.manifests
  {
    if ops != [] {
      var n := |ops| - 1;
      ClosureIsKept(w, ops[..n]);
      PerformFollows(PerformAll(w, ops[..n]), ops[n]);
      FollowsKeeps(PerformAll(w, ops[..n]), PerformAll(w, ops), ops[n].id);
    }
  }

  /** `path` follows direct requirements. */
  ghost predicate IsPath(w: World, path: seq<string>) {
    && (forall i :: 0 <= i < |path| ==> path[i] in w.manifests)
    && forall i :: 0 <= i < |path| - 1 ==> path[i + 1] in w.manifests[path[i]].requires_
  }

  /** Closure is transitive: an enabled plugin's requirements are enabled at any depth. */
  lemma {:induction false} TransitiveRequirements(w: World, path: seq<string>)
    requires Closed(w) && IsPath(w, path) && path != [] && w.Enabled(path[0])
    ensures w.Enabled(path[|path| - 1])
  {
    if |path| > 1 {
      var n := |path| - 1;
      TransitiveRequirements(w, path[..n]);
      assert path[n] in w.manifests[path[n - 1]].requires_;
    }
  }

  /** Each plugin on the cycle requires the next one, the last one the first. */
  ghost predicate Cycle(w: World, cycle: seq<string>) {
    && (forall p :: p in cycle ==> p in w.manifests)
    && forall i, j :: 0 <= i < |cycle| && 0 <= j < |cycle| && (j == i + 1 || (i == |cycle| - 1 && j == 0)) ==>
         cycle[j] in w.manifests[cycle[i]].requires_
  }

  ghost predicate AllOff(w: World, cycle: seq<string>) {
    forall p :: p in cycle ==> !w.Enabled(p)
  }

  lemma CycleStep(w: World, w': World, cycle: seq<string>, id: string)
    requires Follows(w, w', id) && Cycle(w, cycle) && AllOff(w, cycle)
    ensures AllOff(w', cycle)
  {
    forall p | p in cycle
      ensures !w'.Enabled(p)
    {
      var i :| 0 <= i < |cycle| && cycle[i] == p;
      var j := if i == |cycle| - 1 then 0 else i + 1;
      assert cycle[j] in cycle && cycle[j] in w.manifests[cycle[i]].requires_;
    }
  }

  /** A dependency cycle none of whose members is enabled stays disabled whatever is done. */
  lemma {:induction false} DisabledCycleStays(w: World, cycle: seq<string>, ops: seq<Op>)
    requires Tidy(w)
    requires Cycle(w, cycle) && AllOff(w, cycle)
    ensures AllOff(PerformAll(w, ops), cycle)
    ensures Tidy(PerformAll(w, ops)) && PerformAll(w, ops).manifests == w.manifests
  {
    if ops != [] {
      var n := |ops| - 1;
      DisabledCycleStays(w, cycle, ops[..n]);
      PerformFollows(PerformAll(w, ops[..n]), ops[n]);
      CycleStep(PerformAll(w, ops[..n]), PerformAll(w, ops), cycle, ops[n].id);
    }
  }

  // ---- Redeployment, defaults and rollback

  /** An enabled plugin with a requirement that is not enabled. */
  ghost predicate Broken(w: World, p: string, d: string) {
    p in w.manifests && w.Enabled(p) && d in w.manifests[p].requires_ && !w.Enabled(d)
  }

  lemma FollowsBreaksNothing(w: World, w': World, id: string, p: string, d: string)
    requires Follows(w, w', id)
    ensures Broken(w', p, d) ==> Broken(w, p, d)
  {
    assert p in w.manifests && d in w.manifests[p].requires_ && w.Enabled(p) ==> p in w.Dependants(d);
  }

  /**
   No operation breaks anything: starting anywhere, also after a redeploy or
   defaults that left requirements unmet, every requirement that is unmet after
   any sequence of operations was unmet before it.
   */
  lemma {:induction false} OperationsBreakNothing(w: World, ops: seq<Op>, p: string, d: string)
    requires Tidy(w) && Broken(PerformAll(w, ops), p, d)
    ensures Broken(w, p, d)
    ensures Tidy(PerformAll(w, ops))
  {
    if ops != [] {
      var n := |ops| - 1;
      OperationsKeepTidy(w, ops[..n]);
      PerformFollows(PerformAll(w, ops[..n]), ops[n]);
      FollowsBreaksNothing(PerformAll(w, ops[..n]), PerformAll(w, ops), ops[n].id, p, d);
      OperationsBreakNothing(w, ops[..n], p, d);
    }
  }

  lemma {:induction false} OperationsKeepTidy(w: World, ops: seq<Op>)
    requires Tidy(w)
    ensures Tidy(PerformAll(w, ops)) && PerformAll(w, ops).manifests == w.manifests
  {
    if ops != [] {
      var n := |ops| - 1;
      OperationsKeepTidy(w, ops[..n]);
      PerformFollows(PerformAll(w, ops[..n]), ops[n]);
    }
  }

  /** Operations on other plugins, and all but `uninstall` on this one. */
  predicate Spares(ops: seq<Op>, id: string) {
    forall i :: 0 <= i < |ops| ==> ops[i] != Uninstall(id)
  }

  /** After an update the old version stays recorded, and the plugin installed at the new one. */
  lemma {:induction false} UpdateIsRemembered(w: World, id: string, ops: seq<Op>)
    requires Outcome(w, Update(id)).Ok? && Spares(ops, id)
    ensures var now := PerformAll(Perform(w, Update(id)), ops);
            && now.manifests == w.manifests && now.Present(id)
            && now.states[id].version == w.manifests[id].version
            && now.states[id].previous == Some(w.states[id].version)
  {
    if ops != [] {
      var n := |ops| - 1;
      UpdateIsRemembered(w, id, ops[..n]);
      assert ops[n] != Uninstall(id);
      OtherOpRemembers(PerformAll(Perform(w, Update(id)), ops[..n]), ops[n], id);
    }
  }

  /** An installed plugin at its manifest's version can only be switched on or off, unless it can be rolled back. */
  lemma OtherOpRemembers(w: World, op: Op, id: string)
    requires w.Present(id) && id in w.manifests && w.states[id].version == w.manifests[id].version
    requires op != Uninstall(id) && w.states[id].previous != Some(w.manifests[id].version)
    ensures var w' := Perform(w, op);
            && w'.Present(id) && w'.manifests == w.manifests
            && w'.states[id].version == w.states[id].version && w'.states[id].previous == w.states[id].previous
  {
  }

  /**
   Update, any operations but an uninstall of this plugin, redeploy of the old
   bundle, rollback: the old version is back and the enabled flag as the
   operations left it, unless the old version is the empty string, which the
   runtime takes for "none recorded".
   */
  lemma UpdateThenRollback(w: World, id: string, ops: seq<Op>, redeployed: map<string, Manifest>)
    requires Outcome(w, Update(id)).Ok? && Spares(ops, id)
    requires id in redeployed && redeployed[id].version == w.states[id].version
    ensures var now := PerformAll(Perform(w, Update(id)), ops);
            var back := Outcome(now.(manifests := redeployed), Rollback(id));
            && id in now.states
            && (back.Ok? <==> w.states[id].version != "")
            && (back.Ok? ==>
                  && back.value.version == w.states[id].version
                  && back.value.enabled == now.states[id].enabled
                  && back.value.previous == Some(w.manifests[id].version))
  {
    UpdateIsRemembered(w, id, ops);
  }

  /** `install_defaults`: a record for every plugin that has none. */
  function Defaults(w: World): World {
    w.(states := map id | id in w.states.Keys + w.manifests.Keys ::
         if id in w.states then w.states[id]
         else var m := w.manifests[id];
              Record(m.defaultEnabled, m.version, if m.defaultEnabled then EnabledState else DisabledState, None))
  }

  /** A requirement that the defaults leave enabled. */
  predicate WillBeEnabled(w: World, d: string) {
    w.Enabled(d) || (d !in w.states && d in w.manifests && w.manifests[d].defaultEnabled)
  }

  /** Records that are there stay; a plugin without one gets one at its version, on exactly if that is its default. */
  lemma DefaultsAre(w: World, id: string)
    ensures Defaults(w).manifests == w.manifests
    ensures id in Defaults(w).states <==> id in w.states || id in w.manifests
    ensures id in w.states ==> Defaults(w).states[id] == w.states[id]
    ensures id !in w.states && id in w.manifests ==>
              && Defaults(w).Present(id) && Defaults(w).states[id].version == w.manifests[id].version
              && Defaults(w).states[id].previous == None
              && (Defaults(w).Enabled(id) <==> w.manifests[id].defaultEnabled)
  {
  }

  lemma DefaultsAreTidy(w: World)
    requires Tidy(w)
    ensures Tidy(Defaults(w))
  {
  }

  /**
   Installing defaults keeps closure exactly when every newly enabled plugin's
   requirements are enabled already or newly enabled themselves: that the
   defaults are closed among themselves is not enough if a requirement has a
   disabled record.
   */
  lemma DefaultsKeepClosureIff(w: World)
    requires Closed(w) && Tidy(w)
    ensures Tidy(Defaults(w))
    ensures Closed(Defaults(w)) <==>
            forall p, d | p in w.manifests && p !in w.states && w.manifests[p].defaultEnabled
                          && d in w.manifests[p].requires_ :: WillBeEnabled(w, d)
  {
    var w' := Defaults(w);
    assert forall d :: w'.Enabled(d) <==> WillBeEnabled(w, d);
  }

  // ---- A whole life

  /** The application installs the defaults whenever it has discovered a bundle. */
  datatype Event = Operation(op: Op) | Redeploy(manifests: map<string, Manifest>) | InstallDefaults

  function Step(w: World, e: Event): World {
    match e
    case Operation(op) => Perform(w, op)
    case Redeploy(manifests) => w.(manifests := manifests)
    case InstallDefaults => Defaults(w)
  }

  function History(w: World, events: seq<Event>): World {
    if events == [] then w else Step(History(w, events[..|events| - 1]), events[|events| - 1])
  }

  /**
   A redeployed bundle asks of the plugins enabled at that time only what is
   enabled; defaults ask only for what is enabled already or with them.
   */
  ghost predicate Bearable(w: World, e: Event) {
    match e
    case Operation(_) => true
    case Redeploy(manifests) =>
      forall p, d :: p in manifests && w.Enabled(p) && d in manifests[p].requires_ ==> w.Enabled(d)
    case InstallDefaults =>
      forall p, d | p in w.manifests && p !in w.states && w.manifests[p].defaultEnabled
                    && d in w.manifests[p].requires_ :: WillBeEnabled(w, d)
  }

  lemma StepKeepsTidy(w: World, e: Event)
    requires Tidy(w)
    ensures Tidy(Step(w, e))
    ensures Closed(w) ==> (Closed(Step(w, e)) <==> Bearable(w, e))
  {
    match e
    case Operation(op) =>
      PerformFollows(w, op);
      if Closed(w) {
        FollowsKeeps(w, Perform(w, op), op.id);
      }
    case Redeploy(manifests) =>
      assert forall p :: Step(w, e).Enabled(p) <==> w.Enabled(p);
    case InstallDefaults =>
      DefaultsAreTidy(w);
      if Closed(w) {
        DefaultsKeepClosureIff(w);
      }
  }

  ghost predicate AlwaysClosed(w: World, events: seq<Event>) {
    forall n :: 0 <= n <= |events| ==> Closed(History(w, events[..n]))
  }

  ghost predicate AllBearable(w: World, events: seq<Event>) {
    forall n :: 0 <= n < |events| ==> Bearable(History(w, events[..n]), events[n])
  }

  lemma PrefixOfHistory(w: World, events: seq<Event>, e: Event, n: nat)
    requires n <= |events|
    ensures History(w, (events + [e])[..n]) == History(w, events[..n])
    ensures History(w, events + [e]) == Step(History(w, events), e)
  {
    assert (events + [e])[..n] == events[..n];
    assert (events + [e])[..|events + [e]| - 1] == events;
  }

  lemma {:induction false} HistoryKeepsTidy(w: World, events: seq<Event>)
    requires Tidy(w)
    ensures Tidy(History(w, events))
  {
    if events != [] {
      var n := |events| - 1;
      HistoryKeepsTidy(w, events[..n]);
      StepKeepsTidy(History(w, events[..n]), events[n]);
    }
  }

  /**
   A whole life of a runtime, operations, redeployed bundles and defaults in any
   order: the enabled plugins are dependency-closed at every moment if and only
   if every bundle, and all defaults, were bearable when they came. Operations
   are never to blame.
   */
  lemma AlwaysClosedIffBearable(w: World, events: seq<Event>)
    requires Closed(w) && Tidy(w)
    ensures AlwaysClosed(w, events) <==> AllBearable(w, events)
  {
    forall n | 0 <= n < |events|
      ensures Closed(History(w, events[..n])) ==>
                (Closed(History(w, events[..n + 1])) <==> Bearable(History(w, events[..n]), events[n]))
    {
      assert events[..n + 1] == events[..n] + [events[n]];
      PrefixOfHistory(w, events[..n], events[n], n);
      HistoryKeepsTidy(w, events[..n]);
      StepKeepsTidy(History(w, events[..n]), events[n]);
    }
    if AllBearable(w, events) {
      ClosedUpTo(w, events, |events|);
    }
    if AlwaysClosed(w, events) {
      forall n | 0 <= n < |events|
        ensures Bearable(History(w, events[..n]), events[n])
      {
        assert Closed(History(w, events[..n])) && Closed(History(w, events[..n + 1]));
      }
    }
  }

  lemma {:induction false} ClosedUpTo(w: World, events: seq<Event>, n: nat)
    requires Closed(w) && n <= |events| && AllBearable(w, events)
    requires forall k :: 0 <= k < |events| && Closed(History(w, events[..k])) ==>
               (Closed(History(w, events[..k + 1])) <==> Bearable(History(w, events[..k]), events[k]))
    ensures forall k :: 0 <= k <= n ==> Closed(History(w, events[..k]))
  {
    if n > 0 {
      ClosedUpTo(w, events, n - 1);
      assert Closed(History(w, events[..n - 1]));
    }
  }

  // ---- The runtime object

  /** No id twice among the bundle's manifests, in path order. */
  ghost predicate Distinct(found: seq<(string, Manifest)>) {
    forall i, j :: 0 <= i < j < |found| ==> found[i].0 != found[j].0
  }

  ghost predicate IsTable(found: seq<(string, Manifest)>, table: map<string, Manifest>) {
    && (forall i :: 0 <= i < |found| ==> found[i].0 in table && table[found[i].0] == found[i].1)
    && forall id :: id in table ==> exists i :: 0 <= i < |found| && found[i].0 == id
  }

  /** The requirements that no manifest meets, in order. */
  function MissingOf(manifests: map<string, Manifest>, deps: seq<string>): seq<string> {
    if deps == [] then []
    else (if deps[0] in manifests then [] else [deps[0]]) + MissingOf(manifests, deps[1..])
  }

  lemma {:induction false} MissingMeans(manifests: map<string, Manifest>, deps: seq<string>)
    ensures MissingOf(manifests, deps) == [] <==> forall d :: d in deps ==> d in manifests
  {
    if deps != [] {
      MissingMeans(manifests, deps[1..]);
      assert deps == [deps[0]] + deps[1..];
    }
  }

  /** The loop over the bundle's files. */
  method Collect(found: seq<(string, Manifest)>) returns (r: Result<map<string, Manifest>, BadBundle>)
    ensures r.Ok? <==> Distinct(found)
    ensures r.Ok? ==> IsTable(found, r.value)
    ensures r.Err? ==>
              && r.error.DuplicateId?
              && exists i, j :: 0 <= i < j < |found| && found[i].0 == found[j].0 == r.error.id
  {
    var table: map<string, Manifest> := map[];
    for i := 0 to |found|
      invariant Distinct(found[..i]) && IsTable(found[..i], table)
    {
      if found[i].0 in table {
        var k :| 0 <= k < i && found[..i][k].0 == found[i].0;
        assert found[k].0 == found[i].0;
        return Err(DuplicateId(found[i].0));
      }
      TableStep(found, table, i);
      table := table[found[i].0 := found[i].1];
    }
    assert found[..|found|] == found;
    return Ok(table);
  }

  lemma TableStep(found: seq<(string, Manifest)>, table: map<string, Manifest>, i: nat)
    requires i < |found| && Distinct(found[..i]) && IsTable(found[..i], table) && found[i].0 !in table
    ensures Distinct(found[..i + 1]) && IsTable(found[..i + 1], table[found[i].0 := found[i].1])
  {
    var before, after := found[..i], found[..i + 1];
    assert forall k :: 0 <= k < i ==> after[k] == before[k];
    assert after[i] == found[i];
    var table' := table[found[i].0 := found[i].1];
    forall id | id in table'
      ensures exists k :: 0 <= k < |after| && after[k].0 == id
    {
      if id in table {
        var k :| 0 <= k < |before| && before[k].0 == id;
        assert after[k].0 == id;
      } else {
        assert after[i].0 == id;
      }
    }
  }

  class PluginRuntime {
    var manifests: map<string, Manifest>
    var states: map<string, Record>

    function View(): World
      reads this
    {
      World(manifests, states)
    }

    constructor (manifests: map<string, Manifest>, states: map<string, Record>)
      ensures View() == World(manifests, states)
    {
      this.manifests := manifests;
      this.states := states;
    }

    /**
     `discover`: a repeated id is refused and leaves the manifests as they were;
     any other bundle is adopted, and then the first manifest with a requirement
     that no manifest meets is reported.
     */
    method Discover(found: seq<(string, Manifest)>) returns (r: Result<map<string, Manifest>, BadBundle>)
      modifies this
      ensures states == old(states)
      ensures (r.Err? && r.error.DuplicateId?) <==> !Distinct(found)
      ensures !Distinct(found) ==> manifests == old(manifests)
      ensures Distinct(found) ==>
                && IsTable(found, manifests)
                && (r.Ok? <==> forall p, d :: p in manifests && d in manifests[p].requires_ ==> d in manifests)
                && (r.Ok? ==> r.value == manifests)
                && (r.Err? ==>
                      && r.error.id in manifests
                      && r.error.missing == MissingOf(manifests, manifests[r.error.id].requires_)
                      && r.error.missing != [])
    {
      var table := Collect(found);
      if table.Err? {
        return table;
      }
      manifests := table.value;
      var bad := ValidateDependencies(found);
      return if bad.Some? then Err(bad.value) else table;
    }

    /** `_validate_dependencies`, in path order. */
    method ValidateDependencies(found: seq<(string, Manifest)>) returns (r: Option<BadBundle>)
      requires IsTable(found, manifests)
      ensures r.None? <==> forall p, d :: p in manifests && d in manifests[p].requires_ ==> d in manifests
      ensures r.Some? ==>
                && r.value.MissingDependencies? && r.value.id in manifests
                && r.value.missing == MissingOf(manifests, manifests[r.value.id].requires_)
                && r.value.missing != []
    {
      for i := 0 to |found|
        invariant forall k :: 0 <= k < i ==> MissingOf(manifests, found[k].1.requires_) == []
      {
        var missing := MissingOf(manifests, found[i].1.requires_);
        if missing != [] {
          MissingMeans(manifests, found[i].1.requires_);
          return Some(MissingDependencies(found[i].0, missing));
        }
      }
      forall p, d | p in manifests && d in manifests[p].requires_
        ensures d in manifests
      {
        var k :| 0 <= k < |found| && found[k].0 == p;
        MissingMeans(manifests, found[k].1.requires_);
      }
      return None;
    }

    method RunInstall(id: string) returns (r: Option<Failure>)
      modifies this
      ensures View() == Perform(old(View()), Install(id))
      ensures Reports(r, Outcome(old(View()), Install(id)))
    {
      if id !in manifests {
        return Some(UnknownPlugin);
      }
      if id in states && !states[id].lifecycle.Uninstalled? {
        return Some(AlreadyInstalled);
      }
      var previous := if id in states then Some(states[id].version) else None;
      states := states[id := Record(false, manifests[id].version, Installed, previous)];
      return None;
    }

    /** `_require_installed` */
    method RequireInstalled(id: string) returns (r: Option<Failure>)
      ensures r == if id !in manifests then Some(UnknownPlugin)
                   else if !View().Present(id) then Some(NotInstalled) else None
    {
      if id !in manifests {
        return Some(UnknownPlugin);
      }
      return if View().Present(id) then None else Some(NotInstalled);
    }

    method RunEnable(id: string) returns (r: Option<Failure>)
      modifies this
      ensures View() == Perform(old(View()), Enable(id))
      ensures Reports(r, Outcome(old(View()), Enable(id)))
    {
      r := RequireInstalled(id);
      if r.Some? {
        return;
      }
      var deps := manifests[id].requires_;
      for i := 0 to |deps|
        invariant FirstDisabled(View(), deps) == FirstDisabled(View(), deps[i..])
      {
        if !View().Enabled(deps[i]) {
          return Some(DependencyDisabled(deps[i]));
        }
      }
      states := states[id := states[id].(enabled := true, lifecycle := EnabledState)];
      return None;
    }

    /** `disable` and `uninstall` differ in the lifecycle state they record. */
    method SwitchOff(id: string, uninstall: bool) returns (r: Option<Failure>)
      modifies this
      ensures var op := if uninstall then Uninstall(id) else Disable(id);
              View() == Perform(old(View()), op) && Reports(r, Outcome(old(View()), op))
    {
      r := RequireInstalled(id);
      if r.Some? {
        return;
      }
      var dependants := View().Dependants(id);
      if dependants != {} {
        return Some(RequiredBy(dependants));
      }
      states := states[id := states[id].(enabled := false,
                                         lifecycle := if uninstall then Uninstalled else DisabledState)];
      return None;
    }

    /** Two writes: `updating` first, then the adopted version. */
    method RunUpdate(id: string) returns (r: Option<Failure>)
      modifies this
      ensures View() == Perform(old(View()), Update(id))
      ensures Reports(r, Outcome(old(View()), Update(id)))
    {
      r := RequireInstalled(id);
      if r.Some? {
        return;
      }
      var m, current := manifests[id], states[id];
      if m.version == current.version {
        return Some(NoUpdate);
      }
      states := states[id := current.(lifecycle := Updating)];
      states := states[id := Record(current.enabled, m.version, RollbackAvailable, Some(current.version))];
      assert View() == Perform(old(View()), Update(id));
      return None;
    }

    method RunRollback(id: string) returns (r: Option<Failure>)
      modifies this
      ensures View() == Perform(old(View()), Rollback(id))
      ensures Reports(r, Outcome(old(View()), Rollback(id)))
    {
      r := RequireInstalled(id);
      if r.Some? {
        return;
      }
      var m, current := manifests[id], states[id];
      if current.previous.Or("") == "" {
        return Some(NoRollbackVersion);
      }
      if m.version != current.previous.value {
        return Some(BundleNotActive);
      }
      states := states[id := Record(current.enabled, m.version,
                                    if current.enabled then EnabledState else DisabledState,
                                    Some(current.version))];
      return None;
    }

    method InstallDefaults()
      modifies this
      ensures View() == Defaults(old(View()))
    {
      var todo := manifests.Keys;
      ghost var before := View();
      while todo != {}
        invariant manifests == before.manifests && todo <= manifests.Keys
        invariant DefaultsDone(before, states, todo)
        decreases |todo|
      {
        var id :| id in todo;
        if id !in states {
          var m := manifests[id];
          states := states[id := Record(m.defaultEnabled, m.version,
                                        if m.defaultEnabled then EnabledState else DisabledState, None)];
        }
        todo := todo - {id};
      }
      AllDefaultsDone(before, states);
    }
  }

  /** The state records `install_defaults` has reached with the manifests of `todo` still to visit. */
  ghost predicate DefaultsDone(before: World, states: map<string, Record>, todo: set<string>) {
    && states.Keys == before.states.Keys + (before.manifests.Keys - todo)
    && forall id :: id in states ==> states[id] == Defaults(before).states[id]
  }

  lemma AllDefaultsDone(before: World, states: map<string, Record>)
    requires DefaultsDone(before, states, {})
    ensures states == Defaults(before).states
  {
  }

  predicate Reports(r: Option<Failure>, o: Result<Record, Failure>) {
    if o.Err? then r == Some(o.error) else r == None
  }
}
