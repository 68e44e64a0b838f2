/**
 The switch-over of restore_backup (backup_restore.py): the live database and
 vaults are moved aside and replaced by a bundle, operation by operation, and
 any operation may raise. The retained copies go away only after the checks on
 the live paths have passed.
 */
module Restore {
  import opened Options
  import opened Backup

  type Tree = map<string, Content>

  datatype Bundle = Bundle(db: Database, sources: Tree, artifacts: Tree) {
    function Of(root: Root): Tree {
      if root.Sources? then sources else artifacts
    }

    /** The file checks of verify_bundle and of the staged copy: every referenced file is there. */
    predicate Complete() {
      forall key :: key in Refs(db) ==> key.path in Of(key.root)
    }
  }

  /** A database file is torn while it is being copied. */
  datatype File = WholeDb(db: Database) | TornDb

  /** Live paths and their `.pre-restore` siblings; a root missing from a map has no directory. */
  datatype Disk = Disk(db: Option<File>, keptDb: Option<File>, vaults: map<Root, Tree>, kept: map<Root, Tree>)

  /** The old database and every old non-empty vault are still on disk, live or retained. */
  predicate Preserved(old_: Disk, now: Disk) {
    && (old_.db.Some? ==> now.db == old_.db || now.keptDb == old_.db)
    && forall r :: r in old_.vaults && old_.vaults[r] != map[] ==>
         (r in now.vaults && now.vaults[r] == old_.vaults[r]) || (r in now.kept && now.kept[r] == old_.vaults[r])
  }

  predicate Holds(d: Disk, b: Bundle) {
    && d.db == Some(WholeDb(b.db))
    && forall r: Root :: r in d.vaults && d.vaults[r] == b.Of(r)
  }

  predicate SameBut(a: map<Root, Tree>, b: map<Root, Tree>, root: Root) {
    forall r :: r != root ==> (r in a <==> r in b) && (r in a ==> a[r] == b[r])
  }

  /** The old database and every old non-empty vault are what is retained. */
  predicate Retained(old_: Disk, now: Disk) {
    && now.keptDb == old_.db
    && forall r :: r in old_.vaults && old_.vaults[r] != map[] ==> r in now.kept && now.kept[r] == old_.vaults[r]
  }

  predicate SameLive(a: Disk, b: Disk) {
    a.db == b.db && a.vaults == b.vaults
  }

  /**
   What the checks after the switch find that is not a matter of the live paths:
   whether database integrity and foreign keys hold, and, if the paths passed in
   are not the configured ones, which are what the checks read, whether every
   referenced file is there.
   */
  datatype Checks = Checks(intact: bool, elsewhere: Option<bool>)

  /** The file check on the live paths: every file the live database references is there. */
  predicate AllFilesThere(d: Disk) {
    d.db.Some? && d.db.value.WholeDb? &&
    forall key :: key in Refs(d.db.value.db) ==> key.root in d.vaults && key.path in d.vaults[key.root]
  }

  predicate Pass(checks: Checks, d: Disk) {
    checks.intact && if checks.elsewhere.Some? then checks.elsewhere.value else AllFilesThere(d)
  }

  /** After the switch the file check on the live paths cannot fail: it has been made on the bundle. */
  lemma SwitchedHasAllFiles(d: Disk, b: Bundle)
    requires Holds(d, b)
    ensures AllFilesThere(d) <==> b.Complete()
  {
    forall key | key in Refs(b.db)
      ensures key.root in d.vaults && (key.path in d.vaults[key.root] <==> key.path in b.Of(key.root))
    {
    }
  }

  datatype Outcome = Restored | Refused | RaisedInSwitch | RaisedByChecks | RaisedInCleanup

  class LivePaths {
    var disk: Disk
    /** How many more file operations succeed before one raises. */
    var budget: nat
    /** Every state the live paths have been in. */
    ghost var log: seq<Disk>

    constructor (disk: Disk, budget: nat)
      ensures this.disk == disk && this.budget == budget && log == [disk]
    {
      this.disk := disk;
      this.budget := budget;
      log := [disk];
    }

    /** One file operation, which raises instead once the budget is used up. */
    method Do(next: Disk) returns (ok: bool)
      modifies this
      ensures ok <==> old(budget) > 0
      ensures ok ==> disk == next && log == old(log) + [next] && budget == old(budget) - 1
      ensures !ok ==> disk == old(disk) && log == old(log) && budget == old(budget)
    {
      ok := budget > 0;
      if ok {
        disk := next;
        log := log + [next];
        budget := budget - 1;
      }
    }

    ghost predicate Tracked()
      reads this
    {
      log != [] && log[|log| - 1] == disk
    }

    ghost predicate Since(start: nat, was: Disk)
      reads this
      requires start <= |log|
    {
      && Tracked() && Preserved(was, disk)
      && forall k :: start <= k < |log| ==> Preserved(was, log[k])
    }

    /** A file operation after which the old data is still preserved. */
    method DoSafely(next: Disk, ghost start: nat, ghost was: Disk) returns (ok: bool)
      requires start <= |log| && Since(start, was) && Preserved(was, next)
      modifies this
      ensures !ok ==> budget == 0
      ensures start <= |log| && Since(start, was)
      ensures disk == if ok then next else old(disk)
    {
      ok := Do(next);
    }

    /** Moves the live database aside and copies the bundle's into its place. */
    method SwitchDatabase(b: Bundle, ghost start: nat, ghost was: Disk) returns (ok: bool)
      requires start <= |log| && Since(start, was)
      requires disk == was && was.keptDb == None && was.kept == map[]
      modifies this
      ensures !ok ==> budget == 0
      ensures start <= |log| && Since(start, was)
      ensures disk.vaults == was.vaults && disk.kept == map[]
      ensures ok ==> disk.db == Some(WholeDb(b.db)) && disk.keptDb == was.db
    {
      if disk.db.Some? {
        ok := DoSafely(disk.(db := None, keptDb := disk.db), start, was);
        if !ok {
          return;
        }
      }
      ok := DoSafely(disk.(db := Some(TornDb)), start, was);
      if !ok {
        return;
      }
      ok := DoSafely(disk.(db := Some(WholeDb(b.db))), start, was);
    }

    /** `_copy_dir` into a live vault, file by file; each file is torn before it is whole. */
    method CopyInto(root: Root, tree: Tree, ghost start: nat, ghost was: Disk) returns (ok: bool)
      requires start <= |log| && Since(start, was)
      requires was.db.Some? ==> disk.keptDb == was.db
      requires root in disk.vaults && disk.vaults[root] == map[]
      requires root in was.vaults && was.vaults[root] != map[] ==>
                 root in disk.kept && disk.kept[root] == was.vaults[root]
      modifies this
      ensures !ok ==> budget == 0
      ensures start <= |log| && Since(start, was)
      ensures disk.db == old(disk.db) && disk.keptDb == old(disk.keptDb) && disk.kept == old(disk.kept)
      ensures root in disk.vaults && SameBut(disk.vaults, old(disk.vaults), root)
      ensures ok ==> disk.vaults[root] == tree
    {
      var todo := tree.Keys;
      ghost var before := disk;
      ok := true;
      while todo != {}
        invariant start <= |log| && Since(start, was)
        invariant root in disk.vaults && disk == before.(vaults := before.vaults[root := disk.vaults[root]])
        invariant todo <= tree.Keys && disk.vaults[root].Keys == tree.Keys - todo
        invariant forall p :: p in disk.vaults[root] ==> disk.vaults[root][p] == tree[p]
        decreases |todo|
      {
        var path :| path in todo;
        ok := CopyFile(root, path, tree[path], start, was);
        if !ok {
          return;
        }
        todo := todo - {path};
      }
    }

    /** One file: torn, and then whole. */
    method CopyFile(root: Root, path: string, content: Content, ghost start: nat, ghost was: Disk)
      returns (ok: bool)
      requires start <= |log| && Since(start, was)
      requires root in disk.vaults
      requires root in was.vaults && was.vaults[root] != map[] ==>
                 root in disk.kept && disk.kept[root] == was.vaults[root]
      modifies this
      ensures !ok ==> budget == 0
      ensures start <= |log| && Since(start, was)
      ensures root in disk.vaults && disk == old(disk).(vaults := old(disk).vaults[root := disk.vaults[root]])
      ensures ok ==> disk.vaults[root] == old(disk).vaults[root][path := content]
    {
      ok := PutFile(root, path, Torn, start, was);
      if ok {
        ok := PutFile(root, path, content, start, was);
      }
    }

    /** Writing into a vault whose old content is retained, or was empty, loses nothing. */
    method PutFile(root: Root, path: string, content: Content, ghost start: nat, ghost was: Disk)
      returns (ok: bool)
      requires start <= |log| && Since(start, was)
      requires root in disk.vaults
      requires root in was.vaults && was.vaults[root] != map[] ==>
                 root in disk.kept && disk.kept[root] == was.vaults[root]
      modifies this
      ensures !ok ==> budget == 0
      ensures start <= |log| && Since(start, was)
      ensures !ok ==> disk == old(disk)
      ensures ok ==> disk == old(disk).(vaults := old(disk).vaults[root := old(disk).vaults[root][path := content]])
    {
      ok := DoSafely(disk.(vaults := disk.vaults[root := disk.vaults[root][path := content]]), start, was);
    }

    /** Makes `root` an empty live vault, its old files retained; in between the directory is missing. */
    method MoveAside(root: Root, ghost start: nat, ghost was: Disk) returns (ok: bool)
      requires start <= |log| && Since(start, was)
      requires root !in disk.kept && (root in disk.vaults <==> root in was.vaults)
      requires root in was.vaults ==> disk.vaults[root] == was.vaults[root]
      modifies this
      ensures !ok ==> budget == 0
      ensures start <= |log| && Since(start, was)
      ensures disk.db == old(disk.db) && disk.keptDb == old(disk.keptDb)
      ensures SameBut(disk.vaults, old(disk.vaults), root) && SameBut(disk.kept, old(disk.kept), root)
      ensures ok ==> root in disk.vaults && disk.vaults[root] == map[]
      ensures ok && root in was.vaults && was.vaults[root] != map[] ==>
                root in disk.kept && disk.kept[root] == was.vaults[root]
    {
      ok := true;
      if root !in disk.vaults {
        ok := DoSafely(disk.(vaults := disk.vaults[root := map[]]), start, was);
      } else if disk.vaults[root] != map[] {
        ok := DoSafely(disk.(vaults := disk.vaults - {root}, kept := disk.kept[root := disk.vaults[root]]), start, was);
        if ok {
          ok := DoSafely(disk.(vaults := disk.vaults[root := map[]]), start, was);
        }
      }
    }

    /** Replaces one vault by the bundle's. */
    method SwitchVault(root: Root, b: Bundle, ghost start: nat, ghost was: Disk) returns (ok: bool)
      requires start <= |log| && Since(start, was)
      requires was.db.Some? ==> disk.keptDb == was.db
      requires root !in disk.kept && (root in disk.vaults <==> root in was.vaults)
      requires root in was.vaults ==> disk.vaults[root] == was.vaults[root]
      modifies this
      ensures !ok ==> budget == 0
      ensures start <= |log| && Since(start, was)
      ensures disk.db == old(disk.db) && disk.keptDb == old(disk.keptDb)
      ensures SameBut(disk.vaults, old(disk.vaults), root) && SameBut(disk.kept, old(disk.kept), root)
      ensures ok ==> root in disk.vaults && disk.vaults[root] == b.Of(root)
      ensures ok && root in was.vaults && was.vaults[root] != map[] ==>
                root in disk.kept && disk.kept[root] == was.vaults[root]
    {
      ok := MoveAside(root, start, was);
      if ok {
        ok := CopyInto(root, b.Of(root), start, was);
      }
    }

    /**
     `restore_backup`. `sound` is the outcome of the checks on the bundle and
     its staged copy other than that every referenced file is there. The checks
     on the live paths are made after `switched` states; they cannot fail for a
     missing file unless they look elsewhere. At every point up to there the old data is preserved; from there on
     the live paths hold exactly the bundle. When the checks fail nothing is
     rolled back: the live paths are as before exactly if they held the bundle
     before.
     */
    method RestoreBackup(b: Bundle, sound: bool, checks: Checks) returns (outcome: Outcome, ghost switched: nat)
      requires disk.keptDb == None && disk.kept == map[] && Tracked()
      modifies this
      ensures |old(log)| <= switched <= |log| && Tracked()
      ensures forall k :: |old(log)| <= k < switched ==> Preserved(old(disk), log[k])
      ensures outcome.Refused? <==> !(sound && b.Complete())
      ensures outcome.Refused? ==> disk == old(disk) && log == old(log)
      ensures outcome.RaisedInSwitch? || outcome.RaisedInCleanup? ==> budget == 0
      ensures outcome.RaisedInSwitch? ==> switched == |log| && Preserved(old(disk), disk)
      ensures outcome.RaisedByChecks? ==>
                && (!checks.intact || checks.elsewhere == Some(false)) && switched == |log|
                && Holds(disk, b) && Retained(old(disk), disk)
                && (SameLive(disk, old(disk)) <==> Holds(old(disk), b))
      ensures outcome.Restored? || outcome.RaisedInCleanup? ==>
                && checks.intact && checks.elsewhere != Some(false)
                && forall k :: switched - 1 <= k < |log| ==> Holds(log[k], b)
      ensures outcome.Restored? ==> disk.keptDb == None && disk.kept == map[]
    {
      ghost var was, start := disk, |log|;
      switched := |log|;
      if !sound || !b.Complete() {
        return Refused, switched;
      }
      var ok := SwitchPaths(b, start, was);
      switched := |log|;
      if !ok {
        return RaisedInSwitch, switched;
      }
      SwitchedHasAllFiles(disk, b);
      if !Pass(checks, disk) {
        OldBundleIff(was, disk, b);
        return RaisedByChecks, switched;
      }
      ok := Do(disk.(keptDb := None));
      if !ok {
        return RaisedInCleanup, switched;
      }
      ok := Do(disk.(kept := map[]));
      return if ok then Restored else RaisedInCleanup, switched;
    }

    /** Database, then both vaults, then init_db, which changes nothing on a current schema. */
    method SwitchPaths(b: Bundle, ghost start: nat, ghost was: Disk) returns (ok: bool)
      requires start == |log| && Tracked()
      requires disk == was && was.keptDb == None && was.kept == map[]
      modifies this
      ensures !ok ==> budget == 0
      ensures start <= |log| && Since(start, was)
      ensures ok ==> Holds(disk, b) && Retained(was, disk)
    {
      ok := SwitchDatabase(b, start, was);
      if !ok {
        return;
      }
      ok := SwitchVault(Sources, b, start, was);
      if !ok {
        return;
      }
      ok := SwitchVault(Artifacts, b, start, was);
      if !ok {
        return;
      }
      ok := DoSafely(disk, start, was);
    }
  }

  lemma OldBundleIff(was: Disk, now: Disk, b: Bundle)
    requires Holds(now, b)
    ensures SameLive(now, was) <==> Holds(was, b)
  {
    if Holds(was, b) {
      forall r: Root
        ensures r in now.vaults && r in was.vaults && now.vaults[r] == was.vaults[r]
      {
      }
      assert now.vaults == was.vaults;
    }
  }

  // ---- Backup and restore together

  /** The trees of a backup bundle, as `restore_backup` reads them. */
  function TreeOf(vault: Vault, root: Root): Tree {
    map k | k in vault && k.root == root :: k.path := vault[k]
  }

  function BundleOf(b: Backup): Bundle {
    Bundle(b.db, TreeOf(b.bundle, Sources), TreeOf(b.bundle, Artifacts))
  }

  /**
   The disk holds what `then_` had: the database, row for row, and of the vaults
   every referenced file; every file at all if nothing was deleted in between.
   */
  ghost predicate BackTo(d: Disk, then_: World, complete: bool) {
    && d.db == Some(WholeDb(then_.db))
    && (forall r: Root :: r in d.vaults)
    && (forall key :: key in Refs(then_.db) ==>
          && key in then_.vault && key.path in d.vaults[key.root]
          && d.vaults[key.root][key.path] == then_.vault[key]
          && (d.vaults[key.root][key.path].Whole? <==> key !in then_.cut))
    && (forall key: Key :: key.path in d.vaults[key.root] ==>
          key in then_.vault && d.vaults[key.root][key.path] == then_.vault[key])
    && (complete ==> forall key :: key in then_.vault ==> key.path in d.vaults[key.root])
  }

  lemma InTree(vault: Vault, key: Key)
    ensures key.path in TreeOf(vault, key.root) <==> key in vault
    ensures key in vault ==> TreeOf(vault, key.root)[key.path] == vault[key]
  {
    if key.path in TreeOf(vault, key.root) {
      var k :| k in vault && k.root == key.root && k.path == key.path;
      assert k == key;
    }
  }

  /** A returned bundle passes the file checks of a restore. */
  lemma ReturnedIsComplete(w: World, steps: seq<Step>, i: nat, b: Backup)
    requires Init(w)
    requires var now := After(w, steps); i in now.backups && now.backups[i] == b && b.phase.Returned?
    ensures BundleOf(b).Complete()
  {
    ReturnedBundleIsClosed(w, steps, i, b);
    forall key | key in Refs(b.db)
      ensures key.path in BundleOf(b).Of(key.root)
    {
      InTree(b.bundle, key);
    }
  }

  /**
   Round trip: a disk that holds a returned bundle is back to the moment of
   that backup's snapshot, database and vaults.
   */
  lemma BackupThenRestore(w: World, steps: seq<Step>, i: nat, b: Backup, d: Disk) returns (n: nat)
    requires Init(w)
    requires var now := After(w, steps); i in now.backups && now.backups[i] == b && b.phase.Returned?
    requires Holds(d, BundleOf(b))
    ensures n < |steps| && TakenIn(After(w, steps[..n]), i, b)
    ensures BackTo(d, After(w, steps[..n]), NoDeletes(steps))
  {
    n := SnapshotMoment(w, steps, i);
    ReturnedBundleIsClosed(w, steps, i, b);
    Reachable(w, steps);
    assert CaptureOk(b, After(w, steps).vault);
    if NoDeletes(steps) {
      AllThereAlways(w, steps);
      assert SnapshotThere(b, After(w, steps).vault);
    }
    forall key: Key
      ensures key.path in d.vaults[key.root] <==> key in b.bundle
      ensures key in b.bundle ==> d.vaults[key.root][key.path] == b.bundle[key]
    {
      InTree(b.bundle, key);
    }
  }

  /**
   Restoring a bundle that a backup of any run returned: the file checks never
   refuse it, and success takes the disk back to the snapshot of that backup.
   */
  method RestoreReturned(live: LivePaths, b: Backup, sound: bool, checks: Checks,
                         ghost w: World, ghost steps: seq<Step>, ghost i: nat)
    returns (outcome: Outcome, ghost n: nat)
    requires Init(w)
    requires var now := After(w, steps); i in now.backups && now.backups[i] == b && b.phase.Returned?
    requires live.disk.keptDb == None && live.disk.kept == map[] && live.Tracked()
    modifies live
    ensures outcome.Refused? <==> !sound
    ensures outcome.RaisedByChecks? ==> !checks.intact || checks.elsewhere == Some(false)
    ensures outcome.RaisedInSwitch? || outcome.RaisedInCleanup? ==> live.budget == 0
    ensures n < |steps| && TakenIn(After(w, steps[..n]), i, b)
    ensures outcome.Restored? || outcome.RaisedInCleanup? || outcome.RaisedByChecks? ==>
              BackTo(live.disk, After(w, steps[..n]), NoDeletes(steps))
    ensures outcome.Refused? || outcome.RaisedInSwitch? ==> Preserved(old(live.disk), live.disk)
  {
    ReturnedIsComplete(w, steps, i, b);
    n := SnapshotMoment(w, steps, i);
    ghost var switched;
    outcome, switched := live.RestoreBackup(BundleOf(b), sound, checks);
    if outcome.Restored? || outcome.RaisedInCleanup? || outcome.RaisedByChecks? {
      assert Holds(live.disk, BundleOf(b));
      n := BackupThenRestore(w, steps, i, b, live.disk);
    }
  }
}
