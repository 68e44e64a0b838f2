/**
 Online backup (backup_restore.py, storage.py): uploaders that write a vault
 file under the shared maintenance lock and commit the row that references it
 afterwards, deleters and other database writers that take no lock, and backups
 that snapshot the database and copy the vaults under the exclusive lock.
 */
module Backup {
  import opened Options

  datatype Root = Sources | Artifacts

  datatype Key = Key(root: Root, path: string)

  /** A row of `sources` or `artifacts`; a source without a local file has no key. Rows may share a key. */
  datatype Row = Row(key: Option<Key>, data: string)

  type Database = map<nat, Row>

  function Refs(db: Database): set<Key> {
    set i | i in db && db[i].key.Some? :: db[i].key.value
  }

  /** A file is torn while it is being (over)written, and stays torn if that is cut short. */
  datatype Content = Whole(bytes: string) | Torn

  type Vault = map<Key, Content>

  // ---- Actors

  datatype UploadPhase = Begin | Locked | Opened | Written | Unlocked | Done

  /** Writes `bytes` under `key`, then commits a row if there is one to insert. */
  datatype Upload = Upload(key: Key, bytes: string, insert: Option<string>, phase: UploadPhase) {
    /** Holds the shared lock. */
    predicate Inside() {
      phase.Locked? || phase.Opened? || phase.Written?
    }
    /** Has the file there and the row still to come. */
    predicate Pending() {
      phase.Opened? || phase.Written? || phase.Unlocked?
    }
  }

  datatype DeletePhase = Look | Unlink(key: Key) | Over

  /** content.py and research.py routes: delete the row, then unlink the file under its key. */
  datatype Delete = Delete(row: nat, phase: DeletePhase)

  datatype BackupPhase = Waiting | Holding | Copying | Returned | Raised

  /** `db`, `origin` and `cut`: database, vaults and torn files at the moment of the snapshot. */
  datatype Backup = Backup(phase: BackupPhase, db: Database, origin: Vault, cut: set<Key>, bundle: Vault) {
    predicate Inside() {
      phase.Holding? || phase.Copying?
    }
  }

  /** `cut`: the files that a write left torn when it was cut short, until they are rewritten or unlinked. */
  datatype World = World(
    db: Database,
    nextRow: nat,
    vault: Vault,
    cut: set<Key>,
    uploads: map<nat, Upload>,
    deletes: map<nat, Delete>,
    backups: map<nat, Backup>)

  datatype Step =
    | StartUpload(i: nat, key: Key, bytes: string, insert: Option<string>)
    | StartDelete(i: nat, row: nat)
    | StartBackup(i: nat)
    | Uploads(i: nat)
    | Aborts(i: nat)
    | Deletes(i: nat)
    | Edits(row: nat, data: string)
    | Backs(i: nat)
    | Copies(i: nat, key: Key)
    | Fails(i: nat)

  // ---- The lock: exclusive excludes all, shared excludes exclusive

  ghost predicate SharedFree(w: World) {
    forall b :: b in w.backups ==> !w.backups[b].Inside()
  }

  ghost predicate ExclusiveFree(w: World) {
    SharedFree(w) && forall u :: u in w.uploads ==> !w.uploads[u].Inside()
  }

  // ---- Steps

  function WithPhase(w: World, i: nat, phase: UploadPhase): World
    requires i in w.uploads
  {
    w.(uploads := w.uploads[i := w.uploads[i].(phase := phase)])
  }

  ghost function UploadStep(w: World, i: nat): World
    requires i in w.uploads
  {
    var u := w.uploads[i];
    match u.phase
    case Begin => if SharedFree(w) then WithPhase(w, i, Locked) else w
    case Locked => WithPhase(w.(vault := w.vault[u.key := Torn]), i, Opened)
    case Opened =>
      // a file that was unlinked meanwhile is written where nobody finds it
      if u.key in w.vault then
        WithPhase(w.(vault := w.vault[u.key := Whole(u.bytes)], cut := w.cut - {u.key}), i, Written)
      else WithPhase(w, i, Written)
    case Written => WithPhase(w, i, Unlocked)
    case Unlocked =>
      if u.insert.None? then WithPhase(w, i, Done)
      else
        WithPhase(w.(db := w.db[w.nextRow := Row(Some(u.key), u.insert.value)], nextRow := w.nextRow + 1), i, Done)
    case Done => w
  }

  /** An upload may be cut short at any time, also in the middle of its write. */
  function AbortStep(w: World, i: nat): World
    requires i in w.uploads
  {
    var u := w.uploads[i];
    var torn := u.phase.Opened? && u.key in w.vault && w.vault[u.key].Torn?;
    WithPhase(w.(cut := if torn then w.cut + {u.key} else w.cut), i, Done)
  }

  function DeleteStep(w: World, i: nat): World
    requires i in w.deletes
  {
    var d := w.deletes[i];
    match d.phase
    case Look =>
      if d.row !in w.db then w.(deletes := w.deletes[i := d.(phase := Over)])
      else
        var key := w.db[d.row].key;
        w.(db := w.db - {d.row}, deletes := w.deletes[i := d.(phase := if key.Some? then Unlink(key.value) else Over)])
    case Unlink(key) =>
      w.(vault := w.vault - {key}, cut := w.cut - {key}, deletes := w.deletes[i := d.(phase := Over)])
    case Over => w
  }

  /** `_bundle_reference_check`: the referenced keys the bundle lacks. */
  function Missing(db: Database, bundle: Vault): set<Key> {
    Refs(db) - bundle.Keys
  }

  ghost function BackupStep(w: World, i: nat): World
    requires i in w.backups
  {
    var b := w.backups[i];
    match b.phase
    case Waiting =>
      if ExclusiveFree(w) then w.(backups := w.backups[i := b.(phase := Holding)]) else w
    case Holding =>
      w.(backups := w.backups[i := Backup(Copying, w.db, w.vault, w.cut, map[])])
    case Copying =>
      // the walk is over when every file still in the vaults has been copied
      if w.vault.Keys <= b.bundle.Keys then
        w.(backups := w.backups[i := b.(phase := if Missing(b.db, b.bundle) == {} then Returned else Raised)])
      else w
    case _ => w
  }

  function CopyStep(w: World, i: nat, key: Key): World
    requires i in w.backups
  {
    var b := w.backups[i];
    if b.phase.Copying? && key in w.vault && key !in b.bundle then
      w.(backups := w.backups[i := b.(bundle := b.bundle[key := w.vault[key]])])
    else w
  }

  ghost function Next(w: World, s: Step): World {
    match s
    case StartUpload(i, key, bytes, insert) =>
      if i in w.uploads then w else w.(uploads := w.uploads[i := Upload(key, bytes, insert, Begin)])
    case StartDelete(i, row) =>
      if i in w.deletes then w else w.(deletes := w.deletes[i := Delete(row, Look)])
    case StartBackup(i) =>
      if i in w.backups then w else w.(backups := w.backups[i := Backup(Waiting, map[], map[], {}, map[])])
    case Uploads(i) => if i in w.uploads then UploadStep(w, i) else w
    case Aborts(i) => if i in w.uploads then AbortStep(w, i) else w
    case Deletes(i) => if i in w.deletes then DeleteStep(w, i) else w
    case Edits(row, data) => if row in w.db then w.(db := w.db[row := w.db[row].(data := data)]) else w
    case Backs(i) => if i in w.backups then BackupStep(w, i) else w
    case Copies(i, key) => if i in w.backups then CopyStep(w, i, key) else w
    case Fails(i) =>
      if i in w.backups && w.backups[i].Inside() then
        w.(backups := w.backups[i := w.backups[i].(phase := Raised)])
      else w
  }

  ghost function After(w: World, steps: seq<Step>): World {
    if steps == [] then w else Next(After(w, steps[..|steps| - 1]), steps[|steps| - 1])
  }

  /** A quiet system in which every referenced file is there; `cut` says which files are torn. */
  ghost predicate Init(w: World) {
    && w.uploads == map[] && w.deletes == map[] && w.backups == map[]
    && Refs(w.db) <= w.vault.Keys && RowsOk(w)
    && forall k :: k in w.cut <==> k in w.vault && w.vault[k].Torn?
  }

  // ---- Invariant

  ghost predicate BeingWritten(w: World, key: Key) {
    exists u :: u in w.uploads && w.uploads[u].key == key && w.uploads[u].phase.Opened?
  }

  ghost predicate RowsOk(w: World) {
    forall i :: i in w.db ==> i < w.nextRow
  }

  /** A torn file is being written, or a write of it was cut short. */
  ghost predicate TornOk(w: World) {
    && (forall k :: k in w.vault && w.vault[k].Torn? ==> BeingWritten(w, k) || k in w.cut)
    && (forall k :: k in w.cut ==> k in w.vault && w.vault[k].Torn?)
  }

  ghost predicate LockOk(w: World) {
    forall b :: b in w.backups && w.backups[b].Inside() ==>
      && (forall u :: u in w.uploads ==> !w.uploads[u].Inside())
      && (forall c :: c in w.backups && c != b ==> !w.backups[c].Inside())
  }

  /** While a backup copies, the vaults can only shrink below what it snapshot; what it copied is that. */
  ghost predicate CaptureOk(b: Backup, vault: Vault) {
    && (b.phase.Copying? ==> forall k :: k in vault ==> k in b.origin && vault[k] == b.origin[k])
    && (b.phase.Copying? || b.phase.Returned? ==>
          && (forall k :: k in b.bundle ==> k in b.origin && b.bundle[k] == b.origin[k])
          && (forall k :: k in b.origin ==> (b.origin[k].Torn? <==> k in b.cut)))
    && (b.phase.Returned? ==> Refs(b.db) <= b.bundle.Keys)
  }

  ghost predicate CapturesOk(w: World) {
    forall b :: b in w.backups ==> CaptureOk(w.backups[b], w.vault)
  }

  ghost predicate Ok(w: World) {
    RowsOk(w) && TornOk(w) && LockOk(w) && CapturesOk(w)
  }

  /** Only the upload `i` moves, and no file but `key` changes. */
  ghost predicate UploadMoves(w: World, w': World, i: nat, key: Key) {
    && i in w.uploads && w'.uploads.Keys == w.uploads.Keys
    && (forall u :: u in w.uploads && u != i ==> w'.uploads[u] == w.uploads[u])
    && w'.backups == w.backups
    && (forall k :: k != key ==> (k in w'.vault <==> k in w.vault) && (k in w'.cut <==> k in w.cut))
    && (forall k :: k != key && k in w.vault ==> w'.vault[k] == w.vault[k])
  }

  lemma OthersStillTorn(w: World, w': World, i: nat, key: Key)
    requires TornOk(w) && UploadMoves(w, w', i, key) && w.uploads[i].key == key
    ensures forall k :: k != key && k in w'.vault && w'.vault[k].Torn? ==> BeingWritten(w', k) || k in w'.cut
    ensures forall k :: k != key && k in w'.cut ==> k in w'.vault && w'.vault[k].Torn?
  {
    forall k | k != key && k in w'.vault && w'.vault[k].Torn? && k !in w'.cut
      ensures BeingWritten(w', k)
    {
      var v :| v in w.uploads && w.uploads[v].key == k && w.uploads[v].phase.Opened?;
      assert w'.uploads[v] == w.uploads[v];
    }
  }

  /** While a backup is inside, an upload only moves outside the lock. */
  lemma UploadKeepsLock(w: World, i: nat)
    requires LockOk(w) && i in w.uploads
    ensures LockOk(UploadStep(w, i))
  {
  }

  lemma AbortKeepsLock(w: World, i: nat)
    requires LockOk(w) && i in w.uploads
    ensures LockOk(AbortStep(w, i))
  {
  }

  lemma UploadKeepsCaptures(w: World, i: nat)
    requires LockOk(w) && CapturesOk(w) && i in w.uploads
    ensures CapturesOk(UploadStep(w, i)) && CapturesOk(AbortStep(w, i))
  {
    var w' := UploadStep(w, i);
    forall b | b in w'.backups
      ensures CaptureOk(w'.backups[b], w'.vault)
    {
      assert CaptureOk(w.backups[b], w.vault);
      assert w.backups[b].phase.Copying? ==> w'.vault == w.vault;
    }
  }

  /** The file is opened: torn, and being written. */
  lemma OpeningKeepsTorn(w: World, i: nat)
    requires TornOk(w) && i in w.uploads && w.uploads[i].phase.Locked?
    ensures TornOk(UploadStep(w, i))
  {
    var w' := UploadStep(w, i);
    OthersStillTorn(w, w', i, w.uploads[i].key);
    assert w'.uploads[i].phase.Opened? && w'.uploads[i].key == w.uploads[i].key;
    assert BeingWritten(w', w.uploads[i].key);
  }

  /** The file is written: whole, unless it is gone. */
  lemma WritingKeepsTorn(w: World, i: nat)
    requires TornOk(w) && i in w.uploads && w.uploads[i].phase.Opened?
    ensures TornOk(UploadStep(w, i))
  {
    OthersStillTorn(w, UploadStep(w, i), i, w.uploads[i].key);
  }

  /** A write that is cut short leaves its file torn, for good or until another write of it ends. */
  lemma AbortKeepsTorn(w: World, i: nat)
    requires TornOk(w) && i in w.uploads
    ensures TornOk(AbortStep(w, i))
  {
    var w', key := AbortStep(w, i), w.uploads[i].key;
    OthersStillTorn(w, w', i, key);
    if key in w'.vault && w'.vault[key].Torn? && key !in w'.cut {
      var v :| v in w.uploads && w.uploads[v].key == key && w.uploads[v].phase.Opened?;
      assert w'.uploads[v] == w.uploads[v];
    }
  }

  /** Steps that change no file and no write in progress. */
  lemma SameFilesKeepTorn(w: World, w': World)
    requires TornOk(w) && w'.vault == w.vault && w'.cut == w.cut
    requires forall u :: u in w.uploads && w.uploads[u].phase.Opened? ==>
               u in w'.uploads && w'.uploads[u] == w.uploads[u]
    ensures TornOk(w')
  {
    forall k | k in w'.vault && w'.vault[k].Torn? && k !in w'.cut
      ensures BeingWritten(w', k)
    {
      var v :| v in w.uploads && w.uploads[v].key == k && w.uploads[v].phase.Opened?;
      assert w'.uploads[v] == w.uploads[v];
    }
  }

  lemma UploadKeepsTorn(w: World, i: nat)
    requires TornOk(w) && i in w.uploads
    ensures TornOk(UploadStep(w, i))
  {
    match w.uploads[i].phase
    case Locked => OpeningKeepsTorn(w, i);
    case Opened => WritingKeepsTorn(w, i);
    case _ => SameFilesKeepTorn(w, UploadStep(w, i));
  }

  lemma UploadKeepsRows(w: World, i: nat)
    requires RowsOk(w) && i in w.uploads
    ensures RowsOk(UploadStep(w, i))
  {
  }

  lemma UploadKeeps(w: World, i: nat)
    requires Ok(w) && i in w.uploads
    ensures Ok(UploadStep(w, i))
  {
    UploadKeepsRows(w, i);
    UploadKeepsLock(w, i);
    UploadKeepsCaptures(w, i);
    UploadKeepsTorn(w, i);
  }

  lemma AbortKeeps(w: World, i: nat)
    requires Ok(w) && i in w.uploads
    ensures Ok(AbortStep(w, i))
  {
    AbortKeepsLock(w, i);
    UploadKeepsCaptures(w, i);
    AbortKeepsTorn(w, i);
  }

  lemma DeleteKeeps(w: World, i: nat)
    requires Ok(w) && i in w.deletes
    ensures Ok(DeleteStep(w, i))
  {
    var w' := DeleteStep(w, i);
    forall k | k in w'.vault && w'.vault[k].Torn? && k !in w'.cut
      ensures BeingWritten(w', k)
    {
      assert BeingWritten(w, k);
    }
    forall b | b in w'.backups
      ensures CaptureOk(w'.backups[b], w'.vault)
    {
      assert CaptureOk(w.backups[b], w.vault);
    }
  }

  /** Nobody is inside the shared lock, so exactly the files that were cut short are torn. */
  lemma SnapshotSeesCut(w: World, i: nat)
    requires TornOk(w) && LockOk(w) && i in w.backups && w.backups[i].phase.Holding?
    ensures forall k :: k in w.vault ==> (w.vault[k].Torn? <==> k in w.cut)
  {
    forall k | k in w.vault && w.vault[k].Torn?
      ensures k in w.cut
    {
      assert !BeingWritten(w, k);
    }
  }

  lemma BackupKeepsLock(w: World, i: nat)
    requires LockOk(w) && i in w.backups
    ensures LockOk(BackupStep(w, i))
  {
  }

  lemma BackupKeepsCapture(w: World, i: nat)
    requires TornOk(w) && LockOk(w) && i in w.backups && CaptureOk(w.backups[i], w.vault)
    ensures CaptureOk(BackupStep(w, i).backups[i], w.vault)
  {
    var b := w.backups[i];
    if b.phase.Holding? {
      SnapshotSeesCut(w, i);
    } else if b.phase.Copying? {
      NothingMissing(b.db, b.bundle);
    }
  }

  lemma BackupKeepsCaptures(w: World, i: nat)
    requires TornOk(w) && LockOk(w) && CapturesOk(w) && i in w.backups
    ensures CapturesOk(BackupStep(w, i))
  {
    var w' := BackupStep(w, i);
    BackupKeepsCapture(w, i);
    forall c | c in w'.backups
      ensures CaptureOk(w'.backups[c], w'.vault)
    {
      if c != i {
        assert CaptureOk(w.backups[c], w.vault);
      }
    }
  }

  lemma NothingMissing(db: Database, bundle: Vault)
    ensures Missing(db, bundle) == {} <==> Refs(db) <= bundle.Keys
  {
    if Missing(db, bundle) == {} {
      forall k | k in Refs(db)
        ensures k in bundle
      {
        assert k !in Missing(db, bundle);
      }
    }
  }

  lemma BackupKeeps(w: World, i: nat)
    requires Ok(w) && i in w.backups
    ensures Ok(BackupStep(w, i))
  {
    SameFilesKeepTorn(w, BackupStep(w, i));
    BackupKeepsLock(w, i);
    BackupKeepsCaptures(w, i);
  }

  lemma CopyKeepsCaptures(w: World, i: nat, key: Key)
    requires CapturesOk(w) && i in w.backups
    ensures CapturesOk(CopyStep(w, i, key))
  {
    assert CaptureOk(w.backups[i], w.vault);
  }

  lemma CopyKeepsLock(w: World, i: nat, key: Key)
    requires LockOk(w) && i in w.backups
    ensures LockOk(CopyStep(w, i, key))
  {
  }

  lemma CopyKeeps(w: World, i: nat, key: Key)
    requires Ok(w) && i in w.backups
    ensures Ok(CopyStep(w, i, key))
  {
    SameFilesKeepTorn(w, CopyStep(w, i, key));
    CopyKeepsLock(w, i, key);
    CopyKeepsCaptures(w, i, key);
  }

  /** A backup that only starts or gives up. */
  lemma PhaseKeeps(w: World, i: nat, b: Backup)
    requires Ok(w) && (b.phase.Waiting? || b.phase.Raised?)
    ensures Ok(w.(backups := w.backups[i := b]))
  {
    SameFilesKeepTorn(w, w.(backups := w.backups[i := b]));
  }

  lemma StepKeeps(w: World, s: Step)
    requires Ok(w)
    ensures Ok(Next(w, s))
  {
    match s
    case StartUpload(i, key, bytes, insert) => SameFilesKeepTorn(w, Next(w, s));
    case StartDelete(i, row) => SameFilesKeepTorn(w, Next(w, s));
    case StartBackup(i) => PhaseKeeps(w, i, Backup(Waiting, map[], map[], {}, map[]));
    case Uploads(i) =>
      if i in w.uploads {
        UploadKeeps(w, i);
      }
    case Aborts(i) =>
      if i in w.uploads {
        AbortKeeps(w, i);
      }
    case Deletes(i) =>
      if i in w.deletes {
        DeleteKeeps(w, i);
      }
    case Edits(row, data) => SameFilesKeepTorn(w, Next(w, s));
    case Backs(i) =>
      if i in w.backups {
        BackupKeeps(w, i);
      }
    case Copies(i, key) =>
      if i in w.backups {
        CopyKeeps(w, i, key);
      }
    case Fails(i) =>
      if i in w.backups {
        PhaseKeeps(w, i, w.backups[i].(phase := Raised));
      }
  }

  lemma {:induction false} Reachable(w: World, steps: seq<Step>)
    requires Init(w)
    ensures Ok(After(w, steps))
  {
    if steps != [] {
      var n := |steps| - 1;
      Reachable(w, steps[..n]);
      StepKeeps(After(w, steps[..n]), steps[n]);
    }
  }

  // ---- What a backup returns

  /** The backup `i` was taken in `w`: its lock held, these database and vaults. */
  ghost predicate TakenIn(w: World, i: nat, b: Backup) {
    && i in w.backups && w.backups[i].phase.Holding?
    && b.db == w.db && b.origin == w.vault && b.cut == w.cut
  }

  predicate OfBackups(s: Step) {
    s.StartBackup? || s.Backs? || s.Copies? || s.Fails?
  }

  lemma OthersLeaveBackups(w: World, s: Step)
    requires !OfBackups(s)
    ensures Next(w, s).backups == w.backups
  {
    if s.Uploads? && s.i in w.uploads {
      assert UploadStep(w, s.i).backups == w.backups;
    }
  }

  ghost predicate Taken(b: Backup) {
    b.phase.Copying? || b.phase.Returned?
  }

  ghost predicate SameSnapshot(b: Backup, c: Backup) {
    b.db == c.db && b.origin == c.origin && b.cut == c.cut
  }

  lemma PhaseStepKeepsTaken(w: World, i: nat, b: Backup)
    requires i in w.backups && BackupStep(w, i).backups[i] == b && Taken(b)
    ensures TakenIn(w, i, b) || (Taken(w.backups[i]) && SameSnapshot(w.backups[i], b))
  {
  }

  lemma OwnStepKeepsTaken(w: World, s: Step, b: Backup)
    requires OfBackups(s) && s.i in Next(w, s).backups && Next(w, s).backups[s.i] == b && Taken(b)
    ensures s.i in w.backups
    ensures (s == Backs(s.i) && TakenIn(w, s.i, b)) || (Taken(w.backups[s.i]) && SameSnapshot(w.backups[s.i], b))
  {
    if s.Backs? && s.i in w.backups {
      PhaseStepKeepsTaken(w, s.i, b);
    }
  }

  lemma BackupStaysTaken(w: World, s: Step, i: nat, b: Backup)
    requires i in Next(w, s).backups && Next(w, s).backups[i] == b && Taken(b)
    ensures i in w.backups
    ensures (s == Backs(i) && TakenIn(w, i, b)) || (Taken(w.backups[i]) && SameSnapshot(w.backups[i], b))
  {
    if !OfBackups(s) {
      OthersLeaveBackups(w, s);
    } else if s.i == i {
      OwnStepKeepsTaken(w, s, b);
    } else {
      assert i in w.backups && w.backups[i] == b;
    }
  }

  /** Every backup that copies or has returned was taken at some moment of the run. */
  lemma {:induction false} SnapshotMoment(w: World, steps: seq<Step>, i: nat) returns (n: nat)
    requires Init(w)
    requires var now := After(w, steps);
             i in now.backups && Taken(now.backups[i])
    ensures n < |steps| && TakenIn(After(w, steps[..n]), i, After(w, steps).backups[i])
  {
    var m := |steps| - 1;
    BackupStaysTaken(After(w, steps[..m]), steps[m], i, After(w, steps).backups[i]);
    if steps[m] == Backs(i) && TakenIn(After(w, steps[..m]), i, After(w, steps).backups[i]) {
      n := m;
    } else {
      n := SnapshotMoment(w, steps[..m], i);
      assert steps[..m][..n] == steps[..n];
    }
  }

  /**
   In every interleaving of uploads, cut short or not, deletes, edits and
   backups, a backup that returns holds every file that its own database
   references, as it was at the snapshot; and it is whole unless a write of it
   had been cut short by then.
   */
  lemma ReturnedBundleIsClosed(w: World, steps: seq<Step>, i: nat, b: Backup)
    requires Init(w)
    requires var now := After(w, steps); i in now.backups && now.backups[i] == b && b.phase.Returned?
    ensures forall k :: k in Refs(b.db) ==>
              && k in b.bundle && k in b.origin && b.bundle[k] == b.origin[k]
              && (b.bundle[k].Whole? <==> k !in b.cut)
  {
    Reachable(w, steps);
    assert CaptureOk(b, After(w, steps).vault);
  }

  // ---- What every file somebody counts on costs: unlinks

  /** Has the file there and the row that will reference it still to come. */
  predicate WillReference(u: Upload, key: Key) {
    u.key == key && u.Pending() && u.insert.Some?
  }

  /** Referenced or about to be referenced. */
  ghost predicate Claimed(w: World, key: Key) {
    key in Refs(w.db) || exists u :: u in w.uploads && WillReference(w.uploads[u], key)
  }

  ghost predicate ClaimsThere(w: World) {
    forall k :: Claimed(w, k) ==> k in w.vault
  }

  /** The step unlinks a file that is claimed. */
  ghost predicate Hits(w: World, s: Step) {
    s.Deletes? && s.i in w.deletes && w.deletes[s.i].phase.Unlink? && Claimed(w, w.deletes[s.i].phase.key)
  }

  /** No step of the run does. */
  ghost predicate HitsNothing(w: World, steps: seq<Step>) {
    steps == [] ||
    (HitsNothing(w, steps[..|steps| - 1]) && !Hits(After(w, steps[..|steps| - 1]), steps[|steps| - 1]))
  }

  /** Every referenced file is there. */
  predicate NothingDangles(w: World) {
    Refs(w.db) <= w.vault.Keys
  }

  lemma RefsAfterInsert(db: Database, row: nat, r: Row)
    ensures Refs(db[row := r]) <= Refs(db) + (if r.key.Some? then {r.key.value} else {})
  {
  }

  lemma RefsAfterEdit(db: Database, row: nat, data: string)
    requires row in db
    ensures Refs(db[row := db[row].(data := data)]) == Refs(db)
  {
    var db' := db[row := db[row].(data := data)];
    forall k
      ensures k in Refs(db') <==> k in Refs(db)
    {
      if k in Refs(db) {
        var i :| i in db && db[i].key == Some(k);
        assert i in db' && db'[i].key == Some(k);
      }
    }
  }

  /** A step other than an upload's own adds no reference and moves no upload on. */
  lemma OthersAddNothing(w: World, s: Step)
    requires !s.Uploads?
    ensures Refs(Next(w, s).db) <= Refs(w.db)
    ensures forall v :: v in Next(w, s).uploads && Next(w, s).uploads[v].Pending() ==>
              v in w.uploads && w.uploads[v] == Next(w, s).uploads[v]
  {
    if s.Edits? && s.row in w.db {
      RefsAfterEdit(w.db, s.row, s.data);
    }
  }

  lemma OthersClaimNothing(w: World, s: Step, key: Key)
    requires !s.Uploads? && Claimed(Next(w, s), key)
    ensures Claimed(w, key)
  {
    OthersAddNothing(w, s);
    if key !in Refs(w.db) {
      var w' := Next(w, s);
      var v :| v in w'.uploads && WillReference(w'.uploads[v], key);
      assert v in w.uploads && WillReference(w.uploads[v], key);
    }
  }

  /** An upload claims its file once it is there, and its row claims nothing else. */
  lemma UploadClaims(w: World, i: nat, key: Key)
    requires i in w.uploads && Claimed(UploadStep(w, i), key)
    ensures Claimed(w, key) || (w.uploads[i].phase.Locked? && key == w.uploads[i].key)
  {
    var u, w' := w.uploads[i], UploadStep(w, i);
    if key in Refs(w'.db) {
      if u.phase.Unlocked? && u.insert.Some? {
        RefsAfterInsert(w.db, w.nextRow, Row(Some(u.key), u.insert.value));
        assert u.key == key ==> WillReference(u, key);
      }
    } else {
      var v :| v in w'.uploads && WillReference(w'.uploads[v], key);
      assert v in w.uploads && w.uploads[v].key == key;
      assert v == i || WillReference(w.uploads[v], key);
    }
  }

  /** Only an unlink takes a file away. */
  lemma FilesStay(w: World, s: Step, key: Key)
    requires key in w.vault
    ensures key in Next(w, s).vault ||
            (s.Deletes? && s.i in w.deletes && w.deletes[s.i].phase == Unlink(key))
  {
    if s.Uploads? && s.i in w.uploads {
      assert UploadStep(w, s.i).vault.Keys >= w.vault.Keys;
    }
  }

  lemma ClaimsStayThere(w: World, s: Step)
    requires ClaimsThere(w) && !Hits(w, s)
    ensures ClaimsThere(Next(w, s))
  {
    forall k | Claimed(Next(w, s), k)
      ensures k in Next(w, s).vault
    {
      if !s.Uploads? {
        OthersClaimNothing(w, s, k);
        FilesStay(w, s, k);
      } else if s.i in w.uploads {
        UploadClaims(w, s.i, k);
      }
    }
  }

  lemma ClaimedAreReferenced(w: World)
    requires ClaimsThere(w)
    ensures NothingDangles(w)
  {
    assert forall k :: k in Refs(w.db) ==> Claimed(w, k);
  }

  lemma InitClaims(w: World)
    requires Init(w)
    ensures ClaimsThere(w)
  {
    forall k | Claimed(w, k)
      ensures k in w.vault
    {
      assert k in Refs(w.db);
    }
  }

  /** A run whose unlinks hit nothing claimed keeps every claimed file there. */
  lemma {:induction false} ClaimsAlwaysThere(w: World, steps: seq<Step>)
    requires ClaimsThere(w) && HitsNothing(w, steps)
    ensures ClaimsThere(After(w, steps)) && NothingDangles(After(w, steps))
  {
    if steps != [] {
      var n := |steps| - 1;
      ClaimsAlwaysThere(w, steps[..n]);
      ClaimsStayThere(After(w, steps[..n]), steps[n]);
    }
    ClaimedAreReferenced(After(w, steps));
  }

  /** Some continuation, which unlinks nothing claimed, leaves a reference to a file that is not there. */
  ghost predicate CanDangle(w: World) {
    exists more :: HitsNothing(w, more) && !NothingDangles(After(w, more))
  }

  lemma {:induction false} NoUnlinksHitNothing(w: World, steps: seq<Step>)
    requires forall s :: s in steps ==> !s.Deletes?
    ensures HitsNothing(w, steps)
  {
    if steps != [] {
      NoUnlinksHitNothing(w, steps[..|steps| - 1]);
    }
  }

  lemma {:induction false} PrefixHitsNothing(w: World, steps: seq<Step>, n: nat)
    requires HitsNothing(w, steps) && n <= |steps|
    ensures HitsNothing(w, steps[..n])
  {
    if n < |steps| {
      var m := |steps| - 1;
      assert steps[..m][..n] == steps[..n];
      PrefixHitsNothing(w, steps[..m], n);
    } else {
      assert steps[..n] == steps;
    }
  }

  /** A claim on a file that is gone comes true: the upload goes on and inserts its row. */
  lemma LostClaimDangles(w: World, v: nat, key: Key) returns (more: seq<Step>)
    requires v in w.uploads && WillReference(w.uploads[v], key) && key !in w.vault
    ensures forall s :: s in more ==> s == Uploads(v)
    ensures !NothingDangles(After(w, more))
    decreases if w.uploads[v].phase.Opened? then 2 else if w.uploads[v].phase.Written? then 1 else 0
  {
    var w' := Next(w, Uploads(v));
    if w.uploads[v].phase.Unlocked? {
      more := [Uploads(v)];
      assert more[..0] == [] && After(w, []) == w && After(w, more) == w';
      assert w'.db[w.nextRow].key == Some(key);
      assert key in Refs(w'.db);
    } else {
      var rest := LostClaimDangles(w', v, key);
      more := [Uploads(v)] + rest;
      AfterFirst(w, Uploads(v), rest);
    }
  }

  lemma {:induction false} AfterFirst(w: World, s: Step, steps: seq<Step>)
    ensures After(w, [s] + steps) == After(Next(w, s), steps)
  {
    var all := [s] + steps;
    if steps == [] {
      assert all[..0] == [] && After(w, []) == w;
    } else {
      assert all[..|all| - 1] == [s] + steps[..|steps| - 1];
      AfterFirst(w, s, steps[..|steps| - 1]);
    }
  }

  /**
   What an unlink costs: while everything claimed is there, a reference can
   come to dangle after it, without any further such unlink, if and only if the
   file it takes away is referenced or about to be referenced.
   */
  lemma UnlinkDanglesIff(w: World, i: nat)
    requires ClaimsThere(w) && i in w.deletes && w.deletes[i].phase.Unlink?
    ensures CanDangle(Next(w, Deletes(i))) <==> Claimed(w, w.deletes[i].phase.key)
  {
    var w', key := Next(w, Deletes(i)), w.deletes[i].phase.key;
    if !Claimed(w, key) {
      ClaimsStayThere(w, Deletes(i));
      forall more | HitsNothing(w', more)
        ensures NothingDangles(After(w', more))
      {
        ClaimsAlwaysThere(w', more);
      }
    } else if key in Refs(w.db) {
      assert After(w', []) == w' && HitsNothing(w', []) && key in Refs(w'.db) && key !in w'.vault;
    } else {
      var v :| v in w.uploads && WillReference(w.uploads[v], key);
      var more := LostClaimDangles(w', v, key);
      NoUnlinksHitNothing(w', more);
    }
  }

  /** At no moment of the run, and however it goes on from there without a hit, does a reference dangle. */
  ghost predicate NeverDangles(w: World, steps: seq<Step>) {
    forall n :: 0 <= n <= |steps| ==> !CanDangle(After(w, steps[..n]))
  }

  /**
   Over every interleaving of uploads, cut short or not, deletes, edits and
   backups: references never dangle, and nothing under way can make them, if
   and only if no unlink hits a file that is referenced or about to be.
   */
  lemma NeverDanglesIff(w: World, steps: seq<Step>)
    requires Init(w)
    ensures NeverDangles(w, steps) <==> HitsNothing(w, steps)
  {
    InitClaims(w);
    if HitsNothing(w, steps) {
      forall n | 0 <= n <= |steps|
        ensures !CanDangle(After(w, steps[..n]))
      {
        CannotDangle(w, steps, n);
      }
    } else {
      var n := FirstHit(w, steps);
      CannotDangle(w, steps[..n], n);
      assert steps[..n][..n] == steps[..n];
      UnlinkDanglesIff(After(w, steps[..n]), steps[n].i);
      assert steps[..n + 1][..n] == steps[..n];
      assert CanDangle(After(w, steps[..n + 1]));
    }
  }

  lemma CannotDangle(w: World, steps: seq<Step>, n: nat)
    requires ClaimsThere(w) && HitsNothing(w, steps) && n <= |steps|
    ensures ClaimsThere(After(w, steps[..n])) && !CanDangle(After(w, steps[..n]))
  {
    PrefixHitsNothing(w, steps, n);
    ClaimsAlwaysThere(w, steps[..n]);
    forall more | HitsNothing(After(w, steps[..n]), more)
      ensures NothingDangles(After(After(w, steps[..n]), more))
    {
      ClaimsAlwaysThere(After(w, steps[..n]), more);
    }
  }

  lemma {:induction false} FirstHit(w: World, steps: seq<Step>) returns (n: nat)
    requires !HitsNothing(w, steps)
    ensures n < |steps| && Hits(After(w, steps[..n]), steps[n]) && HitsNothing(w, steps[..n])
  {
    var m := |steps| - 1;
    if HitsNothing(w, steps[..m]) {
      n := m;
    } else {
      n := FirstHit(w, steps[..m]);
      assert steps[..m][..n] == steps[..n];
    }
  }

  // ---- Without deletes

  predicate NoDeletes(steps: seq<Step>) {
    forall s :: s in steps ==> !s.StartDelete?
  }

  /** What a backup snapshot is there in full, and stays so while it copies. */
  ghost predicate SnapshotThere(b: Backup, vault: Vault) {
    && (b.phase.Copying? ==> Refs(b.db) <= b.origin.Keys && b.origin == vault)
    && (b.phase.Returned? ==> b.bundle == b.origin)
  }

  ghost predicate SnapshotsThere(w: World) {
    forall b :: b in w.backups ==> SnapshotThere(w.backups[b], w.vault)
  }

  ghost predicate AllThere(w: World) {
    w.deletes == map[] && ClaimsThere(w) && SnapshotsThere(w)
  }

  /** Nothing is written while a backup copies. */
  lemma CopiedVaultStays(w: World, s: Step)
    requires LockOk(w) && w.deletes == map[] && !s.StartDelete?
    requires exists b :: b in w.backups && w.backups[b].phase.Copying?
    ensures Next(w, s).vault == w.vault
  {
  }

  /** A backup's own step. */
  lemma SnapshotIsThere(w: World, s: Step)
    requires Ok(w) && AllThere(w) && OfBackups(s) && s.i in Next(w, s).backups
    ensures SnapshotThere(Next(w, s).backups[s.i], Next(w, s).vault)
  {
    if s.i in w.backups {
      assert SnapshotThere(w.backups[s.i], w.vault);
      if s.Backs? {
        PhaseStepFindsAll(w, s.i);
      }
    }
  }

  lemma PhaseStepFindsAll(w: World, i: nat)
    requires ClaimsThere(w) && i in w.backups
    requires SnapshotThere(w.backups[i], w.vault) && CaptureOk(w.backups[i], w.vault)
    ensures SnapshotThere(BackupStep(w, i).backups[i], w.vault)
  {
    assert forall k :: k in Refs(w.db) ==> Claimed(w, k);
  }

  /** Another step. */
  lemma SnapshotStays(w: World, s: Step, b: nat)
    requires LockOk(w) && AllThere(w) && !s.StartDelete?
    requires b in w.backups && b in Next(w, s).backups && Next(w, s).backups[b] == w.backups[b]
    ensures SnapshotThere(Next(w, s).backups[b], Next(w, s).vault)
  {
    assert SnapshotThere(w.backups[b], w.vault);
    if w.backups[b].phase.Copying? {
      CopiedVaultStays(w, s);
    }
  }

  lemma SnapshotsStayThere(w: World, s: Step)
    requires Ok(w) && AllThere(w) && !s.StartDelete?
    ensures SnapshotsThere(Next(w, s))
  {
    forall b | b in Next(w, s).backups
      ensures SnapshotThere(Next(w, s).backups[b], Next(w, s).vault)
    {
      if OfBackups(s) && s.i == b {
        SnapshotIsThere(w, s);
      } else {
        assert b in w.backups && Next(w, s).backups[b] == w.backups[b];
        SnapshotStays(w, s, b);
      }
    }
  }

  lemma AllThereStep(w: World, s: Step)
    requires Ok(w) && AllThere(w) && !s.StartDelete?
    ensures AllThere(Next(w, s))
  {
    ClaimsStayThere(w, s);
    SnapshotsStayThere(w, s);
  }

  lemma {:induction false} AllThereAlways(w: World, steps: seq<Step>)
    requires Init(w) && NoDeletes(steps)
    ensures AllThere(After(w, steps))
  {
    if steps != [] {
      var n := |steps| - 1;
      AllThereAlways(w, steps[..n]);
      Reachable(w, steps[..n]);
      AllThereStep(After(w, steps[..n]), steps[n]);
    }
  }

  /**
   Without deletes the reference check can never fail: whenever the walk over
   the vaults is complete, nothing is missing, the bundle is the vaults as they
   were at the snapshot, and the next step returns it.
   */
  lemma ReferenceCheckNeverFails(w: World, steps: seq<Step>, i: nat, now: World)
    requires Init(w) && NoDeletes(steps) && now == After(w, steps)
    requires i in now.backups && now.backups[i].phase.Copying? && now.vault.Keys <= now.backups[i].bundle.Keys
    ensures Missing(now.backups[i].db, now.backups[i].bundle) == {}
    ensures now.backups[i].bundle == now.backups[i].origin
    ensures Next(now, Backs(i)).backups[i].phase.Returned?
  {
    Reachable(w, steps);
    AllThereAlways(w, steps);
    assert SnapshotThere(now.backups[i], now.vault) && CaptureOk(now.backups[i], now.vault);
  }

  // ---- What an upload leaves

  ghost function AfterWrite(w: World, i: nat, key: Key, bytes: string, insert: Option<string>): World {
    Next(Next(Next(Next(w, StartUpload(i, key, bytes, insert)), Uploads(i)), Uploads(i)), Uploads(i))
  }

  lemma UploadWrites(w: World, i: nat, key: Key, bytes: string, insert: Option<string>)
    requires i !in w.uploads && SharedFree(w)
    ensures var w' := AfterWrite(w, i, key, bytes, insert);
            && w'.uploads == w.uploads[i := Upload(key, bytes, insert, Written)]
            && w'.vault == w.vault[key := Whole(bytes)] && w'.db == w.db && w'.nextRow == w.nextRow
  {
    var w1 := Next(w, StartUpload(i, key, bytes, insert));
    assert w1.uploads == w.uploads[i := Upload(key, bytes, insert, Begin)];
    var w2 := Next(w1, Uploads(i));
    assert w2.uploads == w.uploads[i := Upload(key, bytes, insert, Locked)];
    var w3 := Next(w2, Uploads(i));
    assert w3.uploads == w.uploads[i := Upload(key, bytes, insert, Opened)] && w3.vault == w.vault[key := Torn];
  }

  /**
   An upload nobody interferes with leaves exactly its bytes under its key, and
   then, if it has one to insert, a new row that references the key.
   */
  lemma UploadAlone(w: World, i: nat, key: Key, bytes: string, insert: Option<string>)
    requires i !in w.uploads && SharedFree(w)
    ensures var w' := Next(Next(AfterWrite(w, i, key, bytes, insert), Uploads(i)), Uploads(i));
            && w'.vault == w.vault[key := Whole(bytes)]
            && w'.db == (if insert.Some? then w.db[w.nextRow := Row(Some(key), insert.value)] else w.db)
            && i in w'.uploads && w'.uploads[i].phase.Done?
  {
    UploadWrites(w, i, key, bytes, insert);
  }

  /** Whoever else is about: an upload that ends its write leaves its bytes, or the file was unlinked under it. */
  lemma WriteLeavesBytes(w: World, i: nat)
    requires i in w.uploads && w.uploads[i].phase.Opened?
    ensures var u, w' := w.uploads[i], Next(w, Uploads(i));
            if u.key in w.vault then u.key in w'.vault && w'.vault[u.key] == Whole(u.bytes) else u.key !in w'.vault
  {
  }

  // ---- What deletes and interrupted writes cost

  /**
   A delete unlinks the file under its row's key, whoever else references it.
   Run alone in a quiet system, it leaves every referenced file there if and
   only if no other row has the same key.
   */
  lemma DeleteDanglesIffShared(w: World, row: nat)
    requires Init(w) && row in w.db && w.db[row].key.Some?
    ensures var deleted := Next(Next(Next(w, StartDelete(0, row)), Deletes(0)), Deletes(0));
            Refs(deleted.db) <= deleted.vault.Keys <==>
              forall r :: r in w.db && r != row ==> w.db[r].key != w.db[row].key
  {
    var key := w.db[row].key.value;
    var deleted := Next(Next(Next(w, StartDelete(0, row)), Deletes(0)), Deletes(0));
    assert deleted.db == w.db - {row} && deleted.vault == w.vault - {key};
    if r :| r in w.db && r != row && w.db[r].key == Some(key) {
      assert r in deleted.db && key in Refs(deleted.db);
    } else {
      forall k | k in Refs(deleted.db)
        ensures k in deleted.vault
      {
        var r :| r in deleted.db && deleted.db[r].key == Some(k);
        assert k in Refs(w.db);
      }
    }
  }

  lemma AfterOne(w: World, steps: seq<Step>, s: Step)
    ensures After(w, steps + [s]) == Next(After(w, steps), s)
  {
    assert (steps + [s])[..|steps + [s]| - 1] == steps;
  }

  /** The row is deleted, its key exported again, and only then its file unlinked; the new row comes last. */
  function Reexport(row: nat, key: Key, bytes: string, data: string): seq<Step> {
    [] + [StartDelete(0, row)] + [Deletes(0)] + [StartUpload(0, key, bytes, Some(data))] + [Uploads(0)] + [Uploads(0)]
    + [Uploads(0)] + [Uploads(0)] + [Deletes(0)] + [Uploads(0)]
  }

  ghost function Exported(w: World, key: Key, bytes: string, data: string): World {
    var locked := Next(Next(w, StartUpload(0, key, bytes, Some(data))), Uploads(0));
    Next(Next(Next(locked, Uploads(0)), Uploads(0)), Uploads(0))
  }

  lemma AfterReexport(w: World, row: nat, key: Key, bytes: string, data: string)
    ensures var deleted := Next(Next(w, StartDelete(0, row)), Deletes(0));
            After(w, Reexport(row, key, bytes, data)) ==
            Next(Next(Exported(deleted, key, bytes, data), Deletes(0)), Uploads(0))
  {
    var s1 := [] + [StartDelete(0, row)] + [Deletes(0)];
    var s2 := s1 + [StartUpload(0, key, bytes, Some(data))];
    assert After(w, []) == w;
    AfterOne(w, [], StartDelete(0, row));
    AfterOne(w, [] + [StartDelete(0, row)], Deletes(0));
    AfterOne(w, s1, StartUpload(0, key, bytes, Some(data)));
    AfterOne(w, s2, Uploads(0));
    AfterOne(w, s2 + [Uploads(0)], Uploads(0));
    AfterOne(w, s2 + [Uploads(0)] + [Uploads(0)], Uploads(0));
    AfterOne(w, s2 + [Uploads(0)] + [Uploads(0)] + [Uploads(0)], Uploads(0));
    var s3 := s2 + [Uploads(0)] + [Uploads(0)] + [Uploads(0)] + [Uploads(0)];
    AfterOne(w, s3, Deletes(0));
    AfterOne(w, s3 + [Deletes(0)], Uploads(0));
  }

  lemma ExportIsWritten(w: World, key: Key, bytes: string, data: string)
    requires w.uploads == map[] && w.backups == map[]
    ensures var w' := Exported(w, key, bytes, data);
            && w'.uploads == map[0 := Upload(key, bytes, Some(data), Unlocked)]
            && w'.deletes == w.deletes && w'.db == w.db && w'.nextRow == w.nextRow
  {
    var w1 := Next(w, StartUpload(0, key, bytes, Some(data)));
    assert w1.uploads == map[0 := Upload(key, bytes, Some(data), Begin)];
    var w2 := Next(w1, Uploads(0));
    assert w2.uploads == map[0 := Upload(key, bytes, Some(data), Locked)];
    var w3 := Next(w2, Uploads(0));
    assert w3.uploads == map[0 := Upload(key, bytes, Some(data), Opened)];
    var w4 := Next(w3, Uploads(0));
    assert w4.uploads == map[0 := Upload(key, bytes, Some(data), Written)];
  }

  lemma RowIsDeleted(w: World, row: nat, key: Key)
    requires Init(w) && row in w.db && w.db[row].key == Some(key)
    ensures var w' := Next(Next(w, StartDelete(0, row)), Deletes(0));
            w'.deletes == map[0 := Delete(row, Unlink(key))] && w'.uploads == map[] && w'.backups == map[]
  {
    var w1 := Next(w, StartDelete(0, row));
    assert w1.deletes == map[0 := Delete(row, Look)];
  }

  lemma ExportIsLost(w: World, row: nat, key: Key, bytes: string, data: string)
    requires w.deletes == map[0 := Delete(row, Unlink(key))]
    requires w.uploads == map[0 := Upload(key, bytes, Some(data), Unlocked)]
    ensures var lost := Next(Next(w, Deletes(0)), Uploads(0));
            key in Refs(lost.db) && key !in lost.vault
  {
    var unlinked := Next(w, Deletes(0));
    assert key !in unlinked.vault && unlinked.uploads == w.uploads;
    var lost := Next(unlinked, Uploads(0));
    assert lost.db[unlinked.nextRow].key == Some(key);
  }

  /** Whatever the other rows' keys, a file is lost to an export of its key between a delete's two steps. */
  lemma ReexportLosesItsFile(w: World, row: nat, key: Key, bytes: string, data: string)
    requires Init(w) && row in w.db && w.db[row].key == Some(key)
    ensures var lost := After(w, Reexport(row, key, bytes, data));
            key in Refs(lost.db) && key !in lost.vault
  {
    AfterReexport(w, row, key, bytes, data);
    RowIsDeleted(w, row, key);
    var deleted := Next(Next(w, StartDelete(0, row)), Deletes(0));
    ExportIsWritten(deleted, key, bytes, data);
    ExportIsLost(Exported(deleted, key, bytes, data), row, key, bytes, data);
  }

  function Rewrite(key: Key, bytes: string): seq<Step> {
    [] + [StartUpload(0, key, bytes, None)] + [Uploads(0)] + [Uploads(0)] + [Aborts(0)]
  }

  lemma AfterRewrite(w: World, key: Key, bytes: string)
    ensures After(w, Rewrite(key, bytes)) ==
            Next(Next(Next(Next(w, StartUpload(0, key, bytes, None)), Uploads(0)), Uploads(0)), Aborts(0))
  {
    var start := [StartUpload(0, key, bytes, None)];
    assert [] + start == start;
    AfterOne(w, [], StartUpload(0, key, bytes, None));
    AfterOne(w, start, Uploads(0));
    AfterOne(w, start + [Uploads(0)], Uploads(0));
    AfterOne(w, start + [Uploads(0)] + [Uploads(0)], Aborts(0));
  }

  /** A rewrite of the only file that is cut short. */
  lemma RewriteTears(w: World, key: Key, bytes: string)
    requires Init(w) && w.vault.Keys == {key}
    ensures var w' := After(w, Rewrite(key, bytes));
            w'.vault == map[key := Torn] && w'.db == w.db && w'.backups == map[] && ExclusiveFree(w')
  {
    AfterRewrite(w, key, bytes);
    var w1 := Next(w, StartUpload(0, key, bytes, None));
    assert w1.uploads == map[0 := Upload(key, bytes, None, Begin)];
    var w2 := Next(w1, Uploads(0));
    assert w2.uploads == map[0 := Upload(key, bytes, None, Locked)];
    var w3 := Next(w2, Uploads(0));
    assert w3.vault == map[key := Torn] && w3.uploads == map[0 := Upload(key, bytes, None, Opened)];
  }

  lemma TornIsBackedUp(w: World, key: Key, taken: World)
    requires w.vault == map[key := Torn] && w.backups == map[] && ExclusiveFree(w) && Refs(w.db) <= {key}
    requires taken == Next(Next(Next(w, StartBackup(0)), Backs(0)), Backs(0))
    ensures var b := Next(Next(taken, Copies(0, key)), Backs(0)).backups;
            0 in b && b[0].phase.Returned? && b[0].db == w.db && b[0].bundle == map[key := Torn]
  {
    var w1 := Next(w, StartBackup(0));
    assert ExclusiveFree(w1);
    var w2 := Next(w1, Backs(0));
    assert w2.backups == map[0 := Backup(Holding, map[], map[], {}, map[])];
    assert taken.backups == map[0 := Backup(Copying, w.db, map[key := Torn], w.cut, map[])];
    assert Next(taken, Copies(0, key)).backups[0].bundle == map[key := Torn];
    NothingMissing(w.db, map[key := Torn]);
  }

  /**
   The reference check looks for files, not for whole files: a referenced file
   torn by a rewrite that was cut short goes into a backup that returns.
   */
  lemma TornFilePassesTheCheck(w: World, row: nat, key: Key, bytes: string, torn: World, taken: World)
    requires Init(w) && row in w.db && w.db[row].key == Some(key) && w.vault.Keys == {key}
    requires torn == After(w, Rewrite(key, bytes))
    requires taken == Next(Next(Next(torn, StartBackup(0)), Backs(0)), Backs(0))
    ensures var b := Next(Next(taken, Copies(0, key)), Backs(0)).backups;
            0 in b && b[0].phase.Returned? && key in Refs(b[0].db) && b[0].bundle == map[key := Torn]
  {
    RewriteTears(w, key, bytes);
    TornIsBackedUp(torn, key, taken);
  }

  // ---- The two loops of the source

  /** `result` is `destination` with the files of `source` outside `todo` copied over it. */
  ghost predicate Merged(source: map<string, string>, destination: map<string, string>, todo: set<string>,
                         result: map<string, string>) {
    && result.Keys == destination.Keys + (source.Keys - todo)
    && forall p :: p in result ==>
         result[p] == if p in source && p !in todo then source[p] else destination[p]
  }

  lemma MergeOne(source: map<string, string>, destination: map<string, string>, todo: set<string>,
                 result: map<string, string>, path: string)
    requires Merged(source, destination, todo, result)
    requires path in todo && todo <= source.Keys
    ensures Merged(source, destination, todo - {path}, result[path := source[path]])
  {
  }

  /** Copying everything into an empty directory gives the source tree. */
  lemma MergedIntoEmpty(source: map<string, string>, result: map<string, string>)
    requires Merged(source, map[], {}, result)
    ensures result == source
  {
  }

  /** `_copy_dir`: copies every file of a tree, counting them. */
  method CopyDir(source: map<string, string>, destination: map<string, string>)
    returns (result: map<string, string>, count: nat)
    ensures Merged(source, destination, {}, result)
    ensures destination == map[] ==> result == source
    ensures count == |source.Keys|
  {
    result := destination;
    count := 0;
    var todo := source.Keys;
    while todo != {}
      invariant todo <= source.Keys
      invariant Merged(source, destination, todo, result)
      invariant count + |todo| == |source.Keys|
      decreases |todo|
    {
      var path :| path in todo;
      MergeOne(source, destination, todo, result, path);
      result := result[path := source[path]];
      count := count + 1;
      todo := todo - {path};
    }
    if destination == map[] {
      MergedIntoEmpty(source, result);
    }
  }

  /** The names, in query order, that `_bundle_reference_check` reports. */
  function Unmatched(refs: seq<string>, files: set<string>, prefix: string): seq<string> {
    if refs == [] then []
    else (if refs[0] in files then [] else [prefix + refs[0]]) + Unmatched(refs[1..], files, prefix)
  }

  /** A report in two parts is the report of both: what is named, and in which order, is up to each reference alone. */
  lemma {:induction false} UnmatchedOfBoth(refs: seq<string>, more: seq<string>, files: set<string>, prefix: string)
    ensures Unmatched(refs + more, files, prefix) ==
            Unmatched(refs, files, prefix) + Unmatched(more, files, prefix)
    ensures forall r :: Unmatched([r], files, prefix) == if r in files then [] else [prefix + r]
  {
    if refs == [] {
      assert refs + more == more;
    } else {
      assert (refs + more)[1..] == refs[1..] + more;
      UnmatchedOfBoth(refs[1..], more, files, prefix);
    }
  }

  lemma {:induction false} NothingUnmatched(refs: seq<string>, files: set<string>, prefix: string)
    ensures Unmatched(refs, files, prefix) == [] <==> forall r :: r in refs ==> r in files
  {
    if refs != [] {
      NothingUnmatched(refs[1..], files, prefix);
      assert refs == [refs[0]] + refs[1..];
    }
  }

  lemma UnmatchedStep(before: seq<string>, refs: seq<string>, files: set<string>, prefix: string)
    requires refs != []
    ensures before + Unmatched(refs, files, prefix) ==
            (if refs[0] in files then before else before + [prefix + refs[0]]) + Unmatched(refs[1..], files, prefix)
  {
  }

  method MissingFrom(refs: seq<string>, files: set<string>, prefix: string) returns (missing: seq<string>)
    ensures missing == Unmatched(refs, files, prefix)
    ensures missing == [] <==> forall r :: r in refs ==> r in files
  {
    missing := [];
    for i := 0 to |refs|
      invariant missing + Unmatched(refs[i..], files, prefix) == Unmatched(refs, files, prefix)
    {
      UnmatchedStep(missing, refs[i..], files, prefix);
      assert refs[i..][1..] == refs[i + 1..];
      if refs[i] !in files {
        missing := missing + [prefix + refs[i]];
      }
    }
    assert refs[|refs|..] == [];
    NothingUnmatched(refs, files, prefix);
  }

  method BundleReferenceCheck(sourceRefs: seq<string>, artifactRefs: seq<string>,
                              sources: set<string>, artifacts: set<string>)
    returns (missing: seq<string>)
    ensures missing == Unmatched(sourceRefs, sources, "sources/") + Unmatched(artifactRefs, artifacts, "artifacts/")
    ensures missing == [] <==>
      (forall r :: r in sourceRefs ==> r in sources) && (forall r :: r in artifactRefs ==> r in artifacts)
  {
    var missingSources := MissingFrom(sourceRefs, sources, "sources/");
    var missingArtifacts := MissingFrom(artifactRefs, artifacts, "artifacts/");
    missing := missingSources + missingArtifacts;
  }
}
