/**
 The file transaction under every nginx change: what each touched path held is kept, and a rollback puts it back.
 Files are modelled by path; a path holds a regular file or a symbolic link.
 */
module FileTx {
  import opened Prelude

  type Path = string
  type Mode = bv9

  datatype Entry = Regular(data: string, mode: Mode) | Link(target: Path)

  type Files = map<Path, Entry>

  function Lookup(files: Files, p: Path): Option<Entry> {
    if p in files then Some(files[p]) else None
  }

  predicate IsLink(files: Files, p: Path) {
    p in files && files[p].Link?
  }

  /** How a write ends: done, or failed with the file untouched or holding something else. */
  datatype WriteOutcome = Done | Failed(left: Option<string>)

  /** Whatever the environment may do to one operation. */
  datatype Env = Env(readable: bool, dirMade: bool, written: WriteOutcome, removed: bool)

  const MAX_LINKS := 40

  function Resolve(files: Files, p: Path, budget: nat): Option<Path>
    decreases budget
  {
    if !IsLink(files, p) then Some(p)
    else if budget == 0 then None
    else Resolve(files, files[p].target, budget - 1)
  }

  /** os.WriteFile: follows links, keeps the mode of a file that exists, creates others under the umask. */
  function WriteFile(files: Files, umask: Mode, p: Path, data: string, mode: Mode, o: WriteOutcome): (Files, bool) {
    match Resolve(files, p, MAX_LINKS)
    case None => (files, false)
    case Some(q) =>
      var m := if q in files && files[q].Regular? then files[q].mode else mode & !umask;
      match o
      case Done => (files[q := Regular(data, m)], true)
      case Failed(None) => (files, false)
      case Failed(Some(d)) => (files[q := Regular(d, m)], false)
  }

  /** What one path held when the transaction first touched it. */
  datatype Snapshot = Snapshot(existed: bool, data: string, mode: Mode, link: string)

  function SnapshotOf(e: Option<Entry>): Snapshot {
    match e
    case None => Snapshot(false, "", 0, "")
    case Some(Link(target)) => Snapshot(true, "", 0, target)
    case Some(Regular(data, mode)) => Snapshot(true, data, mode, "")
  }

  datatype Tx = Tx(saved: map<Path, Snapshot>, order: seq<Path>, finished: bool)

  const NEW_TX := Tx(map[], [], false)

  /** The files and the transaction over them. */
  datatype State = State(files: Files, tx: Tx)

  function Keep(s: State, p: Path, readable: bool): (State, bool) {
    if p in s.tx.saved then (s, true)
    else if !readable then (s, false)
    else (s.(tx := s.tx.(saved := s.tx.saved[p := SnapshotOf(Lookup(s.files, p))], order := s.tx.order + [p])), true)
  }

  function Write(s: State, umask: Mode, p: Path, data: string, mode: Mode, env: Env): (State, bool) {
    var (kept, ok) := Keep(s, p, env.readable);
    if !ok || !env.dirMade then (kept, false)
    else
      var (files, done) := WriteFile(kept.files, umask, p, data, mode, env.written);
      (kept.(files := files), done)
  }

  function Remove(s: State, p: Path, env: Env): (State, bool) {
    var (kept, ok) := Keep(s, p, env.readable);
    if !ok then (kept, false)
    else if p !in kept.files then (kept, true)
    else if !env.removed then (kept, false)
    else (kept.(files := kept.files - {p}), true)
  }

  /** One path put back. `o` is how the environment treats it. */
  function Restore(files: Files, umask: Mode, p: Path, snap: Snapshot, o: WriteOutcome): Files {
    if snap.link != "" then
      if o.Done? then files[p := Link(snap.link)]
      else if o.left.Some? then files - {p} else files
    else if snap.existed then WriteFile(files, umask, p, snap.data, snap.mode, o).0
    else if o.Done? then files - {p} else files
  }

  /** Everything put back, newest first. */
  function RestoreAll(files: Files, umask: Mode, tx: Tx, order: seq<Path>, env: Path -> WriteOutcome): Files
    requires forall p :: p in order ==> p in tx.saved
    decreases |order|
  {
    if order == [] then files
    else
      var p := order[|order| - 1];
      RestoreAll(Restore(files, umask, p, tx.saved[p], env(p)), umask, tx, order[..|order| - 1], env)
  }

  ghost predicate Recorded(tx: Tx) {
    tx.saved.Keys == Elements(tx.order) && NoDuplicates(tx.order)
  }

  function RolledBack(s: State, umask: Mode, env: Path -> WriteOutcome): State
    requires Recorded(s.tx)
  {
    if s.tx.finished then s
    else
      assert forall p :: p in s.tx.order ==> p in Elements(s.tx.order);
      State(RestoreAll(s.files, umask, s.tx, s.tx.order, env), s.tx.(finished := true))
  }

  function Committed(s: State): State {
    s.(tx := s.tx.(finished := true))
  }

  // ---- what every operation keeps ----

  /** Links point somewhere: there is no empty link target. */
  ghost predicate RealLinks(files: Files) {
    forall p :: p in files && files[p].Link? ==> files[p].target != ""
  }

  /** The mode a regular file started with is still there. */
  predicate ModeKept(start: Option<Entry>, now: Option<Entry>) {
    start.Some? && start.value.Regular? ==> now.Some? && now.value.Regular? && now.value.mode == start.value.mode
  }

  /** What holds of one path at any point of a transaction. */
  ghost predicate Tracked(start: Files, s: State, removed: set<Path>, p: Path) {
    && (p in s.tx.saved ==> s.tx.saved[p] == SnapshotOf(Lookup(start, p)))
    && (p !in s.tx.saved ==> Lookup(s.files, p) == Lookup(start, p))
    && (IsLink(s.files, p) ==> Lookup(start, p) == Some(s.files[p]))
    && (p !in removed ==> ModeKept(Lookup(start, p), Lookup(s.files, p)))
  }

  /** Since `start`, only kept paths changed; `removed` are those a removal was called for. */
  ghost predicate Undoable(start: Files, s: State, removed: set<Path>) {
    RealLinks(start) && Recorded(s.tx) && !s.tx.finished && forall p :: Tracked(start, s, removed, p)
  }

  lemma StartIsUndoable(files: Files)
    requires RealLinks(files)
    ensures Undoable(files, State(files, NEW_TX), {})
  {
    assert forall p :: Tracked(files, State(files, NEW_TX), {}, p);
  }

  lemma KeepIsUndoable(start: Files, s: State, removed: set<Path>, p: Path, readable: bool)
    requires Undoable(start, s, removed)
    ensures var (k, ok) := Keep(s, p, readable);
      Undoable(start, k, removed) && k.files == s.files && (ok <==> p in k.tx.saved)
  {
    var (k, ok) := Keep(s, p, readable);
    if p !in s.tx.saved && readable {
      assert p !in Elements(s.tx.order);
      assert Elements(s.tx.order + [p]) == Elements(s.tx.order) + {p};
      assert k.tx.saved.Keys == s.tx.saved.Keys + {p};
      forall q ensures Tracked(start, k, removed, q) {
        assert Tracked(start, s, removed, q);
      }
    }
  }

  lemma WriteIsUndoable(start: Files, s: State, removed: set<Path>, umask: Mode, p: Path, data: string, mode: Mode, env: Env)
    requires Undoable(start, s, removed) && !IsLink(s.files, p)
    ensures Undoable(start, Write(s, umask, p, data, mode, env).0, removed)
    ensures forall q :: q != p ==> Lookup(Write(s, umask, p, data, mode, env).0.files, q) == Lookup(s.files, q)
  {
    KeepIsUndoable(start, s, removed, p, env.readable);
    var (k, ok) := Keep(s, p, env.readable);
    var (w, done) := Write(s, umask, p, data, mode, env);
    forall q ensures Tracked(start, w, removed, q) {
      assert Tracked(start, k, removed, q);
    }
  }

  lemma RemoveIsUndoable(start: Files, s: State, removed: set<Path>, p: Path, env: Env)
    requires Undoable(start, s, removed)
    ensures Undoable(start, Remove(s, p, env).0, removed + {p})
    ensures forall q :: q != p ==> Lookup(Remove(s, p, env).0.files, q) == Lookup(s.files, q)
  {
    KeepIsUndoable(start, s, removed, p, env.readable);
    var (k, ok) := Keep(s, p, env.readable);
    var (r, done) := Remove(s, p, env);
    forall q ensures Tracked(start, r, removed + {p}, q) {
      assert Tracked(start, k, removed, q);
    }
  }

  // ---- rolling back ----

  /** What a successful restore makes of a path, given what it holds now. */
  function Back(snap: Snapshot, now: Option<Entry>, umask: Mode): Option<Entry> {
    if snap.link != "" then Some(Link(snap.link))
    else if !snap.existed then None
    else Some(Regular(snap.data, if now.Some? && now.value.Regular? then now.value.mode else snap.mode & !umask))
  }

  lemma RestoreTouchesOne(files: Files, umask: Mode, p: Path, snap: Snapshot, o: WriteOutcome)
    requires snap.link == "" ==> !IsLink(files, p)
    ensures forall q :: q != p ==> Lookup(Restore(files, umask, p, snap, o), q) == Lookup(files, q)
    ensures o.Done? ==> Lookup(Restore(files, umask, p, snap, o), p) == Back(snap, Lookup(files, p), umask)
  {
    assert snap.link == "" ==> Resolve(files, p, MAX_LINKS) == Some(p);
  }

  lemma {:induction false} RestoreAllTouchesOrder(files: Files, umask: Mode, tx: Tx, order: seq<Path>, env: Path -> WriteOutcome, q: Path)
    requires forall p :: p in order ==> p in tx.saved && (tx.saved[p].link == "" ==> !IsLink(files, p))
    requires NoDuplicates(order)
    ensures q !in order ==> Lookup(RestoreAll(files, umask, tx, order, env), q) == Lookup(files, q)
    ensures q in order && env(q).Done? ==>
              Lookup(RestoreAll(files, umask, tx, order, env), q) == Back(tx.saved[q], Lookup(files, q), umask)
    decreases |order|
  {
    if order != [] {
      var p, init := order[|order| - 1], order[..|order| - 1];
      var next := Restore(files, umask, p, tx.saved[p], env(p));
      assert order == init + [p];
      RestoreTouchesOne(files, umask, p, tx.saved[p], env(p));
      forall x | x in init ensures x in tx.saved && (tx.saved[x].link == "" ==> !IsLink(next, x)) {
        assert x in order && Lookup(next, x) == Lookup(files, x) by {
          var i :| 0 <= i < |init| && init[i] == x;
          assert order[i] == x && order[|order| - 1] == p;
        }
      }
      assert p !in init by {
        forall i | 0 <= i < |init| ensures init[i] != p {
          assert order[i] == init[i] && order[|order| - 1] == p;
        }
      }
      RestoreAllTouchesOrder(next, umask, tx, init, env, q);
    }
  }

  /** The path holds what it held, a file's mode apart. */
  ghost predicate ContentsBack(start: Files, end: Files, p: Path) {
    match Lookup(start, p)
    case Some(Regular(data, _)) => p in end && end[p].Regular? && end[p].data == data
    case e => Lookup(end, p) == e
  }

  /** What tells, when a rollback begins, whether it will give a file its mode back. */
  predicate ModeComesBack(start: Files, now: Files, umask: Mode, p: Path)
    requires p in start && start[p].Regular?
  {
    if p in now && now[p].Regular? then now[p].mode == start[p].mode else start[p].mode & umask == 0
  }

  /** What one path holds after a rollback. */
  lemma RolledBackAt(start: Files, s: State, removed: set<Path>, umask: Mode, env: Path -> WriteOutcome, p: Path)
    requires Undoable(start, s, removed)
    requires p in s.tx.saved ==> env(p).Done?
    ensures Lookup(RolledBack(s, umask, env).files, p) ==
            if p in s.tx.saved then Back(SnapshotOf(Lookup(start, p)), Lookup(s.files, p), umask) else Lookup(s.files, p)
  {
    assert Tracked(start, s, removed, p);
    forall x | x in s.tx.order ensures x in s.tx.saved && (s.tx.saved[x].link == "" ==> !IsLink(s.files, x)) {
      assert x in Elements(s.tx.order);
      assert Tracked(start, s, removed, x);
    }
    assert p in s.tx.saved <==> p in s.tx.order by {
      assert p in s.tx.order <==> p in Elements(s.tx.order);
    }
    RestoreAllTouchesOrder(s.files, umask, s.tx, s.tx.order, env, p);
  }

  /**
   After any writes and removals, each failing or not, a rollback puts back every path the environment lets it restore,
   and touches nothing else. A file that is there gets its mode back exactly when it still has it, and one that is not
   exactly when the umask takes no bit of it away.
   */
  lemma RollbackRestores(start: Files, s: State, removed: set<Path>, umask: Mode, env: Path -> WriteOutcome, p: Path)
    requires Undoable(start, s, removed)
    requires p in s.tx.saved ==> env(p).Done?
    ensures ContentsBack(start, RolledBack(s, umask, env).files, p)
    ensures p in start && start[p].Regular? ==>
              var mode := RolledBack(s, umask, env).files[p].mode;
              && mode == ModeAfter(start, s.files, umask, p)
              && (mode == start[p].mode <==> ModeComesBack(start, s.files, umask, p))
  {
    RolledBackTo(start, s, removed, umask, env, p);
    if p in start && start[p].Regular? {
      ModeAfterIs(start, s.files, umask, p);
    }
  }

  /** A file that is there keeps the mode it has, another is created under the umask. */
  function ModeAfter(start: Files, now: Files, umask: Mode, p: Path): Mode
    requires p in start && start[p].Regular?
  {
    if p in now && now[p].Regular? then now[p].mode else start[p].mode & !umask
  }

  lemma ModeAfterIs(start: Files, now: Files, umask: Mode, p: Path)
    requires p in start && start[p].Regular?
    ensures ModeAfter(start, now, umask, p) == start[p].mode <==> ModeComesBack(start, now, umask, p)
  {
    MaskTakesNothing(start[p].mode, umask);
  }

  lemma RolledBackTo(start: Files, s: State, removed: set<Path>, umask: Mode, env: Path -> WriteOutcome, p: Path)
    requires Undoable(start, s, removed) && (p in s.tx.saved ==> env(p).Done?)
    ensures ContentsBack(start, RolledBack(s, umask, env).files, p)
    ensures p in start && start[p].Regular? ==>
              RolledBack(s, umask, env).files[p].mode == ModeAfter(start, s.files, umask, p)
  {
    RolledBackAt(start, s, removed, umask, env, p);
    assert Tracked(start, s, removed, p);
  }

  lemma MaskTakesNothing(mode: Mode, umask: Mode)
    ensures mode & !umask == mode <==> mode & umask == 0
  {
  }

  /** Once committed or rolled back, a rollback does nothing. */
  lemma FinishedIsFinal(s: State, umask: Mode, env: Path -> WriteOutcome, again: Path -> WriteOutcome)
    requires Recorded(s.tx)
    ensures RolledBack(Committed(s), umask, env) == Committed(s)
    ensures RolledBack(RolledBack(s, umask, env), umask, again) == RolledBack(s, umask, env)
  {
  }

  // ---- whole runs ----

  datatype Op = WriteOp(path: Path, data: string, mode: Mode, env: Env) | RemoveOp(path: Path, env: Env)

  function RunOp(s: State, umask: Mode, op: Op): State {
    match op
    case WriteOp(p, data, mode, env) => Write(s, umask, p, data, mode, env).0
    case RemoveOp(p, env) => Remove(s, p, env).0
  }

  function RunOps(s: State, umask: Mode, ops: seq<Op>): State {
    if ops == [] then s else RunOp(RunOps(s, umask, ops[..|ops| - 1]), umask, ops[|ops| - 1])
  }

  /** No write goes through a symbolic link. */
  ghost predicate WritesFilesOnly(start: Files, umask: Mode, ops: seq<Op>) {
    forall i :: 0 <= i < |ops| && ops[i].WriteOp? ==> !IsLink(RunOps(State(start, NEW_TX), umask, ops[..i]).files, ops[i].path)
  }

  function RemovedIn(ops: seq<Op>): set<Path> {
    set op | op in ops && op.RemoveOp? :: op.path
  }

  lemma {:induction false} RunIsUndoable(start: Files, umask: Mode, ops: seq<Op>)
    requires RealLinks(start) && WritesFilesOnly(start, umask, ops)
    ensures Undoable(start, RunOps(State(start, NEW_TX), umask, ops), RemovedIn(ops))
  {
    if ops == [] {
      StartIsUndoable(start);
      assert RemovedIn(ops) == {};
    } else {
      var init, op := ops[..|ops| - 1], ops[|ops| - 1];
      assert ops == init + [op];
      assert forall i :: 0 <= i < |init| ==> ops[i] == init[i] && ops[..i] == init[..i];
      RunIsUndoable(start, umask, init);
      var s := RunOps(State(start, NEW_TX), umask, init);
      match op {
        case WriteOp(p, data, mode, env) =>
          assert !IsLink(RunOps(State(start, NEW_TX), umask, ops[..|ops| - 1]).files, ops[|ops| - 1].path);
          WriteIsUndoable(start, s, RemovedIn(init), umask, p, data, mode, env);
          assert RemovedIn(ops) == RemovedIn(init);
        case RemoveOp(p, env) =>
          RemoveIsUndoable(start, s, RemovedIn(init), p, env);
          assert RemovedIn(ops) == RemovedIn(init) + {p};
      }
    }
  }

  /**
   Any sequence of operations, stopped anywhere and rolled back, leaves every file and link with the contents it had,
   and every file with its mode exactly under the condition that holds of it when the rollback begins.
   */
  lemma AnyRunRollsBack(start: Files, umask: Mode, ops: seq<Op>, env: Path -> WriteOutcome, p: Path)
    requires RealLinks(start) && WritesFilesOnly(start, umask, ops) && forall q :: env(q).Done?
    ensures Recorded(RunOps(State(start, NEW_TX), umask, ops).tx)
    ensures var s := RunOps(State(start, NEW_TX), umask, ops);
      && ContentsBack(start, RolledBack(s, umask, env).files, p)
      && (p in start && start[p].Regular? ==>
            (RolledBack(s, umask, env).files[p].mode == start[p].mode <==> ModeComesBack(start, s.files, umask, p)))
  {
    RunIsUndoable(start, umask, ops);
    RollbackRestores(start, RunOps(State(start, NEW_TX), umask, ops), RemovedIn(ops), umask, env, p);
  }

  lemma PublicModeStands()
    ensures var umask: Mode, public: Mode, private: Mode := 0x12, 0x1A4, 0x180;
            public & !umask == public && private & umask == 0
  {
  }

  const SMOOTH := Env(true, true, Done, true)

  lemma TwoOps(s: State, umask: Mode, first: Op, second: Op)
    ensures RunOps(s, umask, [first, second]) == RunOp(RunOp(s, umask, first), umask, second)
  {
    assert [first, second][..1] == [first] && [first][..0] == [];
    assert RunOps(s, umask, [first]) == RunOp(RunOps(s, umask, []), umask, first);
  }

  lemma SmoothlyRemoved(data: string, mode: Mode, p: Path)
    ensures var (n, ok) := Remove(State(map[p := Regular(data, mode)], NEW_TX), p, SMOOTH); ok && n.files == map[]
  {
  }

  lemma SmoothlyCreated(s: State, umask: Mode, p: Path, data: string, mode: Mode)
    requires s.files == map[]
    ensures var (n, ok) := Write(s, umask, p, data, mode, SMOOTH); ok && n.files == map[p := Regular(data, mode & !umask)]
  {
  }

  /** A file that is removed and written anew keeps the new mode: a private one (0600) comes back readable to all (0644). */
  lemma RewrittenFileKeepsNewMode(p: Path, data: string, env: Path -> WriteOutcome)
    requires forall q :: env(q).Done?
    ensures var start, umask := map[p := Regular(data, 0x180)], 0x12;
            var s := RunOps(State(start, NEW_TX), umask, [RemoveOp(p, SMOOTH), WriteOp(p, "", 0x1A4, SMOOTH)]);
      && start[p].mode & umask == 0 && Recorded(s.tx)
      && p in RolledBack(s, umask, env).files && RolledBack(s, umask, env).files[p] == Regular(data, 0x1A4)
  {
    var start: Files := map[p := Regular(data, 0x180)];
    var umask: Mode := 0x12;
    var first, second := RemoveOp(p, SMOOTH), WriteOp(p, "", 0x1A4, SMOOTH);
    var s0 := State(start, NEW_TX);
    var s1 := Remove(s0, p, SMOOTH).0;
    var s2 := Write(s1, umask, p, "", 0x1A4, SMOOTH).0;
    TwoOps(s0, umask, first, second);
    PublicModeStands();
    SmoothlyRemoved(data, 0x180, p);
    SmoothlyCreated(s1, umask, p, "", 0x1A4);
    StartIsUndoable(start);
    RemoveIsUndoable(start, s0, {}, p, SMOOTH);
    WriteIsUndoable(start, s1, {p}, umask, p, "", 0x1A4, SMOOTH);
    RollbackRestores(start, s2, {p}, umask, env, p);
  }

  // ---- clients that write no file anew ----

  /** A file that is there has the mode it started with. */
  ghost predicate ModesStand(start: Files, s: State) {
    forall p :: p in s.files && p in start && start[p].Regular? ==> ModeKept(Lookup(start, p), Lookup(s.files, p))
  }

  /** Undoable, and no removed file was written anew. */
  ghost predicate Restorable(start: Files, s: State, removed: set<Path>) {
    Undoable(start, s, removed) && ModesStand(start, s)
  }

  lemma StartIsRestorable(files: Files, removed: set<Path>)
    requires RealLinks(files)
    ensures Restorable(files, State(files, NEW_TX), removed)
  {
    assert forall p :: Tracked(files, State(files, NEW_TX), removed, p);
  }

  lemma WriteIsRestorable(start: Files, s: State, removed: set<Path>, umask: Mode, p: Path, data: string, mode: Mode, env: Env)
    requires Restorable(start, s, removed) && !IsLink(s.files, p) && Lookup(s.files, p) == Lookup(start, p)
    ensures Restorable(start, Write(s, umask, p, data, mode, env).0, removed)
    ensures forall q :: q != p ==> Lookup(Write(s, umask, p, data, mode, env).0.files, q) == Lookup(s.files, q)
  {
    WriteIsUndoable(start, s, removed, umask, p, data, mode, env);
    var n := Write(s, umask, p, data, mode, env).0;
    forall q | q in n.files && q in start && start[q].Regular? ensures ModeKept(Lookup(start, q), Lookup(n.files, q)) {
      if q != p {
        assert Lookup(n.files, q) == Lookup(s.files, q);
      }
    }
  }

  lemma RemoveIsRestorable(start: Files, s: State, removed: set<Path>, p: Path, env: Env)
    requires Restorable(start, s, removed) && p in removed
    ensures Restorable(start, Remove(s, p, env).0, removed)
    ensures forall q :: q != p ==> Lookup(Remove(s, p, env).0.files, q) == Lookup(s.files, q)
  {
    RemoveIsUndoable(start, s, removed, p, env);
    assert removed + {p} == removed;
  }

  /** As it was; of a file that was removed in between, the mode may be only what the umask leaves of it. */
  ghost predicate PutBack(start: Files, end: Files, removed: set<Path>, umask: Mode, p: Path) {
    && ContentsBack(start, end, p)
    && (p in start && start[p].Regular? ==>
          end[p].mode == start[p].mode || (p in removed && end[p].mode == start[p].mode & !umask))
  }

  lemma RollbackPutsBack(start: Files, s: State, removed: set<Path>, umask: Mode, env: Path -> WriteOutcome, p: Path)
    requires Restorable(start, s, removed) && (p in s.tx.saved ==> env(p).Done?)
    ensures PutBack(start, RolledBack(s, umask, env).files, removed, umask, p)
  {
    RollbackRestores(start, s, removed, umask, env, p);
    assert Tracked(start, s, removed, p);
  }

  // ---- the objects ----

  class FileSystem {
    const umask: Mode
    var files: Files

    constructor (umask: Mode, files: Files)
      ensures this.umask == umask && this.files == files
    {
      this.umask, this.files := umask, files;
    }
  }

  class Transaction {
    const disk: FileSystem
    var saved: map<Path, Snapshot>
    var order: seq<Path>
    var finished: bool

    constructor (disk: FileSystem)
      ensures this.disk == disk && View() == State(disk.files, NEW_TX)
    {
      this.disk := disk;
      saved, order, finished := map[], [], false;
    }

    ghost function View(): State
      reads this, disk
    {
      State(disk.files, Tx(saved, order, finished))
    }

    method KeepFile(p: Path, readable: bool) returns (ok: bool)
      modifies this
      ensures (View(), ok) == Keep(old(View()), p, readable)
    {
      if p in saved {
        return true;
      }
      if !readable {
        return false;
      }
      if p !in disk.files {
        saved := saved[p := Snapshot(false, "", 0, "")];
      } else if disk.files[p].Link? {
        saved := saved[p := Snapshot(true, "", 0, disk.files[p].target)];
      } else {
        saved := saved[p := Snapshot(true, disk.files[p].data, disk.files[p].mode, "")];
      }
      order := order + [p];
      return true;
    }

    method WriteTo(p: Path, data: string, mode: Mode, env: Env) returns (ok: bool)
      modifies this, disk
      ensures (View(), ok) == Write(old(View()), disk.umask, p, data, mode, env)
    {
      ok := KeepFile(p, env.readable);
      if !ok || !env.dirMade {
        return false;
      }
      var (files, done) := WriteFile(disk.files, disk.umask, p, data, mode, env.written);
      disk.files := files;
      ok := done;
    }

    method RemoveAt(p: Path, env: Env) returns (ok: bool)
      modifies this, disk
      ensures (View(), ok) == Remove(old(View()), p, env)
    {
      ok := KeepFile(p, env.readable);
      if !ok {
        return false;
      }
      if p !in disk.files {
        return true;
      }
      if env.removed {
        disk.files := disk.files - {p};
      }
      return env.removed;
    }

    method Rollback(env: Path -> WriteOutcome)
      requires Recorded(View().tx)
      modifies this, disk
      ensures View() == RolledBack(old(View()), disk.umask, env)
    {
      if finished {
        return;
      }
      finished := true;
      assert forall p :: p in order ==> p in Elements(order);
      var i := |order|;
      ghost var tx := Tx(saved, order, false);
      assert order[..|order|] == order;
      while i > 0
        invariant 0 <= i <= |order| && saved == tx.saved && order == tx.order && finished
        invariant RestoreAll(disk.files, disk.umask, tx, order[..i], env)
                  == RestoreAll(old(disk.files), disk.umask, tx, order, env)
      {
        i := i - 1;
        assert order[..i + 1][..i] == order[..i];
        disk.files := Restore(disk.files, disk.umask, order[i], saved[order[i]], env(order[i]));
      }
    }

    method Commit()
      modifies this
      ensures View() == Committed(old(View()))
    {
      finished := true;
    }
  }
}
