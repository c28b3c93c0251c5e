/**
 Applying a front configuration: writing it in a transaction, having nginx test and load it, and taking everything
 back when any step fails.
 */
module NginxManager {
  import opened Prelude
  import opened FileTx
  import opened StreamInclude
  import SniMap

  /** Where nginx's files are, and how a configuration is put in words. */
  datatype Setup = Setup(main: Path, stream: Path, http: Path, block: Block,
                         render: SniMap.Stream -> string, renderSite: SniMap.Site -> string)
  {
    predicate Valid() {
      block.Proper() && main != stream && main != http && stream != http
    }

    /** No two stream blocks read alike, and none is empty. */
    ghost predicate TellsApart() {
      (forall s, t :: render(s) == render(t) ==> s == t) && forall s :: render(s) != ""
    }
  }

  function StreamText(u: Setup, c: SniMap.Config): string {
    match SniMap.StreamOf(c) case None => "" case Some(s) => u.render(s)
  }

  function HttpText(u: Setup, c: SniMap.Config): string {
    if c.mode == SniMap.MODE_OFF || c.site.None? then "" else u.renderSite(c.site.value)
  }

  function ReadFile(files: Files, p: Path): Option<string> {
    match Resolve(files, p, MAX_LINKS)
    case None => None
    case Some(q) => if q in files && files[q].Regular? then Some(files[q].data) else None
  }

  /** The three files are none of them symbolic links. */
  ghost predicate Plain(files: Files, u: Setup) {
    !IsLink(files, u.main) && !IsLink(files, u.stream) && !IsLink(files, u.http)
  }

  datatype ApplyError =
    | Invalid(error: SniMap.ConfigError) | NotInstalled | NoStreamModule | NoMainConf | OtherStreamBlock
    | FileFailed | Refused | NotReloaded | NotListening

  /** What the environment makes of one Stage. `back` is how it treats the restoring of each file. */
  datatype StageEnv = StageEnv(installed: bool, hasStream: bool, mainReadable: bool, stream: Env, http: Env, main: Env,
                               rootMade: bool, testOk: bool, back: Path -> WriteOutcome)

  ghost predicate AllPutBack(start: Files, end: Files, removed: set<Path>, umask: Mode) {
    forall p :: PutBack(start, end, removed, umask, p)
  }

  ghost predicate NothingInTheWay(back: Path -> WriteOutcome) {
    forall p :: back(p).Done?
  }

  lemma RollbackRestoresAll(start: Files, s: State, removed: set<Path>, umask: Mode, back: Path -> WriteOutcome)
    requires Restorable(start, s, removed) && NothingInTheWay(back)
    ensures AllPutBack(start, RolledBack(s, umask, back).files, removed, umask)
  {
    forall p ensures PutBack(start, RolledBack(s, umask, back).files, removed, umask, p) {
      RollbackPutsBack(start, s, removed, umask, back, p);
    }
  }

  /** One file made to hold a text, or not to be there. */
  function Put(s: State, umask: Mode, p: Path, text: string, env: Env): (State, bool) {
    if text == "" then Remove(s, p, env) else Write(s, umask, p, text, 0x1A4, env)
  }

  lemma PutIsRestorable(start: Files, s: State, removed: set<Path>, umask: Mode, p: Path, text: string, env: Env)
    requires Restorable(start, s, removed) && !IsLink(s.files, p) && p in removed && Lookup(s.files, p) == Lookup(start, p)
    ensures Restorable(start, Put(s, umask, p, text, env).0, removed)
    ensures forall q :: q != p ==> Lookup(Put(s, umask, p, text, env).0.files, q) == Lookup(s.files, q)
  {
    if text == "" {
      RemoveIsRestorable(start, s, removed, p, env);
    } else {
      WriteIsRestorable(start, s, removed, umask, p, text, 0x1A4, env);
    }
  }

  lemma PutIsRead(s: State, umask: Mode, p: Path, text: string, env: Env)
    requires !IsLink(s.files, p)
    ensures Put(s, umask, p, text, env).1 ==>
              ReadFile(Put(s, umask, p, text, env).0.files, p) == if text == "" then None else Some(text)
    ensures !IsLink(Put(s, umask, p, text, env).0.files, p)
  {
  }

  method PutFile(tx: Transaction, p: Path, text: string, env: Env) returns (ok: bool)
    modifies tx, tx.disk
    ensures (tx.View(), ok) == Put(old(tx.View()), tx.disk.umask, p, text, env)
  {
    if text == "" {
      ok := tx.RemoveAt(p, env);
    } else {
      ok := tx.WriteTo(p, text, 0x1A4, env);
    }
  }

  /** What a config wants on disk. */
  ghost predicate OnDisk(files: Files, u: Setup, c: SniMap.Config)
    requires u.Valid()
  {
    && ReadFile(files, u.stream) == Wanted(StreamText(u, c))
    && ReadFile(files, u.http) == Wanted(HttpText(u, c))
    && ReadFile(files, u.main).Some?
    && (HasBlock(ReadFile(files, u.main).value, u.block) <==> c.mode != SniMap.MODE_OFF)
  }

  lemma PatchedHasBlock(main: string, k: Block)
    requires k.Proper() && WithStreamInclude(main, k).Some?
    ensures HasBlock(WithStreamInclude(main, k).value, k)
  {
    AddingLeavesOneBlock(main, k);
  }

  /** The three files changed in turn, up to the first that fails; the main one only if there is a new text for it. */
  function Written(s: State, umask: Mode, u: Setup, stream: string, http: string, main: Option<string>, env: StageEnv): (State, bool) {
    var (s1, ok1) := Put(s, umask, u.stream, stream, env.stream);
    if !ok1 then (s1, false)
    else
      var (s2, ok2) := Put(s1, umask, u.http, http, env.http);
      if !ok2 || main.None? then (s2, ok2) else Write(s2, umask, u.main, main.value, 0x1A4, env.main)
  }

  function Wanted(text: string): Option<string> {
    if text == "" then None else Some(text)
  }

  lemma PutStep(start: Files, s: State, umask: Mode, u: Setup, p: Path, text: string, env: Env)
    requires u.Valid() && Restorable(start, s, {u.stream, u.http}) && Plain(s.files, u) && p in {u.stream, u.http}
    requires Lookup(s.files, p) == Lookup(start, p)
    ensures var (n, ok) := Put(s, umask, p, text, env);
      && Restorable(start, n, {u.stream, u.http}) && Plain(n.files, u)
      && (ok ==> ReadFile(n.files, p) == Wanted(text))
      && (forall q :: q in {u.stream, u.http, u.main} && q != p ==> ReadFile(n.files, q) == ReadFile(s.files, q))
      && forall q :: q != p ==> Lookup(n.files, q) == Lookup(s.files, q)
  {
    var n := Put(s, umask, p, text, env).0;
    PutIsRestorable(start, s, {u.stream, u.http}, umask, p, text, env);
    PutIsRead(s, umask, p, text, env);
    forall q | q in {u.stream, u.http, u.main} && q != p
      ensures !IsLink(n.files, q) && ReadFile(n.files, q) == ReadFile(s.files, q)
    {
      PlainElsewhere(s.files, n.files, q);
    }
  }

  lemma MainStep(start: Files, s: State, umask: Mode, u: Setup, text: string, env: Env)
    requires u.Valid() && Restorable(start, s, {u.stream, u.http}) && Plain(s.files, u)
    requires Lookup(s.files, u.main) == Lookup(start, u.main)
    ensures var (n, ok) := Write(s, umask, u.main, text, 0x1A4, env);
      && Restorable(start, n, {u.stream, u.http})
      && (ok ==> ReadFile(n.files, u.main) == Some(text))
      && ReadFile(n.files, u.stream) == ReadFile(s.files, u.stream)
      && ReadFile(n.files, u.http) == ReadFile(s.files, u.http)
  {
    var n := Write(s, umask, u.main, text, 0x1A4, env).0;
    WriteIsRestorable(start, s, {u.stream, u.http}, umask, u.main, text, 0x1A4, env);
    PlainElsewhere(s.files, n.files, u.stream);
    PlainElsewhere(s.files, n.files, u.http);
  }

  lemma WrittenIsRestorable(start: Files, umask: Mode, u: Setup, stream: string, http: string, main: Option<string>, env: StageEnv)
    requires u.Valid() && RealLinks(start) && Plain(start, u)
    ensures var (n, ok) := Written(State(start, NEW_TX), umask, u, stream, http, main, env);
      && Restorable(start, n, {u.stream, u.http})
      && (ok ==> && ReadFile(n.files, u.stream) == Wanted(stream)
                 && ReadFile(n.files, u.http) == Wanted(http)
                 && ReadFile(n.files, u.main) == if main.Some? then main else ReadFile(start, u.main))
  {
    var s := State(start, NEW_TX);
    StartIsRestorable(start, {u.stream, u.http});
    PutStep(start, s, umask, u, u.stream, stream, env.stream);
    var (s1, ok1) := Put(s, umask, u.stream, stream, env.stream);
    if ok1 {
      PutStep(start, s1, umask, u, u.http, http, env.http);
      var (s2, ok2) := Put(s1, umask, u.http, http, env.http);
      if ok2 && main.Some? {
        MainStep(start, s2, umask, u, main.value, env.main);
      }
    }
  }

  lemma PlainElsewhere(before: Files, after: Files, p: Path)
    requires Lookup(before, p) == Lookup(after, p) && !IsLink(before, p)
    ensures !IsLink(after, p) && ReadFile(after, p) == ReadFile(before, p)
  {
  }

  method WriteConfig(tx: Transaction, u: Setup, c: SniMap.Config, main: string, patched: string, env: StageEnv)
    returns (ok: bool)
    requires Recorded(tx.View().tx) && !tx.finished
    modifies tx, tx.disk
    ensures (tx.View(), ok) == Written(old(tx.View()), tx.disk.umask, u, StreamText(u, c), HttpText(u, c),
                                       if patched == main then None else Some(patched), env)
    ensures Recorded(tx.View().tx) && !tx.finished
  {
    var stream, http := StreamText(u, c), HttpText(u, c);
    PutRecords(tx.View(), tx.disk.umask, u.stream, stream, env.stream);
    ok := PutFile(tx, u.stream, stream, env.stream);
    if !ok {
      return;
    }
    PutRecords(tx.View(), tx.disk.umask, u.http, http, env.http);
    ok := PutFile(tx, u.http, http, env.http);
    if !ok {
      return;
    }
    if patched != main {
      WriteRecords(tx.View(), tx.disk.umask, u.main, patched, env.main);
      ok := tx.WriteTo(u.main, patched, 0x1A4, env.main);
    }
  }

  lemma WriteRecords(s: State, umask: Mode, p: Path, text: string, env: Env)
    requires Recorded(s.tx) && !s.tx.finished
    ensures Recorded(Write(s, umask, p, text, 0x1A4, env).0.tx) && !Write(s, umask, p, text, 0x1A4, env).0.tx.finished
    ensures Recorded(Remove(s, p, env).0.tx) && !Remove(s, p, env).0.tx.finished
  {
    if p !in s.tx.saved {
      assert p !in Elements(s.tx.order);
      assert Elements(s.tx.order + [p]) == Elements(s.tx.order) + {p};
    }
  }

  lemma PutRecords(s: State, umask: Mode, p: Path, text: string, env: Env)
    requires Recorded(s.tx) && !s.tx.finished
    ensures Recorded(Put(s, umask, p, text, env).0.tx) && !Put(s, umask, p, text, env).0.tx.finished
  {
    WriteRecords(s, umask, p, text, env);
  }

  /** What Stage would have the main file hold; None when another stream block is in the way. */
  function Patched(u: Setup, c: SniMap.Config, main: string): Option<string>
    requires u.Valid()
  {
    if c.mode == SniMap.MODE_OFF then Some(StripInclude(main, u.block)) else WithStreamInclude(main, u.block)
  }

  function NewMain(u: Setup, c: SniMap.Config, main: string): Option<string>
    requires u.Valid() && Patched(u, c, main).Some?
  {
    if Patched(u, c, main).value == main then None else Patched(u, c, main)
  }

  /** The checks: a valid config, an able nginx, a main file to patch. */
  ghost predicate Prepares(files: Files, u: Setup, c: SniMap.Config, env: StageEnv)
    requires u.Valid()
  {
    && SniMap.Valid(c) && env.installed && (c.mode == SniMap.MODE_OFF || env.hasStream)
    && env.mainReadable && ReadFile(files, u.main).Some? && Patched(u, c, ReadFile(files, u.main).value).Some?
  }

  /** All that Stage needs: the checks pass, every change is made, and nginx accepts the result. */
  ghost predicate Stages(files: Files, umask: Mode, u: Setup, c: SniMap.Config, env: StageEnv)
    requires u.Valid()
  {
    && Prepares(files, u, c, env)
    && Written(State(files, NEW_TX), umask, u, StreamText(u, c), HttpText(u, c), NewMain(u, c, ReadFile(files, u.main).value), env).1
    && (c.site.None? || env.rootMade) && env.testOk
  }

  /** The environment lets an operation through. */
  predicate Smooth(env: Env) {
    env.readable && env.dirMade && env.written.Done? && env.removed
  }

  lemma SmoothlyPut(s: State, umask: Mode, p: Path, text: string, env: Env)
    requires !IsLink(s.files, p) && Smooth(env)
    ensures Put(s, umask, p, text, env).1 && Write(s, umask, p, text, 0x1A4, env).1
  {
    assert Resolve(s.files, p, MAX_LINKS) == Some(p);
  }

  /** With nothing in the way the changes are all made. */
  lemma SmoothlyWritten(files: Files, umask: Mode, u: Setup, stream: string, http: string, main: Option<string>, env: StageEnv)
    requires u.Valid() && RealLinks(files) && Plain(files, u) && Smooth(env.stream) && Smooth(env.http) && Smooth(env.main)
    ensures Written(State(files, NEW_TX), umask, u, stream, http, main, env).1
  {
    var s := State(files, NEW_TX);
    StartIsRestorable(files, {u.stream, u.http});
    PutStep(files, s, umask, u, u.stream, stream, env.stream);
    SmoothlyPut(s, umask, u.stream, stream, env.stream);
    var s1 := Put(s, umask, u.stream, stream, env.stream).0;
    PutStep(files, s1, umask, u, u.http, http, env.http);
    SmoothlyPut(s1, umask, u.http, http, env.http);
    if main.Some? {
      SmoothlyPut(Put(s1, umask, u.http, http, env.http).0, umask, u.main, main.value, env.main);
    }
  }

  /** A file under our name is replaced whatever it holds: nothing looks for our header in it. */
  lemma HandWrittenFileIsReplaced(files: Files, umask: Mode, u: Setup, c: SniMap.Config, env: StageEnv, main: Option<string>,
                                  header: string)
    requires u.Valid() && RealLinks(files) && Plain(files, u) && Smooth(env.stream) && Smooth(env.http) && Smooth(env.main)
    requires ReadFile(files, u.stream).Some? && !(header <= ReadFile(files, u.stream).value)
    ensures var (n, ok) := Written(State(files, NEW_TX), umask, u, StreamText(u, c), HttpText(u, c), main, env);
            ok && ReadFile(n.files, u.stream) == Wanted(StreamText(u, c))
  {
    SmoothlyWritten(files, umask, u, StreamText(u, c), HttpText(u, c), main, env);
    WrittenIsRestorable(files, umask, u, StreamText(u, c), HttpText(u, c), main, env);
  }

  /** What there is to check before anything is written: the text the main file should have, and the one it has. */
  method Prepare(disk: FileSystem, u: Setup, c: SniMap.Config, env: StageEnv) returns (r: Result<(string, string), ApplyError>)
    requires u.Valid()
    ensures r.Ok? <==> Prepares(disk.files, u, c, env)
    ensures r.Ok? ==> && ReadFile(disk.files, u.main) == Some(r.value.0) && Patched(u, c, r.value.0) == Some(r.value.1)
                      && (HasBlock(r.value.1, u.block) <==> c.mode != SniMap.MODE_OFF)
  {
    var invalid := SniMap.Validate(c);
    if invalid.Some? {
      return Err(Invalid(invalid.value));
    }
    if !env.installed {
      return Err(NotInstalled);
    }
    if c.mode != SniMap.MODE_OFF && !env.hasStream {
      return Err(NoStreamModule);
    }
    var main := ReadFile(disk.files, u.main);
    if !env.mainReadable || main.None? {
      return Err(NoMainConf);
    }
    if c.mode == SniMap.MODE_OFF {
      StripLeavesNoBlock(main.value, u.block);
      return Ok((main.value, StripInclude(main.value, u.block)));
    }
    var with := WithStreamInclude(main.value, u.block);
    if with.None? {
      return Err(OtherStreamBlock);
    }
    PatchedHasBlock(main.value, u.block);
    return Ok((main.value, with.value));
  }

  method Stage(disk: FileSystem, u: Setup, c: SniMap.Config, env: StageEnv) returns (r: Result<Transaction, ApplyError>)
    requires u.Valid() && RealLinks(disk.files)
    modifies disk
    ensures r.Ok? ==> fresh(r.value) && r.value.disk == disk && Recorded(r.value.View().tx)
    ensures r.Ok? <==> Stages(old(disk.files), disk.umask, u, c, env)
    ensures r.Ok? && Plain(old(disk.files), u) ==>
              Restorable(old(disk.files), r.value.View(), {u.stream, u.http}) && OnDisk(disk.files, u, c)
    ensures r.Err? && Plain(old(disk.files), u) && NothingInTheWay(env.back) ==>
              AllPutBack(old(disk.files), disk.files, {u.stream, u.http}, disk.umask)
  {
    var prepared := Prepare(disk, u, c, env);
    if prepared.Err? {
      NothingChanged(disk.files, {u.stream, u.http}, disk.umask);
      return Err(prepared.error);
    }
    var (main, patched) := prepared.value;
    var tx := new Transaction(disk);
    if Plain(disk.files, u) {
      WrittenIsRestorable(disk.files, disk.umask, u, StreamText(u, c), HttpText(u, c), NewMain(u, c, main), env);
    }
    var ok := WriteConfig(tx, u, c, main, patched, env);
    if ok && (c.site.None? || env.rootMade) && env.testOk {
      return Ok(tx);
    }
    if Plain(old(disk.files), u) && NothingInTheWay(env.back) {
      RollbackRestoresAll(old(disk.files), tx.View(), {u.stream, u.http}, disk.umask, env.back);
    }
    tx.Rollback(env.back);
    return Err(if ok && env.rootMade then Refused else FileFailed);
  }

  lemma NothingChanged(files: Files, removed: set<Path>, umask: Mode)
    ensures AllPutBack(files, files, removed, umask)
  {
    assert forall p :: PutBack(files, files, removed, umask, p);
  }

  /** Takes nginx onto the staged files, or the files back. `reloaded` and `listening` are what nginx does. */
  method Activate(tx: Transaction, ghost start: Files, ghost removed: set<Path>, reloaded: bool, listening: bool,
                  back: Path -> WriteOutcome)
    returns (err: Option<ApplyError>)
    requires Restorable(start, tx.View(), removed)
    modifies tx, tx.disk
    ensures err.None? <==> reloaded && listening
    ensures err.None? ==> tx.disk.files == old(tx.disk.files)
    ensures err.Some? && NothingInTheWay(back) ==> AllPutBack(start, tx.disk.files, removed, tx.disk.umask)
    ensures Recorded(tx.View().tx) && tx.finished
  {
    if !reloaded || !listening {
      if NothingInTheWay(back) {
        RollbackRestoresAll(start, tx.View(), removed, tx.disk.umask, back);
      }
      tx.Rollback(back);
      return Some(if reloaded then NotListening else NotReloaded);
    }
    tx.Commit();
    return None;
  }

  /** Rollback after Activate has succeeded or failed changes nothing any more. */
  method RollbackLate(tx: Transaction, back: Path -> WriteOutcome)
    requires Recorded(tx.View().tx)
    modifies tx, tx.disk
    ensures old(tx.finished) ==> tx.View() == old(tx.View())
    ensures tx.View() == RolledBack(old(tx.View()), tx.disk.umask, back)
  {
    if tx.finished {
      return;
    }
    tx.Rollback(back);
  }

  // ---- is there anything to do ----

  /** Whether a file holds other text than it should; an absent file holds the empty text. */
  predicate FileDiffers(files: Files, p: Path, want: string) {
    ReadFile(files, p) != Some(want) && !(ReadFile(files, p).None? && want == "")
  }

  /** What NeedsUpdate answers when every file it reads can be read or is absent. */
  predicate UpdateNeeded(files: Files, u: Setup, c: SniMap.Config)
    requires u.Valid()
  {
    || (ReadFile(files, u.main).Some? && HasBlock(ReadFile(files, u.main).value, u.block) != (c.mode != SniMap.MODE_OFF))
    || FileDiffers(files, u.stream, StreamText(u, c))
    || FileDiffers(files, u.http, HttpText(u, c))
  }

  /** `readable` is whether an existing file's content can be read. */
  method NeedsUpdate(disk: FileSystem, u: Setup, c: SniMap.Config, readable: Path -> bool) returns (r: Result<bool, ApplyError>)
    requires u.Valid()
    ensures !SniMap.Valid(c) ==> r.Err?
    ensures SniMap.Valid(c) && (forall p :: readable(p)) ==> r == Ok(UpdateNeeded(disk.files, u, c))
  {
    var invalid := SniMap.Validate(c);
    if invalid.Some? {
      return Err(Invalid(invalid.value));
    }
    var main := ReadFile(disk.files, u.main);
    if readable(u.main) && main.Some? {
      if HasBlock(main.value, u.block) != (c.mode != SniMap.MODE_OFF) {
        return Ok(true);
      }
    }
    var wanted := [(u.stream, StreamText(u, c)), (u.http, HttpText(u, c))];
    for i := 0 to |wanted|
      invariant i > 0 && (forall p :: readable(p)) ==> !FileDiffers(disk.files, u.stream, StreamText(u, c))
      invariant i > 1 && (forall p :: readable(p)) ==> !FileDiffers(disk.files, u.http, HttpText(u, c))
    {
      var got := ReadFile(disk.files, wanted[i].0);
      if got.None? {
        if wanted[i].1 != "" {
          return Ok(true);
        }
        continue;
      }
      if !readable(wanted[i].0) {
        return Err(FileFailed);
      }
      if got.value != wanted[i].1 {
        return Ok(true);
      }
    }
    return Ok(false);
  }

  /**
   Where one configuration is on disk, another needs an update exactly when its words differ or its front is on and the
   other's off. When rendering tells streams apart, a changed name, port, upstream, relay or fallback therefore shows.
   */
  lemma OtherConfigNeedsUpdate(files: Files, u: Setup, on: SniMap.Config, wanted: SniMap.Config)
    requires u.Valid() && OnDisk(files, u, on)
    ensures UpdateNeeded(files, u, wanted) <==>
            || (on.mode == SniMap.MODE_OFF) != (wanted.mode == SniMap.MODE_OFF)
            || StreamText(u, on) != StreamText(u, wanted) || HttpText(u, on) != HttpText(u, wanted)
    ensures u.TellsApart() && SniMap.StreamOf(on) != SniMap.StreamOf(wanted) ==> UpdateNeeded(files, u, wanted)
  {
  }

  /** Staging and activating in one step: it ends with everything on disk and nothing to update, or as it began. */
  method Apply(disk: FileSystem, u: Setup, c: SniMap.Config, env: StageEnv, reloaded: bool, listening: bool)
    returns (err: Option<ApplyError>)
    requires u.Valid() && RealLinks(disk.files) && Plain(disk.files, u)
    modifies disk
    ensures err.None? <==> Stages(old(disk.files), disk.umask, u, c, env) && reloaded && listening
    ensures err.None? ==> OnDisk(disk.files, u, c) && !UpdateNeeded(disk.files, u, c)
    ensures err.Some? && NothingInTheWay(env.back) ==> AllPutBack(old(disk.files), disk.files, {u.stream, u.http}, disk.umask)
  {
    var staged := Stage(disk, u, c, env);
    if staged.Err? {
      return Some(staged.error);
    }
    err := Activate(staged.value, old(disk.files), {u.stream, u.http}, reloaded, listening, env.back);
  }
}
