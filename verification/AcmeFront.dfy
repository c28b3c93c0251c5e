/** Port 80 for the CA: the panel's own server there, the distro's default one out of the way, and all of it undone on failure. */
module AcmeFront {
  import opened Prelude
  import opened FileTx
  import opened NginxManager

  /** The files concerned, what ours should hold, and what tells a distro's own file from an operator's. */
  datatype Places = Places(acme: Path, link: Path, site: Path, def: Path, disabled: Path, header: string, body: string,
                           stock: string -> bool, claims: string -> bool)
  {
    function Want(): string { header + body }

    predicate Valid() {
      && acme !in {link, site, def, disabled} && link !in {site, def, disabled}
      && site !in {def, disabled} && def != disabled
    }
  }

  datatype AcmeError =
    | NotInstalled | NoWebroot | Unreadable | NotOurs | SiteClaimsPort80 | FileFailed | Refused | NotReloaded | NotAnswering

  datatype AcmeEnv = AcmeEnv(webrootMade: bool, acmeReadable: bool, acme: Env, siteReadable: bool, link: Env,
                             defReadable: bool, disabled: Env, def: Env, back: Path -> WriteOutcome)

  /** What nginx does: `answers` tells whether the probe file comes back, at the first and at the second attempt. */
  datatype Nginx = Nginx(installed: bool, running: bool, testOk: bool, reloads: (bool, bool), answers: (bool, bool))

  predicate Willing(nginx: Nginx) {
    nginx.installed && nginx.testOk && nginx.reloads == (true, true) && nginx.answers == (true, true)
  }

  ghost predicate Plain(files: Files, w: Places) {
    !IsLink(files, w.acme) && !IsLink(files, w.disabled) && !IsLink(files, w.site)
  }

  /** The removals the transaction may make. */
  function Removals(w: Places): set<Path> {
    {w.link, w.def}
  }

  ghost predicate Going(start: Files, tx: Transaction, w: Places)
    reads tx, tx.disk
  {
    w.Valid() && Restorable(start, tx.View(), Removals(w)) && Plain(tx.disk.files, w)
  }

  // ---- what is already as it should be ----

  predicate AcmeReady(files: Files, w: Places) {
    ReadFile(files, w.acme) == Some(w.Want())
  }

  /** The distro's site is linked in, and is the package's own or claims the port. */
  predicate DistroSiteOn(files: Files, w: Places) {
    && IsLink(files, w.link) && files[w.link].target == w.site
    && ReadFile(files, w.site).Some? && (w.stock(ReadFile(files, w.site).value) || w.claims(ReadFile(files, w.site).value))
  }

  predicate DefaultOn(files: Files, w: Places) {
    ReadFile(files, w.def).Some? && w.claims(ReadFile(files, w.def).value)
  }

  /** Nothing left to do: our server is there and no default of the distro's is. */
  predicate Settled(files: Files, w: Places) {
    AcmeReady(files, w) && !DistroSiteOn(files, w) && !DefaultOn(files, w)
  }

  lemma ReadElsewhere(before: Files, after: Files, p: Path)
    requires Lookup(before, p) == Lookup(after, p)
    ensures IsLink(after, p) == IsLink(before, p)
    ensures !IsLink(before, p) ==> ReadFile(after, p) == ReadFile(before, p)
  {
  }

  /** The environment lets every file that is looked at be read. */
  predicate CanLook(files: Files, w: Places, env: AcmeEnv) {
    && env.webrootMade && env.acmeReadable
    && (IsLink(files, w.link) && files[w.link].target == w.site ==> env.siteReadable && ReadFile(files, w.site).Some?)
  }

  /** The environment lets every change through. */
  predicate AllSmooth(env: AcmeEnv) {
    Smooth(env.acme) && Smooth(env.link) && Smooth(env.disabled) && Smooth(env.def)
  }

  /** The port-80 file, if there, is ours. */
  predicate AcmeIsOurs(files: Files, w: Places) {
    w.acme in files ==> ReadFile(files, w.acme).Some? && w.header <= ReadFile(files, w.acme).value
  }

  /** A linked site that claims the port is the package's own. */
  predicate SiteIsStock(files: Files, w: Places) {
    DistroSiteOn(files, w) ==> w.stock(ReadFile(files, w.site).value)
  }

  // ---- the steps ----

  lemma OursWritten(start: Files, s: State, w: Places, umask: Mode, env: Env)
    requires w.Valid() && Restorable(start, s, Removals(w)) && Plain(s.files, w) && Lookup(s.files, w.acme) == Lookup(start, w.acme)
    ensures var (n, ok) := Write(s, umask, w.acme, w.Want(), 0x1A4, env);
      && Restorable(start, n, Removals(w)) && Plain(n.files, w)
      && (forall p :: p != w.acme ==> Lookup(n.files, p) == Lookup(s.files, p))
      && (ok ==> AcmeReady(n.files, w))
  {
    WriteIsRestorable(start, s, Removals(w), umask, w.acme, w.Want(), 0x1A4, env);
    var n := Write(s, umask, w.acme, w.Want(), 0x1A4, env).0;
    ReadElsewhere(s.files, n.files, w.disabled);
    ReadElsewhere(s.files, n.files, w.site);
  }

  method WriteAcmeConf(tx: Transaction, w: Places, env: AcmeEnv, ghost start: Files) returns (r: Result<bool, AcmeError>)
    requires Going(start, tx, w)
    requires Lookup(tx.disk.files, w.acme) == Lookup(start, w.acme)
    modifies tx, tx.disk
    ensures Going(start, tx, w)
    ensures forall p :: p != w.acme ==> Lookup(tx.disk.files, p) == Lookup(old(tx.disk.files), p)
    ensures r == Ok(false) ==> tx.disk.files == old(tx.disk.files)
    ensures r.Ok? ==> AcmeReady(tx.disk.files, w)
    ensures AcmeReady(old(tx.disk.files), w) && env.acmeReadable ==> r == Ok(false)
    ensures env.acmeReadable && Smooth(env.acme) && AcmeIsOurs(old(tx.disk.files), w) ==> r.Ok?
  {
    var current := ReadFile(tx.disk.files, w.acme);
    if w.acme in tx.disk.files {
      if !env.acmeReadable || current.None? {
        return Err(Unreadable);
      }
      if !(w.header <= current.value) {
        return Err(NotOurs);
      }
    }
    if current == Some(w.Want()) {
      return Ok(false);
    }
    OursWritten(start, tx.View(), w, tx.disk.umask, env.acme);
    var ok := tx.WriteTo(w.acme, w.Want(), 0x1A4, env.acme);
    return if ok then Ok(true) else Err(AcmeError.FileFailed);
  }

  /** Debian: the link to the package's stock site goes; an edited site that claims the port stops the run. */
  method DisableDebianSite(tx: Transaction, w: Places, env: AcmeEnv, ghost start: Files) returns (r: Result<bool, AcmeError>)
    requires Going(start, tx, w)
    modifies tx, tx.disk
    ensures Going(start, tx, w)
    ensures forall p :: p != w.link ==> Lookup(tx.disk.files, p) == Lookup(old(tx.disk.files), p)
    ensures r == Ok(false) ==> tx.disk.files == old(tx.disk.files)
    ensures r.Ok? ==> !DistroSiteOn(tx.disk.files, w)
    ensures !DistroSiteOn(old(tx.disk.files), w) ==> r == Ok(false) || r == Err(Unreadable)
    ensures r == Err(Unreadable) ==> !CanLook(old(tx.disk.files), w, env)
    ensures CanLook(old(tx.disk.files), w, env) && Smooth(env.link) && SiteIsStock(old(tx.disk.files), w) ==> r.Ok?
  {
    if !IsLink(tx.disk.files, w.link) || tx.disk.files[w.link].target != w.site {
      return Ok(false);
    }
    var body := ReadFile(tx.disk.files, w.site);
    if !env.siteReadable || body.None? {
      return Err(Unreadable);
    }
    if w.stock(body.value) {
      RemoveIsRestorable(start, tx.View(), Removals(w), w.link, env.link);
      var ok := tx.RemoveAt(w.link, env.link);
      return if ok then Ok(true) else Err(AcmeError.FileFailed);
    }
    if w.claims(body.value) {
      return Err(SiteClaimsPort80);
    }
    return Ok(false);
  }

  lemma KeptAside(start: Files, s: State, w: Places, umask: Mode, body: string, env: Env)
    requires w.Valid() && Restorable(start, s, Removals(w)) && Plain(s.files, w)
    requires Lookup(s.files, w.disabled) == Lookup(start, w.disabled)
    ensures var (n, ok) := Write(s, umask, w.disabled, body, 0x1A4, env);
      && Restorable(start, n, Removals(w)) && Plain(n.files, w)
      && (forall p :: p != w.disabled ==> Lookup(n.files, p) == Lookup(s.files, p))
      && (ok ==> ReadFile(n.files, w.disabled) == Some(body))
  {
    WriteIsRestorable(start, s, Removals(w), umask, w.disabled, body, 0x1A4, env);
    var n := Write(s, umask, w.disabled, body, 0x1A4, env).0;
    ReadElsewhere(s.files, n.files, w.acme);
    ReadElsewhere(s.files, n.files, w.site);
  }

  lemma DefaultGone(start: Files, s: State, w: Places, env: Env)
    requires w.Valid() && Restorable(start, s, Removals(w)) && Plain(s.files, w)
    ensures var (n, ok) := Remove(s, w.def, env);
      && Restorable(start, n, Removals(w)) && Plain(n.files, w)
      && (forall p :: p != w.def ==> Lookup(n.files, p) == Lookup(s.files, p))
      && (ok ==> ReadFile(n.files, w.def) == None)
      && ReadFile(n.files, w.disabled) == ReadFile(s.files, w.disabled)
  {
    RemoveIsRestorable(start, s, Removals(w), w.def, env);
    var n := Remove(s, w.def, env).0;
    ReadElsewhere(s.files, n.files, w.acme);
    ReadElsewhere(s.files, n.files, w.site);
    ReadElsewhere(s.files, n.files, w.disabled);
  }

  /** Alpine: a default that claims the port is kept under another name and removed. */
  method DisableAlpineDefault(tx: Transaction, w: Places, env: AcmeEnv, ghost start: Files) returns (r: Result<bool, AcmeError>)
    requires Going(start, tx, w)
    requires Lookup(tx.disk.files, w.disabled) == Lookup(start, w.disabled)
    modifies tx, tx.disk
    ensures Going(start, tx, w)
    ensures forall p :: p != w.def && p != w.disabled ==> Lookup(tx.disk.files, p) == Lookup(old(tx.disk.files), p)
    ensures r == Ok(false) ==> tx.disk.files == old(tx.disk.files)
    ensures r.Ok? && env.defReadable ==> !DefaultOn(tx.disk.files, w)
    ensures !DefaultOn(old(tx.disk.files), w) ==> r == Ok(false)
    ensures r == Ok(true) ==> ReadFile(tx.disk.files, w.disabled) == ReadFile(old(tx.disk.files), w.def)
    ensures Smooth(env.disabled) && Smooth(env.def) ==> r.Ok?
  {
    var body := ReadFile(tx.disk.files, w.def);
    if !env.defReadable || body.None? || !w.claims(body.value) {
      return Ok(false);
    }
    KeptAside(start, tx.View(), w, tx.disk.umask, body.value, env.disabled);
    var ok := tx.WriteTo(w.disabled, body.value, 0x1A4, env.disabled);
    if !ok {
      return Err(AcmeError.FileFailed);
    }
    DefaultGone(start, tx.View(), w, env.def);
    ok := tx.RemoveAt(w.def, env.def);
    return if ok then Ok(true) else Err(AcmeError.FileFailed);
  }

  method StageACMEFront(tx: Transaction, w: Places, env: AcmeEnv, ghost start: Files) returns (r: Result<bool, AcmeError>)
    requires Going(start, tx, w) && tx.disk.files == start
    modifies tx, tx.disk
    ensures Going(start, tx, w)
    ensures r == Ok(false) ==> tx.disk.files == old(tx.disk.files)
    ensures r.Ok? && env.defReadable ==> Settled(tx.disk.files, w)
    ensures Settled(old(tx.disk.files), w) && CanLook(old(tx.disk.files), w, env) ==> r == Ok(false)
    ensures (CanLook(old(tx.disk.files), w, env) && AllSmooth(env)
             && AcmeIsOurs(old(tx.disk.files), w) && SiteIsStock(old(tx.disk.files), w)) ==> r.Ok?
  {
    if !env.webrootMade {
      return Err(NoWebroot);
    }
    var acme := WriteAcmeConf(tx, w, env, start);
    ReadElsewhere(old(tx.disk.files), tx.disk.files, w.site);
    ReadElsewhere(old(tx.disk.files), tx.disk.files, w.link);
    if acme.Err? {
      return acme;
    }
    label Wrote:
    var site := DisableDebianSite(tx, w, env, start);
    ReadElsewhere(old@Wrote(tx.disk.files), tx.disk.files, w.acme);
    if site.Err? {
      return site;
    }
    label Unlinked:
    var def := DisableAlpineDefault(tx, w, env, start);
    ReadElsewhere(old@Unlinked(tx.disk.files), tx.disk.files, w.acme);
    ReadElsewhere(old@Unlinked(tx.disk.files), tx.disk.files, w.site);
    ReadElsewhere(old@Unlinked(tx.disk.files), tx.disk.files, w.link);
    if def.Err? {
      return def;
    }
    return Ok(acme.value || site.value || def.value);
  }

  /**
   The whole run: it ends with everything settled, or with every file as it was; and where everything was settled
   already it writes nothing.
   */
  method EnsureACMEFront(disk: FileSystem, w: Places, env: AcmeEnv, nginx: Nginx) returns (r: Result<bool, AcmeError>)
    requires w.Valid() && RealLinks(disk.files) && Plain(disk.files, w)
    modifies disk
    ensures r.Err? && NothingInTheWay(env.back) ==> AllPutBack(old(disk.files), disk.files, Removals(w), disk.umask)
    ensures r == Ok(false) ==> disk.files == old(disk.files)
    ensures r.Ok? && env.defReadable ==> Settled(disk.files, w)
    ensures Settled(old(disk.files), w) && CanLook(old(disk.files), w, env) ==> disk.files == old(disk.files)
    ensures (CanLook(old(disk.files), w, env) && AllSmooth(env) && Willing(nginx)
             && AcmeIsOurs(old(disk.files), w) && SiteIsStock(old(disk.files), w)) ==> r.Ok?
  {
    if !nginx.installed {
      NothingChanged(disk.files, Removals(w), disk.umask);
      return Err(AcmeError.NotInstalled);
    }
    var tx := new Transaction(disk);
    StartIsRestorable(disk.files, Removals(w));
    ghost var start := disk.files;
    var staged := StageACMEFront(tx, w, env, start);
    if staged == Ok(false) {
      tx.Commit();
      NothingChanged(disk.files, Removals(w), disk.umask);
      if !nginx.running && !nginx.reloads.0 {
        return Err(AcmeError.NotReloaded);
      }
      if nginx.answers.0 {
        return Ok(false);
      }
      if !nginx.reloads.1 {
        return Err(AcmeError.NotReloaded);
      }
      return if nginx.answers.1 then Ok(false) else Err(NotAnswering);
    }
    if staged.Err? || !nginx.testOk || !nginx.reloads.0 || !nginx.answers.0 {
      if NothingInTheWay(env.back) {
        RollbackRestoresAll(start, tx.View(), Removals(w), disk.umask, env.back);
      }
      tx.Rollback(env.back);
      return Err(if staged.Err? then staged.error else if !nginx.testOk then AcmeError.Refused
                 else if !nginx.reloads.0 then AcmeError.NotReloaded else NotAnswering);
    }
    tx.Commit();
    return staged;
  }
}
