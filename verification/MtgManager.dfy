/**
 The manager of the mtg processes: its lifecycle operations as interleaved steps under the operation lock, and the
 sequential reconcile.
 */
module MtgManager {
  import opened Prelude
  import opened MtgInstance

  // ---- interleaved operations ----

  /** Processes are told apart by a number of their own, not by the operating system's. */
  datatype Managed = Managed(process: nat, tag: string, fingerprint: string)

  /** What the holder of the operation lock is about to do. */
  datatype Op =
    | Idle
    | EnsureLook(inst: Instance)
    | EnsureStop(inst: Instance)
    | EnsureForget(inst: Instance)
    | EnsureStart(inst: Instance)
    | EnsureStore(inst: Instance, started: nat)
    | RemoveTake(id: int)
    | RemoveStop(id: int, taken: Managed)
    | StopAllTake
    | StopAllStop(rest: map<int, Managed>)

  /** The one-time cleanup: its flag is set before the killing, which holds no lock. */
  datatype Sweep = Unswept | Sweeping | Swept

  /** `live` maps each running process of ours to its inbound, `orphans` those of an earlier run. */
  datatype World = World(procs: map<int, Managed>, live: map<nat, int>, next: nat, op: Op,
                         orphans: map<nat, int>, sweep: Sweep)

  datatype Step =
    | Begin(op: Op)                  // somebody takes the lock
    | Advance(ok: bool, pick: int)   // the holder goes on; `ok`: a start succeeds, `pick`: whom StopAll stops next
    | Exit(process: nat)             // a process ends by itself
    | SetSwept
    | KillStrays

  predicate Entry(op: Op) {
    op.EnsureLook? || op.RemoveTake? || op.StopAllTake?
  }

  predicate Enabled(w: World, s: Step) {
    match s
    case Begin(op) => w.op.Idle? && Entry(op) && (op.EnsureLook? ==> !w.sweep.Unswept?)
    case Advance(_, pick) => !w.op.Idle? && (w.op.StopAllStop? && w.op.rest != map[] ==> pick in w.op.rest)
    case Exit(process) => process in w.live || process in w.orphans
    case SetSwept => w.sweep.Unswept?
    case KillStrays => w.sweep.Sweeping?
  }

  function Advanced(w: World, ok: bool, pick: int): World
    requires Enabled(w, Advance(ok, pick))
  {
    match w.op
    case EnsureLook(inst) =>
      if inst.id !in w.procs then w.(op := EnsureStart(inst))
      else if w.procs[inst.id].fingerprint == inst.Fingerprint() && w.procs[inst.id].process in w.live then
        w.(procs := w.procs[inst.id := w.procs[inst.id].(tag := inst.tag)], op := Idle)
      else w.(op := EnsureStop(inst))
    case EnsureStop(inst) =>
      w.(live := if inst.id in w.procs then w.live - {w.procs[inst.id].process} else w.live, op := EnsureForget(inst))
    case EnsureForget(inst) => w.(procs := w.procs - {inst.id}, op := EnsureStart(inst))
    case EnsureStart(inst) =>
      if ok then w.(live := w.live[w.next := inst.id], next := w.next + 1, op := EnsureStore(inst, w.next))
      else w.(op := Idle)
    case EnsureStore(inst, started) =>
      w.(procs := w.procs[inst.id := Managed(started, inst.tag, inst.Fingerprint())], op := Idle)
    case RemoveTake(id) =>
      if id !in w.procs then w.(op := Idle)
      else w.(procs := w.procs - {id}, op := RemoveStop(id, w.procs[id]))
    case RemoveStop(_, taken) => w.(live := w.live - {taken.process}, op := Idle)
    case StopAllTake => w.(procs := map[], op := StopAllStop(w.procs))
    case StopAllStop(rest) =>
      if rest == map[] then w.(op := Idle)
      else w.(live := w.live - {rest[pick].process}, op := StopAllStop(rest - {pick}))
  }

  function After(w: World, s: Step): World
    requires Enabled(w, s)
  {
    match s
    case Begin(op) => w.(op := op)
    case Advance(ok, pick) => Advanced(w, ok, pick)
    case Exit(process) => w.(live := w.live - {process}, orphans := w.orphans - {process})
    case SetSwept => w.(sweep := Sweeping)
    case KillStrays => w.(live := map[], orphans := map[], sweep := Swept)
  }

  /** Nothing of ours runs yet; orphans may. */
  ghost predicate Initial(w: World) {
    w.procs == map[] && w.live == map[] && w.op.Idle? && w.sweep.Unswept?
  }

  ghost predicate IsRun(run: seq<World>, steps: seq<Step>) {
    && |run| == |steps| + 1 && Initial(run[0])
    && forall i :: 0 <= i < |steps| ==> Enabled(run[i], steps[i]) && run[i + 1] == After(run[i], steps[i])
  }

  // ---- what every interleaving keeps ----

  /** A process is in the map under its inbound. */
  predicate InMap(w: World, process: nat, id: int) {
    id in w.procs && w.procs[id].process == process
  }

  /** A process is in the hands of whoever holds the lock. */
  predicate Held(op: Op, process: nat, id: int) {
    match op
    case EnsureStore(inst, started) => started == process && inst.id == id
    case RemoveStop(of, taken) => of == id && taken.process == process
    case StopAllStop(rest) => id in rest && rest[id].process == process
    case _ => false
  }

  /** The map and the hands together know at most one process per inbound. */
  ghost predicate Unambiguous(w: World) {
    match w.op
    case EnsureForget(inst) => inst.id in w.procs ==> w.procs[inst.id].process !in w.live
    case EnsureStart(inst) => inst.id !in w.procs
    case EnsureStore(inst, _) => inst.id !in w.procs
    case RemoveStop(id, _) => id !in w.procs
    case StopAllStop(_) => w.procs == map[]
    case _ => true
  }

  /** What the invariant says of one process. */
  predicate Accounted(w: World, p: nat)
    requires p in w.live
  {
    p < w.next && (InMap(w, p, w.live[p]) || Held(w.op, p, w.live[p]))
  }

  /** An Ensure is under way. */
  predicate Ensuring(op: Op) {
    op.EnsureLook? || op.EnsureStop? || op.EnsureForget? || op.EnsureStart? || op.EnsureStore?
  }

  ghost predicate Inv(w: World) {
    Unambiguous(w) && AllAccounted(w) && InSweepOrder(w)
  }

  /** Nothing of ours runs before the sweep's flag is set, and no orphan after the killing. */
  predicate InSweepOrder(w: World) {
    && (w.sweep.Unswept? ==> w.live == map[] && !Ensuring(w.op))
    && (w.sweep.Swept? ==> w.orphans == map[])
  }

  ghost predicate AllAccounted(w: World) {
    forall p :: p in w.live ==> Accounted(w, p)
  }

  lemma EnsureKeepsInv(w: World, ok: bool, pick: int)
    requires Unambiguous(w) && AllAccounted(w) && Enabled(w, Advance(ok, pick))
    requires Ensuring(w.op)
    ensures Unambiguous(Advanced(w, ok, pick)) && AllAccounted(Advanced(w, ok, pick))
  {
    var n := Advanced(w, ok, pick);
    forall p | p in n.live ensures Accounted(n, p) {
      assert p in w.live ==> Accounted(w, p);
    }
  }

  lemma RemoveKeepsInv(w: World, ok: bool, pick: int)
    requires Unambiguous(w) && AllAccounted(w) && Enabled(w, Advance(ok, pick)) && (w.op.RemoveTake? || w.op.RemoveStop?)
    ensures Unambiguous(Advanced(w, ok, pick)) && AllAccounted(Advanced(w, ok, pick))
  {
    var n := Advanced(w, ok, pick);
    forall p | p in n.live ensures Accounted(n, p) {
      assert Accounted(w, p);
    }
  }

  lemma StopAllKeepsInv(w: World, ok: bool, pick: int)
    requires Unambiguous(w) && AllAccounted(w) && Enabled(w, Advance(ok, pick)) && (w.op.StopAllTake? || w.op.StopAllStop?)
    ensures Unambiguous(Advanced(w, ok, pick)) && AllAccounted(Advanced(w, ok, pick))
  {
    var n := Advanced(w, ok, pick);
    forall p | p in n.live ensures Accounted(n, p) {
      assert Accounted(w, p);
    }
  }

  lemma StepKeepsSweepOrder(w: World, s: Step)
    requires InSweepOrder(w) && Enabled(w, s)
    ensures InSweepOrder(After(w, s))
  {
    assert w.sweep.Unswept? && s.Advance? ==> After(w, s).live == map[] && !Ensuring(After(w, s).op);
  }

  lemma AdvanceKeepsInv(w: World, ok: bool, pick: int)
    requires Unambiguous(w) && AllAccounted(w) && Enabled(w, Advance(ok, pick))
    ensures Unambiguous(Advanced(w, ok, pick)) && AllAccounted(Advanced(w, ok, pick))
  {
    if w.op.RemoveTake? || w.op.RemoveStop? {
      RemoveKeepsInv(w, ok, pick);
    } else if w.op.StopAllTake? || w.op.StopAllStop? {
      StopAllKeepsInv(w, ok, pick);
    } else {
      EnsureKeepsInv(w, ok, pick);
    }
  }

  lemma StepKeepsInv(w: World, s: Step)
    requires Inv(w) && Enabled(w, s)
    ensures Inv(After(w, s))
  {
    StepKeepsSweepOrder(w, s);
    if s.Advance? {
      AdvanceKeepsInv(w, s.ok, s.pick);
    } else {
      var n := After(w, s);
      forall p | p in n.live ensures Accounted(n, p) {
        assert Accounted(w, p);
      }
    }
  }

  lemma {:induction false} RunKeepsInv(run: seq<World>, steps: seq<Step>, i: nat)
    requires IsRun(run, steps) && i < |run|
    ensures Inv(run[i])
  {
    if i > 0 {
      RunKeepsInv(run, steps, i - 1);
      StepKeepsInv(run[i - 1], steps[i - 1]);
      assert run[i - 1 + 1] == After(run[i - 1], steps[i - 1]);
    }
  }

  /**
   In every interleaving of Ensure, Remove, Reconcile's items, StopAll and processes that end by themselves: no inbound
   has two live processes, every live process is in the map or in the hands of the lock's holder, and when nobody holds
   the lock it is in the map.
   */
  lemma OneProcessPerInbound(run: seq<World>, steps: seq<Step>, i: nat, p: nat, q: nat)
    requires IsRun(run, steps) && i < |run| && p in run[i].live && q in run[i].live
    ensures run[i].live[p] == run[i].live[q] ==> p == q
    ensures InMap(run[i], p, run[i].live[p]) || Held(run[i].op, p, run[i].live[p])
    ensures run[i].op.Idle? ==> InMap(run[i], p, run[i].live[p])
  {
    RunKeepsInv(run, steps, i);
    assert Accounted(run[i], p) && Accounted(run[i], q);
  }

  /** And once the sweep is through, no orphan is left beside them. */
  lemma NoOrphansAfterSweep(run: seq<World>, steps: seq<Step>, i: nat)
    requires IsRun(run, steps) && i < |run| && run[i].sweep.Swept?
    ensures run[i].orphans == map[]
  {
    RunKeepsInv(run, steps, i);
  }

  /** Beside a live process an orphan is left only between the sweep's flag and its killing. */
  lemma OverlapOnlyWhileSweeping(run: seq<World>, steps: seq<Step>, i: nat)
    requires IsRun(run, steps) && i < |run| && run[i].live != map[] && run[i].orphans != map[]
    ensures run[i].sweep.Sweeping?
  {
    RunKeepsInv(run, steps, i);
  }

  /** And there one can be: a second caller does not wait for the killing the first has announced. */
  lemma OrphanCanOverlap(orphan: nat, inst: Instance) returns (run: seq<World>, steps: seq<Step>)
    ensures IsRun(run, steps)
    ensures var w := run[|run| - 1]; exists o, p :: o in w.orphans && p in w.live && o != p && w.orphans[o] == w.live[p]
  {
    var w0 := World(map[], map[], orphan + 1, Idle, map[orphan := inst.id], Unswept);
    var w1 := After(w0, SetSwept);
    var w2 := After(w1, Begin(EnsureLook(inst)));
    var w3 := After(w2, Advance(true, 0));
    var w4 := After(w3, Advance(true, 0));
    run, steps := [w0, w1, w2, w3, w4], [SetSwept, Begin(EnsureLook(inst)), Advance(true, 0), Advance(true, 0)];
    assert run[|run| - 1] == w4;
    assert orphan in w4.orphans && orphan + 1 in w4.live && w4.orphans[orphan] == w4.live[orphan + 1];
  }

  // ---- one operation after another ----

  /** The inbound's process is alive and was started with this very configuration. */
  predicate RunsThis(w: World, inst: Instance) {
    inst.id in w.procs && w.procs[inst.id].fingerprint == inst.Fingerprint() && w.procs[inst.id].process in w.live
  }

  /** What an undisturbed ensureOne makes of the manager; `ok` is whether the start succeeds. */
  function Ensured(w: World, inst: Instance, ok: bool): World {
    if RunsThis(w, inst) then w.(procs := w.procs[inst.id := w.procs[inst.id].(tag := inst.tag)])
    else
      var live := if inst.id in w.procs then w.live - {w.procs[inst.id].process} else w.live;
      if !ok then w.(procs := w.procs - {inst.id}, live := live)
      else w.(procs := w.procs[inst.id := Managed(w.next, inst.tag, inst.Fingerprint())],
              live := live[w.next := inst.id], next := w.next + 1)
  }

  function Dropped(w: World, id: int): World {
    if id !in w.procs then w else w.(procs := w.procs - {id}, live := w.live - {w.procs[id].process})
  }

  function Steps(w: World, steps: seq<Step>): Option<World>
    decreases |steps|
  {
    if steps == [] then Some(w)
    else if Enabled(w, steps[0]) then Steps(After(w, steps[0]), steps[1..])
    else None
  }

  lemma FirstStep(w: World, s: Step, rest: seq<Step>)
    requires Enabled(w, s)
    ensures Steps(w, [s] + rest) == Steps(After(w, s), rest)
  {
    assert ([s] + rest)[1..] == rest;
  }

  /** The undisturbed operation is a run of the steps: nothing is lost by looking at it whole. */
  lemma EnsureIsItsSteps(w: World, inst: Instance, ok: bool) returns (steps: seq<Step>)
    requires w.op.Idle? && !w.sweep.Unswept?
    ensures Steps(w, steps) == Some(Ensured(w, inst, ok))
  {
    var look, go := Begin(EnsureLook(inst)), Advance(ok, 0);
    var w1 := After(w, look);
    var w2 := After(w1, go);
    var tail: seq<Step>;
    if w2.op.Idle? {
      tail := [];
    } else if inst.id in w.procs {
      var w3 := After(w2, go);
      var w4 := After(w3, go);
      tail := StartSteps(w4, inst, ok);
      FirstStep(w3, go, tail);
      FirstStep(w2, go, [go] + tail);
      tail := [go] + ([go] + tail);
      StoredIs(w, inst, w4);
    } else {
      tail := StartSteps(w2, inst, ok);
      assert w.procs - {inst.id} == w.procs;
    }
    FirstStep(w1, go, tail);
    steps := [look] + ([go] + tail);
    FirstStep(w, look, [go] + tail);
  }

  lemma StoredIs(w: World, inst: Instance, w4: World)
    requires inst.id in w.procs && w4.procs == w.procs - {inst.id}
    ensures w4.procs[inst.id := Managed(w.next, inst.tag, inst.Fingerprint())]
            == w.procs[inst.id := Managed(w.next, inst.tag, inst.Fingerprint())]
  {
  }

  lemma StartSteps(w: World, inst: Instance, ok: bool) returns (steps: seq<Step>)
    requires w.op == EnsureStart(inst)
    ensures Steps(w, steps) == Some(if ok then
        w.(procs := w.procs[inst.id := Managed(w.next, inst.tag, inst.Fingerprint())],
           live := w.live[w.next := inst.id], next := w.next + 1, op := Idle)
      else w.(op := Idle))
  {
    var go := Advance(ok, 0);
    if ok {
      FirstStep(After(w, go), go, []);
      FirstStep(w, go, [go] + []);
      steps := [go] + ([go] + []);
    } else {
      FirstStep(w, go, []);
      steps := [go] + [];
    }
  }

  /** Every live process is the one the map holds for its inbound, and the other way round nothing is confused. */
  ghost predicate Consistent(w: World) {
    && w.op.Idle?
    && (forall p :: p in w.live ==> p < w.next && InMap(w, p, w.live[p]))
    && (forall id :: id in w.procs && w.procs[id].process in w.live ==> w.live[w.procs[id].process] == id)
    && (forall id :: id in w.procs ==> w.procs[id].process < w.next)
  }

  /** The last instance listed for an inbound. */
  function LastFor(desired: seq<Instance>, id: int): Option<Instance> {
    if desired == [] then None
    else if desired[|desired| - 1].id == id then Some(desired[|desired| - 1])
    else LastFor(desired[..|desired| - 1], id)
  }

  /** An inbound runs what was last asked for it. */
  ghost predicate RunsAsAsked(w: World, desired: seq<Instance>, id: int) {
    match LastFor(desired, id)
    case None => true
    case Some(inst) =>
      && id in w.procs && w.procs[id].process in w.live
      && w.procs[id].fingerprint == inst.Fingerprint() && w.procs[id].tag == inst.tag
  }

  lemma EnsuredKeeps(w: World, inst: Instance, ok: bool)
    requires Consistent(w)
    ensures Consistent(Ensured(w, inst, ok))
    ensures forall id :: id != inst.id ==> (id in Ensured(w, inst, ok).procs <==> id in w.procs)
    ensures forall id :: id != inst.id && id in w.procs ==>
              && Ensured(w, inst, ok).procs[id] == w.procs[id]
              && (w.procs[id].process in Ensured(w, inst, ok).live <==> w.procs[id].process in w.live)
  {
  }

  lemma EnsureOneMore(w: World, desired: seq<Instance>, i: nat, id: int)
    requires Consistent(w) && i < |desired| && RunsAsAsked(w, desired[..i], id)
    ensures RunsAsAsked(Ensured(w, desired[i], true), desired[..i + 1], id)
  {
    assert desired[..i + 1][..i] == desired[..i];
    EnsuredKeeps(w, desired[i], true);
    LastForHasId(desired[..i], id);
  }

  /** Every inbound runs what was last asked for it. */
  ghost predicate AllRunAsAsked(w: World, desired: seq<Instance>) {
    forall id :: RunsAsAsked(w, desired, id)
  }

  lemma EnsureAllOneMore(w: World, desired: seq<Instance>, i: nat)
    requires Consistent(w) && i < |desired| && AllRunAsAsked(w, desired[..i])
    ensures AllRunAsAsked(Ensured(w, desired[i], true), desired[..i + 1])
  {
    var n, longer := Ensured(w, desired[i], true), desired[..i + 1];
    forall id ensures RunsAsAsked(n, longer, id) {
      assert RunsAsAsked(w, desired[..i], id);
      EnsureOneMore(w, desired, i, id);
    }
  }

  lemma EnsureStep(w: World, desired: seq<Instance>, i: nat, ok: bool)
    requires Consistent(w) && i < |desired| && w.procs.Keys <= Ids(desired)
    ensures Consistent(Ensured(w, desired[i], ok)) && Ensured(w, desired[i], ok).procs.Keys <= Ids(desired)
    ensures ok && AllRunAsAsked(w, desired[..i]) ==> AllRunAsAsked(Ensured(w, desired[i], ok), desired[..i + 1])
  {
    EnsuredKeeps(w, desired[i], ok);
    assert desired[i] in desired && desired[i].id in Ids(desired);
    if ok && AllRunAsAsked(w, desired[..i]) {
      EnsureAllOneMore(w, desired, i);
    }
  }

  lemma AskedAreThere(w: World, desired: seq<Instance>)
    requires AllRunAsAsked(w, desired)
    ensures Ids(desired) <= w.procs.Keys
  {
    forall id | id in Ids(desired) ensures id in w.procs {
      LastForHasId(desired, id);
      assert RunsAsAsked(w, desired, id);
    }
  }

  lemma {:induction false} LastForHasId(desired: seq<Instance>, id: int)
    ensures LastFor(desired, id).Some? <==> exists inst :: inst in desired && inst.id == id
    ensures LastFor(desired, id).Some? ==> LastFor(desired, id).value.id == id
  {
    if desired != [] {
      LastForHasId(desired[..|desired| - 1], id);
      assert desired == desired[..|desired| - 1] + [desired[|desired| - 1]];
    }
  }

  lemma DroppedKeeps(w: World, id: int)
    requires Consistent(w)
    ensures Consistent(Dropped(w, id)) && Dropped(w, id).procs.Keys == w.procs.Keys - {id}
  {
  }

  function Ids(desired: seq<Instance>): set<int> {
    set inst | inst in desired :: inst.id
  }

  class Manager {
    var procs: map<int, Managed>
    var live: map<nat, int>
    var next: nat
    var swept: bool

    constructor ()
      ensures Consistent(View()) && procs == map[] && live == map[]
    {
      procs, live, next, swept := map[], map[], 0, false;
    }

    ghost function View(): World
      reads this
    {
      World(procs, live, next, Idle, map[], if swept then Swept else Unswept)
    }

    method SweepOrphansOnce()
      modifies `swept
      ensures swept
    {
      swept := true;
    }

    method EnsureOne(inst: Instance, startOk: bool) returns (ok: bool)
      modifies `procs, `live, `next
      ensures View() == Ensured(old(View()), inst, startOk)
      ensures ok <==> startOk || RunsThis(old(View()), inst)
    {
      var fp := inst.Fingerprint();
      if inst.id in procs {
        var cur := procs[inst.id];
        if cur.fingerprint == fp && cur.process in live {
          procs := procs[inst.id := cur.(tag := inst.tag)];
          return true;
        }
        live := live - {cur.process};
        procs := procs - {inst.id};
      }
      if !startOk {
        assert procs == old(procs) - {inst.id};
        return false;
      }
      var started := next;
      live := live[started := inst.id];
      next := next + 1;
      procs := procs[inst.id := Managed(started, inst.tag, fp)];
      assert procs == old(procs)[inst.id := Managed(started, inst.tag, fp)];
      return true;
    }

    method RemoveOne(id: int)
      modifies `procs, `live
      ensures View() == Dropped(old(View()), id)
    {
      if id !in procs {
        return;
      }
      var cur := procs[id];
      procs := procs - {id};
      live := live - {cur.process};
    }

    method StopAll()
      requires Consistent(View())
      modifies `procs, `live
      ensures procs == map[] && live == map[]
    {
      var running := procs;
      procs := map[];
      ghost var was := live;
      assert forall p :: p in was ==> was[p] in running && running[was[p]].process == p by {
        assert forall p :: p in was ==> InMap(old(View()), p, was[p]);
      }
      var rest := running.Keys;
      while rest != {}
        invariant rest <= running.Keys && procs == map[]
        invariant forall p :: p in live ==> p in was && was[p] in rest
      {
        ghost var some := SomeMember(rest);
        var id :| id in rest;
        live := live - {running[id].process};
        rest := rest - {id};
      }
      assert live == map[];
    }

    method RemoveStale(want: set<int>)
      requires Consistent(View())
      modifies `procs, `live
      ensures Consistent(View()) && procs.Keys <= want
    {
      var stale := procs.Keys - want;
      while stale != {}
        invariant Consistent(View()) && procs.Keys <= want + stale
      {
        ghost var some := SomeMember(stale);
        var id :| id in stale;
        DroppedKeeps(View(), id);
        RemoveOne(id);
        stale := stale - {id};
      }
    }

    method EnsureAll(desired: seq<Instance>, startOk: nat -> bool)
      requires Consistent(View()) && procs.Keys <= Ids(desired)
      modifies `procs, `live, `next
      ensures Consistent(View()) && procs.Keys <= Ids(desired)
      ensures (forall i :: 0 <= i < |desired| ==> startOk(i)) ==> AllRunAsAsked(View(), desired)
    {
      for i := 0 to |desired|
        invariant Consistent(View()) && procs.Keys <= Ids(desired)
        invariant (forall j :: 0 <= j < i ==> startOk(j)) ==> AllRunAsAsked(View(), desired[..i])
      {
        EnsureStep(View(), desired, i, startOk(i));
        var ok := EnsureOne(desired[i], startOk(i));
      }
      assert desired[..|desired|] == desired;
    }

    /**
     Undisturbed and without failures: exactly the desired inbounds are left, each with one live process that runs what
     was last asked for it.
     */
    method Reconcile(desired: seq<Instance>, startOk: nat -> bool)
      requires Consistent(View())
      modifies this
      ensures Consistent(View())
      ensures procs.Keys <= Ids(desired)
      ensures (forall i :: 0 <= i < |desired| ==> startOk(i)) ==>
                procs.Keys == Ids(desired) && AllRunAsAsked(View(), desired)
    {
      ViewIgnoresSweep(View(), View().(sweep := Swept));
      SweepOrphansOnce();
      var want: set<int> := {};
      for i := 0 to |desired|
        invariant want == Ids(desired[..i])
      {
        assert desired[..i + 1] == desired[..i] + [desired[i]];
        want := want + {desired[i].id};
      }
      assert desired[..|desired|] == desired;
      RemoveStale(want);
      EnsureAll(desired, startOk);
      if forall i :: 0 <= i < |desired| ==> startOk(i) {
        AskedAreThere(View(), desired);
      }
    }
  }

  lemma ViewIgnoresSweep(a: World, b: World)
    requires Consistent(a) && b == a.(sweep := b.sweep)
    ensures Consistent(b)
  {
  }
}
