/**
 * What holds in every run without any exclusion: takeovers, debug stops, lost replies,
 * overlapping starts and deletes included.
 */
module EveryRun {
  import opened Base
  import opened Address
  import opened Database
  import opened Cluster
  import opened Lifecycle
  import opened Catalog

  // ---- rows

  predicate IsComputeAddr(a: string) { a == IpOf(a) + ":55433" }

  /** A running row has an address and a start time; stored addresses have the form ip:55433. */
  predicate RowOk(row: Endpoint) {
    && (row.state == Running ==> row.addr.Some? && row.lastStarted.Some?)
    && (row.addr.Some? ==> IsComputeAddr(row.addr.value))
  }

  ghost predicate RowsOk(s: Sys) {
    forall e: Id :: CellOf(s, e).row.Some? ==> RowOk(CellOf(s, e).row.value)
  }

  /** A sweep works on a row that was running when it was listed. */
  predicate SnapshotOk(pc: Pc) {
    (pc.SweepStatus? || pc.SweepFetch?) ==> pc.row.state == Running && RowOk(pc.row)
  }

  ghost predicate SnapshotsOk(s: Sys) { forall t :: t in s.threads ==> SnapshotOk(s.threads[t].pc) }

  lemma MoveKeepsRow(s: Sys, th: Thread, out: Out)
    requires !th.pc.Done? && SnapshotOk(th.pc)
    requires CellOf(s, th.ep).row.Some? ==> RowOk(CellOf(s, th.ep).row.value)
    ensures var m := Move(s, th, out);
            SnapshotOk(m.pc) && (m.cell.row.Some? ==> RowOk(m.cell.row.value))
  {
    var c := CellOf(s, th.ep);
    if th.pc.Own? {
      OwnerKeepsRow(th.pc.since, th.pc.job, c, th.ep, s, out);
    } else if th.pc.Susp? {
      assert Move(s, th, out) == SuspendMove(th.pc.since, th.pc.task, c, s.now, out);
    } else if IsSweep(th.pc) {
      SweepKeepsRow(th.pc, c, s.now, out);
      assert Move(s, th, out) == SweepMove(th.pc, c, s.now, out);
    } else if IsWake(th.pc) {
      WakerKeepsRow(th.pc, c, s.now, th.begun, s.cfg, out);
      assert Move(s, th, out) == WakeMove(th.pc, c, s.now, th.begun, s.cfg, out);
    }
  }

  lemma SweepKeepsRow(pc: Pc, c: Cell, now: Time, out: Out)
    requires IsSweep(pc) && SnapshotOk(pc) && (c.row.Some? ==> RowOk(c.row.value))
    ensures var m := SweepMove(pc, c, now, out);
            SnapshotOk(m.pc) && (m.cell.row.Some? ==> RowOk(m.cell.row.value))
  {
  }

  lemma WakerKeepsRow(pc: Pc, c: Cell, now: Time, begun: Time, cfg: Config, out: Out)
    requires IsWake(pc) && (c.row.Some? ==> RowOk(c.row.value))
    ensures var m := WakeMove(pc, c, now, begun, cfg, out);
            SnapshotOk(m.pc) && (m.cell.row.Some? ==> RowOk(m.cell.row.value))
  {
  }

  lemma OwnerKeepsRow(since: Time, job: Job, c: Cell, e: Id, s: Sys, out: Out)
    requires c.row.Some? ==> RowOk(c.row.value)
    ensures var m := OwnerMove(since, job, c, e, s, out);
            SnapshotOk(m.pc) && (m.cell.row.Some? ==> RowOk(m.cell.row.value))
  {
    if job.SetRunning? {
      IpOfStoredAddress(job.ip);
      PortIs55433(job.ip);
    }
  }

  lemma StepKeepsRows(s: Sys, l: Label)
    requires RowsOk(s) && SnapshotsOk(s) && Enabled(s, l)
    ensures RowsOk(Apply(s, l)) && SnapshotsOk(Apply(s, l))
  {
    var s' := Apply(s, l);
    if l.Act? {
      ActedCells(s, l.t, l.out);
      MoveKeepsRow(s, s.threads[l.t], l.out);
    } else {
      forall e: Id | CellOf(s', e).row.Some? ensures RowOk(CellOf(s', e).row.value) {
        OtherStepsKeepRows(s, l, e);
      }
    }
  }

  /**
   * In every run: running rows have an address and a start time, and no sweep ever holds a
   * row without them, so its nil-address and nil-start-time exits are never taken.
   */
  lemma {:induction false} RunningRowsAreComplete(states: seq<Sys>, labels: seq<Label>)
    requires IsRun(states, labels) && RowsOk(states[0]) && SnapshotsOk(states[0])
    ensures forall i | 0 <= i < |states| :: RowsOk(states[i]) && SnapshotsOk(states[i])
    ensures forall i, t | 0 <= i < |states| && t in states[i].threads ::
      var pc := states[i].threads[t].pc;
      (pc.SweepStatus? || pc.SweepFetch? ==> pc.row.addr.Some? && pc.row.lastStarted.Some?)
  {
    for n := 0 to |labels|
      invariant forall i | 0 <= i <= n :: RowsOk(states[i]) && SnapshotsOk(states[i])
    {
      assert states[n + 1] == Apply(states[n], labels[n]);
      StepKeepsRows(states[n], labels[n]);
    }
  }

  // ---- specs

  /** What every compute of an endpoint must be told, from the endpoint's first catalog rows. */
  function HomeSpec(hist: Db, e: Id): Option<Spec> {
    match AccessControlOf(hist, e)
    case Some(ac) =>
      var (p, b) := (hist.projects[ac.project], hist.branches[ac.branch]);
      Some(Spec(p.tenant, b.timeline, p.role, p.verifier))
    case None => None
  }

  /** What a thread knows about its endpoint's spec. */
  predicate KnowledgeOk(h: Db, e: Id, pc: Pc) {
    pc.Own? ==>
      match pc.job
      case SpecProject(pid, bid) => Route(h, e, bid) && h.branches[bid].project == pid
      case SpecBranch(bid, owner) => Route(h, e, bid) && h.projects[h.branches[bid].project] == owner
      case PutNewConfig(spec) => HomeSpec(h, e) == Some(spec)
      case GetOldConfig(spec) => HomeSpec(h, e) == Some(spec)
      case PutOldConfig(spec, _) => HomeSpec(h, e) == Some(spec)
      case _ => true
  }

  predicate Route(h: Db, e: Id, bid: Id) {
    e in h.endpoints && h.endpoints[e].branch == bid && bid in h.branches && h.branches[bid].project in h.projects
  }

  predicate ObjectsTold(h: Db, e: Id, c: Cell) {
    && (c.cm.Some? ==> HomeSpec(h, e) == Some(c.cm.value.spec))
    && (c.pod.Some? && c.pod.value.spec.Some? ==> HomeSpec(h, e) == c.pod.value.spec)
  }

  ghost predicate SpecsOk(s: Sys) {
    && HistoryOk(s.hist) && Recorded(s.db, s.hist)
    && (forall t :: t in s.threads ==> KnowledgeOk(s.hist, s.threads[t].ep, s.threads[t].pc))
    && (forall e: Id :: ObjectsTold(s.hist, e, CellOf(s, e)))
  }

  lemma JoinAgrees(db: Db, h: Db, e: Id)
    requires HistoryOk(h) && Recorded(db, h)
    ensures AccessControlOf(db, e).Some? ==> AccessControlOf(db, e) == AccessControlOf(h, e)
  {
  }

  /** What the catalog reads of the spec builder find agrees with the history. */
  predicate ReadsAgree(db: Db, h: Db, e: Id, job: Job) {
    && (AccessControlOf(db, e).Some? ==> AccessControlOf(db, e) == AccessControlOf(h, e))
    && (job.SpecProject? && job.project in db.projects ==>
          job.project in h.projects && db.projects[job.project] == h.projects[job.project])
    && (job.SpecBranch? && job.branch in db.branches ==>
          job.branch in h.branches && db.branches[job.branch].timeline == h.branches[job.branch].timeline)
  }

  lemma StartKeepsSpecs(h: Db, since: Time, job: Job, c: Cell, e: Id, db: Db, now: Time, cfg: Config, version: nat,
      out: Out)
    requires IsStart(job)
    requires ReadsAgree(db, h, e, job) && KnowledgeOk(h, e, Own(since, job)) && ObjectsTold(h, e, c)
    ensures var m := StartMove(since, job, c, e, db, now, cfg, version, out);
            KnowledgeOk(h, e, m.pc) && ObjectsTold(h, e, m.cell) && m.cell.row == c.row
  {
  }

  /** What a move does that neither reads nor writes specs: objects stay or go. */
  predicate Quiet(c: Cell, pc: Pc, c': Cell) {
    && (c'.pod == c.pod || c'.pod.None?) && (c'.cm == c.cm || c'.cm.None?)
    && BranchKept(c.row, c'.row)
    && (pc.Own? ==> pc.job.SpecAccess? || !IsStart(pc.job))
  }

  lemma RestIsQuiet(s: Sys, th: Thread, out: Out)
    requires !th.pc.Done? && (th.pc.Own? ==> !IsStart(th.pc.job))
    ensures Quiet(CellOf(s, th.ep), Move(s, th, out).pc, Move(s, th, out).cell)
  {
    var c := CellOf(s, th.ep);
    if th.pc.Own? {
      OwnersAreQuiet(th.pc.since, th.pc.job, c, s.now, out);
      assert Move(s, th, out) == OwnerMove(th.pc.since, th.pc.job, c, th.ep, s, out);
    } else if th.pc.Susp? {
      assert Move(s, th, out) == SuspendMove(th.pc.since, th.pc.task, c, s.now, out);
    } else if IsWake(th.pc) {
      assert Move(s, th, out) == WakeMove(th.pc, c, s.now, th.begun, s.cfg, out);
    }
  }

  lemma OwnersAreQuiet(since: Time, job: Job, c: Cell, now: Time, out: Out)
    requires !IsStart(job)
    ensures var m := if IsStop(job) then StopMove(since, job, c, now, out) else ReadyMove(since, job, c, now, out);
            Quiet(c, m.pc, m.cell)
  {
  }

  predicate BranchKept(row: Option<Endpoint>, row': Option<Endpoint>) {
    row'.Some? ==> row.Some? && row'.value.branch == row.value.branch
  }

  lemma MoveKeepsSpecs(s: Sys, th: Thread, out: Out)
    requires !th.pc.Done? && HistoryOk(s.hist) && Recorded(s.db, s.hist)
    requires KnowledgeOk(s.hist, th.ep, th.pc) && ObjectsTold(s.hist, th.ep, CellOf(s, th.ep))
    ensures var m := Move(s, th, out);
            KnowledgeOk(s.hist, th.ep, m.pc) && ObjectsTold(s.hist, th.ep, m.cell)
                && BranchKept(CellOf(s, th.ep).row, m.cell.row)
  {
    if th.pc.Own? && IsStart(th.pc.job) {
      JoinAgrees(s.db, s.hist, th.ep);
      StartKeepsSpecs(s.hist, th.pc.since, th.pc.job, CellOf(s, th.ep), th.ep, s.db, s.now, s.cfg,
          s.k8s.version + 1, out);
      StartIsStart(s, th, out);
    } else {
      RestIsQuiet(s, th, out);
    }
  }

  lemma StartIsStart(s: Sys, th: Thread, out: Out)
    requires th.pc.Own? && IsStart(th.pc.job)
    ensures Move(s, th, out)
         == StartMove(th.pc.since, th.pc.job, CellOf(s, th.ep), th.ep, s.db, s.now, s.cfg, s.k8s.version + 1, out)
  {
  }

  lemma StepKeepsSpecs(s: Sys, l: Label)
    requires SpecsOk(s) && Enabled(s, l)
    ensures SpecsOk(Apply(s, l))
    ensures forall e: Id :: HomeSpec(s.hist, e).Some? ==> HomeSpec(Apply(s, l).hist, e) == HomeSpec(s.hist, e)
  {
    if l.Act? {
      ActKeepsSpecs(s, l.t, l.out);
    } else if l.Admin? {
      AdminKeepsHistory(s, l.op);
    } else {
      EnvironmentKeepsSpecs(s, l);
    }
  }

  lemma EnvironmentKeepsSpecs(s: Sys, l: Label)
    requires SpecsOk(s) && Enabled(s, l) && !l.Act? && !l.Admin?
    ensures SpecsOk(Apply(s, l)) && Apply(s, l).hist == s.hist
  {
    var s' := Apply(s, l);
    EnvironmentKeepsDb(s, l);
    forall e: Id ensures ObjectsTold(s'.hist, e, CellOf(s', e)) {
      EnvironmentTellsNothing(s, l, e);
    }
  }

  lemma EnvironmentKeepsDb(s: Sys, l: Label)
    requires Enabled(s, l) && !l.Act? && !l.Admin?
    ensures Apply(s, l).db == s.db && Apply(s, l).hist == s.hist
    ensures forall t :: t in Apply(s, l).threads ==>
        KnowledgeOk(s.hist, Apply(s, l).threads[t].ep, Apply(s, l).threads[t].pc) || t in s.threads
    ensures forall t :: t in Apply(s, l).threads && t in s.threads ==> Apply(s, l).threads[t] == s.threads[t]
  {
    if IsPodStep(l) {
      assert Put(s.db.endpoints, l.e, Get(s.db.endpoints, l.e)) == s.db.endpoints;
    }
  }

  lemma EnvironmentTellsNothing(s: Sys, l: Label, e: Id)
    requires Enabled(s, l) && !l.Act? && !l.Admin? && ObjectsTold(s.hist, e, CellOf(s, e))
    ensures ObjectsTold(s.hist, e, CellOf(Apply(s, l), e))
  {
    if IsPodStep(l) {
      PodStepCells(s, l);
    }
  }

  lemma ActKeepsSpecs(s: Sys, t: Tid, out: Out)
    requires SpecsOk(s) && Enabled(s, Act(t, out))
    ensures SpecsOk(Apply(s, Act(t, out))) && Apply(s, Act(t, out)).hist == s.hist
  {
    var (s', ep) := (Apply(s, Act(t, out)), s.threads[t].ep);
    ActedCells(s, t, out);
    assert ObjectsTold(s.hist, ep, CellOf(s, ep));
    MoveKeepsSpecs(s, s.threads[t], out);
    forall e: Id ensures ObjectsTold(s'.hist, e, CellOf(s', e)) {
      assert ObjectsTold(s.hist, e, CellOf(s, e));
    }
    forall e | e in s'.db.endpoints
      ensures e in s.hist.endpoints && s'.db.endpoints[e].branch == s.hist.endpoints[e].branch {
      assert CellOf(s', e).row.Some?;
      assert CellOf(s, e).row.Some?;
    }
  }

  /** The rows after a catalog operation: old ones, unchanged where it matters, and the new ones. */
  lemma ExecRows(db: Db, h: Db, op: Op, now: Time)
    requires Exec(db, op, now).Ok? && Recorded(db, h)
    ensures NewOrRecorded(Exec(db, op, now).value, h, EntryOf(op))
  {
  }

  lemma RememberKeeps(s: Sys, op: Op)
    requires SpecsOk(s) && Enabled(s, Admin(op))
    ensures var s' := Apply(s, Admin(op));
            HistoryOk(s'.hist) && Recorded(s'.db, s'.hist) && Extends(s.hist, s'.hist)
  {
    ExecRows(s.db, s.hist, op, s.now);
    RememberRecords(Exec(s.db, op, s.now).value, s.hist, EntryOf(op));
    RememberCloses(Exec(s.db, op, s.now).value, s.hist, EntryOf(op));
  }

  lemma AdminKeepsHistory(s: Sys, op: Op)
    requires SpecsOk(s) && Enabled(s, Admin(op))
    ensures SpecsOk(Apply(s, Admin(op)))
    ensures forall e: Id :: HomeSpec(s.hist, e).Some? ==> HomeSpec(Apply(s, Admin(op)).hist, e) == HomeSpec(s.hist, e)
  {
    var s' := Apply(s, Admin(op));
    RememberKeeps(s, op);
    forall e: Id ensures ObjectsTold(s'.hist, e, CellOf(s', e)) {
      assert ObjectsTold(s.hist, e, CellOf(s, e));
      HomeExtends(s.hist, s'.hist, e);
    }
    forall e: Id ensures HomeSpec(s.hist, e).Some? ==> HomeSpec(s'.hist, e) == HomeSpec(s.hist, e) {
      HomeExtends(s.hist, s'.hist, e);
    }
    forall t | t in s'.threads ensures KnowledgeOk(s'.hist, s'.threads[t].ep, s'.threads[t].pc) {
      HomeExtends(s.hist, s'.hist, s.threads[t].ep);
      KnowledgeExtends(s.hist, s'.hist, s.threads[t].ep, s.threads[t].pc);
    }
  }

  lemma HomeExtends(h: Db, h': Db, e: Id)
    requires Extends(h, h')
    ensures HomeSpec(h, e).Some? ==> HomeSpec(h', e) == HomeSpec(h, e)
  {
  }

  lemma KnowledgeExtends(h: Db, h': Db, e: Id, pc: Pc)
    requires Extends(h, h') && KnowledgeOk(h, e, pc)
    requires HomeSpec(h, e).Some? ==> HomeSpec(h', e) == HomeSpec(h, e)
    ensures KnowledgeOk(h', e, pc)
  {
  }

  /** Everything an endpoint's compute is told, is being told, or will be told from this state. */
  ghost predicate Tells(s: Sys, e: Id, spec: Spec) {
    || (CellOf(s, e).cm.Some? && CellOf(s, e).cm.value.spec == spec)
    || (CellOf(s, e).pod.Some? && CellOf(s, e).pod.value.spec == Some(spec))
    || (exists t ::
          t in s.threads && s.threads[t].ep == e && s.threads[t].pc.Own? && s.threads[t].pc.job == PutNewConfig(spec))
  }

  /**
   * In every run: all specs ever built for an endpoint are one and the same, and two pods
   * whose computes were told the same timeline are the same pod.
   */
  lemma {:induction false} OnePrimaryPerTimeline(states: seq<Sys>, labels: seq<Label>)
    requires IsRun(states, labels) && SpecsOk(states[0])
    ensures forall i, j, e, x, y | 0 <= i <= j < |states| && Tells(states[i], e, x) && Tells(states[j], e, y) :: x == y
    ensures forall i, d, e, x, y | 0 <= i < |states| && Tells(states[i], d, x) && Tells(states[i], e, y)
        && x.timeline == y.timeline ::
      d == e && PodName(d) == PodName(e)
  {
    for n := 0 to |labels|
      invariant forall i | 0 <= i <= n :: SpecsOk(states[i])
      invariant forall i, e: Id | 0 <= i <= n && HomeSpec(states[i].hist, e).Some? ::
          HomeSpec(states[n].hist, e) == HomeSpec(states[i].hist, e)
      invariant forall i, j, e: Id | 0 <= i <= j <= n && HomeSpec(states[i].hist, e).Some? ::
          HomeSpec(states[j].hist, e) == HomeSpec(states[i].hist, e)
    {
      assert states[n + 1] == Apply(states[n], labels[n]);
      StepKeepsSpecs(states[n], labels[n]);
    }
    forall i, e, x | 0 <= i < |states| && Tells(states[i], e, x) ensures HomeSpec(states[i].hist, e) == Some(x) {
      TellsHome(states[i], e, x);
    }
    forall i, d, e, x, y | 0 <= i < |states| && Tells(states[i], d, x) && Tells(states[i], e, y)
        && x.timeline == y.timeline
      ensures d == e
    {
      TimelinesDiffer(states[i].hist, d, e);
    }
  }

  lemma TellsHome(s: Sys, e: Id, x: Spec)
    requires SpecsOk(s) && Tells(s, e, x)
    ensures HomeSpec(s.hist, e) == Some(x)
  {
    assert ObjectsTold(s.hist, e, CellOf(s, e));
  }

  /** Distinct endpoints never share a timeline. */
  lemma TimelinesDiffer(h: Db, d: Id, e: Id)
    requires HistoryOk(h) && HomeSpec(h, d).Some? && HomeSpec(h, e).Some?
    requires HomeSpec(h, d).value.timeline == HomeSpec(h, e).value.timeline
    ensures d == e
  {
  }
}
