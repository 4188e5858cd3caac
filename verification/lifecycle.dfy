/**
 * The endpoint lifecycle as a transition system: any number of wakers, sweeps, debug stops
 * and delete handlers act on one database row and one named pod per endpoint. A step is one
 * SQL statement, one API call, or something the cluster or the clock does by itself.
 */
module Lifecycle {
  import opened Base
  import opened Address
  import opened Database
  import opened Cluster
  import opened Catalog

  const STALE_AFTER: Time := 120_000
  const WAKE_MARGIN: Time := 30_000

  /** The waker's settings after defaulting. */
  datatype Config = Config(readyTimeout: Time, pollInterval: Time)

  const DEFAULTS := Config(120_000, 500)

  // ---- program positions

  /** Positions inside startCompute, including the stop that precedes it on a takeover. */
  datatype Job =
    | ClearPod | ClearConfig                       // takeover: Runtime.Stop, errors ignored
    | SpecAccess | SpecProject(project: Id, branch: Id) | SpecBranch(branch: Id, owner: Project)
    | PutNewConfig(spec: Spec) | GetOldConfig(spec: Spec) | PutOldConfig(spec: Spec, seen: nat)
    | MakePod
    | Ready(deadline: Time) | Probe(deadline: Time, ip: string) | Pause(deadline: Time)
    | SetRunning(ip: string)
    | FailPod | FailConfig | FailMark              // fail(): Runtime.Stop, then starting -> failed

  /** Positions of a suspension after its compare-and-swap. */
  datatype Task = Terminate | StopPod | StopConfig | SetSuspended

  datatype Pc =
    // Wake
    | Top | Read | Verify(addr: Option<string>) | Repair
    | CasSuspended | CasFailed | TakeStarting | TakeSuspending | Wait
    | Own(since: Time, job: Job)
    // sweepOne, on a row of the list it was given
    | SweepStatus(row: Endpoint) | SweepRepair | SweepFetch(row: Endpoint) | SweepCas
    | Susp(since: Time, task: Task)
    // debugStop, and the Stop of the delete handlers
    | DebugPod | DebugConfig | DebugSet
    | PurgePod | PurgeConfig
    | Done(result: Option<string>)

  predicate IsStart(job: Job) {
    job.SpecAccess? || job.SpecProject? || job.SpecBranch? || job.PutNewConfig? || job.GetOldConfig?
        || job.PutOldConfig? || job.MakePod?
  }

  predicate IsReady(job: Job) { job.Ready? || job.Probe? || job.Pause? || job.SetRunning? }

  predicate IsStop(job: Job) { job.ClearPod? || job.ClearConfig? || job.FailPod? || job.FailConfig? || job.FailMark? }

  predicate IsWake(pc: Pc) {
    pc.Top? || pc.Read? || pc.Verify? || pc.Repair? || pc.CasSuspended? || pc.CasFailed? || pc.TakeStarting?
        || pc.TakeSuspending? || pc.Wait?
  }

  predicate IsSweep(pc: Pc) { pc.SweepStatus? || pc.SweepRepair? || pc.SweepFetch? || pc.SweepCas? }

  /** debugStop and the delete handlers: they stop computes without owning the endpoint. */
  predicate IsHandler(pc: Pc) { pc.DebugPod? || pc.DebugConfig? || pc.DebugSet? || pc.PurgePod? || pc.PurgeConfig? }

  type Tid = nat

  /** `begun` is when the call started, `at` when it made its last step. */
  datatype Thread = Thread(ep: Id, pc: Pc, begun: Time, at: Time)

  /**
   * `hist` keeps every catalog row ever created in its first version; `starts` counts the
   * calls of Runtime.Start per endpoint.
   */
  datatype Sys = Sys(
    db: Db, k8s: Objects, now: Time, threads: map<Tid, Thread>,
    hist: Db, starts: multiset<Id>, cfg: Config)

  // ---- what the environment decides

  datatype ProbeReply = SaysRunning | SaysFailed | SaysOther

  /** Outcome of a call: done; failed without effect; took effect but the reply was lost; or an answer. */
  datatype Out = Fine | Fail | Lost | Answer(reply: ProbeReply) | LastActive(time: Option<Time>)

  datatype Op =
    | NewProject(pid: Id, p: Project, bid: Id, timeline: Id, eid: Id, suspendAfter: int)
    | NewBranch(bid: Id, project: Id, name: string, timeline: Id, parent: Id, eid: Id)
    | DropBranch(bid: Id)
    | DropProject(pid: Id)

  datatype Label =
    | Tick(d: nat)
    | Admin(op: Op)
    | Wake(t: Tid, e: Id) | Sweep(t: Tid, e: Id) | Debug(t: Tid, e: Id) | Purge(t: Tid, e: Id)
    | Crash(t: Tid)
    | Act(t: Tid, out: Out)
    | PodAddress(e: Id, ip: string) | PodUp(e: Id) | PodDown(e: Id) | PodGone(e: Id)

  // ---- one endpoint's share of the state

  datatype Cell = Cell(row: Option<Endpoint>, pod: Option<Pod>, cm: Option<ConfigMap>)

  function CellOf(s: Sys, e: Id): Cell { Cell(Get(s.db.endpoints, e), PodOf(s.k8s, e), ConfigOf(s.k8s, e)) }

  function PutCell(s: Sys, e: Id, c: Cell): Sys {
    s.(db := PutEndpoint(s.db, e, c.row), k8s := PutConfig(PutPod(s.k8s, e, c.pod), e, c.cm))
  }

  lemma CellFrame(s: Sys, e: Id, c: Cell)
    ensures CellOf(PutCell(s, e, c), e) == c
    ensures forall d: Id :: d != e ==> CellOf(PutCell(s, e, c), d) == CellOf(s, d)
  {
    OtherEndpointsKeepTheirObjects(s.k8s, e, c.pod, c.cm);
    OtherEndpointsKeepTheirObjects(PutPod(s.k8s, e, c.pod), e, c.pod, c.cm);
  }

  // ---- the moves of a thread: new cell and new position

  datatype Effect = Effect(cell: Cell, pc: Pc)

  /** A call that changes the row to `next`: acknowledged, lost, or failed. */
  function Write(c: Cell, out: Out, next: Option<Endpoint>, acked: Pc, broken: Pc): Effect {
    match out
    case Fine => Effect(c.(row := next), acked)
    case Lost => Effect(c.(row := next), broken)
    case _ => Effect(c, broken)
  }

  predicate Stale(row: Endpoint, now: Time) { now - row.updated > STALE_AFTER }

  /** The pod is there, Running, and still has the recorded address. */
  predicate Matches(pod: Option<Pod>, addr: Option<string>) {
    pod.Some? && pod.value.phase == PodRunning && addr.Some? && addr.value != "" && NamesPod(addr.value, pod.value.ip)
  }

  /** Wake's loop, outside startCompute. */
  function WakeMove(pc: Pc, c: Cell, now: Time, begun: Time, cfg: Config, out: Out): Effect
    requires IsWake(pc)
  {
    match pc
    case Top =>
      Effect(c, if now < begun + cfg.readyTimeout + WAKE_MARGIN then Read else Done(None))
    case Read =>
      if out != Fine || c.row.None? then Effect(c, Done(None))
      else
        Effect(c, match c.row.value.state
                  case Running => Verify(c.row.value.addr)
                  case Starting | Suspending => if Stale(c.row.value, now) then TakeStarting else Wait
                  case Suspended | Failed => CasSuspended)
    case Verify(addr) =>
      if out != Fine then Effect(c, Done(None))
      else if Matches(c.pod, addr) then Effect(c, Done(addr))
      else Effect(c, Repair)
    case Repair =>
      Write(c, out, CasRow(c.row, Running, Suspended, now), Top, Done(None))
    case CasSuspended =>
      Write(c, out, CasRow(c.row, Suspended, Starting, now),
            if InState(c.row, Suspended) then Own(now, SpecAccess) else CasFailed, Done(None))
    case CasFailed =>
      Write(c, out, CasRow(c.row, Failed, Starting, now),
            if InState(c.row, Failed) then Own(now, SpecAccess) else Top, Done(None))
    case TakeStarting =>
      Write(c, out, CasRow(c.row, Starting, Starting, now),
            if InState(c.row, Starting) then Own(now, ClearPod) else TakeSuspending, Done(None))
    case TakeSuspending =>
      Write(c, out, CasRow(c.row, Suspending, Starting, now),
            if InState(c.row, Suspending) then Own(now, ClearPod) else Top, Done(None))
    case Wait =>
      Effect(c, if out == Fine then Top else Done(None))
  }

  /** The spec builder and Runtime.Start. */
  function StartMove(since: Time, job: Job, c: Cell, e: Id, db: Db, now: Time, cfg: Config, version: nat,
      out: Out): Effect
    requires IsStart(job)
  {
    var failed := Own(since, FailPod);
    match job
    case SpecAccess =>
      var ac := AccessControlOf(db, e);
      Effect(c, if out == Fine && ac.Some? then Own(since, SpecProject(ac.value.project, ac.value.branch)) else failed)
    case SpecProject(pid, bid) =>
      Effect(c, if out == Fine && pid in db.projects then Own(since, SpecBranch(bid, db.projects[pid])) else failed)
    case SpecBranch(bid, p) =>
      Effect(c, if out == Fine && bid in db.branches
                then Own(since, PutNewConfig(Spec(p.tenant, db.branches[bid].timeline, p.role, p.verifier)))
                    else failed)
    case PutNewConfig(spec) =>
      (match out
       case Fine =>
         Effect(c.(cm := CreateConfig(c.cm, spec, version)),
             Own(since, if c.cm.Some? then GetOldConfig(spec) else MakePod))
       case Lost => Effect(c.(cm := CreateConfig(c.cm, spec, version)), failed)
       case _ => Effect(c, failed))
    case GetOldConfig(spec) =>
      Effect(c, if out == Fine && c.cm.Some? then Own(since, PutOldConfig(spec, c.cm.value.version)) else failed)
    case PutOldConfig(spec, seen) =>
      (match out
       case Fine =>
         Effect(c.(cm := UpdateConfig(c.cm, spec, seen, version)), if Current(c.cm, seen) then Own(since, MakePod)
             else failed)
       case Lost => Effect(c.(cm := UpdateConfig(c.cm, spec, seen, version)), failed)
       case _ => Effect(c, failed))
    case MakePod =>
      (match out
       case Fine => Effect(c.(pod := CreatePod(c.pod, now)), Own(since, Ready(now + cfg.readyTimeout)))
       case Lost => Effect(c.(pod := CreatePod(c.pod, now)), failed)
       case _ => Effect(c, failed))
  }

  /** waitReady and the final SetEndpointRunning. */
  function ReadyMove(since: Time, job: Job, c: Cell, now: Time, out: Out): Effect
    requires IsReady(job)
  {
    match job
    case Ready(deadline) =>
      if now >= deadline then Effect(c, Own(since, FailPod))
      else if out == Fine && c.pod.Some?
          && c.pod.value.ip != "" then Effect(c, Own(since, Probe(deadline, c.pod.value.ip)))
      else Effect(c, Own(since, Pause(deadline)))
    case Probe(deadline, ip) =>
      Effect(c, Own(since, match out
                           case Answer(SaysRunning) => SetRunning(ip)
                           case Answer(SaysFailed) => FailPod
                           case _ => Pause(deadline)))
    case Pause(deadline) =>
      Effect(c, Own(since, if out == Fine then Ready(deadline) else FailPod))
    case SetRunning(ip) =>
      Write(c, out, RunRow(c.row, ComputeAddr(ip), now), Done(Some(ComputeAddr(ip))), Own(since, FailPod))
  }

  /** A delete call: without error the object is gone; a lost reply removes it too. */
  function DropPod(c: Cell, out: Out): Cell { if out == Fine || out == Lost then c.(pod := None) else c }

  function DropConfig(c: Cell, out: Out): Cell { if out == Fine || out == Lost then c.(cm := None) else c }

  /** Runtime.Stop in startCompute: on takeover before it, on failure after it; its errors are ignored. */
  function StopMove(since: Time, job: Job, c: Cell, now: Time, out: Out): Effect
    requires IsStop(job)
  {
    match job
    case ClearPod => Effect(DropPod(c, out), Own(since, if out == Fine then ClearConfig else SpecAccess))
    case ClearConfig => Effect(DropConfig(c, out), Own(since, SpecAccess))
    case FailPod => Effect(DropPod(c, out), Own(since, if out == Fine then FailConfig else FailMark))
    case FailConfig => Effect(DropConfig(c, out), Own(since, FailMark))
    case FailMark => Write(c, out, CasRow(c.row, Starting, Failed, now), Done(None), Done(None))
  }

  /** The idle decision of a sweep, from the last activity compute_ctl reports or the start time. */
  function IdleSince(row: Endpoint, reported: Option<Time>): Option<Time> {
    if reported.Some? then reported else row.lastStarted
  }

  predicate IsIdle(row: Endpoint, since: Time, now: Time) { now - since >= 1000 * row.suspendAfter }

  function SweepMove(pc: Pc, c: Cell, now: Time, out: Out): Effect
    requires IsSweep(pc)
  {
    match pc
    case SweepStatus(row) =>
      Effect(c, if out != Fine then Done(None)
                else if c.pod.None? then SweepRepair
                else if row.addr.None? then Done(None)
                else SweepFetch(row))
    case SweepRepair =>
      Write(c, out, SuspendRow(c.row, now), Done(None), Done(None))
    case SweepFetch(row) =>
      Effect(c, match out
                case LastActive(reported) =>
                  (match IdleSince(row, reported)
                   case Some(since) => if IsIdle(row, since, now) then SweepCas else Done(None)
                   case None => Done(None))
                case _ => Done(None))
    case SweepCas =>
      Write(c, out, CasRow(c.row, Running, Suspending, now),
            if InState(c.row, Running) then Susp(now, Terminate) else Done(None), Done(None))
  }

  /** A sweep goes on to suspend exactly the endpoint whose last activity, or start, is old enough. */
  lemma FetchDecides(row: Endpoint, c: Cell, now: Time, out: Out)
    ensures SweepMove(SweepFetch(row), c, now, out).cell == c
    ensures SweepMove(SweepFetch(row), c, now, out).pc == SweepCas <==>
      || (exists a: Time :: out == LastActive(Some(a)) && now - a >= 1000 * row.suspendAfter)
      || (exists a: Time :: out == LastActive(None) && row.lastStarted == Some(a) && now - a >= 1000 * row.suspendAfter)
    ensures SweepMove(SweepFetch(row), c, now, out).pc == SweepCas
            || SweepMove(SweepFetch(row), c, now, out).pc == Done(None)
  {
  }

  function SuspendMove(since: Time, task: Task, c: Cell, now: Time, out: Out): Effect {
    match task
    case Terminate => Effect(c, Susp(since, StopPod))
    case StopPod => Effect(DropPod(c, out), if out == Fine then Susp(since, StopConfig) else Done(None))
    case StopConfig => Effect(DropConfig(c, out), if out == Fine then Susp(since, SetSuspended) else Done(None))
    case SetSuspended => Write(c, out, SuspendRow(c.row, now), Done(None), Done(None))
  }

  function HandlerMove(pc: Pc, c: Cell, now: Time, out: Out): Effect
    requires IsHandler(pc)
  {
    match pc
    case DebugPod => Effect(DropPod(c, out), if out == Fine then DebugConfig else Done(None))
    case DebugConfig => Effect(DropConfig(c, out), if out == Fine then DebugSet else Done(None))
    case DebugSet => Write(c, out, SuspendRow(c.row, now), Done(None), Done(None))
    case PurgePod => Effect(DropPod(c, out), if out == Fine then PurgeConfig else Done(None))
    case PurgeConfig => Effect(DropConfig(c, out), Done(None))
  }

  function Move(s: Sys, th: Thread, out: Out): Effect
    requires !th.pc.Done?
  {
    var c := CellOf(s, th.ep);
    if th.pc.Own? then OwnerMove(th.pc.since, th.pc.job, c, th.ep, s, out)
    else if th.pc.Susp? then SuspendMove(th.pc.since, th.pc.task, c, s.now, out)
    else if IsSweep(th.pc) then SweepMove(th.pc, c, s.now, out)
    else if IsHandler(th.pc) then HandlerMove(th.pc, c, s.now, out)
    else WakeMove(th.pc, c, s.now, th.begun, s.cfg, out)
  }

  /** startCompute. */
  function OwnerMove(since: Time, job: Job, c: Cell, e: Id, s: Sys, out: Out): Effect {
    if IsStop(job) then StopMove(since, job, c, s.now, out)
    else if IsReady(job) then ReadyMove(since, job, c, s.now, out)
    else StartMove(since, job, c, e, s.db, s.now, s.cfg, s.k8s.version + 1, out)
  }

  /** A call whose reply is lost has done what a successful one does, and a call that fails nothing. */
  lemma RepliesDoNotMatter(s: Sys, th: Thread)
    requires !th.pc.Done?
    ensures Move(s, th, Lost).cell == Move(s, th, Fine).cell && Move(s, th, Fail).cell == CellOf(s, th.ep)
  {
    if th.pc.Own? {
      OwnerRepliesDoNotMatter(s, th);
    }
  }

  lemma OwnerRepliesDoNotMatter(s: Sys, th: Thread)
    requires th.pc.Own?
    ensures Move(s, th, Lost).cell == Move(s, th, Fine).cell && Move(s, th, Fail).cell == CellOf(s, th.ep)
  {
    var (c, job) := (CellOf(s, th.ep), th.pc.job);
    assert Move(s, th, Lost) == OwnerMove(th.pc.since, job, c, th.ep, s, Lost);
    assert Move(s, th, Fine) == OwnerMove(th.pc.since, job, c, th.ep, s, Fine);
    assert Move(s, th, Fail) == OwnerMove(th.pc.since, job, c, th.ep, s, Fail);
  }

  // ---- catalog operations

  function Exec(db: Db, op: Op, now: Time): Result<Db> {
    match op
    case NewProject(pid, p, bid, timeline, eid, suspendAfter) =>
      InsertProject(db, pid, p, bid, Branch(pid, "main", timeline, None, true), eid,
          NewEndpoint(bid, Some(Suspended), Requested(suspendAfter), now))
    case NewBranch(bid, project, name, timeline, parent, eid) =>
      InsertBranchAndEndpoint(db, bid, Branch(project, name, timeline, Some(parent), false), eid,
          NewEndpoint(bid, Some(Suspended), 0, now))
    case DropBranch(bid) => Ok(RemoveBranch(db, bid))
    case DropProject(pid) => Ok(RemoveProject(db, pid))
  }

  /** What they leave in the new rows, field by field. */
  lemma ExecMakes(db: Db, op: Op, now: Time)
    requires Exec(db, op, now).Ok?
    ensures op.NewProject? ==>
      var d := Exec(db, op, now).value;
      && d.projects == db.projects[op.pid := op.p]
      && d.branches == db.branches[op.bid := Branch(op.pid, "main", op.timeline, None, true)]
      && d.endpoints == db.endpoints[op.eid := Endpoint(op.bid, Suspended, None,
           if op.suspendAfter > 0 then op.suspendAfter else 300, None, None, now)]
    ensures op.NewBranch? ==>
      var d := Exec(db, op, now).value;
      && d.projects == db.projects
      && d.branches == db.branches[op.bid := Branch(op.project, op.name, op.timeline, Some(op.parent), false)]
      && d.endpoints == db.endpoints[op.eid := Endpoint(op.bid, Suspended, None, 300, None, None, now)]
  {
  }

  /** The rows an operation adds. */
  function EntryOf(op: Op): Entry {
    match op
    case NewProject(pid, _, bid, timeline, eid, _) => ProjectRows(pid, bid, timeline, eid)
    case NewBranch(bid, _, _, timeline, _, eid) => BranchRows(bid, timeline, eid)
    case _ => NoRows
  }

  // ---- steps

  function Spawned(s: Sys, t: Tid, e: Id, pc: Pc): Sys {
    s.(threads := s.threads[t := Thread(e, pc, s.now, s.now)])
  }

  predicate Enabled(s: Sys, l: Label) {
    match l
    case Tick(_) => true
    case Admin(op) => Fresh(s.hist, EntryOf(op)) && Exec(s.db, op, s.now).Ok?
    case Wake(t, _) => t !in s.threads
    case Sweep(t, e) => t !in s.threads && InState(CellOf(s, e).row, Running)
    case Debug(t, _) => t !in s.threads
    case Purge(t, _) => t !in s.threads
    case Crash(t) => t in s.threads
    case Act(t, _) => t in s.threads && !s.threads[t].pc.Done?
    case PodAddress(e, ip) =>
      var c := CellOf(s, e);
      ip != "" && c.pod.Some? && c.pod.value.phase == PodPending && c.pod.value.ip == "" && c.cm.Some?
    case PodUp(e) =>
      var c := CellOf(s, e);
      c.pod.Some? && c.pod.value.phase == PodPending && c.pod.value.ip != ""
    case PodDown(e) => CellOf(s, e).pod.Some?
    case PodGone(e) => CellOf(s, e).pod.Some?
  }

  predicate IsPodStep(l: Label) { l.PodAddress? || l.PodUp? || l.PodDown? || l.PodGone? }

  /** What the cluster does to a pod: it gets an address and its configuration, runs, fails, or vanishes. */
  function Progress(c: Cell, l: Label): Cell
    requires IsPodStep(l) && c.pod.Some? && (l.PodAddress? ==> c.cm.Some?)
  {
    match l
    case PodAddress(_, ip) => c.(pod := Some(c.pod.value.(ip := ip, spec := Some(c.cm.value.spec))))
    case PodUp(_) => c.(pod := Some(c.pod.value.(phase := PodRunning)))
    case PodDown(_) => c.(pod := Some(c.pod.value.(phase := PodFailed)))
    case _ => c.(pod := None)
  }

  function Apply(s: Sys, l: Label): Sys
    requires Enabled(s, l)
  {
    match l
    case Tick(d) => s.(now := s.now + d)
    case Admin(op) =>
      var db := Exec(s.db, op, s.now).value;
      s.(db := db, hist := Remember(s.hist, db))
    case Wake(t, e) => Spawned(s, t, e, Top)
    case Sweep(t, e) => Spawned(s, t, e, SweepStatus(CellOf(s, e).row.value))
    case Debug(t, e) => Spawned(s, t, e, DebugPod)
    case Purge(t, e) => Spawned(s, t, e, PurgePod)
    case Crash(t) => s.(threads := s.threads - {t})
    case Act(t, out) => Acted(s, t, out)
    case PodAddress(e, _) => PutCell(s, e, Progress(CellOf(s, e), l))
    case PodUp(e) => PutCell(s, e, Progress(CellOf(s, e), l))
    case PodDown(e) => PutCell(s, e, Progress(CellOf(s, e), l))
    case PodGone(e) => PutCell(s, e, Progress(CellOf(s, e), l))
  }

  function Acted(s: Sys, t: Tid, out: Out): Sys
    requires t in s.threads && !s.threads[t].pc.Done?
  {
    var th := s.threads[t];
    var m := Move(s, th, out);
    PutCell(s, th.ep, m.cell).(
      threads := s.threads[t := th.(pc := m.pc, at := s.now)],
      starts := if th.pc.Own? && th.pc.job.PutNewConfig? then s.starts + multiset{th.ep} else s.starts)
  }

  // ---- runs

  /** `states` is a run: each step is enabled and leads to the next state. */
  ghost predicate IsRun(states: seq<Sys>, labels: seq<Label>) {
    && |states| == |labels| + 1
    && forall i | 0 <= i < |labels| :: Enabled(states[i], labels[i]) && states[i + 1] == Apply(states[i], labels[i])
  }

  /** One more step at the end of a run. */
  lemma Extend(states: seq<Sys>, labels: seq<Label>, l: Label)
    requires IsRun(states, labels) && Enabled(states[|labels|], l)
    ensures IsRun(states + [Apply(states[|labels|], l)], labels + [l])
  {
    var (ss, ls) := (states + [Apply(states[|labels|], l)], labels + [l]);
    forall i | 0 <= i < |ls| ensures Enabled(ss[i], ls[i]) && ss[i + 1] == Apply(ss[i], ls[i]) {
      assert i < |labels| ==> states[i + 1] == Apply(states[i], labels[i]);
    }
  }

  /** Two runs, the second starting where the first ends. */
  lemma Concat(a: seq<Sys>, k: seq<Label>, b: seq<Sys>, l: seq<Label>)
    requires IsRun(a, k) && IsRun(b, l) && a[|k|] == b[0]
    ensures IsRun(a + b[1..], k + l) && (a + b[1..])[|k| + |l|] == b[|l|]
  {
    var (ss, ls) := (a + b[1..], k + l);
    assert forall j | 0 <= j <= |l| :: ss[|k| + j] == b[j];
    forall i | 0 <= i < |ls| ensures Enabled(ss[i], ls[i]) && ss[i + 1] == Apply(ss[i], ls[i]) {
      if i < |k| {
        assert a[i + 1] == Apply(a[i], k[i]);
      } else {
        assert b[i - |k| + 1] == Apply(b[i - |k|], l[i - |k|]);
        assert ss[|k| + (i - |k|) + 1] == b[i - |k| + 1];
      }
    }
  }

  // ---- effects in terms of cells, used by every proof

  /** A thread's step changes its own endpoint's cell and nobody else's. */
  lemma ActedCells(s: Sys, t: Tid, out: Out)
    requires t in s.threads && !s.threads[t].pc.Done?
    ensures CellOf(Acted(s, t, out), s.threads[t].ep) == Move(s, s.threads[t], out).cell
    ensures forall d: Id :: d != s.threads[t].ep ==> CellOf(Acted(s, t, out), d) == CellOf(s, d)
  {
    CellFrame(s, s.threads[t].ep, Move(s, s.threads[t], out).cell);
    var s1, s2 := PutCell(s, s.threads[t].ep, Move(s, s.threads[t], out).cell), Acted(s, t, out);
    assert s1.db == s2.db && s1.k8s == s2.k8s;
    assert forall d: Id :: CellOf(s2, d) == CellOf(s1, d);
  }

  /** What a thread's step with effect `m` does to the system. */
  ghost predicate Follows(s: Sys, s': Sys, t: Tid, m: Effect)
    requires t in s.threads
  {
    var th := s.threads[t];
    && CellOf(s', th.ep) == m.cell && (forall d: Id :: d != th.ep ==> CellOf(s', d) == CellOf(s, d))
    && s'.threads == s.threads[t := th.(pc := m.pc, at := s.now)]
    && s'.now == s.now && s'.cfg == s.cfg && s'.hist == s.hist
    && s'.db.projects == s.db.projects && s'.db.branches == s.db.branches
    && s'.starts == if th.pc.Own? && th.pc.job.PutNewConfig? then s.starts + multiset{th.ep} else s.starts
  }

  lemma ActFollows(s: Sys, t: Tid, out: Out)
    requires Enabled(s, Act(t, out))
    ensures Follows(s, Apply(s, Act(t, out)), t, Move(s, s.threads[t], out))
  {
    ActedCells(s, t, out);
  }

  /** One more step of a thread at the end of a run. */
  lemma ActOn(states: seq<Sys>, labels: seq<Label>, t: Tid, out: Out) returns (ss: seq<Sys>, ls: seq<Label>)
    requires IsRun(states, labels) && Enabled(states[|labels|], Act(t, out))
    ensures IsRun(ss, ls) && states <= ss && labels <= ls && |ls| == |labels| + 1 && ls[|labels|] == Act(t, out)
    ensures Follows(states[|labels|], ss[|ls|], t, Move(states[|labels|], states[|labels|].threads[t], out))
  {
    ActFollows(states[|labels|], t, out);
    Extend(states, labels, Act(t, out));
    ss, ls := states + [Apply(states[|labels|], Act(t, out))], labels + [Act(t, out)];
  }

  /** Other threads' steps leave a thread alone. */
  lemma OthersKeepThread(s: Sys, l: Label, t: Tid)
    requires Enabled(s, l) && t in s.threads && !(l.Act? && l.t == t) && !(l.Crash? && l.t == t)
    ensures t in Apply(s, l).threads && Apply(s, l).threads[t] == s.threads[t]
    ensures Apply(s, l).now >= s.now && Apply(s, l).cfg == s.cfg
  {
  }

  /** A step of the cluster changes one endpoint's pod and nothing else. */
  lemma PodStepCells(s: Sys, l: Label)
    requires IsPodStep(l) && Enabled(s, l)
    ensures CellOf(Apply(s, l), l.e) == Progress(CellOf(s, l.e), l)
    ensures forall d: Id :: d != l.e ==> CellOf(Apply(s, l), d) == CellOf(s, d)
    ensures Apply(s, l).threads == s.threads && Apply(s, l).now == s.now
  {
    CellFrame(s, l.e, Progress(CellOf(s, l.e), l));
  }

  /** Steps that are not a thread's keep every row, except that catalog operations add new rows and remove old ones. */
  lemma OtherStepsKeepRows(s: Sys, l: Label, e: Id)
    requires Enabled(s, l) && !l.Act?
    ensures var (a, b) := (CellOf(s, e).row, CellOf(Apply(s, l), e).row);
            a == b || (l.Admin? && b.None?)
                || (l.Admin? && a.None? && e !in s.hist.endpoints && b.Some? && b.value.state == Suspended
                      && b.value.addr == None)
  {
    if IsPodStep(l) {
      PodStepCells(s, l);
    }
  }
}
