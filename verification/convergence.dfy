/**
 * Concurrent wakers of one endpoint, step by step: any number of wakers arriving at any time,
 * calls that succeed, and a pod that stays. Somebody owns the endpoint, or it is at rest, or
 * it is served; a waker's repair is all that takes it out of service.
 */
module Convergence {
  import opened Base
  import opened Address
  import opened Database
  import opened Cluster
  import opened Lifecycle

  // ---- the assumptions

  /** The call succeeds; compute_ctl answers, but not that it failed. */
  predicate Succeeds(pc: Pc, out: Out) {
    if pc.Own? && pc.job.Probe? then out == Answer(SaysOther) || out == Answer(SaysRunning) else out == Fine
  }

  /** No sweep, debug stop, delete or crash on `e`; its calls succeed and its pod stays. */
  ghost predicate Smooth(s: Sys, l: Label, e: Id) {
    match l
    case Sweep(_, d) => d != e
    case Debug(_, d) => d != e
    case Purge(_, d) => d != e
    case Crash(t) => t in s.threads ==> s.threads[t].ep != e
    case Act(t, out) => t in s.threads && s.threads[t].ep == e ==> Succeeds(s.threads[t].pc, out)
    case PodDown(d) => d != e
    case PodGone(d) => d != e
    case _ => true
  }

  /** compute_ctl says "running" only once Kubernetes says so of the pod; waitReady does not ask. */
  ghost predicate Punctual(s: Sys, l: Label, e: Id) {
    l.Act? && l.t in s.threads && s.threads[l.t].ep == e && l.out == Answer(SaysRunning) ==> PodRuns(CellOf(s, e))
  }

  /** An owner of `e` is younger than the stale limit and the ready timeout. */
  ghost predicate Prompt(s: Sys, e: Id) {
    forall t :: t in s.threads && s.threads[t].ep == e && s.threads[t].pc.Own? ==>
      s.now - s.threads[t].pc.since < STALE_AFTER && s.now - s.threads[t].pc.since < s.cfg.readyTimeout
  }

  /** A run of which all this holds. */
  ghost predicate IsCalm(states: seq<Sys>, labels: seq<Label>, e: Id, ac: AccessControl) {
    && IsRun(states, labels) && states[0].db.endpoints.Keys <= states[0].hist.endpoints.Keys
    && (forall i | 0 <= i < |states| :: Prompt(states[i], e) && AccessControlOf(states[i].db, e) == Some(ac))
    && (forall i | 0 <= i < |labels| :: Smooth(states[i], labels[i], e))
  }

  // ---- the invariant

  predicate PodRuns(c: Cell) { c.pod.Some? && c.pod.value.phase == PodRunning }

  /** The address of the pod, once it has one. */
  function PodAddr(c: Cell): Option<string> {
    if c.pod.Some? && c.pod.value.ip != "" then Some(ComputeAddr(c.pod.value.ip)) else None
  }

  /** A waker that does not own the endpoint: it holds or returns no address but the pod's. */
  predicate Watching(pc: Pc, addr: Option<string>) {
    || pc.Top? || pc.Read? || pc.CasSuspended? || pc.CasFailed? || pc.Wait? || pc.Repair? || pc == Done(None)
    || (addr.Some? && (pc == Verify(addr) || pc == Done(addr)))
  }

  /** The owner's progress, with the starts it has made: it waits for the pod that is there. */
  predicate Progressing(since: Time, job: Job, c: Cell, ac: AccessControl, started: int, ready: Time) {
    && InState(c.row, Starting) && c.row.value.updated == since
    && match job
       case SpecAccess => started == 0
       case SpecProject(p, b) => started == 0 && p == ac.project && b == ac.branch
       case SpecBranch(b, _) => started == 0 && b == ac.branch
       case PutNewConfig(_) => started == 0
       case GetOldConfig(_) => started == 1 && c.cm.Some?
       case PutOldConfig(_, seen) => started == 1 && Current(c.cm, seen)
       case MakePod => started == 1
       case Ready(d) => c.pod.Some? && started == 1 && d >= since + ready
       case Pause(d) => c.pod.Some? && started == 1 && d >= since + ready
       case Probe(d, ip) => started == 1 && d >= since + ready && PodAddr(c) == Some(ComputeAddr(ip))
           && c.pod.value.ip == ip
       case SetRunning(ip) => started == 1 && PodAddr(c) == Some(ComputeAddr(ip)) && c.pod.value.ip == ip
       case _ => false
  }

  predicate InService(c: Cell) {
    InState(c.row, Running) && PodRuns(c) && c.row.value.addr == Some(ComputeAddr(c.pod.value.ip))
  }

  predicate IsDown(c: Cell) { InState(c.row, Suspended) || InState(c.row, Failed) }

  /** The row is running, at the address of the pod. */
  predicate IsUp(c: Cell) { InState(c.row, Running) && PodAddr(c).Some? && c.row.value.addr == PodAddr(c) }

  ghost predicate AllWatch(s: Sys, e: Id) {
    forall t :: t in s.threads && s.threads[t].ep == e ==> Watching(s.threads[t].pc, PodAddr(CellOf(s, e)))
  }

  /** Nobody owns the endpoint, which is at rest after `n` starts. */
  ghost predicate Idle(s: Sys, e: Id, n: int) { IsDown(CellOf(s, e)) && s.starts[e] == n && AllWatch(s, e) }

  ghost predicate Busy(s: Sys, e: Id, ac: AccessControl, n: int, o: Tid) {
    && o in s.threads && s.threads[o].ep == e && s.threads[o].pc.Own? && s.threads[o].pc.since <= s.now
    && Progressing(s.threads[o].pc.since, s.threads[o].pc.job, CellOf(s, e), ac, s.starts[e] - n, s.cfg.readyTimeout)
    && forall t :: t in s.threads && s.threads[t].ep == e && t != o ==> Watching(s.threads[t].pc, PodAddr(CellOf(s, e)))
  }

  ghost predicate Serving(s: Sys, e: Id, n: int) { IsUp(CellOf(s, e)) && s.starts[e] == n + 1 && AllWatch(s, e) }

  ghost predicate OnTrack(s: Sys, e: Id, ac: AccessControl, n: int) {
    Idle(s, e, n) || (exists o :: Busy(s, e, ac, n, o)) || Serving(s, e, n)
  }

  /** A waker's repair that hits the running row: the only step that takes it out of service. */
  predicate RepairHits(s: Sys, l: Label, e: Id) {
    && l.Act? && l.t in s.threads && s.threads[l.t].ep == e && s.threads[l.t].pc.Repair? && l.out == Fine
    && InState(CellOf(s, e).row, Running)
  }

  function Repaired(s: Sys, l: Label, e: Id): int { if RepairHits(s, l, e) then 1 else 0 }

  // ---- single moves

  lemma WatcherMoves(s: Sys, th: Thread)
    requires Watching(th.pc, PodAddr(CellOf(s, th.ep))) && !th.pc.Done?
    requires var c := CellOf(s, th.ep);
      IsDown(c) || IsUp(c) || (InState(c.row, Starting) && !Stale(c.row.value, s.now))
    ensures var (c, m) := (CellOf(s, th.ep), Move(s, th, Fine));
      if IsUp(c) && th.pc.Repair? then m.pc == Top && m.cell == c.(row := m.cell.row) && InState(m.cell.row, Suspended)
      else
        || (m.cell == c && Watching(m.pc, PodAddr(c)))
        || (IsDown(c) && m.pc == Own(s.now, SpecAccess) && m.cell == c.(row := m.cell.row)
            && InState(m.cell.row, Starting) && m.cell.row.value.updated == s.now)
  {
    assert Move(s, th, Fine) == WakeMove(th.pc, CellOf(s, th.ep), s.now, th.begun, s.cfg, Fine);
  }

  lemma OwnerProgresses(s: Sys, th: Thread, ac: AccessControl, started: int, out: Out)
    requires th.pc.Own? && AccessControlOf(s.db, th.ep) == Some(ac)
    requires Progressing(th.pc.since, th.pc.job, CellOf(s, th.ep), ac, started, s.cfg.readyTimeout)
    requires Succeeds(th.pc, out)
    requires s.now - th.pc.since < s.cfg.readyTimeout && s.now >= th.pc.since
    ensures var (c, m) := (CellOf(s, th.ep), Move(s, th, out));
      var k := if th.pc.job.PutNewConfig? then started + 1 else started;
      && (PodAddr(c).Some? ==> PodAddr(m.cell) == PodAddr(c))
      && (|| (m.pc.Own? && m.pc.since == th.pc.since
              && Progressing(m.pc.since, m.pc.job, m.cell, ac, k, s.cfg.readyTimeout))
          || (th.pc.job.SetRunning? && IsUp(m.cell) && m.pc == Done(PodAddr(m.cell)) && k == 1 && m.cell.pod == c.pod))
  {
    var c := CellOf(s, th.ep);
    assert Move(s, th, out) == OwnerMove(th.pc.since, th.pc.job, c, th.ep, s, out);
    if IsStart(th.pc.job) {
      assert Move(s, th, out)
          == StartMove(th.pc.since, th.pc.job, c, th.ep, s.db, s.now, s.cfg, s.k8s.version + 1, out);
    } else {
      assert Move(s, th, out) == ReadyMove(th.pc.since, th.pc.job, c, s.now, out);
    }
  }

  // ---- steps of the system

  /** Without an owner a waker looks on, takes the endpoint, or repairs the row. */
  lemma ActUnowned(s: Sys, e: Id, ac: AccessControl, n: int, t: Tid)
    requires (Idle(s, e, n) || Serving(s, e, n)) && Enabled(s, Act(t, Fine)) && s.threads[t].ep == e
    ensures var (s', m) := (Apply(s, Act(t, Fine)), n + Repaired(s, Act(t, Fine), e));
      Idle(s', e, m) || Busy(s', e, ac, m, t) || Serving(s', e, m)
  {
    ActedCells(s, t, Fine);
    WatcherMoves(s, s.threads[t]);
  }

  lemma ActBesideOwner(s: Sys, e: Id, ac: AccessControl, n: int, o: Tid, t: Tid)
    requires Busy(s, e, ac, n, o) && Prompt(s, e) && Enabled(s, Act(t, Fine)) && s.threads[t].ep == e && t != o
    ensures Busy(Apply(s, Act(t, Fine)), e, ac, n, o)
  {
    ActedCells(s, t, Fine);
    WatcherMoves(s, s.threads[t]);
  }

  lemma ActOfOwner(s: Sys, e: Id, ac: AccessControl, n: int, o: Tid, out: Out)
    requires Busy(s, e, ac, n, o) && Prompt(s, e) && AccessControlOf(s.db, e) == Some(ac)
    requires Enabled(s, Act(o, out)) && Smooth(s, Act(o, out), e)
    ensures var s' := Apply(s, Act(o, out));
            Busy(s', e, ac, n, o) || Serving(s', e, n)
  {
    ActedCells(s, o, out);
    OwnerProgresses(s, s.threads[o], ac, s.starts[e] - n, out);
    StillWatching(s, Apply(s, Act(o, out)), e, o);
  }

  lemma StillWatching(s: Sys, s': Sys, e: Id, o: Tid)
    requires PodAddr(CellOf(s, e)).Some? ==> PodAddr(CellOf(s', e)) == PodAddr(CellOf(s, e))
    ensures forall t :: t in s.threads && Watching(s.threads[t].pc, PodAddr(CellOf(s, e))) ==>
      Watching(s.threads[t].pc, PodAddr(CellOf(s', e)))
  {
  }

  /** Only a pending pod changes, towards running, and keeps an address it has. */
  predicate ComesUp(c: Cell, d: Cell) {
    && d.row == c.row && d.cm == c.cm
    && (|| d.pod == c.pod
        || (c.pod.Some? && d.pod.Some? && c.pod.value.phase == PodPending
            && (c.pod.value.ip != "" ==> d.pod.value.ip == c.pod.value.ip)))
  }

  lemma ProgressSurvives(since: Time, job: Job, c: Cell, d: Cell, ac: AccessControl, started: int, ready: Time)
    requires Progressing(since, job, c, ac, started, ready) && ComesUp(c, d)
    ensures Progressing(since, job, d, ac, started, ready)
  {
  }

  /** A step that is not an act on `e` leaves its threads alone; its pod may only come up. */
  lemma BystanderStep(s: Sys, l: Label, e: Id)
    requires Enabled(s, l) && Smooth(s, l, e) && (l.Act? ==> s.threads[l.t].ep != e)
    requires e in s.hist.endpoints && CellOf(s, e).row.Some? && CellOf(Apply(s, l), e).row.Some?
    ensures var (s', c, d) := (Apply(s, l), CellOf(s, e), CellOf(Apply(s, l), e));
      && ComesUp(c, d) && s'.starts[e] == s.starts[e] && s'.now >= s.now && s'.cfg == s.cfg
      && (forall t :: t in s'.threads && s'.threads[t].ep == e ==>
            (t in s.threads && s'.threads[t] == s.threads[t]) || s'.threads[t].pc == Top)
      && (forall t :: t in s.threads && s.threads[t].ep == e ==> t in s'.threads && s'.threads[t] == s.threads[t])
  {
    if l.Act? {
      ActedCells(s, l.t, l.out);
    } else {
      OtherStepsKeepRows(s, l, e);
      if IsPodStep(l) {
        PodStepCells(s, l);
      }
    }
  }

  lemma BystanderKeepsBusy(s: Sys, l: Label, e: Id, ac: AccessControl, n: int, o: Tid)
    requires Busy(s, e, ac, n, o) && Enabled(s, l) && Smooth(s, l, e) && (l.Act? ==> s.threads[l.t].ep != e)
    requires e in s.hist.endpoints && CellOf(Apply(s, l), e).row.Some?
    ensures Busy(Apply(s, l), e, ac, n, o)
  {
    BystanderStep(s, l, e);
    var (pc, ready) := (s.threads[o].pc, s.cfg.readyTimeout);
    ProgressSurvives(pc.since, pc.job, CellOf(s, e), CellOf(Apply(s, l), e), ac, s.starts[e] - n, ready);
    StillWatching(s, Apply(s, l), e, o);
    assert Apply(s, l).threads[o] == s.threads[o] && Apply(s, l).cfg.readyTimeout == ready;
  }

  lemma BystanderKeepsRest(s: Sys, l: Label, e: Id, n: int)
    requires Idle(s, e, n) || Serving(s, e, n)
    requires Enabled(s, l) && Smooth(s, l, e) && (l.Act? ==> s.threads[l.t].ep != e)
    requires e in s.hist.endpoints && CellOf(Apply(s, l), e).row.Some?
    ensures Idle(s, e, n) ==> Idle(Apply(s, l), e, n)
    ensures Serving(s, e, n) ==> Serving(Apply(s, l), e, n)
  {
    BystanderStep(s, l, e);
    StillWatching(s, Apply(s, l), e, 0);
  }

  lemma StepStaysOnTrack(s: Sys, l: Label, e: Id, ac: AccessControl, n: int)
    requires OnTrack(s, e, ac, n) && Enabled(s, l) && Smooth(s, l, e)
    requires Prompt(s, e) && AccessControlOf(s.db, e) == Some(ac) && CellOf(Apply(s, l), e).row.Some?
    requires e in s.hist.endpoints
    ensures OnTrack(Apply(s, l), e, ac, n + Repaired(s, l, e))
  {
    if o :| Busy(s, e, ac, n, o) {
      StepBesideOrOfOwner(s, l, e, ac, n, o);
    } else {
      StepUnowned(s, l, e, ac, n);
    }
  }

  lemma StepBesideOrOfOwner(s: Sys, l: Label, e: Id, ac: AccessControl, n: int, o: Tid)
    requires Busy(s, e, ac, n, o) && Enabled(s, l) && Smooth(s, l, e)
    requires Prompt(s, e) && AccessControlOf(s.db, e) == Some(ac) && CellOf(Apply(s, l), e).row.Some?
    requires e in s.hist.endpoints
    ensures Busy(Apply(s, l), e, ac, n, o) || Serving(Apply(s, l), e, n)
    ensures !RepairHits(s, l, e)
  {
    if l.Act? && s.threads[l.t].ep == e {
      if l.t == o {
        ActOfOwner(s, e, ac, n, o, l.out);
      } else {
        ActBesideOwner(s, e, ac, n, o, l.t);
      }
    } else {
      BystanderKeepsBusy(s, l, e, ac, n, o);
    }
  }

  lemma StepUnowned(s: Sys, l: Label, e: Id, ac: AccessControl, n: int)
    requires (Idle(s, e, n) || Serving(s, e, n)) && Enabled(s, l) && Smooth(s, l, e)
    requires CellOf(Apply(s, l), e).row.Some? && e in s.hist.endpoints
    ensures var (s', m) := (Apply(s, l), n + Repaired(s, l, e));
      Idle(s', e, m) || (l.Act? && Busy(s', e, ac, m, l.t)) || Serving(s', e, m)
  {
    if l.Act? && s.threads[l.t].ep == e {
      ActUnowned(s, e, ac, n, l.t);
    } else {
      BystanderKeepsRest(s, l, e, n);
    }
  }
}
