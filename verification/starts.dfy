/**
 * How often wakers start an endpoint, over whole runs. There is one start more than the
 * repairs that hit the running row, and a repair follows only when compute_ctl answers before
 * Kubernetes reports the pod Running. Without that, wakers converge on a single start.
 */
module Starts {
  import opened Base
  import opened Address
  import opened Database
  import opened Cluster
  import opened Lifecycle
  import opened Convergence

  // ---- whole runs: the starts counted

  /** The repairs that hit in the first `k` steps. */
  function Repairs(states: seq<Sys>, labels: seq<Label>, e: Id, k: nat): int
    requires k <= |labels| < |states|
    decreases k
  {
    if k == 0 then 0 else Repairs(states, labels, e, k - 1) + Repaired(states[k - 1], labels[k - 1], e)
  }

  /** Suspended or failed, and nobody there yet. */
  ghost predicate Untouched(s: Sys, e: Id) {
    IsDown(CellOf(s, e)) && forall t :: t in s.threads ==> s.threads[t].ep != e
  }

  /** What holds at each instant: the starts, one owner at most, and nothing returned but the pod's address. */
  ghost predicate Counted(s: Sys, e: Id, n: int) {
    && n <= s.starts[e] <= n + 1 && (IsUp(CellOf(s, e)) || IsDown(CellOf(s, e)) || InState(CellOf(s, e).row, Starting))
    && (IsUp(CellOf(s, e)) ==> s.starts[e] == n + 1) && (IsDown(CellOf(s, e)) ==> s.starts[e] == n)
    && (forall t, u :: OwnsOf(s, t, e) && OwnsOf(s, u, e) ==> t == u)
    && (forall t :: t in s.threads && s.threads[t].ep == e && s.threads[t].pc.Done? && s.threads[t].pc.result.Some? ==>
          s.threads[t].pc.result == PodAddr(CellOf(s, e)))
  }

  ghost predicate OwnsOf(s: Sys, t: Tid, e: Id) { t in s.threads && s.threads[t].ep == e && s.threads[t].pc.Own? }

  lemma OnTrackCounts(s: Sys, e: Id, ac: AccessControl, n: int)
    requires OnTrack(s, e, ac, n)
    ensures Counted(s, e, n)
  {
  }

  /** The starts accounted for after `k` steps. */
  function Due(states: seq<Sys>, labels: seq<Label>, e: Id, k: nat): int
    requires k <= |labels| < |states|
  {
    states[0].starts[e] + Repairs(states, labels, e, k)
  }

  lemma {:induction false} StaysOnTrack(states: seq<Sys>, labels: seq<Label>, e: Id, ac: AccessControl, k: nat)
    requires IsCalm(states, labels, e, ac) && Untouched(states[0], e) && k <= |labels|
    ensures OnTrack(states[k], e, ac, Due(states, labels, e, k)) && e in states[k].hist.endpoints
    decreases k
  {
    if k == 0 {
      StartsOnTrack(states[0], e, ac);
    } else {
      StaysOnTrack(states, labels, e, ac, k - 1);
      NextOnTrack(states, labels, e, ac, k - 1);
    }
  }

  lemma StartsOnTrack(s: Sys, e: Id, ac: AccessControl)
    requires Untouched(s, e) && s.db.endpoints.Keys <= s.hist.endpoints.Keys
    ensures OnTrack(s, e, ac, s.starts[e]) && e in s.hist.endpoints
  {
    assert Idle(s, e, s.starts[e]);
  }

  /** One step of a calm run. */
  ghost predicate CalmStep(s: Sys, l: Label, s': Sys, e: Id, ac: AccessControl) {
    && Enabled(s, l) && s' == Apply(s, l) && Smooth(s, l, e) && Prompt(s, e)
    && AccessControlOf(s.db, e) == Some(ac) && CellOf(s', e).row.Some?
  }

  lemma OneStep(states: seq<Sys>, labels: seq<Label>, e: Id, ac: AccessControl, k: nat)
    requires IsCalm(states, labels, e, ac) && k < |labels|
    ensures CalmStep(states[k], labels[k], states[k + 1], e, ac)
    ensures e in states[k].hist.endpoints ==> e in states[k + 1].hist.endpoints
  {
    assert states[k + 1] == Apply(states[k], labels[k]);
    assert AccessControlOf(states[k + 1].db, e) == Some(ac);
  }

  lemma NextOnTrack(states: seq<Sys>, labels: seq<Label>, e: Id, ac: AccessControl, k: nat)
    requires IsCalm(states, labels, e, ac) && k < |labels| && e in states[k].hist.endpoints
    requires OnTrack(states[k], e, ac, Due(states, labels, e, k))
    ensures OnTrack(states[k + 1], e, ac, Due(states, labels, e, k + 1)) && e in states[k + 1].hist.endpoints
  {
    OneStep(states, labels, e, ac, k);
    Advance(states[k], labels[k], states[k + 1], e, ac, Due(states, labels, e, k), Due(states, labels, e, k + 1));
  }

  lemma Advance(s: Sys, l: Label, s': Sys, e: Id, ac: AccessControl, n: int, m: int)
    requires CalmStep(s, l, s', e, ac) && OnTrack(s, e, ac, n) && e in s.hist.endpoints && m == n + Repaired(s, l, e)
    ensures OnTrack(s', e, ac, m)
  {
    StepStaysOnTrack(s, l, e, ac, n);
  }

  /**
   * From a suspended or failed endpoint, in all interleavings of any number of wakers: one
   * start per repair that hits, and one more once the row is running again or its owner has
   * come so far; at most one owner at a time; and every address returned is the one pod's.
   */
  lemma StartsFollowRepairs(states: seq<Sys>, labels: seq<Label>, e: Id, ac: AccessControl)
    requires IsCalm(states, labels, e, ac) && Untouched(states[0], e)
    ensures forall i | 0 <= i < |states| :: Counted(states[i], e, Due(states, labels, e, i))
  {
    forall i | 0 <= i < |states| ensures Counted(states[i], e, Due(states, labels, e, i)) {
      StaysOnTrack(states, labels, e, ac, i);
      OnTrackCounts(states[i], e, ac, Due(states, labels, e, i));
    }
  }

  // ---- no repair where compute_ctl is punctual

  /** Nobody is about to repair or will see a reason to, and nobody is served before the pod runs. */
  ghost predicate Tidy(s: Sys, e: Id) {
    && (forall t :: t in s.threads && s.threads[t].ep == e ==> TidyAt(s.threads[t].pc, CellOf(s, e)))
    && (IsUp(CellOf(s, e)) ==> PodRuns(CellOf(s, e)))
  }

  predicate TidyAt(pc: Pc, c: Cell) {
    && !pc.Repair? && (pc.Own? && pc.job.SetRunning? ==> PodRuns(c))
    && (pc.Verify? || (pc.Done? && pc.result.Some?) ==> IsUp(c))
  }

  lemma VerifierIsServed(s: Sys, th: Thread)
    requires th.pc.Verify? && Watching(th.pc, PodAddr(CellOf(s, th.ep))) && PodRuns(CellOf(s, th.ep))
    ensures Move(s, th, Fine) == Effect(CellOf(s, th.ep), Done(th.pc.addr))
  {
    var c := CellOf(s, th.ep);
    NamesPodExactly(c.pod.value.ip, c.pod.value.ip);
    assert Move(s, th, Fine) == WakeMove(th.pc, c, s.now, th.begun, s.cfg, Fine);
  }

  lemma ActStaysTidy(s: Sys, e: Id, ac: AccessControl, n: int, t: Tid, out: Out)
    requires OnTrack(s, e, ac, n) && Tidy(s, e) && Enabled(s, Act(t, out)) && s.threads[t].ep == e
    requires Smooth(s, Act(t, out), e) && Punctual(s, Act(t, out), e)
    requires Prompt(s, e) && AccessControlOf(s.db, e) == Some(ac)
    ensures Tidy(Apply(s, Act(t, out)), e)
  {
    if s.threads[t].pc.Own? {
      OwnerActsTidily(s, e, ac, n, t, out);
    } else {
      WatcherActsTidily(s, e, t);
    }
  }

  lemma OwnerActsTidily(s: Sys, e: Id, ac: AccessControl, n: int, t: Tid, out: Out)
    requires Busy(s, e, ac, n, t) && Tidy(s, e) && Enabled(s, Act(t, out))
    requires Smooth(s, Act(t, out), e) && Punctual(s, Act(t, out), e)
    requires Prompt(s, e) && AccessControlOf(s.db, e) == Some(ac)
    ensures Tidy(Apply(s, Act(t, out)), e)
  {
    ActedCells(s, t, out);
    OwnerProgresses(s, s.threads[t], ac, s.starts[e] - n, out);
    OwnerStaysTidy(s, s.threads[t], out);
  }

  lemma WatcherActsTidily(s: Sys, e: Id, t: Tid)
    requires Tidy(s, e) && Enabled(s, Act(t, Fine)) && s.threads[t].ep == e
        && Watching(s.threads[t].pc, PodAddr(CellOf(s, e)))
    requires InState(CellOf(s, e).row, Running) ==> IsUp(CellOf(s, e))
    ensures Tidy(Apply(s, Act(t, Fine)), e)
  {
    ActedCells(s, t, Fine);
    WatcherStaysTidy(s, s.threads[t]);
  }

  lemma OwnerStaysTidy(s: Sys, th: Thread, out: Out)
    requires th.pc.Own? && InState(CellOf(s, th.ep).row, Starting) && !IsStop(th.pc.job)
    requires Succeeds(th.pc, out) && (out == Answer(SaysRunning) ==> PodRuns(CellOf(s, th.ep)))
    requires th.pc.job.SetRunning? ==> PodRuns(CellOf(s, th.ep))
    ensures var (c, m) := (CellOf(s, th.ep), Move(s, th, out));
      && !m.pc.Repair? && !m.pc.Verify? && (m.pc.Own? && m.pc.job.SetRunning? ==> PodRuns(m.cell))
      && (InState(m.cell.row, Running) ==> PodRuns(m.cell)) && (PodRuns(c) ==> PodRuns(m.cell))
  {
    assert Move(s, th, out) == OwnerMove(th.pc.since, th.pc.job, CellOf(s, th.ep), th.ep, s, out);
  }

  lemma WatcherStaysTidy(s: Sys, th: Thread)
    requires Watching(th.pc, PodAddr(CellOf(s, th.ep))) && !th.pc.Done? && TidyAt(th.pc, CellOf(s, th.ep))
    requires IsUp(CellOf(s, th.ep)) ==> PodRuns(CellOf(s, th.ep))
    requires InState(CellOf(s, th.ep).row, Running) ==> IsUp(CellOf(s, th.ep))
    ensures var (c, m) := (CellOf(s, th.ep), Move(s, th, Fine));
      && TidyAt(m.pc, m.cell) && m.cell.pod == c.pod && (IsUp(c) ==> m.cell == c) && (IsUp(m.cell) ==> m.cell == c)
  {
    assert Move(s, th, Fine) == WakeMove(th.pc, CellOf(s, th.ep), s.now, th.begun, s.cfg, Fine);
    if th.pc.Verify? {
      VerifierIsServed(s, th);
    }
  }

  lemma StepStaysTidy(s: Sys, l: Label, e: Id, ac: AccessControl, n: int)
    requires OnTrack(s, e, ac, n) && Tidy(s, e) && Enabled(s, l) && Smooth(s, l, e) && Punctual(s, l, e)
    requires Prompt(s, e) && AccessControlOf(s.db, e) == Some(ac) && CellOf(Apply(s, l), e).row.Some?
    requires e in s.hist.endpoints
    ensures Tidy(Apply(s, l), e) && !RepairHits(s, l, e)
  {
    if l.Act? && s.threads[l.t].ep == e {
      ActStaysTidy(s, e, ac, n, l.t, l.out);
    } else {
      BystanderStep(s, l, e);
      BystanderStaysTidy(s, Apply(s, l), e);
    }
  }

  lemma BystanderStaysTidy(s: Sys, s': Sys, e: Id)
    requires Tidy(s, e) && ComesUp(CellOf(s, e), CellOf(s', e)) && (IsUp(CellOf(s', e)) ==> IsUp(CellOf(s, e)))
    requires forall t :: t in s'.threads && s'.threads[t].ep == e ==>
      (t in s.threads && s'.threads[t] == s.threads[t]) || s'.threads[t].pc == Top
    ensures Tidy(s', e)
  {
  }

  lemma {:induction false} StaysTidy(states: seq<Sys>, labels: seq<Label>, e: Id, ac: AccessControl, k: nat)
    requires IsCalm(states, labels, e, ac) && Untouched(states[0], e) && k <= |labels|
    requires forall i | 0 <= i < |labels| :: Punctual(states[i], labels[i], e)
    ensures Tidy(states[k], e) && Repairs(states, labels, e, k) == 0
    decreases k
  {
    if k > 0 {
      StaysTidy(states, labels, e, ac, k - 1);
      StaysOnTrack(states, labels, e, ac, k - 1);
      OneStep(states, labels, e, ac, k - 1);
      StepStaysTidy(states[k - 1], labels[k - 1], e, ac, Due(states, labels, e, k - 1));
    }
  }

  /**
   * The corollary: where compute_ctl says running only once the pod is, all interleavings of
   * any number of wakers call Runtime.Start at most once; once one of them has returned an
   * address it was called exactly once, and every address returned is that of the pod that runs.
   */
  lemma WakersConverge(states: seq<Sys>, labels: seq<Label>, e: Id, ac: AccessControl)
    requires IsCalm(states, labels, e, ac) && Untouched(states[0], e)
    requires forall i | 0 <= i < |labels| :: Punctual(states[i], labels[i], e)
    ensures forall i | 0 <= i < |states| :: ConvergedAt(states[0], states[i], e)
  {
    forall i | 0 <= i < |states| ensures ConvergedAt(states[0], states[i], e) {
      ConvergesBy(states, labels, e, ac, i);
    }
  }

  lemma ConvergesBy(states: seq<Sys>, labels: seq<Label>, e: Id, ac: AccessControl, i: nat)
    requires IsCalm(states, labels, e, ac) && Untouched(states[0], e) && i < |states|
    requires forall j | 0 <= j < |labels| :: Punctual(states[j], labels[j], e)
    ensures ConvergedAt(states[0], states[i], e)
  {
    StaysTidy(states, labels, e, ac, i);
    StaysOnTrack(states, labels, e, ac, i);
    TidyConverges(states[0], states[i], e, ac, Due(states, labels, e, i));
  }

  lemma TidyConverges(s: Sys, z: Sys, e: Id, ac: AccessControl, n: int)
    requires n == s.starts[e] && OnTrack(z, e, ac, n) && Tidy(z, e)
    ensures ConvergedAt(s, z, e)
  {
    OnTrackCounts(z, e, ac, n);
    assert IsUp(CellOf(z, e)) ==> InService(CellOf(z, e));
  }

  /** One start at most, and exactly one, with the pod in service, behind every address returned. */
  ghost predicate ConvergedAt(s: Sys, z: Sys, e: Id) {
    && z.starts[e] <= s.starts[e] + 1
    && forall t :: t in z.threads && z.threads[t].ep == e && z.threads[t].pc.Done? && z.threads[t].pc.result.Some? ==>
         && z.starts[e] == s.starts[e] + 1 && InService(CellOf(z, e))
         && z.threads[t].pc.result == Some(ComputeAddr(CellOf(z, e).pod.value.ip))
  }

  // ---- exactly when the endpoint is started again

  /** In service, and nobody is about to repair. */
  ghost predicate Settled(s: Sys, e: Id, n: int) {
    && Serving(s, e, n) && PodRuns(CellOf(s, e))
    && forall t :: t in s.threads && s.threads[t].ep == e ==> !s.threads[t].pc.Repair?
  }

  lemma StepStaysSettled(s: Sys, l: Label, e: Id, n: int)
    requires Settled(s, e, n) && Enabled(s, l) && Smooth(s, l, e) && CellOf(Apply(s, l), e).row.Some?
        && e in s.hist.endpoints
    ensures Settled(Apply(s, l), e, n)
  {
    if l.Act? && s.threads[l.t].ep == e {
      ActedCells(s, l.t, l.out);
      WatcherStaysTidy(s, s.threads[l.t]);
      WatcherMoves(s, s.threads[l.t]);
    } else {
      BystanderStep(s, l, e);
      StillWatching(s, Apply(s, l), e, 0);
    }
  }

  /** From there no calm run starts the endpoint again, punctual or not. */
  lemma {:induction false} SettledForGood(states: seq<Sys>, labels: seq<Label>, e: Id, ac: AccessControl, n: int)
    requires IsCalm(states, labels, e, ac) && Settled(states[0], e, n)
    ensures forall i | 0 <= i < |states| :: Settled(states[i], e, n)
  {
    for k := 0 to |labels|
      invariant forall i | 0 <= i <= k :: Settled(states[i], e, n)
      invariant e in states[k].hist.endpoints
    {
      OneStep(states, labels, e, ac, k);
      StepStaysSettled(states[k], labels[k], e, n);
    }
  }
}
