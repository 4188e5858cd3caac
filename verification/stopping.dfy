/**
 * Stopping computes: the suspension at the end of a sweep, debugStop, and the stop of the
 * delete handlers delete the pod, then the configmap, and only then call the endpoint suspended.
 */
module Stopping {
  import opened Base
  import opened Database
  import opened Cluster
  import opened Lifecycle

  /** At some instant of states[w..n] the endpoint had no pod. */
  ghost predicate PodWasGone(states: seq<Sys>, w: nat, n: nat, e: Id)
    requires n < |states|
  {
    exists k: nat | w <= k <= n :: CellOf(states[k], e).pod.None?
  }

  ghost predicate ConfigWasGone(states: seq<Sys>, w: nat, n: nat, e: Id)
    requires n < |states|
  {
    exists k: nat | w <= k <= n :: CellOf(states[k], e).cm.None?
  }

  /** The thread has deleted the pod. */
  predicate PodDeleted(pc: Pc) {
    (pc.Susp? && pc.task.StopConfig?) || pc.DebugConfig? || pc.PurgeConfig? || (pc.Own? && pc.job.ClearConfig?)
        || (pc.Own? && pc.job.FailConfig?) || AllDeleted(pc)
  }

  /** And the configmap: what is left is to call the endpoint suspended. */
  predicate AllDeleted(pc: Pc) { (pc.Susp? && pc.task.SetSuspended?) || pc.DebugSet? }

  predicate DeletesFirst(pc: Pc, m: Effect) {
    && (PodDeleted(m.pc) ==> PodDeleted(pc) || m.cell.pod.None?)
    && (AllDeleted(m.pc) ==> AllDeleted(pc) || (PodDeleted(pc) && m.cell.cm.None?))
  }

  lemma OwnerDeletesFirst(since: Time, job: Job, c: Cell, e: Id, s: Sys, out: Out)
    ensures DeletesFirst(Own(since, job), OwnerMove(since, job, c, e, s, out))
  {
  }

  lemma WakerDeletesFirst(pc: Pc, c: Cell, now: Time, begun: Time, cfg: Config, out: Out)
    requires IsWake(pc)
    ensures DeletesFirst(pc, WakeMove(pc, c, now, begun, cfg, out))
  {
  }

  lemma MovesDeleteFirst(s: Sys, th: Thread, out: Out)
    requires !th.pc.Done?
    ensures DeletesFirst(th.pc, Move(s, th, out))
  {
    var c := CellOf(s, th.ep);
    if th.pc.Own? {
      OwnerDeletesFirst(th.pc.since, th.pc.job, c, th.ep, s, out);
      assert Move(s, th, out) == OwnerMove(th.pc.since, th.pc.job, c, th.ep, s, out);
    } else if th.pc.Susp? {
      assert Move(s, th, out) == SuspendMove(th.pc.since, th.pc.task, c, s.now, out);
    } else if IsWake(th.pc) {
      WakerDeletesFirst(th.pc, c, s.now, th.begun, s.cfg, out);
      assert Move(s, th, out) == WakeMove(th.pc, c, s.now, th.begun, s.cfg, out);
    }
  }

  /** What the thread's position says of the instants since step w. */
  ghost predicate Deleted(states: seq<Sys>, w: nat, n: nat, t: Tid)
    requires n < |states| && t in states[n].threads
  {
    var th := states[n].threads[t];
    (PodDeleted(th.pc) ==> PodWasGone(states, w, n, th.ep))
        && (AllDeleted(th.pc) ==> ConfigWasGone(states, w, n, th.ep))
  }

  lemma StaysDeleted(states: seq<Sys>, labels: seq<Label>, w: nat, n: nat, t: Tid)
    requires IsRun(states, labels) && w <= n < |labels|
    requires t in states[n].threads && t in states[n + 1].threads && Deleted(states, w, n, t)
    ensures Deleted(states, w, n + 1, t)
  {
    var (s, l) := (states[n], labels[n]);
    assert states[n + 1] == Apply(s, l);
    if l.Act? && l.t == t {
      ActedCells(s, t, l.out);
      MovesDeleteFirst(s, s.threads[t], l.out);
    } else {
      OthersKeepThread(s, l, t);
    }
  }

  /**
   * In every run, for every thread begun by step w: about to write `suspended` after a sweep or
   * for debugStop, its endpoint has been without pod and without configmap since then; about to
   * delete the configmap, it has been without pod.
   */
  lemma {:induction false} StopsComeFirst(states: seq<Sys>, labels: seq<Label>, w: nat, n: nat, t: Tid)
    requires IsRun(states, labels) && w < n < |states| && t !in states[w].threads
    requires forall i | w < i <= n :: t in states[i].threads
    ensures Deleted(states, w, n, t)
    decreases n
  {
    if n > w + 1 {
      StopsComeFirst(states, labels, w, n - 1, t);
      StaysDeleted(states, labels, w, n - 1, t);
    } else {
      assert states[w + 1] == Apply(states[w], labels[w]) && t in states[w + 1].threads;
      BeginsWithNothing(states[w], labels[w], t);
    }
  }

  lemma BeginsWithNothing(s: Sys, l: Label, t: Tid)
    requires Enabled(s, l) && t !in s.threads && t in Apply(s, l).threads
    ensures !PodDeleted(Apply(s, l).threads[t].pc)
  {
  }

  // ---- undisturbed

  /** The row, if there is one, as a stop leaves it, and no objects. */
  predicate Stopped(row: Option<Endpoint>, now: Time, c: Cell) {
    && c.pod.None? && c.cm.None?
    && match row
       case Some(r) => c.row == Some(r.(state := Suspended, addr := None, updated := now))
       case None => c.row.None?
  }

  /** The run has come to a state with thread `t` at `pc` and its endpoint's row and objects as in `c`. */
  ghost predicate At(states: seq<Sys>, labels: seq<Label>, t: Tid, e: Id, pc: Pc, c: Cell, now: Time) {
    && IsRun(states, labels)
    && var z := states[|labels|];
       t in z.threads && z.threads[t].ep == e && z.threads[t].pc == pc && CellOf(z, e) == c && z.now == now
  }

  /** A move of a sweep or a handler, or of a waker that stops a compute. */
  predicate Stops(pc: Pc) { pc.Susp? || IsSweep(pc) || IsHandler(pc) || (pc.Own? && IsStop(pc.job)) }

  function Next(pc: Pc, c: Cell, now: Time, out: Out): Effect
    requires Stops(pc)
  {
    if pc.Susp? then SuspendMove(pc.since, pc.task, c, now, out)
    else if pc.Own? then StopMove(pc.since, pc.job, c, now, out)
    else if IsSweep(pc) then SweepMove(pc, c, now, out)
    else HandlerMove(pc, c, now, out)
  }

  lemma Goes(states: seq<Sys>, labels: seq<Label>, t: Tid, e: Id, pc: Pc, c: Cell, now: Time, out: Out)
    returns (ss: seq<Sys>, ls: seq<Label>)
    requires At(states, labels, t, e, pc, c, now) && Stops(pc)
    ensures At(ss, ls, t, e, Next(pc, c, now, out).pc, Next(pc, c, now, out).cell, now)
    ensures ss[0] == states[0] && ls == labels + [Act(t, out)]
  {
    var z := states[|labels|];
    assert Move(z, z.threads[t], out) == Next(pc, c, now, out);
    ss, ls := ActOn(states, labels, t, out);
    assert ls == labels + [Act(t, out)];
  }

  lemma Begins(s: Sys, l: Label, t: Tid, e: Id, pc: Pc) returns (states: seq<Sys>, labels: seq<Label>)
    requires (l == Debug(t, e) && pc == DebugPod) || (l == Purge(t, e) && pc == PurgePod)
        || (l == Sweep(t, e) && InState(CellOf(s, e).row, Running) && pc == SweepStatus(CellOf(s, e).row.value))
    requires t !in s.threads
    ensures At(states, labels, t, e, pc, CellOf(s, e), s.now) && states[0] == s && labels == [l]
  {
    states, labels := [s, Apply(s, l)], [l];
  }

  /** debugStop, whatever the state: three calls, and the endpoint is suspended without objects. */
  lemma DebugStopStops(s: Sys, t: Tid, e: Id) returns (states: seq<Sys>, labels: seq<Label>, d: Cell)
    requires t !in s.threads
    ensures At(states, labels, t, e, Done(None), d, s.now) && states[0] == s
    ensures labels == [Debug(t, e), Act(t, Fine), Act(t, Fine), Act(t, Fine)]
    ensures Stopped(CellOf(s, e).row, s.now, d)
  {
    states, labels := Begins(s, Debug(t, e), t, e, DebugPod);
    states, labels, d := DebugDeletes(states, labels, t, e, CellOf(s, e), s.now);
  }

  lemma DebugDeletes(states: seq<Sys>, labels: seq<Label>, t: Tid, e: Id, c: Cell, now: Time)
    returns (ss: seq<Sys>, ls: seq<Label>, d: Cell)
    requires At(states, labels, t, e, DebugPod, c, now)
    ensures At(ss, ls, t, e, Done(None), d, now) && ss[0] == states[0] && Stopped(c.row, now, d)
    ensures ls == labels + [Act(t, Fine), Act(t, Fine), Act(t, Fine)]
  {
    ss, ls := Goes(states, labels, t, e, DebugPod, c, now, Fine);
    ss, ls := Goes(ss, ls, t, e, DebugConfig, c.(pod := None), now, Fine);
    ss, ls := Goes(ss, ls, t, e, DebugSet, c.(pod := None, cm := None), now, Fine);
    d := Next(DebugSet, c.(pod := None, cm := None), now, Fine).cell;
  }

  /** The stop of the delete handlers: the objects go, the row stays. */
  lemma PurgeStops(s: Sys, t: Tid, e: Id) returns (states: seq<Sys>, labels: seq<Label>)
    requires t !in s.threads
    ensures At(states, labels, t, e, Done(None), Cell(CellOf(s, e).row, None, None), s.now) && states[0] == s
    ensures labels == [Purge(t, e), Act(t, Fine), Act(t, Fine)]
  {
    states, labels := Begins(s, Purge(t, e), t, e, PurgePod);
    states, labels := PurgeDeletes(states, labels, t, e, CellOf(s, e), s.now);
  }

  lemma PurgeDeletes(states: seq<Sys>, labels: seq<Label>, t: Tid, e: Id, c: Cell, now: Time)
    returns (ss: seq<Sys>, ls: seq<Label>)
    requires At(states, labels, t, e, PurgePod, c, now)
    ensures At(ss, ls, t, e, Done(None), Cell(c.row, None, None), now) && ss[0] == states[0]
    ensures ls == labels + [Act(t, Fine), Act(t, Fine)]
  {
    ss, ls := Goes(states, labels, t, e, PurgePod, c, now, Fine);
    ss, ls := Goes(ss, ls, t, e, PurgeConfig, c.(pod := None), now, Fine);
  }

  /** A sweep that finds the running endpoint idle suspends it; the terminate request may fail. */
  lemma IdleSweepStops(s: Sys, t: Tid, e: Id, seen: Time, asked: Out)
    returns (states: seq<Sys>, labels: seq<Label>, d: Cell)
    requires t !in s.threads && InState(CellOf(s, e).row, Running) && CellOf(s, e).row.value.addr.Some?
    requires CellOf(s, e).pod.Some? && s.now - seen >= 1000 * CellOf(s, e).row.value.suspendAfter
    ensures At(states, labels, t, e, Done(None), d, s.now) && states[0] == s
    ensures labels == [Sweep(t, e), Act(t, Fine), Act(t, LastActive(Some(seen))), Act(t, Fine), Act(t, asked),
                       Act(t, Fine), Act(t, Fine), Act(t, Fine)]
    ensures Stopped(CellOf(s, e).row, s.now, d)
  {
    var (c, row) := (CellOf(s, e), CellOf(s, e).row.value);
    states, labels := Begins(s, Sweep(t, e), t, e, SweepStatus(row));
    states, labels, d := WinsIdle(states, labels, t, e, row, c, s.now, seen);
    states, labels, d := WinnerStops(states, labels, t, e, d, s.now, asked);
  }

  lemma WinsIdle(states: seq<Sys>, labels: seq<Label>, t: Tid, e: Id, row: Endpoint, c: Cell, now: Time, seen: Time)
    returns (ss: seq<Sys>, ls: seq<Label>, d: Cell)
    requires At(states, labels, t, e, SweepStatus(row), c, now) && c.row == Some(row) && row.state == Running
    requires row.addr.Some? && c.pod.Some? && now - seen >= 1000 * row.suspendAfter
    ensures At(ss, ls, t, e, Susp(now, Terminate), d, now) && ss[0] == states[0]
    ensures d.row == Some(row.(state := Suspending, updated := now))
    ensures ls == labels + [Act(t, Fine), Act(t, LastActive(Some(seen))), Act(t, Fine)]
  {
    ss, ls := Goes(states, labels, t, e, SweepStatus(row), c, now, Fine);
    ss, ls := Goes(ss, ls, t, e, SweepFetch(row), c, now, LastActive(Some(seen)));
    ss, ls := Goes(ss, ls, t, e, SweepCas, c, now, Fine);
    d := Next(SweepCas, c, now, Fine).cell;
  }

  lemma WinnerStops(states: seq<Sys>, labels: seq<Label>, t: Tid, e: Id, c: Cell, now: Time, asked: Out)
    returns (ss: seq<Sys>, ls: seq<Label>, d: Cell)
    requires At(states, labels, t, e, Susp(now, Terminate), c, now)
    ensures At(ss, ls, t, e, Done(None), d, now) && ss[0] == states[0] && Stopped(c.row, now, d)
    ensures ls == labels + [Act(t, asked), Act(t, Fine), Act(t, Fine), Act(t, Fine)]
  {
    ss, ls := Goes(states, labels, t, e, Susp(now, Terminate), c, now, asked);
    ss, ls := Goes(ss, ls, t, e, Susp(now, StopPod), c, now, Fine);
    ss, ls := Goes(ss, ls, t, e, Susp(now, StopConfig), c.(pod := None), now, Fine);
    ss, ls := Goes(ss, ls, t, e, Susp(now, SetSuspended), c.(pod := None, cm := None), now, Fine);
    d := Next(Susp(now, SetSuspended), c.(pod := None, cm := None), now, Fine).cell;
  }

  /** A takeover clears what the owner before has left, and then begins to start. */
  lemma TakeoverClears(states: seq<Sys>, labels: seq<Label>, t: Tid, e: Id, since: Time, c: Cell, now: Time)
    returns (ss: seq<Sys>, ls: seq<Label>)
    requires At(states, labels, t, e, Own(since, ClearPod), c, now)
    ensures At(ss, ls, t, e, Own(since, SpecAccess), Cell(c.row, None, None), now) && ss[0] == states[0]
    ensures ls == labels + [Act(t, Fine), Act(t, Fine)]
  {
    ss, ls := Goes(states, labels, t, e, Own(since, ClearPod), c, now, Fine);
    ss, ls := Goes(ss, ls, t, e, Own(since, ClearConfig), c.(pod := None), now, Fine);
  }

  /** A start that fails stops what it has started, and then only marks a row that is still `starting`. */
  lemma FailureStops(states: seq<Sys>, labels: seq<Label>, t: Tid, e: Id, since: Time, c: Cell, now: Time)
    returns (ss: seq<Sys>, ls: seq<Label>, d: Cell)
    requires At(states, labels, t, e, Own(since, FailPod), c, now)
    ensures At(ss, ls, t, e, Done(None), d, now) && ss[0] == states[0] && d.pod.None? && d.cm.None?
    ensures d.row == if c.row.Some? && c.row.value.state == Starting
      then Some(c.row.value.(state := Failed, updated := now)) else c.row
    ensures ls == labels + [Act(t, Fine), Act(t, Fine), Act(t, Fine)]
  {
    ss, ls := Goes(states, labels, t, e, Own(since, FailPod), c, now, Fine);
    ss, ls := Goes(ss, ls, t, e, Own(since, FailConfig), c.(pod := None), now, Fine);
    ss, ls := Goes(ss, ls, t, e, Own(since, FailMark), c.(pod := None, cm := None), now, Fine);
    d := Next(Own(since, FailMark), c.(pod := None, cm := None), now, Fine).cell;
  }
}
