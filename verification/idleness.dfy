/**
 * The sweep and fresh computes. SetEndpointRunning stores the start time, and a sweep that
 * lists the row after that and hears of no activity leaves the endpoint alone for as long as
 * its threshold says. A sweep that listed the row before may suspend it all the same.
 */
module Idleness {
  import opened Base
  import opened Address
  import opened Database
  import opened Cluster
  import opened Lifecycle
  import opened SingleFlight
  import opened Convergence
  import opened Starts
  import opened Restart
  import opened Hazards

  // ---- what a step may do to a row

  /** A row as written by a compare-and-swap, by SetEndpointRunning, by SetEndpointSuspended, or not at all. */
  predicate RowStep(was: Endpoint, row: Endpoint, now: Time) {
    || row == was
    || (exists st: EpState :: row == was.(state := st, updated := now))
    || row == was.(state := Suspended, addr := None, updated := now)
    || (row.addr.Some? && Ran(was, row, row.addr.value, now))
  }

  lemma MovesWriteRows(s: Sys, th: Thread, out: Out)
    requires !th.pc.Done?
    ensures var (a, b) := (CellOf(s, th.ep).row, Move(s, th, out).cell.row);
      (a.Some? <==> b.Some?) && (a.Some? ==> RowStep(a.value, b.value, s.now))
  {
    var c := CellOf(s, th.ep);
    if th.pc.Own? {
      OwnerWritesRows(th.pc.since, th.pc.job, c, th.ep, s, out);
      assert Move(s, th, out) == OwnerMove(th.pc.since, th.pc.job, c, th.ep, s, out);
    } else if th.pc.Susp? {
      assert Move(s, th, out) == SuspendMove(th.pc.since, th.pc.task, c, s.now, out);
    } else if IsWake(th.pc) {
      WakerWritesRows(th.pc, c, s.now, th.begun, s.cfg, out);
      assert Move(s, th, out) == WakeMove(th.pc, c, s.now, th.begun, s.cfg, out);
    }
  }

  lemma OwnerWritesRows(since: Time, job: Job, c: Cell, e: Id, s: Sys, out: Out)
    ensures var b := OwnerMove(since, job, c, e, s, out).cell.row;
      (c.row.Some? <==> b.Some?) && (c.row.Some? ==> RowStep(c.row.value, b.value, s.now))
  {
  }

  lemma WakerWritesRows(pc: Pc, c: Cell, now: Time, begun: Time, cfg: Config, out: Out)
    requires IsWake(pc)
    ensures var b := WakeMove(pc, c, now, begun, cfg, out).cell.row;
      (c.row.Some? <==> b.Some?) && (c.row.Some? ==> RowStep(c.row.value, b.value, now))
  {
  }

  /** SetEndpointRunning in the transition system: the row field by field. */
  lemma RunningIsStored(s: Sys, t: Tid, out: Out)
    requires Enabled(s, Act(t, out)) && SetsRunning(s, Act(t, out))
    ensures var (e, ip) := (s.threads[t].ep, s.threads[t].pc.job.ip);
      var row := CellOf(Apply(s, Act(t, out)), e).row;
      row.Some? && Ran(CellOf(s, e).row.value, row.value, ip + ":55433", s.now)
  {
    ActedCells(s, t, out);
    PortIs55433(s.threads[t].pc.job.ip);
    var (th, c) := (s.threads[t], CellOf(s, s.threads[t].ep));
    assert Move(s, th, out) == ReadyMove(th.pc.since, th.pc.job, c, s.now, out);
  }

  // ---- rows since a start

  /** The row, if it still exists, has the threshold `after` and was started at `start` or later. */
  predicate StartedSince(row: Option<Endpoint>, start: Time, after: int) {
    row.Some? ==> row.value.suspendAfter == after && row.value.lastStarted.Some? && row.value.lastStarted.value >= start
  }

  ghost predicate UpSince(s: Sys, e: Id, start: Time, after: int) {
    StartedSince(CellOf(s, e).row, start, after) && e in s.hist.endpoints && s.now >= start
  }

  lemma StepStaysFresh(s: Sys, l: Label, s': Sys, e: Id, start: Time, after: int)
    requires UpSince(s, e, start, after) && Enabled(s, l) && s' == Apply(s, l)
    ensures UpSince(s', e, start, after)
  {
    if l.Act? {
      ActedCells(s, l.t, l.out);
      if s.threads[l.t].ep == e {
        MovesWriteRows(s, s.threads[l.t], l.out);
      }
    } else {
      OtherStepsKeepRows(s, l, e);
    }
  }

  /** The sweep's thread works on a row that fresh. */
  predicate ListedSince(pc: Pc, start: Time, after: int) {
    (pc.SweepStatus? || pc.SweepFetch?) ==> StartedSince(Some(pc.row), start, after)
  }

  ghost predicate Working(s: Sys, t: Tid, e: Id, start: Time, after: int) {
    t in s.threads && s.threads[t].ep == e && ListedSince(s.threads[t].pc, start, after)
  }

  lemma SweepKeepsListing(s: Sys, l: Label, s': Sys, t: Tid, e: Id, start: Time, after: int)
    requires Enabled(s, l) && s' == Apply(s, l) && t in s'.threads && Working(s, t, e, start, after)
    ensures Working(s', t, e, start, after)
  {
    if l.Act? && l.t == t {
      SweepsKeepTheirRow(s, s.threads[t], l.out);
    } else {
      OthersKeepThread(s, l, t);
    }
  }

  /** No position gains a listed row, and compute_ctl is only asked at an address, with the pod there. */
  lemma SweepsKeepTheirRow(s: Sys, th: Thread, out: Out)
    requires !th.pc.Done?
    ensures var pc := Move(s, th, out).pc;
      (pc.SweepStatus? || pc.SweepFetch?) ==>
        th.pc.SweepStatus? && pc.row == th.pc.row && pc.row.addr.Some? && CellOf(s, th.ep).pod.Some?
  {
    var c := CellOf(s, th.ep);
    if th.pc.Own? {
      assert Move(s, th, out) == OwnerMove(th.pc.since, th.pc.job, c, th.ep, s, out);
    } else if th.pc.Susp? {
      assert Move(s, th, out) == SuspendMove(th.pc.since, th.pc.task, c, s.now, out);
    } else if IsWake(th.pc) {
      assert Move(s, th, out) == WakeMove(th.pc, c, s.now, th.begun, s.cfg, out);
    }
  }

  lemma {:induction false} KnownThroughout(states: seq<Sys>, labels: seq<Label>, n: nat)
    requires IsRun(states, labels) && KnowsEndpoints(states[0]) && n <= |labels|
    ensures KnowsEndpoints(states[n])
    decreases n
  {
    if n > 0 {
      KnownThroughout(states, labels, n - 1);
      assert states[n] == Apply(states[n - 1], labels[n - 1]);
      StepKeepsKnown(states[n - 1], labels[n - 1]);
    }
  }

  lemma StartsFresh(states: seq<Sys>, labels: seq<Label>, i: nat, e: Id)
    requires IsRun(states, labels) && KnowsEndpoints(states[0]) && i < |labels|
    requires SetsRunning(states[i], labels[i]) && states[i].threads[labels[i].t].ep == e
    ensures UpSince(states[i + 1], e, states[i].now, CellOf(states[i], e).row.value.suspendAfter)
  {
    KnownThroughout(states, labels, i);
    assert states[i + 1] == Apply(states[i], labels[i]);
    assert e in states[i].db.endpoints;
    RunningIsStored(states[i], labels[i].t, labels[i].out);
  }

  ghost predicate FreshStays(s: Sys, s': Sys, e: Id, start: Time, after: int) {
    UpSince(s, e, start, after) ==> UpSince(s', e, start, after)
  }

  lemma RunsStayFresh(states: seq<Sys>, labels: seq<Label>, j: nat, e: Id, start: Time, after: int)
    requires IsRun(states, labels) && j < |labels|
    ensures FreshStays(states[j], states[j + 1], e, start, after)
  {
    if UpSince(states[j], e, start, after) {
      StepStaysFresh(states[j], labels[j], states[j + 1], e, start, after);
    }
  }

  lemma {:induction false} StaysFresh(states: seq<Sys>, i: nat, k: nat, e: Id, start: Time, after: int)
    requires forall j | 0 <= j < |states| - 1 :: FreshStays(states[j], states[j + 1], e, start, after)
    requires i <= k < |states| && UpSince(states[i], e, start, after)
    ensures UpSince(states[k], e, start, after)
    decreases k
  {
    if k > i {
      StaysFresh(states, i, k - 1, e, start, after);
      assert FreshStays(states[k - 1], states[k - 1 + 1], e, start, after);
    }
  }

  lemma ListsFresh(states: seq<Sys>, labels: seq<Label>, k: nat, t: Tid, e: Id, start: Time, after: int)
    requires IsRun(states, labels) && k < |labels| && labels[k] == Sweep(t, e) && UpSince(states[k], e, start, after)
    ensures Working(states[k + 1], t, e, start, after)
  {
    assert states[k + 1] == Apply(states[k], labels[k]);
  }

  /** The thread is there from state k on, up to state n. */
  ghost predicate Lives(states: seq<Sys>, t: Tid, k: nat, n: nat)
    requires n < |states|
  {
    forall j | k <= j <= n :: t in states[j].threads
  }

  ghost predicate WorkStays(s: Sys, s': Sys, t: Tid, e: Id, start: Time, after: int) {
    Working(s, t, e, start, after) && t in s'.threads ==> Working(s', t, e, start, after)
  }

  lemma RunsKeepListing(states: seq<Sys>, labels: seq<Label>, j: nat, t: Tid, e: Id, start: Time, after: int)
    requires IsRun(states, labels) && j < |labels|
    ensures WorkStays(states[j], states[j + 1], t, e, start, after)
  {
    if Working(states[j], t, e, start, after) && t in states[j + 1].threads {
      SweepKeepsListing(states[j], labels[j], states[j + 1], t, e, start, after);
    }
  }

  lemma {:induction false} KeepsListing(states: seq<Sys>, k: nat, n: nat, t: Tid, e: Id, start: Time, after: int)
    requires forall j | 0 <= j < |states| - 1 :: WorkStays(states[j], states[j + 1], t, e, start, after)
    requires k <= n < |states| && Lives(states, t, k, n) && Working(states[k], t, e, start, after)
    ensures Working(states[n], t, e, start, after)
    decreases n
  {
    if n > k {
      KeepsListing(states, k, n - 1, t, e, start, after);
      assert WorkStays(states[n - 1], states[n - 1 + 1], t, e, start, after);
    }
  }

  lemma FetchSpares(s: Sys, t: Tid, start: Time, after: int)
    requires Enabled(s, Act(t, LastActive(None))) && s.threads[t].pc.SweepFetch?
    requires ListedSince(s.threads[t].pc, start, after) && s.now - start < 1000 * after
    ensures Apply(s, Act(t, LastActive(None))).threads[t].pc == Done(None)
  {
    FetchDecides(s.threads[t].pc.row, CellOf(s, s.threads[t].ep), s.now, LastActive(None));
  }

  /**
   * In every run: step i sets the endpoint running, step k lists it for a sweep, and at step n
   * that sweep hears that compute_ctl has seen no activity, less than suspendAfter seconds
   * after step i. Then it leaves the endpoint alone.
   */
  lemma FreshStartsAreSpared(states: seq<Sys>, labels: seq<Label>, i: nat, k: nat, n: nat, t: Tid, e: Id)
    requires IsRun(states, labels) && KnowsEndpoints(states[0]) && i < k < n < |labels|
    requires SetsRunning(states[i], labels[i]) && states[i].threads[labels[i].t].ep == e
    requires labels[k] == Sweep(t, e) && labels[n] == Act(t, LastActive(None))
    requires Lives(states, t, k + 1, n) && states[n].threads[t].pc.SweepFetch?
    requires states[n].now - states[i].now < 1000 * CellOf(states[i], e).row.value.suspendAfter
    ensures states[n + 1].threads[t].pc == Done(None)
  {
    var (start, after) := (states[i].now, CellOf(states[i], e).row.value.suspendAfter);
    StartsFresh(states, labels, i, e);
    forall j | 0 <= j < |labels|
      ensures FreshStays(states[j], states[j + 1], e, start, after) && WorkStays(states[j], states[j + 1], t, e, start,
                after)
    {
      RunsStayFresh(states, labels, j, e, start, after);
      RunsKeepListing(states, labels, j, t, e, start, after);
    }
    StaysFresh(states, i + 1, k, e, start, after);
    ListsFresh(states, labels, k, t, e, start, after);
    KeepsListing(states, k + 1, n, t, e, start, after);
    assert states[n + 1] == Apply(states[n], labels[n]);
    FetchSpares(states[n], t, start, after);
  }

  // ---- an older listing

  /** A waker repairs the running row without pod, starts the endpoint again and is about to say so. */
  lemma StartsAnew(p: Place, states: seq<Sys>, labels: seq<Label>, c: Cell, starts: int, u: Tid, ip: string)
    returns (ss: seq<Sys>, ls: seq<Label>, d: Cell)
    requires Here(p, states, labels, c, starts) && u !in states[|labels|].threads && ip != ""
    requires InState(c.row, Running) && c.pod.None? && c.cm.None?
    ensures StandsAt(p, ss, ls, d, starts + 1, u, Own(p.now, SetRunning(ip))) && ss[0] == states[0]
    ensures InState(d.row, Starting) && d.pod.Some? && OthersSame(states[|labels|], ss[|ls|], u)
  {
    var spec;
    ss, ls := Arrives(p, states, labels, c, starts, u);
    ss, ls, d := RepairsFromTop(p, ss, ls, c, starts, u);
    ss, ls, d := WinsSuspended(p, ss, ls, d, starts, u);
    ss, ls, spec := ReadsSpec(p, ss, ls, d, starts, u);
    ss, ls, d := GetsPod(p, ss, ls, d, starts, u, spec, ip);
    ss, ls := IsToldEarly(p, ss, ls, d, starts + 1, u);
  }

  /** A sweep of an older listing meets a running row with a pod: it judges by the row it has listed. */
  lemma SweepsOldListing(states: seq<Sys>, labels: seq<Label>, t: Tid, e: Id, row: Endpoint)
    returns (ss: seq<Sys>, ls: seq<Label>)
    requires IsRun(states, labels) && t in states[|labels|].threads && states[|labels|].threads[t].ep == e
    requires states[|labels|].threads[t].pc == SweepStatus(row) && row.addr.Some? && row.lastStarted.Some?
    requires InState(CellOf(states[|labels|], e).row, Running) && CellOf(states[|labels|], e).pod.Some?
    requires states[|labels|].now - row.lastStarted.value >= 1000 * row.suspendAfter
    ensures IsRun(ss, ls) && states <= ss && labels <= ls
    ensures ss[|ls|].now == states[|labels|].now && InState(CellOf(ss[|ls|], e).row, Suspending)
  {
    ss, ls := ActOn(states, labels, t, Fine);
    FetchDecides(row, CellOf(ss[|ls|], e), ss[|ls|].now, LastActive(None));
    ss, ls := ActOn(ss, ls, t, LastActive(None));
    ss, ls := ActOn(ss, ls, t, Fine);
  }

  /**
   * The listing has to be newer than the start. From every running row started long enough
   * ago whose pod is lost: a sweep lists it, a waker repairs the row and starts it again, and
   * at the very instant of that start the sweep, hearing of no activity, suspends it.
   */
  lemma OldListingSuspends(s: Sys, e: Id, ac: AccessControl, ip: string, t: Tid, u: Tid)
    returns (states: seq<Sys>, labels: seq<Label>, i: nat)
    requires t != u && t !in s.threads && u !in s.threads && forall v :: v in s.threads ==> s.threads[v].ep != e
    requires var c := CellOf(s, e);
      InState(c.row, Running) && c.pod.None? && c.cm.None? && c.row.value.addr.Some? && c.row.value.lastStarted.Some?
          && s.now - c.row.value.lastStarted.value >= 1000 * c.row.value.suspendAfter
    requires AccessControlOf(s.db, e) == Some(ac) && KnowsEndpoints(s) && s.cfg.readyTimeout > 0 && ip != ""
    ensures IsRun(states, labels) && states[0] == s && 0 < i < |labels| && labels[0] == Sweep(t, e)
    ensures SetsRunning(states[i], labels[i]) && states[i].threads[labels[i].t].ep == e
    ensures states[i].now == states[|labels|].now == s.now && InState(CellOf(states[|labels|], e).row, Suspending)
  {
    var (p, row) := (Place(e, ac, s.now, s.cfg), CellOf(s, e).row.value);
    var z := Lists(s, t, e);
    assert Here(p, [z], [], CellOf(s, e), z.starts[e]);
    var ss, ls, d := StartsAnew(p, [z], [], CellOf(s, e), z.starts[e], u, ip);
    assert ss[|ls|].threads[t] == z.threads[t];
    Concat([s, z], [Sweep(t, e)], ss, ls);
    states, labels, i := [s, z] + ss[1..], [Sweep(t, e)] + ls, 1 + |ls|;
    assert Move(states[i], states[i].threads[u], Fine) == ReadyMove(p.now, SetRunning(ip), d, s.now, Fine);
    var s2, l2 := ActOn(states, labels, u, Fine);
    states, labels := SweepsOldListing(s2, l2, t, e, row);
    assert labels[i] == l2[i] && states[i] == s2[i];
  }
}
