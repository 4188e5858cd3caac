/** What every run that begins with an empty system reaches: the starting points of the other theorems. */
module Reachability {
  import opened Base
  import opened Address
  import opened Database
  import opened Cluster
  import opened Lifecycle
  import opened Catalog
  import SingleFlight
  import Takeover
  import ObjectOrder
  import EveryRun
  import Recovery

  /** The cluster hands out IPs without colons. */
  predicate ColonFree(l: Label) { l.PodAddress? ==> ':' !in l.ip }

  /** A waker works with the IP of a pod. */
  predicate IpOk(pc: Pc) {
    pc.Own? ==> (pc.job.Probe? ==> ':' !in pc.job.ip) && (pc.job.SetRunning? ==> ':' !in pc.job.ip)
  }

  ghost predicate AllPlain(s: Sys) {
    && (forall e: Id :: Recovery.Plain(CellOf(s, e), s.now))
    && (forall t :: t in s.threads ==> IpOk(s.threads[t].pc))
  }

  lemma MoveStaysPlain(s: Sys, th: Thread, out: Out)
    requires !th.pc.Done? && IpOk(th.pc) && Recovery.Plain(CellOf(s, th.ep), s.now)
    ensures Recovery.Plain(Move(s, th, out).cell, s.now) && IpOk(Move(s, th, out).pc)
  {
    var c := CellOf(s, th.ep);
    if th.pc.Own? {
      OwnerStaysPlain(s, th.pc.since, th.pc.job, c, th.ep, out);
      assert Move(s, th, out) == OwnerMove(th.pc.since, th.pc.job, c, th.ep, s, out);
    } else if th.pc.Susp? {
      SuspensionStaysPlain(th.pc, c, s.now, out);
      assert Move(s, th, out) == SuspendMove(th.pc.since, th.pc.task, c, s.now, out);
    } else if IsSweep(th.pc) {
      SweepStaysPlain(th.pc, c, s.now, out);
      assert Move(s, th, out) == SweepMove(th.pc, c, s.now, out);
    } else if IsWake(th.pc) {
      WakerStaysPlain(th.pc, c, s.now, th.begun, s.cfg, out);
      assert Move(s, th, out) == WakeMove(th.pc, c, s.now, th.begun, s.cfg, out);
    } else {
      HandlerStaysPlain(th.pc, c, s.now, out);
      assert Move(s, th, out) == HandlerMove(th.pc, c, s.now, out);
    }
  }

  lemma WakerStaysPlain(pc: Pc, c: Cell, now: Time, begun: Time, cfg: Config, out: Out)
    requires IsWake(pc) && Recovery.Plain(c, now)
    ensures var m := WakeMove(pc, c, now, begun, cfg, out);
      Recovery.Plain(m.cell, now) && IpOk(m.pc)
  {
  }

  lemma SuspensionStaysPlain(pc: Pc, c: Cell, now: Time, out: Out)
    requires pc.Susp? && Recovery.Plain(c, now)
    ensures var m := SuspendMove(pc.since, pc.task, c, now, out);
      Recovery.Plain(m.cell, now) && IpOk(m.pc)
  {
    SuspensionTakesAway(pc, c, now, out);
    FewerStaysPlain(c, SuspendMove(pc.since, pc.task, c, now, out).cell, now);
  }

  /** The row is as it was or suspended without address; the pod as it was or gone. */
  predicate Fewer(c: Cell, d: Cell, now: Time) {
    (d.row == c.row || d.row == SuspendRow(c.row, now)) && (d.pod == c.pod || d.pod.None?)
  }

  lemma SuspensionTakesAway(pc: Pc, c: Cell, now: Time, out: Out)
    requires pc.Susp?
    ensures Fewer(c, SuspendMove(pc.since, pc.task, c, now, out).cell, now)
  {
  }

  lemma FewerStaysPlain(c: Cell, d: Cell, now: Time)
    requires Recovery.Plain(c, now) && Fewer(c, d, now)
    ensures Recovery.Plain(d, now)
  {
  }

  lemma SweepStaysPlain(pc: Pc, c: Cell, now: Time, out: Out)
    requires IsSweep(pc) && Recovery.Plain(c, now)
    ensures var m := SweepMove(pc, c, now, out);
      Recovery.Plain(m.cell, now) && IpOk(m.pc)
  {
  }

  lemma HandlerStaysPlain(pc: Pc, c: Cell, now: Time, out: Out)
    requires IsHandler(pc) && Recovery.Plain(c, now)
    ensures var m := HandlerMove(pc, c, now, out);
      Recovery.Plain(m.cell, now) && IpOk(m.pc)
  {
  }

  lemma OwnerStaysPlain(s: Sys, since: Time, job: Job, c: Cell, e: Id, out: Out)
    requires IpOk(Own(since, job)) && Recovery.Plain(c, s.now)
    ensures var m := OwnerMove(since, job, c, e, s, out);
      Recovery.Plain(m.cell, s.now) && IpOk(m.pc)
  {
    if job.SetRunning? { IpOfStoredAddress(job.ip); }
  }

  lemma StepStaysPlain(s: Sys, l: Label)
    requires AllPlain(s) && Enabled(s, l) && ColonFree(l)
    ensures AllPlain(Apply(s, l))
  {
    var s' := Apply(s, l);
    if l.Act? {
      ActedCells(s, l.t, l.out);
      MoveStaysPlain(s, s.threads[l.t], l.out);
    } else if l.Admin? {
      forall e: Id ensures Recovery.Plain(CellOf(s', e), s'.now) {
        AdminRows(s, l.op, e);
      }
    } else if IsPodStep(l) {
      PodStepCells(s, l);
    } else {
      forall e: Id ensures Recovery.Plain(CellOf(s', e), s'.now) {
        assert Recovery.Plain(CellOf(s, e), s.now) && CellOf(s', e) == CellOf(s, e);
      }
    }
  }

  /** A catalog operation leaves a row as it is, removes it, or adds a suspended one now. */
  lemma AdminRows(s: Sys, op: Op, e: Id)
    requires Enabled(s, Admin(op))
    ensures var (a, b) := (CellOf(s, e), CellOf(Apply(s, Admin(op)), e));
      && b.pod == a.pod && b.cm == a.cm
      && (b.row == a.row || b.row.None?
            || (b.row.value.state == Suspended && b.row.value.addr == None && b.row.value.updated == s.now))
  {
  }

  /** In every run rows hold well-formed addresses of the past, whose IPs have no colons if no pod's has. */
  lemma {:induction false} RunsStayPlain(states: seq<Sys>, labels: seq<Label>)
    requires IsRun(states, labels) && AllPlain(states[0])
    requires forall i | 0 <= i < |labels| :: ColonFree(labels[i])
    ensures forall i | 0 <= i < |states| :: AllPlain(states[i])
  {
    for n := 0 to |labels|
      invariant forall i | 0 <= i <= n :: AllPlain(states[i])
    {
      assert states[n + 1] == Apply(states[n], labels[n]);
      StepStaysPlain(states[n], labels[n]);
    }
  }

  /** So the assumption of recovery holds of every existing row, but for what it says of dead pods. */
  lemma ReachableInRuns(states: seq<Sys>, labels: seq<Label>, i: nat, e: Id, h: Time)
    requires IsRun(states, labels) && Empty(states[0]) && i < |states|
    requires forall j | 0 <= j < |labels| :: ColonFree(labels[j])
    requires e in states[i].db.endpoints
    requires var c := CellOf(states[i], e); Recovery.Dead(c, h) ==> c.pod.value.phase != PodRunning
    ensures Recovery.Reachable(states[i], e, h)
  {
    EmptyMeetsAll(states[0]);
    RunsStayPlain(states, labels);
    assert AllPlain(states[i]);
    assert Recovery.Plain(CellOf(states[i], e), states[i].now);
  }

  /** No rows, no objects, no calls. */
  predicate Empty(s: Sys) {
    s.db == EMPTY && s.hist == EMPTY && s.k8s.pods == map[] && s.k8s.configMaps == map[] && s.threads == map[]
  }

  /** The empty system meets every initial condition of the theorems about runs. */
  lemma EmptyMeetsAll(s: Sys)
    requires Empty(s)
    ensures SingleFlight.NobodyOwns(s) && SingleFlight.KnowsEndpoints(s) && Takeover.NobodyDecides(s)
    ensures ObjectOrder.PodsHaveConfigs(s)
    ensures EveryRun.RowsOk(s) && EveryRun.SnapshotsOk(s) && EveryRun.SpecsOk(s)
    ensures AllPlain(s)
  {
    forall e: Id ensures CellOf(s, e) == Cell(None, None, None) {
    }
  }
}
