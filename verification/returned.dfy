/** Where the addresses come from that wakers return. */
module Returned {
  import opened Base
  import opened Address
  import opened Database
  import opened Cluster
  import opened Lifecycle
  import EveryRun

  /** The row is running with this address. */
  ghost predicate Stored(s: Sys, e: Id, a: string) {
    InState(CellOf(s, e).row, Running) && CellOf(s, e).row.value.addr == Some(a)
  }

  /** `a` was stored at some instant of states[w+1..n]. */
  ghost predicate WasStored(states: seq<Sys>, w: nat, n: nat, e: Id, a: string)
    requires n < |states|
  {
    exists k: nat | w < k <= n :: Stored(states[k], e, a)
  }

  /**
   * The evidence behind a returned address, within states[w+1..n]: it was stored while
   * running, and then either this very call had stored it for the pod it saw answer, or
   * the pod was Running with that address at that instant or later.
   */
  ghost predicate Vouched(states: seq<Sys>, labels: seq<Label>, w: nat, n: nat, t: Tid, e: Id, a: string)
    requires n < |states| <= |labels| + 1
  {
    exists k: nat, j: nat | w < k <= j <= n :: Stored(states[k], e, a) && Evidence(states, labels, k, j, t, e, a)
  }

  ghost predicate Evidence(states: seq<Sys>, labels: seq<Label>, k: nat, j: nat, t: Tid, e: Id, a: string)
    requires 0 < k <= j < |states| <= |labels| + 1
  {
    OwnWrite(states, labels, k, t, a) || Matches(CellOf(states[j], e).pod, Some(a))
  }

  ghost predicate OwnWrite(states: seq<Sys>, labels: seq<Label>, k: nat, t: Tid, a: string)
    requires 0 < k < |states| <= |labels| + 1
  {
    var s := states[k - 1];
    labels[k - 1] == Act(t, Fine) && t in s.threads && s.threads[t].pc.Own? && s.threads[t].pc.job.SetRunning?
        && a == s.threads[t].pc.job.ip + ":55433"
  }

  /** From step w on the endpoint's row is there. */
  ghost predicate Kept(states: seq<Sys>, w: nat, e: Id) {
    forall i | w < i < |states| :: e in states[i].db.endpoints
  }

  /** How a waker comes to hold or to return an address. */
  lemma AddressMoves(s: Sys, th: Thread, out: Out, a: string)
    requires !th.pc.Done?
    ensures var (c, m) := (CellOf(s, th.ep), Move(s, th, out));
      && (m.pc == Verify(Some(a)) ==> InState(c.row, Running) && c.row.value.addr == Some(a) && m.cell == c)
      && (m.pc == Done(Some(a)) ==>
            || (th.pc == Verify(Some(a)) && Matches(c.pod, Some(a)) && m.cell == c)
            || (th.pc.Own? && th.pc.job.SetRunning? && a == ComputeAddr(th.pc.job.ip)
                && (c.row.Some? ==> InState(m.cell.row, Running) && m.cell.row.value.addr == Some(a))))
  {
    var c := CellOf(s, th.ep);
    if th.pc.Own? {
      OwnerAddressMoves(s, th.pc.since, th.pc.job, c, th.ep, out, a);
      assert Move(s, th, out) == OwnerMove(th.pc.since, th.pc.job, c, th.ep, s, out);
    } else if th.pc.Susp? {
      assert Move(s, th, out) == SuspendMove(th.pc.since, th.pc.task, c, s.now, out);
    } else if IsWake(th.pc) {
      assert Move(s, th, out) == WakeMove(th.pc, c, s.now, th.begun, s.cfg, out);
    }
  }

  lemma OwnerAddressMoves(s: Sys, since: Time, job: Job, c: Cell, e: Id, out: Out, a: string)
    ensures var m := OwnerMove(since, job, c, e, s, out);
      && !m.pc.Verify?
      && (m.pc == Done(Some(a)) ==>
            job.SetRunning? && a == ComputeAddr(job.ip)
            && (c.row.Some? ==> InState(m.cell.row, Running) && m.cell.row.value.addr == Some(a)))
  {
  }

  /**
   * In every run, for every call to Wake (begun by step w, thread t) during which the row is
   * not deleted: an address it returns was the stored address of the running row at some
   * instant inside the call; unless the call itself stored it, the pod was Running with
   * that address at a later instant of the call. It has the form ip:55433.
   */
  lemma {:induction false} ReturnedAddressesAreVouched(states: seq<Sys>, labels: seq<Label>, w: nat, t: Tid, e: Id,
      a: string)
    requires IsRun(states, labels) && w < |labels| && labels[w] == Wake(t, e)
    requires Kept(states, w, e) && forall i | w < i < |states| :: t in states[i].threads
    requires states[|labels|].threads[t].pc == Done(Some(a))
    ensures Vouched(states, labels, w, |labels|, t, e, a)
    ensures EveryRun.RowsOk(states[0]) && EveryRun.SnapshotsOk(states[0]) ==> a == IpOf(a) + ":55433"
  {
    assert states[w + 1] == Apply(states[w], labels[w]);
    for n := w + 1 to |labels|
      invariant t in states[n].threads && states[n].threads[t].ep == e
      invariant states[n].threads[t].pc == Verify(Some(a)) ==> WasStored(states, w, n, e, a)
      invariant states[n].threads[t].pc == Done(Some(a)) ==> Vouched(states, labels, w, n, t, e, a)
    {
      assert states[n + 1] == Apply(states[n], labels[n]) && t in states[n + 1].threads;
      if labels[n].Act? && labels[n].t == t {
        OwnStep(states, labels, w, n, t, e, a);
      } else {
        OthersKeepThread(states[n], labels[n], t);
        LongerWindow(states, labels, w, n, t, e, a);
      }
    }
    if EveryRun.RowsOk(states[0]) && EveryRun.SnapshotsOk(states[0]) {
      VouchedAddressesHavePort(states, labels, w, |labels|, t, e, a);
    }
  }

  /** And it has the form ip:55433. */
  lemma VouchedAddressesHavePort(states: seq<Sys>, labels: seq<Label>, w: nat, n: nat, t: Tid, e: Id, a: string)
    requires IsRun(states, labels) && EveryRun.RowsOk(states[0]) && EveryRun.SnapshotsOk(states[0])
    requires n < |states| && Vouched(states, labels, w, n, t, e, a)
    ensures a == IpOf(a) + ":55433"
  {
    EveryRun.RunningRowsAreComplete(states, labels);
    var k: nat :| w < k <= n && Stored(states[k], e, a);
    assert EveryRun.RowsOk(states[k]);
    assert EveryRun.IsComputeAddr(a);
  }

  lemma LongerWindow(states: seq<Sys>, labels: seq<Label>, w: nat, n: nat, t: Tid, e: Id, a: string)
    requires n + 1 < |states| <= |labels| + 1
    ensures WasStored(states, w, n, e, a) ==> WasStored(states, w, n + 1, e, a)
    ensures Vouched(states, labels, w, n, t, e, a) ==> Vouched(states, labels, w, n + 1, t, e, a)
  {
  }

  lemma OwnStep(states: seq<Sys>, labels: seq<Label>, w: nat, n: nat, t: Tid, e: Id, a: string)
    requires IsRun(states, labels) && w < n < |labels| && labels[n].Act? && labels[n].t == t
    requires t in states[n].threads && states[n].threads[t].ep == e && e in states[n].db.endpoints
    requires states[n].threads[t].pc == Verify(Some(a)) ==> WasStored(states, w, n, e, a)
    ensures states[n + 1].threads[t].ep == e
    ensures states[n + 1].threads[t].pc == Verify(Some(a)) ==> WasStored(states, w, n + 1, e, a)
    ensures states[n + 1].threads[t].pc == Done(Some(a)) ==> Vouched(states, labels, w, n + 1, t, e, a)
  {
    var (s, s') := (states[n], states[n + 1]);
    assert s' == Apply(s, labels[n]);
    ActedCells(s, t, labels[n].out);
    AddressMoves(s, s.threads[t], labels[n].out, a);
    if s'.threads[t].pc == Verify(Some(a)) {
      assert Stored(s', e, a);
    } else if s'.threads[t].pc == Done(Some(a)) {
      if s.threads[t].pc == Verify(Some(a)) {
        var k: nat :| w < k <= n && Stored(states[k], e, a);
        assert Evidence(states, labels, k, n, t, e, a);
      } else {
        PortIs55433(s.threads[t].pc.job.ip);
        assert Stored(states[n + 1], e, a) && OwnWrite(states, labels, n + 1, t, a);
        assert Evidence(states, labels, n + 1, n + 1, t, e, a);
      }
    }
  }
}
