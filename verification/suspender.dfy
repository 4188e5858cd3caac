/** The suspend sweep run by itself: what it leaves of every endpoint. */
module Suspending {
  import opened Base
  import opened Address
  import opened Database
  import opened Cluster
  import opened Storage
  import opened Runtime
  import opened Lifecycle

  /**
   * How the calls about one endpoint go during a sweep: the status call, the last activity
   * compute_ctl reports (None when it cannot be asked), the clock, the compare-and-swap, the
   * terminate request, the two deletes and the final write.
   */
  datatype Visit = Visit(
    status: bool, activity: Option<Option<Time>>, now: Time, swap: bool,
    terminate: bool, delPod: Fate, delConfig: Fate, write: bool)

  predicate Faultless(v: Visit) {
    v.status && v.activity.Some? && v.swap && v.delPod == Fate.Done && v.delConfig == Fate.Done && v.write
  }

  /** What the sweep has been told makes the endpoint idle. */
  predicate FoundIdle(row: Endpoint, v: Visit) {
    v.activity.Some? && IdleSince(row, v.activity.value).Some?
        && IsIdle(row, IdleSince(row, v.activity.value).value, v.now)
  }

  /** `a` is the last activity reported, or the start time where compute_ctl has seen none yet. */
  predicate SeenAt(row: Endpoint, v: Visit, a: Time) {
    v.activity == Some(Some(a)) || (v.activity == Some(None) && row.lastStarted == Some(a))
  }

  /** What the sweep's decision means, for every row and visit. */
  lemma FoundIdleExactly(row: Endpoint, v: Visit)
    ensures FoundIdle(row, v) <==> exists a: Time :: SeenAt(row, v, a) && v.now - a >= 1000 * row.suspendAfter
  {
    if FoundIdle(row, v) {
      assert SeenAt(row, v, IdleSince(row, v.activity.value).value);
    }
  }

  /** An endpoint's row and objects in a store and a runtime. */
  ghost function At(store: Store, runtime: K8sRuntime, e: Id): Cell
    reads store, runtime
  {
    Cell(Get(store.db.endpoints, e), PodOf(runtime.objects, e), ConfigOf(runtime.objects, e))
  }

  /** The sweep won the endpoint, and so asks its compute to terminate. */
  predicate Wins(c: Cell, v: Visit) {
    c.row.Some? && c.row.value.state == Running && c.pod.Some? && c.row.value.addr.Some? && v.status
        && FoundIdle(c.row.value, v) && v.swap
  }

  /**
   * The outcomes of a sweep for a running endpoint `c`, told apart by the state of the row:
   * still running and untouched; suspended without address and without pod; or left in
   * `suspending` because Stop or the last write failed.
   */
  ghost predicate Swept(c: Cell, v: Visit, d: Cell)
    requires c.row.Some?
  {
    d.row.Some? &&
    match d.row.value.state
    case Running =>
      d == c && (!v.status || (c.pod.None? && !v.write)
          || (c.pod.Some? && (c.row.value.addr.None? || !FoundIdle(c.row.value, v) || !v.swap)))
    case Suspended =>
      && v.status && v.write && d.row.value == c.row.value.(state := Suspended, addr := None, updated := v.now)
      && d.pod.None?
      && (c.pod.None? ==> d.cm == c.cm)
      && (c.pod.Some? ==> Wins(c, v) && v.delPod == Fate.Done && v.delConfig == Fate.Done && d.cm.None?)
    case Suspending =>
      && Wins(c, v)
      && d.row.value == c.row.value.(state := Suspending, updated := v.now)
      && (v.delPod != Fate.Done || v.delConfig != Fate.Done || !v.write)
      && d.pod == (if v.delPod == Fate.Failed then c.pod else None)
      && d.cm == (if v.delPod == Fate.Done && v.delConfig != Fate.Failed then None else c.cm)
    case _ => false
  }

  /** compute_ctl as the sweep reaches it: the addresses whose compute took a terminate request. */
  class ComputeCtl {
    var terminated: seq<string>

    constructor () ensures terminated == [] { terminated := []; }

    method Terminate(addr: string, up: bool) returns (ok: bool)
      modifies this
      ensures ok == up && terminated == old(terminated) + if ok then [IpOf(addr)] else []
    {
      ok := up;
      if ok {
        terminated := terminated + [IpOf(addr)];
      }
    }
  }

  /** If there is a pod, nothing has happened to the endpoint, and nobody was asked to terminate. */
  predicate Spared(c: Cell, d: Cell, asked: seq<string>, asks: seq<string>) {
    c.pod.Some? ==> d == c && asks == asked
  }

  /** The row is suspended without address, and there is no pod. */
  predicate Retired(row: Endpoint, now: Time, d: Cell) {
    d.row == Some(row.(state := Suspended, addr := None, updated := now)) && d.pod.None?
  }

  class Suspender {
    const store: Store
    const runtime: K8sRuntime
    const ctl: ComputeCtl

    constructor (store: Store, runtime: K8sRuntime, ctl: ComputeCtl)
      ensures this.store == store && this.runtime == runtime && this.ctl == ctl
    {
      this.store, this.runtime, this.ctl := store, runtime, ctl;
    }

    /** sweepOne, for a listed row that has not changed since. */
    method SweepOne(e: Id, row: Endpoint, v: Visit)
      requires e in store.db.endpoints && store.db.endpoints[e] == row && row.state == Running
      modifies store, runtime, ctl
      ensures Swept(old(At(store, runtime, e)), v, At(store, runtime, e))
      ensures forall d: Id :: d != e ==> At(store, runtime, d) == old(At(store, runtime, d))
      ensures ctl.terminated == old(ctl.terminated) + if Wins(old(At(store, runtime, e)), v)
          && v.terminate then [IpOf(row.addr.value)] else []
      // active: reported, or started and never reported, less than suspendAfter seconds ago
      ensures forall a: Time | v.activity == Some(Some(a)) && v.now - a < 1000 * row.suspendAfter ::
        Spared(old(At(store, runtime, e)), At(store, runtime, e), old(ctl.terminated), ctl.terminated)
      ensures forall a: Time | v.activity == Some(None) && row.lastStarted == Some(a)
          && v.now - a < 1000 * row.suspendAfter ::
        Spared(old(At(store, runtime, e)), At(store, runtime, e), old(ctl.terminated), ctl.terminated)
      // idle, and every call goes through
      ensures Faultless(v) && row.addr.Some? ==>
        forall a: Time | v.activity == Some(Some(a)) && v.now - a >= 1000 * row.suspendAfter ::
          Retired(row, v.now, At(store, runtime, e))
      ensures Faultless(v) && row.addr.Some? && v.activity == Some(None) && row.lastStarted.Some? ==>
        v.now - row.lastStarted.value >= 1000 * row.suspendAfter ==> Retired(row, v.now, At(store, runtime, e))
    {
      var st := runtime.Status(e, v.status);
      if st.Err? {
        return;
      }
      if st.value.None? {
        var ok := store.SetEndpointSuspended(e, v.now, v.write);
        return;
      }
      if row.addr.None? || v.activity.None? {
        return;
      }
      var lastActive := v.activity.value;
      if lastActive.None? {
        if row.lastStarted.None? {
          return;
        }
        lastActive := row.lastStarted;
      }
      if v.now - lastActive.value < 1000 * row.suspendAfter {
        return;
      }
      Retire(e, row, v);
    }

    /** The tail of sweepOne once the endpoint is found idle. */
    method Retire(e: Id, row: Endpoint, v: Visit)
      requires e in store.db.endpoints && store.db.endpoints[e] == row && row.state == Running
      requires PodOf(runtime.objects, e).Some? && v.status && FoundIdle(row, v) && row.addr.Some?
      modifies store, runtime, ctl
      ensures Swept(old(At(store, runtime, e)), v, At(store, runtime, e))
      ensures forall d: Id :: d != e ==> At(store, runtime, d) == old(At(store, runtime, d))
      ensures ctl.terminated == old(ctl.terminated) + if v.swap && v.terminate then [IpOf(row.addr.value)] else []
    {
      var won := store.TransitionEndpoint(e, Running, Suspending, v.now, v.swap);
      if won != Ok(true) {
        return;
      }
      var asked := ctl.Terminate(row.addr.value, v.terminate);    // a failure is only logged
      var stopped := runtime.Stop(e, v.delPod, v.delConfig);
      if !stopped {
        return;
      }
      var ok := store.SetEndpointSuspended(e, v.now, v.write);
    }

    /**
     * Sweep: rows that were not running stay as they were; every running row ends in exactly
     * one of the outcomes of Swept; and when no call fails, no running row is left whose pod
     * was missing or whose idle time had reached its threshold.
     */
    method Sweep(listUp: bool, visits: Id -> Visit) returns (ok: bool)
      modifies store, runtime, ctl
      ensures ok == listUp
      ensures forall e: Id :: !(ok && InState(old(At(store, runtime, e)).row, Running)) ==>
          At(store, runtime, e) == old(At(store, runtime, e))
      ensures ok ==> forall e: Id :: InState(old(At(store, runtime, e)).row, Running) ==>
        Swept(old(At(store, runtime, e)), visits(e), At(store, runtime, e))
      // active endpoints with a pod are spared, idle ones are suspended if the calls go through
      ensures ok ==> forall e: Id :: InState(old(At(store, runtime, e)).row, Running) ==>
        Judged(old(At(store, runtime, e)), visits(e), At(store, runtime, e))
      ensures old(ctl.terminated) <= ctl.terminated
      ensures ok ==> forall e: Id :: Wins(old(At(store, runtime, e)), visits(e)) && visits(e).terminate ==>
        IpOf(old(At(store, runtime, e)).row.value.addr.value) in ctl.terminated
      ensures ok ==> forall e: Id ::
          InState(At(store, runtime, e).row, Running) && Faultless(visits(e))
              && At(store, runtime, e).row.value.addr.Some? ==>
        At(store, runtime, e).pod.Some? && !FoundIdle(At(store, runtime, e).row.value, visits(e))
    {
      var eps := store.ListEndpointsByState(Running, listUp);
      if eps.Err? {
        return false;
      }
      for n := 0 to |eps.value|
        invariant forall e: Id :: e !in eps.value[..n] ==> At(store, runtime, e) == old(At(store, runtime, e))
        invariant old(ctl.terminated) <= ctl.terminated
        invariant forall e: Id ::
            e in eps.value[..n] && Wins(old(At(store, runtime, e)), visits(e)) && visits(e).terminate ==>
          IpOf(old(At(store, runtime, e)).row.value.addr.value) in ctl.terminated
        invariant forall e: Id :: e in eps.value[..n] ==>
            Swept(old(At(store, runtime, e)), visits(e), At(store, runtime, e))
      {
        var e := eps.value[n];
        assert At(store, runtime, e) == old(At(store, runtime, e));
        assert InState(At(store, runtime, e).row, Running);
        SweepOne(e, store.db.endpoints[e], visits(e));
        assert eps.value[..n + 1] == eps.value[..n] + [e];
      }
      ok := true;
      assert eps.value[..|eps.value|] == eps.value;
      forall e: Id | InState(old(At(store, runtime, e)).row, Running)
        ensures Judged(old(At(store, runtime, e)), visits(e), At(store, runtime, e))
      {
        SweptIsJudged(old(At(store, runtime, e)), visits(e), At(store, runtime, e));
      }
    }
  }

  /** The outcome by the age of the last activity. */
  ghost predicate Judged(c: Cell, v: Visit, d: Cell)
    requires c.row.Some?
  {
    forall a: Time :: SeenAt(c.row.value, v, a) ==>
      && (c.pod.Some? && v.now - a < 1000 * c.row.value.suspendAfter ==> d == c)
      && (c.row.value.addr.Some? && Faultless(v) && v.now - a >= 1000 * c.row.value.suspendAfter ==>
            Retired(c.row.value, v.now, d))
  }

  lemma SweptIsJudged(c: Cell, v: Visit, d: Cell)
    requires c.row.Some? && c.row.value.state == Running && Swept(c, v, d)
    ensures Judged(c, v, d)
  {
    FoundIdleExactly(c.row.value, v);
  }

  /** A sweep leaves the endpoint in one way only: row and objects follow from what it found and how its calls went. */
  lemma OneOutcome(c: Cell, v: Visit, d: Cell, f: Cell)
    requires c.row.Some? && c.row.value.state == Running && Swept(c, v, d) && Swept(c, v, f)
    ensures d == f
  {
  }

  /** And the same way whether or not the terminate request succeeds. */
  lemma TerminateDoesNotMatter(c: Cell, v: Visit, terminated: bool, d: Cell, f: Cell)
    requires c.row.Some? && c.row.value.state == Running && Swept(c, v, d) && Swept(c, v.(terminate := terminated), f)
    ensures d == f
  {
    assert Swept(c, v, f);
    OneOutcome(c, v, d, f);
  }
}
