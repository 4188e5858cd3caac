/** The broken promise, from nothing: one crash, and two live owners start the same endpoint. */
module Overlap {
  import opened Base
  import opened Database
  import opened Cluster
  import opened Lifecycle
  import opened Catalog
  import opened SingleFlight
  import opened Takeover
  import opened Reachability

  /** Thread `t` owns `e` and is about to do `job`; the catalog finds the endpoint. */
  ghost predicate Owning(z: Sys, t: Tid, e: Id, ac: AccessControl, since: Time, job: Job) {
    t in z.threads && z.threads[t].ep == e && z.threads[t].pc == Own(since, job)
        && AccessControlOf(z.db, e) == Some(ac) && CellOf(z, e).row.Some?
  }

  /** One successful step of an owner that leaves the row alone. */
  lemma OwnerStep(states: seq<Sys>, labels: seq<Label>, t: Tid, e: Id, ac: AccessControl, since: Time, job: Job)
    returns (ss: seq<Sys>, ls: seq<Label>, m: Effect)
    requires IsRun(states, labels) && Owning(states[|labels|], t, e, ac, since, job)
    requires OwnerMove(since, job, CellOf(states[|labels|], e), e, states[|labels|],
        Fine).cell.row == CellOf(states[|labels|], e).row
    ensures m == OwnerMove(since, job, CellOf(states[|labels|], e), e, states[|labels|], Fine)
    ensures IsRun(ss, ls) && ss[0] == states[0]
    ensures m.pc.Own? ==> Owning(ss[|ls|], t, e, ac, m.pc.since, m.pc.job)
    ensures Besides(states[|labels|], ss[|ls|], t, e)
    ensures ss[|ls|].starts[e] == states[|labels|].starts[e] + if job.PutNewConfig? then 1 else 0
  {
    var z := states[|labels|];
    m := OwnerMove(since, job, CellOf(z, e), e, z, Fine);
    assert m == Move(z, z.threads[t], Fine);
    ss, ls := ActOn(states, labels, t, Fine);
    assert e in z.db.endpoints && e in ss[|ls|].db.endpoints && ss[|ls|].db.endpoints[e] == z.db.endpoints[e] by {
      assert CellOf(ss[|ls|], e).row == CellOf(z, e).row;
    }
  }

  /** The other threads are where they were, and the row and the catalog as well. */
  ghost predicate Besides(s: Sys, z: Sys, t: Tid, e: Id) {
    && (forall u :: u != t && u in s.threads ==> u in z.threads && z.threads[u] == s.threads[u])
    && CellOf(z, e).row == CellOf(s, e).row && AccessControlOf(z.db, e) == AccessControlOf(s.db, e)
  }

  /** From the takeover's stop to the first call of Runtime.Start. */
  lemma ComesToStart(states: seq<Sys>, labels: seq<Label>, t: Tid, e: Id, ac: AccessControl, since: Time)
    returns (ss: seq<Sys>, ls: seq<Label>)
    requires IsRun(states, labels) && Owning(states[|labels|], t, e, ac, since, ClearPod)
    ensures IsRun(ss, ls) && ss[0] == states[0] && Besides(states[|labels|], ss[|ls|], t, e)
    ensures t in ss[|ls|].threads && ss[|ls|].threads[t].ep == e && Claim(ss[|ls|].threads[t].pc).Some?
    ensures ss[|ls|].starts[e] == states[|labels|].starts[e] + 1
  {
    var m;
    ss, ls, m := OwnerStep(states, labels, t, e, ac, since, ClearPod);
    ss, ls, m := OwnerStep(ss, ls, t, e, ac, since, ClearConfig);
    ss, ls := ReadsAndStarts(ss, ls, t, e, ac, since);
  }

  lemma ReadsAndStarts(states: seq<Sys>, labels: seq<Label>, t: Tid, e: Id, ac: AccessControl, since: Time)
    returns (ss: seq<Sys>, ls: seq<Label>)
    requires IsRun(states, labels) && Owning(states[|labels|], t, e, ac, since, SpecAccess)
    ensures IsRun(ss, ls) && ss[0] == states[0] && Besides(states[|labels|], ss[|ls|], t, e)
    ensures t in ss[|ls|].threads && ss[|ls|].threads[t].ep == e && Claim(ss[|ls|].threads[t].pc).Some?
    ensures ss[|ls|].starts[e] == states[|labels|].starts[e] + 1
  {
    var spec, m;
    ss, ls, spec := Reads(states, labels, t, e, ac, since);
    ss, ls, m := OwnerStep(ss, ls, t, e, ac, since, PutNewConfig(spec));
  }

  lemma Reads(states: seq<Sys>, labels: seq<Label>, t: Tid, e: Id, ac: AccessControl, since: Time)
    returns (ss: seq<Sys>, ls: seq<Label>, spec: Spec)
    requires IsRun(states, labels) && Owning(states[|labels|], t, e, ac, since, SpecAccess)
    ensures IsRun(ss, ls) && ss[0] == states[0] && Besides(states[|labels|], ss[|ls|], t, e)
    ensures Owning(ss[|ls|], t, e, ac, since, PutNewConfig(spec)) && ss[|ls|].starts[e] == states[|labels|].starts[e]
  {
    var p, m;
    ss, ls, p := ReadsProject(states, labels, t, e, ac, since);
    ss, ls, m := OwnerStep(ss, ls, t, e, ac, since, SpecBranch(ac.branch, p));
    spec := m.pc.job.spec;
  }

  lemma ReadsProject(states: seq<Sys>, labels: seq<Label>, t: Tid, e: Id, ac: AccessControl, since: Time)
    returns (ss: seq<Sys>, ls: seq<Label>, p: Project)
    requires IsRun(states, labels) && Owning(states[|labels|], t, e, ac, since, SpecAccess)
    ensures IsRun(ss, ls) && ss[0] == states[0] && Besides(states[|labels|], ss[|ls|], t, e)
    ensures Owning(ss[|ls|], t, e, ac, since, SpecBranch(ac.branch, p))
        && ss[|ls|].starts[e] == states[|labels|].starts[e]
  {
    var m;
    ss, ls, m := OwnerStep(states, labels, t, e, ac, since, SpecAccess);
    ss, ls, m := OwnerStep(ss, ls, t, e, ac, since, SpecProject(ac.project, ac.branch));
    p := m.pc.job.owner;
  }

  /** A stale `starting` row: two live owners at once, and two starts. */
  lemma TakeoversStartTwice(s: Sys, t: Tid, u: Tid, e: Id, ac: AccessControl)
    returns (states: seq<Sys>, labels: seq<Label>)
    requires t != u && t !in s.threads && u !in s.threads && s.cfg.readyTimeout >= 0
    requires InState(CellOf(s, e).row, Starting) && Stale(CellOf(s, e).row.value, s.now)
        && AccessControlOf(s.db, e) == Some(ac)
    ensures IsRun(states, labels) && states[0] == s
    ensures Owns(states[|labels|], t, e) && Owns(states[|labels|], u, e)
    ensures states[|labels|].starts[e] == s.starts[e] + 2
  {
    states, labels := TwoTakeoversOverlap(s, t, u, e);
    var z := states[|labels|];
    assert z.db.endpoints[e].branch == s.db.endpoints[e].branch by {
      assert CellOf(z, e).row == Some(z.db.endpoints[e]) && CellOf(s, e).row == Some(s.db.endpoints[e]);
    }
    states, labels := ComesToStart(states, labels, t, e, ac, s.now);
    states, labels := ComesToStart(states, labels, u, e, ac, s.now);
  }

  // ---- from an empty system

  /** The request that creates the project. */
  datatype Request = Request(pid: Id, p: Project, bid: Id, timeline: Id, eid: Id)

  function Creation(q: Request): Op { NewProject(q.pid, q.p, q.bid, q.timeline, q.eid, 0) }

  /** The project exists and its endpoint is suspended. */
  lemma MakesProject(s: Sys, q: Request) returns (z: Sys)
    requires Empty(s)
    ensures Enabled(s, Admin(Creation(q))) && z == Apply(s, Admin(Creation(q)))
    ensures z.now == s.now && z.cfg == s.cfg && z.threads == map[] && z.starts == s.starts
    ensures InState(CellOf(z, q.eid).row, Suspended)
        && AccessControlOf(z.db, q.eid) == Some(AccessControl(q.p.role, q.p.verifier, q.pid, q.bid))
  {
    z := Apply(s, Admin(Creation(q)));
  }

  /** A waker wins the row. */
  lemma Wins(s: Sys, t: Tid, e: Id, ac: AccessControl) returns (states: seq<Sys>, labels: seq<Label>)
    requires t !in s.threads && s.cfg.readyTimeout >= 0 && InState(CellOf(s, e).row, Suspended)
        && AccessControlOf(s.db, e) == Some(ac)
    ensures IsRun(states, labels) && states[0] == s
    ensures var z := states[|labels|];
      && t in z.threads && z.threads - {t} == s.threads && z.cfg == s.cfg && z.starts == s.starts
      && AccessControlOf(z.db, e) == Some(ac)
      && InState(CellOf(z, e).row, Starting) && CellOf(z, e).row.value.updated == z.now
  {
    states, labels := DecidesToStart(s, t, e);
    var s3 := states[|labels|];
    states, labels := ActOn(states, labels, t, Fine);
    AfterTheSwap(s, s3, states[|labels|], t, e, ac);
  }

  lemma DecidesToStart(s: Sys, t: Tid, e: Id) returns (states: seq<Sys>, labels: seq<Label>)
    requires t !in s.threads && s.cfg.readyTimeout >= 0 && InState(CellOf(s, e).row, Suspended)
    ensures IsRun(states, labels) && |labels| == 3 && states[0] == s
    ensures var z := states[3];
      && z.cfg == s.cfg && CellOf(z, e) == CellOf(s, e) && SameElsewhere(s, z)
      && z.threads == s.threads[t := Thread(e, CasSuspended, s.now, s.now)]
  {
    var s1 := Arrive(s, t, e);
    var s2 := OneMove(s1, t, Read);
    var s3 := OneMove(s2, t, CasSuspended);
    states, labels := [s, s1, s2, s3], [Wake(t, e), Act(t, Fine), Act(t, Fine)];
  }

  /** A waker wins the row and crashes at once. */
  lemma CrashesAsOwner(s: Sys, t: Tid, e: Id, ac: AccessControl) returns (states: seq<Sys>, labels: seq<Label>)
    requires t !in s.threads && s.cfg.readyTimeout >= 0 && InState(CellOf(s, e).row, Suspended)
        && AccessControlOf(s.db, e) == Some(ac)
    ensures IsRun(states, labels) && states[0] == s && Abandons(s, states[|labels|], t, e, ac)
  {
    states, labels := Wins(s, t, e, ac);
    var z := states[|labels|];
    Extend(states, labels, Crash(t));
    states, labels := states + [Apply(z, Crash(t))], labels + [Crash(t)];
    z := Apply(z, Crash(t));
    Extend(states, labels, Tick(STALE_AFTER + 1));
    states, labels := states + [Apply(z, Tick(STALE_AFTER + 1))], labels + [Tick(STALE_AFTER + 1)];
  }

  lemma AfterTheSwap(s: Sys, z: Sys, z': Sys, t: Tid, e: Id, ac: AccessControl)
    requires AccessControlOf(s.db, e) == Some(ac) && SameElsewhere(s, z) && CellOf(z, e) == CellOf(s, e)
        && InState(CellOf(s, e).row, Suspended)
    requires t in z.threads && z.threads[t].ep == e && z.threads[t].pc == CasSuspended
        && Follows(z, z', t, Move(z, z.threads[t], Fine))
    ensures InState(CellOf(z', e).row, Starting) && CellOf(z', e).row.value.updated == z.now
        && AccessControlOf(z'.db, e) == Some(ac)
  {
    assert CellOf(z', e).row == Some(z'.db.endpoints[e]) && CellOf(s, e).row == Some(s.db.endpoints[e]);
  }

  ghost predicate Abandons(s: Sys, z: Sys, t: Tid, e: Id, ac: AccessControl) {
    && z.threads == s.threads && z.cfg == s.cfg && z.starts == s.starts && AccessControlOf(z.db, e) == Some(ac)
    && InState(CellOf(z, e).row, Starting) && Stale(CellOf(z, e).row.value, z.now)
  }

  /**
   * "Exactly once" fails in a run that begins with an empty system: a project is created,
   * one waker wins its endpoint and crashes, and after the stale limit two more both take the
   * row over, both own the endpoint, and between them call Runtime.Start twice.
   */
  lemma OneCrashTwoStarts(s: Sys, q: Request) returns (states: seq<Sys>, labels: seq<Label>)
    requires Empty(s) && s.cfg.readyTimeout >= 0
    ensures IsRun(states, labels) && states[0] == s
    ensures Owns(states[|labels|], 1, q.eid) && Owns(states[|labels|], 2, q.eid)
    ensures states[|labels|].starts[q.eid] == s.starts[q.eid] + 2
  {
    var ac := AccessControl(q.p.role, q.p.verifier, q.pid, q.bid);
    var z := MakesProject(s, q);
    var cs, cl := CrashesAsOwner(z, 0, q.eid, ac);
    var ts, tl := TakeoversStartTwice(cs[|cl|], 1, 2, q.eid, ac);
    Concat(cs, cl, ts, tl);
    Concat([s, z], [Admin(Creation(q))], cs + ts[1..], cl + tl);
    states, labels := [s, z] + (cs + ts[1..])[1..], [Admin(Creation(q))] + (cl + tl);
  }
}
