/** deleteBranch and deleteProject with the calls they make: storage goes before rows, and a retry converges. */
module Api {
  import opened Base
  import opened Database
  import opened Cluster
  import opened Storage
  import opened Runtime

  const DELETE_BUDGET: Time := 60_000
  const DELETE_POLL: Time := 500

  /** What the DELETE of a timeline answers, before the timeline is actually gone. */
  datatype DeleteReply = Unreachable | NoSuchTimeline | Accepted | Rejected

  /** One poll after it: the clock before it, a broken call, a cancelled request, the deletion done by then. */
  datatype Look = Look(at: Time, broken: bool, cancelled: bool, done: bool)

  /** Polls come at least one interval apart. */
  ghost predicate Paced(look: nat -> Look) {
    forall i: nat :: look(i + 1).at >= look(i).at + 500
  }

  /** The deletion completes within the budget and nothing goes wrong until it has. */
  ghost predicate Undisturbed(reply: DeleteReply, start: Time, look: nat -> Look) {
    (reply == NoSuchTimeline || reply == Accepted) &&
    exists k: nat :: look(k).done && look(k).at < start + 60_000
                     && forall i: nat | i <= k ::
                           !look(i).broken && !look(i).cancelled && look(i).at < start + 60_000
  }

  /** Some poll in time finds the timeline gone, and nothing has ended the polling before. */
  ghost predicate SeenGone(there: bool, start: Time, look: nat -> Look) {
    exists k: nat :: (there ==> look(k).done) && look(k).at < start + 60_000 && !look(k).broken
                     && forall i: nat | i < k :: !look(i).broken && !look(i).cancelled && look(i).at < start + 60_000
  }

  /** The pageserver: the timelines that exist, with their tenants. */
  class PageserverClient {
    var timelines: map<Id, Id>

    constructor () ensures timelines == map[] { timelines := map[]; }

    /** DeleteTenant: its timelines go, unless the call fails without effect. */
    method DeleteTenant(tenant: Id, fate: Fate) returns (ok: bool)
      modifies this
      ensures ok <==> fate == Done
      ensures if fate == Fate.Failed then timelines == old(timelines) else tenant !in timelines.Values
      ensures forall x :: x in timelines ==> x in old(timelines) && timelines[x] == old(timelines)[x]
      ensures forall x :: x in old(timelines) && old(timelines)[x] != tenant ==> x in timelines
    {
      if fate != Fate.Failed {
        timelines := map x | x in timelines && timelines[x] != tenant :: timelines[x];
      }
      ok := fate == Done;
    }

    /** DeleteTimeline: success means a 404 was seen, and then the timeline does not exist. */
    method DeleteTimeline(timeline: Id, reply: DeleteReply, start: Time, look: nat -> Look) returns (ok: bool)
      requires Paced(look)
      requires reply == NoSuchTimeline ==> timeline !in timelines
      modifies this
      ensures ok ==> timeline !in timelines
      ensures timelines == old(timelines) || timelines == old(timelines) - {timeline}
      ensures Undisturbed(reply, start, look) ==> ok
      ensures ok <==>
        reply == NoSuchTimeline || (reply == Accepted && SeenGone(timeline in old(timelines), start, look))
    {
      match reply {
        case Unreachable => return false;
        case NoSuchTimeline => return true;
        case Rejected => return false;
        case Accepted =>
      }
      var deadline := start + DELETE_BUDGET;
      var i: nat := 0;
      while look(i).at < deadline
        invariant timelines == old(timelines)
        invariant timeline in timelines || i == 0
        invariant forall j: nat | j < i ::
            !look(j).done && !look(j).broken && !look(j).cancelled && look(j).at < deadline
        decreases deadline - look(i).at
      {
        if look(i).done {
          timelines := timelines - {timeline};
        }
        if look(i).broken {
          return false;
        }
        if timeline !in timelines {
          return true;
        }
        if look(i).cancelled {
          return false;
        }
        i := i + 1;
      }
      ok := false;
    }
  }

  /** How the lookup of a branch's endpoint and the stop of its compute go. */
  datatype StopCall = StopCall(find: bool, delPod: Fate, delConfig: Fate)

  predicate Stops(v: StopCall) { v.find && v.delPod == Done && v.delConfig == Done }

  /** The outcomes of one attempt's calls. */
  datatype Attempt = Attempt(
    findBranch: bool, findProject: bool, visit: StopCall, del: DeleteReply, start: Time, row: bool)

  /** The outcomes of one attempt at a project. */
  datatype ProjectAttempt = ProjectAttempt(find: bool, list: bool, visit: Id -> StopCall, drop: Fate, row: bool)

  /** The project an endpoint belongs to. */
  function ProjectOf(db: Db, e: Id): Option<Id> {
    if e in db.endpoints && db.endpoints[e].branch in db.branches
        then Some(db.branches[db.endpoints[e].branch].project) else None
  }

  /** The endpoint is of the project, and finding and stopping its compute goes through. */
  predicate StopReaches(db: Db, pid: Id, a: ProjectAttempt, e: Id) {
    e in db.endpoints && ProjectOf(db, e) == Some(pid) && Stops(a.visit(db.endpoints[e].branch))
  }

  /** Nothing fails but perhaps the stop of the compute, which is only attempted. */
  ghost predicate FailureFree(a: Attempt, look: nat -> Look) {
    a.findBranch && a.findProject && Undisturbed(a.del, a.start, look) && a.row
  }

  class Server {
    const store: Store
    const runtime: K8sRuntime
    const pageserver: PageserverClient

    constructor (store: Store, runtime: K8sRuntime, pageserver: PageserverClient)
      ensures this.store == store && this.runtime == runtime && this.pageserver == pageserver
    {
      this.store, this.runtime, this.pageserver := store, runtime, pageserver;
    }

    /**
     * deleteBranch. A failed attempt leaves every row as it was, so it can be repeated; the
     * row goes only once the timeline does not exist; and an attempt without failures, after
     * any number of failed ones, removes timeline, row and endpoint, and the endpoint's pod
     * and configmap. Nothing of any other branch's endpoint or timeline is touched.
     */
    method DeleteBranch(path: Id, bid: Id, a: Attempt, look: nat -> Look) returns (r: Result<()>)
      requires References(store.db) && Unique(store.db) && Paced(look)
      requires bid in store.db.branches && a.del == NoSuchTimeline ==>
          store.db.branches[bid].timeline !in pageserver.timelines
      modifies store, runtime, pageserver
      ensures References(store.db) && Unique(store.db)
      ensures r.Err? ==> store.db == old(store.db)
      ensures r.Ok? ==> bid in old(store.db).branches && store.db == RemoveBranch(old(store.db), bid)
      ensures a.findBranch && (bid !in old(store.db).branches || old(store.db).branches[bid].project != path) ==>
          r == Err(NotFound)
      ensures bid in old(store.db).branches && old(store.db).branches[bid].isDefault ==> r.Err?
      ensures bid in old(store.db).branches && bid !in store.db.branches ==>
          old(store.db).branches[bid].timeline !in pageserver.timelines
      ensures FailureFree(a, look) && bid in old(store.db).branches
              && old(store.db).branches[bid].project == path && !old(store.db).branches[bid].isDefault ==>
        && r.Ok? && bid !in store.db.branches && old(store.db).branches[bid].timeline !in pageserver.timelines
        && (forall e :: e in old(store.db).endpoints && old(store.db).endpoints[e].branch == bid ==>
              e !in store.db.endpoints && (Stops(a.visit) ==> Stopped(e)))
      ensures forall e: Id :: !(e in old(store.db).endpoints && old(store.db).endpoints[e].branch == bid) ==>
        PodOf(runtime.objects, e) == PodOf(old(runtime.objects), e)
            && ConfigOf(runtime.objects, e) == ConfigOf(old(runtime.objects), e)
      ensures forall x :: x in old(pageserver.timelines) && x !in pageserver.timelines ==>
        bid in old(store.db).branches && x == old(store.db).branches[bid].timeline
    {
      RemoveBranchKeepsSchema(store.db, bid);
      var b := store.GetBranchByID(bid, a.findBranch);
      if b.Err? {
        return Err(b.error);
      }
      if b.value.project != path {
        return Err(NotFound);
      }
      if b.value.isDefault {
        return Err(Refused);
      }
      var p := store.GetProjectByID(b.value.project, a.findProject);
      if p.Err? {
        return Err(p.error);
      }
      StopCompute(bid, a.visit);
      var gone := pageserver.DeleteTimeline(b.value.timeline, a.del, a.start, look);
      if !gone {
        return Err(Unavailable);
      }
      var ok := store.DeleteBranch(bid, a.row);
      if !ok {
        return Err(Unavailable);
      }
      RowsAfterRemoval(old(store.db), store.db, bid);
      r := Ok(());
    }

    /**
     * deleteProject. A failed attempt leaves every row as it was; success means that rows and
     * timelines of the project are gone; where the computes could be found and stopped, which
     * is only attempted, their pods and configmaps are gone too. Other projects keep everything.
     */
    method DeleteProject(pid: Id, a: ProjectAttempt) returns (r: Result<()>)
      requires References(store.db) && Unique(store.db)
      modifies store, runtime, pageserver
      ensures References(store.db) && Unique(store.db)
      ensures r.Err? ==> store.db == old(store.db)
      ensures a.find && pid !in old(store.db).projects ==> r == Err(NotFound)
      ensures pid in old(store.db).projects && a.find && a.list && a.drop == Done && a.row ==> r.Ok?
      ensures r.Ok? ==>
        && pid in old(store.db).projects && old(store.db).projects[pid].tenant !in pageserver.timelines.Values
        && store.db.projects == old(store.db).projects - {pid}
        && (forall b :: b in store.db.branches <==>
              b in old(store.db).branches && old(store.db).branches[b].project != pid)
        && (forall e :: e in store.db.endpoints <==>
              e in old(store.db).endpoints && ProjectOf(old(store.db), e) != Some(pid))
      ensures r.Ok? ==> forall e :: StopReaches(old(store.db), pid, a, e) ==> Stopped(e)
      ensures forall e: Id :: ProjectOf(old(store.db), e) != Some(pid) ==> SameObjects(old(runtime.objects), e)
      ensures forall x :: x in old(pageserver.timelines) && x !in pageserver.timelines ==>
        pid in old(store.db).projects && old(pageserver.timelines)[x] == old(store.db).projects[pid].tenant
    {
      var p := store.GetProjectByID(pid, a.find);
      if p.Err? {
        return Err(p.error);
      }
      var branches := store.ListBranchesByProject(pid, a.list);
      if branches.Err? {
        return Err(branches.error);
      }
      StopComputes(pid, branches.value, a);
      var gone := pageserver.DeleteTenant(p.value.tenant, a.drop);
      if !gone {
        return Err(Unavailable);
      }
      var ok := store.DeleteProject(pid, a.row);
      r := if ok then Ok(()) else Err(Unavailable);
    }

    ghost predicate Stopped(e: Id) reads runtime {
      PodOf(runtime.objects, e).None? && ConfigOf(runtime.objects, e).None?
    }

    ghost predicate SameObjects(before: Objects, e: Id) reads runtime {
      PodOf(runtime.objects, e) == PodOf(before, e) && ConfigOf(runtime.objects, e) == ConfigOf(before, e)
    }

    /** Stops the compute of each listed branch, going on after errors. */
    method StopComputes(pid: Id, branches: seq<Id>, a: ProjectAttempt)
      requires References(store.db) && Unique(store.db)
      requires forall b :: b in branches <==> b in store.db.branches && store.db.branches[b].project == pid
      modifies runtime
      ensures forall e :: StopReaches(store.db, pid, a, e) ==> Stopped(e)
      ensures forall e: Id :: ProjectOf(store.db, e) != Some(pid) ==> SameObjects(old(runtime.objects), e)
    {
      for n := 0 to |branches|
        invariant forall i | 0 <= i < n :: Cleared(branches[i], a.visit(branches[i]))
        invariant forall e: Id :: ProjectOf(store.db, e) != Some(pid) ==> SameObjects(old(runtime.objects), e)
      {
        StopCompute(branches[n], a.visit(branches[n]));
      }
      forall e | StopReaches(store.db, pid, a, e) ensures Stopped(e) {
        var i :| 0 <= i < |branches| && branches[i] == store.db.endpoints[e].branch;
        assert Cleared(branches[i], a.visit(branches[i]));
      }
    }

    /** Every compute of the branch is gone, if the stop went through. */
    ghost predicate Cleared(bid: Id, v: StopCall)
      reads this, store, runtime
    {
      Stops(v) ==> forall e :: e in store.db.endpoints && store.db.endpoints[e].branch == bid ==> Stopped(e)
    }

    /** Stops the branch's compute if it can be found; errors are only logged. */
    method StopCompute(bid: Id, v: StopCall)
      requires Unique(store.db)
      modifies runtime
      ensures forall e: Id :: !(e in store.db.endpoints && store.db.endpoints[e].branch == bid) ==>
          SameObjects(old(runtime.objects), e)
      ensures Cleared(bid, v)
      ensures forall b: Id, w: StopCall :: b != bid && old(Cleared(b, w)) ==> Cleared(b, w)
    {
      var ep := store.GetEndpointByBranch(bid, v.find);
      if ep.Ok? {
        var stopped := runtime.Stop(ep.value, v.delPod, v.delConfig);
      }
    }
  }

  /** What the store's deletion leaves is what the cascade leaves. */
  lemma RowsAfterRemoval(was: Db, now: Db, bid: Id)
    requires now.projects == was.projects && now.branches.Keys == was.branches.Keys - {bid}
    requires forall b :: b in now.branches ==>
      var w := was.branches[b]; now.branches[b] == if w.parent == Some(bid) then w.(parent := None) else w
    requires forall e :: e in now.endpoints <==> e in was.endpoints && was.endpoints[e].branch != bid
    requires forall e :: e in now.endpoints ==> now.endpoints[e] == was.endpoints[e]
    ensures now == RemoveBranch(was, bid)
  {
    var d := RemoveBranch(was, bid);
    assert now.branches == d.branches;
    assert now.endpoints == d.endpoints;
  }
}
