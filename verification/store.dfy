/** The store over the state database: each method is one statement or one transaction. */
module Storage {
  import opened Base
  import opened Database

  /** A branch as before, but without a parent that belonged to the project `gone`. */
  predicate SameExceptParent(now: Branch, was: Branch, gone: Id, from: Db) {
    now == if was.parent.Some? && was.parent.value in from.branches
        && from.branches[was.parent.value].project == gone then was.(parent := None) else was
  }

  /** `up` says whether the statement reaches the database; if not the call fails without effect. */
  class Store {
    var db: Db

    constructor () ensures db == EMPTY { db := EMPTY; }

    /** CreateProject: project, default branch and endpoint in one transaction, or nothing. */
    method CreateProject(pid: Id, p: Project, bid: Id, b: Branch, eid: Id, branch: Id, state: Option<EpState>,
        suspendAfter: int, now: Time, up: bool) returns (r: Result<()>)
      modifies this
      ensures r.Err? ==> db == old(db)
      ensures r.Ok? <==>
        up && ProjectFits(old(db), pid, p)
        && BranchFits(old(db).(projects := old(db).projects[pid := p]), bid, b, eid, branch, suspendAfter)
      ensures r.Err? ==> r == Err(if up then Constraint else Unavailable)
      ensures r.Ok? ==>
        && db.projects == old(db).projects[pid := p] && db.branches == old(db).branches[bid := b]
        && db.endpoints.Keys == old(db).endpoints.Keys + {eid}
        && (forall e :: e in old(db).endpoints ==> db.endpoints[e] == old(db).endpoints[e])
        && Inserted(db.endpoints[eid], branch, state, suspendAfter, now)
      ensures References(old(db)) && Unique(old(db)) ==> References(db) && Unique(db)
    {
      var ep := NewEndpoint(branch, state, suspendAfter, now);
      InsertedExactly(db, pid, p, bid, b, eid, branch, state, suspendAfter, now);
      var next := if up then InsertProject(db, pid, p, bid, b, eid, ep) else Err(Unavailable);
      if References(db) && Unique(db) { InsertProjectKeepsSchema(db, pid, p, bid, b, eid, ep); }
      if next.Err? {
        return Err(next.error);
      }
      db := next.value;
      r := Ok(());
    }

    /** CreateBranch: branch and endpoint in one transaction, or nothing. */
    method CreateBranch(bid: Id, b: Branch, eid: Id, branch: Id, state: Option<EpState>, suspendAfter: int,
        now: Time, up: bool) returns (r: Result<()>)
      modifies this
      ensures r.Err? ==> db == old(db)
      ensures r.Ok? <==> up && BranchFits(old(db), bid, b, eid, branch, suspendAfter)
      ensures r.Err? ==> r == Err(if up then Constraint else Unavailable)
      ensures r.Ok? ==>
        && db.projects == old(db).projects && db.branches == old(db).branches[bid := b]
        && db.endpoints.Keys == old(db).endpoints.Keys + {eid}
        && (forall e :: e in old(db).endpoints ==> db.endpoints[e] == old(db).endpoints[e])
        && Inserted(db.endpoints[eid], branch, state, suspendAfter, now)
      ensures References(old(db)) && Unique(old(db)) ==> References(db) && Unique(db)
    {
      var ep := NewEndpoint(branch, state, suspendAfter, now);
      FitsExactly(db, bid, b, eid, branch, state, suspendAfter, now);
      var next := if up then InsertBranchAndEndpoint(db, bid, b, eid, ep) else Err(Unavailable);
      if References(db) && Unique(db) { InsertBranchKeepsSchema(db, bid, b, eid, ep); }
      if next.Err? {
        return Err(next.error);
      }
      db := next.value;
      r := Ok(());
    }

    method GetProjectByID(id: Id, up: bool) returns (r: Result<Project>)
      ensures r.Ok? <==> up && id in db.projects
      ensures r.Ok? ==> r.value == db.projects[id]
      ensures r.Err? ==> r == Err(if up then NotFound else Unavailable)
    {
      r := if !up then Err(Unavailable) else if id in db.projects then Ok(db.projects[id]) else Err(NotFound);
    }

    method GetBranchByID(id: Id, up: bool) returns (r: Result<Branch>)
      ensures r.Ok? <==> up && id in db.branches
      ensures r.Ok? ==> r.value == db.branches[id]
      ensures r.Err? ==> r == Err(if up then NotFound else Unavailable)
    {
      r := if !up then Err(Unavailable) else if id in db.branches then Ok(db.branches[id]) else Err(NotFound);
    }

    /** GetAccessControl: the join over endpoint, branch and project. */
    method GetAccessControl(id: Id, up: bool) returns (r: Result<AccessControl>)
      requires References(db)
      ensures r.Ok? <==> up && id in db.endpoints
      ensures r.Err? ==> r == Err(if up then NotFound else Unavailable)
      ensures r.Ok? ==>
        && r.value.branch == db.endpoints[id].branch && r.value.project == db.branches[r.value.branch].project
        && r.value.role == db.projects[r.value.project].role
        && r.value.verifier == db.projects[r.value.project].verifier
    {
      var ac := AccessControlOf(db, id);
      r := if !up then Err(Unavailable) else if ac.Some? then Ok(ac.value) else Err(NotFound);
    }

    /** The endpoint of a branch, if there is one. */
    method GetEndpointByBranch(branch: Id, up: bool) returns (r: Result<Id>)
      ensures r.Ok? <==> up && BranchServed(db, branch)
      ensures r.Ok? ==> r.value in db.endpoints && db.endpoints[r.value].branch == branch
      ensures r.Err? ==> r == Err(if up then NotFound else Unavailable)
    {
      if !up {
        return Err(Unavailable);
      }
      var left := db.endpoints.Keys;
      while left != {}
        invariant left <= db.endpoints.Keys
        invariant forall e :: e in db.endpoints && e !in left ==> db.endpoints[e].branch != branch
        decreases left
      {
        var e :| e in left;
        if db.endpoints[e].branch == branch {
          return Ok(e);
        }
        left := left - {e};
      }
      r := Err(NotFound);
    }

    /** ListEndpointsByState: each row in that state, once. */
    method ListEndpointsByState(st: EpState, up: bool) returns (r: Result<seq<Id>>)
      ensures r.Ok? <==> up
      ensures r.Ok? ==>
        && (forall e :: e in r.value <==> e in db.endpoints && db.endpoints[e].state == st)
        && (forall i, j :: 0 <= i < j < |r.value| ==> r.value[i] != r.value[j])
    {
      if !up {
        return Err(Unavailable);
      }
      var out: seq<Id> := [];
      var left := db.endpoints.Keys;
      while left != {}
        invariant left <= db.endpoints.Keys
        invariant forall e :: e in out <==> e in db.endpoints && e !in left && db.endpoints[e].state == st
        invariant forall i, j :: 0 <= i < j < |out| ==> out[i] != out[j]
        decreases left
      {
        var e :| e in left;
        left := left - {e};
        if db.endpoints[e].state == st {
          out := out + [e];
        }
      }
      r := Ok(out);
    }

    /** TransitionEndpoint: moves the row if and only if it is in `from`, and says so. */
    method TransitionEndpoint(id: Id, from: EpState, to: EpState, now: Time, up: bool) returns (r: Result<bool>)
      modifies this
      ensures r.Ok? <==> up
      ensures r == Ok(true) <==> up && id in old(db).endpoints && old(db).endpoints[id].state == from
      ensures r == Ok(true) ==>
          db == PutEndpoint(old(db), id, Some(old(db).endpoints[id].(state := to, updated := now)))
      ensures r != Ok(true) ==> db == old(db)
    {
      if !up {
        return Err(Unavailable);
      }
      var row := Get(db.endpoints, id);
      if InState(row, from) {
        db := PutEndpoint(db, id, CasRow(row, from, to, now));
      }
      r := Ok(InState(row, from));
    }

    /** SetEndpointRunning: unconditional; the start time is now, and counts as activity. No row, no effect. */
    method SetEndpointRunning(id: Id, addr: string, now: Time, up: bool) returns (ok: bool)
      modifies this
      ensures ok == up
      ensures !ok || id !in old(db).endpoints ==> db == old(db)
      ensures ok && id in old(db).endpoints ==>
        && db.projects == old(db).projects && db.branches == old(db).branches
        && db.endpoints.Keys == old(db).endpoints.Keys
        && (forall e :: e in db.endpoints && e != id ==> db.endpoints[e] == old(db).endpoints[e])
        && Ran(old(db).endpoints[id], db.endpoints[id], addr, now)
    {
      ok := up;
      if ok && id in db.endpoints {
        db := PutEndpoint(db, id, RunRow(Get(db.endpoints, id), addr, now));
      }
    }

    /** SetEndpointSuspended: unconditional; no row, no effect. */
    method SetEndpointSuspended(id: Id, now: Time, up: bool) returns (ok: bool)
      modifies this
      ensures ok == up
      ensures ok && id in old(db).endpoints ==>
        db == PutEndpoint(old(db), id, Some(old(db).endpoints[id].(state := Suspended, addr := None, updated := now)))
      ensures !ok || id !in old(db).endpoints ==> db == old(db)
    {
      ok := up;
      if ok && id in db.endpoints {
        db := PutEndpoint(db, id, SuspendRow(Get(db.endpoints, id), now));
      }
    }

    /** ListBranchesByProject: each branch of the project, once. */
    method ListBranchesByProject(pid: Id, up: bool) returns (r: Result<seq<Id>>)
      ensures r.Ok? <==> up
      ensures r.Ok? ==>
        && (forall b :: b in r.value <==> b in db.branches && db.branches[b].project == pid)
        && (forall i, j :: 0 <= i < j < |r.value| ==> r.value[i] != r.value[j])
    {
      if !up {
        return Err(Unavailable);
      }
      var out: seq<Id> := [];
      var left := db.branches.Keys;
      while left != {}
        invariant left <= db.branches.Keys
        invariant forall b :: b in out <==> b in db.branches && b !in left && db.branches[b].project == pid
        invariant forall i, j :: 0 <= i < j < |out| ==> out[i] != out[j]
        decreases left
      {
        var b :| b in left;
        left := left - {b};
        if db.branches[b].project == pid {
          out := out + [b];
        }
      }
      r := Ok(out);
    }

    /** DeleteProject: cascades to the project's branches and their endpoints; other projects stay. */
    method DeleteProject(id: Id, up: bool) returns (ok: bool)
      requires References(db) && Unique(db)
      modifies this
      ensures ok == up
      ensures !ok ==> db == old(db)
      ensures ok ==>
        && db.projects == old(db).projects - {id}
        && (forall b :: b in db.branches ==> b in old(db).branches)
        && (forall b :: b in old(db).branches ==>
              (b in db.branches <==> old(db).branches[b].project != id)
              && (b in db.branches ==> SameExceptParent(db.branches[b], old(db).branches[b], id, old(db))))
        && (forall e :: e in db.endpoints <==>
              e in old(db).endpoints && old(db).branches[old(db).endpoints[e].branch].project != id)
        && (forall e :: e in db.endpoints ==> db.endpoints[e] == old(db).endpoints[e])
      ensures References(db) && Unique(db)
    {
      ok := up;
      if ok {
        RemoveProjectKeepsSchema(db, id);
        db := RemoveProject(db, id);
      }
    }

    /** DeleteBranch: cascades to the endpoint and orphans the children; other branches stay. */
    method DeleteBranch(id: Id, up: bool) returns (ok: bool)
      modifies this
      ensures ok == up
      ensures !ok ==> db == old(db)
      ensures ok ==>
        && db.projects == old(db).projects && db.branches.Keys == old(db).branches.Keys - {id}
        && (forall b :: b in db.branches ==>
              var was := old(db).branches[b];
                  db.branches[b] == if was.parent == Some(id) then was.(parent := None) else was)
        && (forall e :: e in db.endpoints <==> e in old(db).endpoints && old(db).endpoints[e].branch != id)
        && (forall e :: e in db.endpoints ==> db.endpoints[e] == old(db).endpoints[e])
    {
      ok := up;
      if ok {
        db := RemoveBranch(db, id);
      }
    }
  }
}
