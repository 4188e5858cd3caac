/**
 * The state database: projects, branches and endpoints with their constraints
 * (schema.sql), and the effect of every statement the store issues.
 */
module Database {
  import opened Base

  datatype EpState = Suspended | Starting | Running | Suspending | Failed

  datatype Project = Project(name: string, tenant: Id, role: string, verifier: string)

  datatype Branch = Branch(project: Id, name: string, timeline: Id, parent: Option<Id>, isDefault: bool)

  datatype Endpoint = Endpoint(
    branch: Id, state: EpState, addr: Option<string>, suspendAfter: int,
    lastStarted: Option<Time>, lastActive: Option<Time>, updated: Time)

  datatype Db = Db(projects: map<Id, Project>, branches: map<Id, Branch>, endpoints: map<Id, Endpoint>)

  const EMPTY := Db(map[], map[], map[])

  const DEFAULT_SUSPEND_AFTER := 300

  // ---- one endpoint row

  predicate InState(row: Option<Endpoint>, st: EpState) { row.Some? && row.value.state == st }

  /** UPDATE ... SET state=to WHERE id=$1 AND state=from: the compare-and-swap of the lifecycle. */
  function CasRow(row: Option<Endpoint>, from: EpState, to: EpState, now: Time): Option<Endpoint> {
    if InState(row, from) then Some(row.value.(state := to, updated := now)) else row
  }

  /** SetEndpointRunning: whatever the state was. */
  function RunRow(row: Option<Endpoint>, addr: string, now: Time): Option<Endpoint> {
    if row.None? then None
    else Some(row.value.(state := Running, addr := Some(addr), lastStarted := Some(now), lastActive := Some(now),
        updated := now))
  }

  /** What SetEndpointRunning leaves, field by field. */
  predicate Ran(was: Endpoint, row: Endpoint, addr: string, now: Time) {
    && row.state == Running && row.addr == Some(addr)
    && row.lastStarted == Some(now) && row.lastActive == Some(now) && row.updated == now
    && row.branch == was.branch && row.suspendAfter == was.suspendAfter
  }

  /** SetEndpointSuspended: whatever the state was. */
  function SuspendRow(row: Option<Endpoint>, now: Time): Option<Endpoint> {
    if row.None? then None else Some(row.value.(state := Suspended, addr := None, updated := now))
  }

  function PutEndpoint(db: Db, id: Id, row: Option<Endpoint>): Db {
    db.(endpoints := Put(db.endpoints, id, row))
  }

  // ---- inserting and deleting, with the constraints of the schema

  predicate NameTaken(db: Db, project: Id, name: string) {
    exists b :: b in db.branches && db.branches[b].project == project && db.branches[b].name == name
  }

  predicate TenantTaken(db: Db, tenant: Id) {
    exists p :: p in db.projects && db.projects[p].tenant == tenant
  }

  predicate BranchServed(db: Db, branch: Id) {
    exists e :: e in db.endpoints && db.endpoints[e].branch == branch
  }

  function NewEndpoint(branch: Id, state: Option<EpState>, suspendAfter: int, now: Time): Endpoint {
    Endpoint(branch,
             if state.Some? then state.value else Suspended,
             None,
             if suspendAfter == 0 then DEFAULT_SUSPEND_AFTER else suspendAfter,
             None, None, now)
  }

  /** The threshold of a createProject request: only a positive one counts, 0 asks for the default. */
  function Requested(suspendAfterSeconds: int): int { if suspendAfterSeconds > 0 then suspendAfterSeconds else 0 }

  /** Both inserts of insertBranchAndEndpoint; an error rolls the transaction back. */
  function InsertBranchAndEndpoint(db: Db, bid: Id, b: Branch, eid: Id, ep: Endpoint): Result<Db> {
    if || bid in db.branches
       || b.project !in db.projects
       || (b.parent.Some? && b.parent.value != bid && b.parent.value !in db.branches)
       || NameTaken(db, b.project, b.name)
       || eid in db.endpoints
       || (ep.branch != bid && ep.branch !in db.branches)
       || BranchServed(db, ep.branch)
       || ep.suspendAfter <= 0
    then Err(Constraint)
    else Ok(db.(branches := db.branches[bid := b], endpoints := db.endpoints[eid := ep]))
  }

  function InsertProject(db: Db, pid: Id, p: Project, bid: Id, b: Branch, eid: Id, ep: Endpoint): Result<Db> {
    if pid in db.projects || TenantTaken(db, p.tenant) then Err(Constraint)
    else InsertBranchAndEndpoint(db.(projects := db.projects[pid := p]), bid, b, eid, ep)
  }

  /** A new endpoint as asked for: suspended and with 300 seconds unless told otherwise, and never started. */
  predicate Inserted(ep: Endpoint, branch: Id, state: Option<EpState>, suspendAfter: int, now: Time) {
    && ep.branch == branch && ep.state == (if state.Some? then state.value else Suspended)
    && ep.addr == None && ep.lastStarted == None && ep.lastActive == None && ep.updated == now
    && ep.suspendAfter == (if suspendAfter == 0 then 300 else suspendAfter)
  }

  /** The keys, references and names allow the rows of a branch and its endpoint. */
  predicate BranchFits(db: Db, bid: Id, b: Branch, eid: Id, branch: Id, suspendAfter: int) {
    && bid !in db.branches && b.project in db.projects
    && (b.parent.Some? ==> b.parent.value == bid || b.parent.value in db.branches)
    && (forall a :: a in db.branches && db.branches[a].project == b.project ==> db.branches[a].name != b.name)
    && eid !in db.endpoints && (branch == bid || branch in db.branches)
    && (forall e :: e in db.endpoints ==> db.endpoints[e].branch != branch) && suspendAfter >= 0
  }

  predicate ProjectFits(db: Db, pid: Id, p: Project) {
    pid !in db.projects && forall q :: q in db.projects ==> db.projects[q].tenant != p.tenant
  }

  /** The insert succeeds exactly when they do. */
  lemma FitsExactly(db: Db, bid: Id, b: Branch, eid: Id, branch: Id, state: Option<EpState>, suspendAfter: int,
      now: Time)
    ensures var r := InsertBranchAndEndpoint(db, bid, b, eid, NewEndpoint(branch, state, suspendAfter, now));
      && (r.Ok? ==> eid in r.value.endpoints)
      && (r.Ok? <==> BranchFits(db, bid, b, eid, branch, suspendAfter)) && (r.Err? ==> r == Err(Constraint))
      && (r.Ok? ==> Inserted(r.value.endpoints[eid], branch, state, suspendAfter, now))
  {
  }

  lemma InsertedExactly(db: Db, pid: Id, p: Project, bid: Id, b: Branch, eid: Id, branch: Id,
      state: Option<EpState>, suspendAfter: int, now: Time)
    ensures var r := InsertProject(db, pid, p, bid, b, eid, NewEndpoint(branch, state, suspendAfter, now));
      r.Err? ==> r == Err(Constraint)
    ensures InsertProject(db, pid, p, bid, b, eid, NewEndpoint(branch, state, suspendAfter, now)).Ok? <==>
      ProjectFits(db, pid, p) && BranchFits(db.(projects := db.projects[pid := p]), bid, b, eid, branch, suspendAfter)
  {
    FitsExactly(db.(projects := db.projects[pid := p]), bid, b, eid, branch, state, suspendAfter, now);
  }

  /** Removes the branches in `gone`: endpoints cascade, children lose their parent (ON DELETE SET NULL). */
  function DropBranches(db: Db, gone: set<Id>): Db {
    db.(branches := map b | b in db.branches && b !in gone :: Orphan(db.branches[b], gone),
        endpoints := map e | e in db.endpoints && db.endpoints[e].branch !in gone :: db.endpoints[e])
  }

  function Orphan(b: Branch, gone: set<Id>): Branch {
    if b.parent.Some? && b.parent.value in gone then b.(parent := None) else b
  }

  function RemoveBranch(db: Db, bid: Id): Db { DropBranches(db, {bid}) }

  function BranchesOf(db: Db, pid: Id): set<Id> {
    set b | b in db.branches && db.branches[b].project == pid
  }

  /** DELETE FROM projects: the cascade takes the project's branches and their endpoints. */
  function RemoveProject(db: Db, pid: Id): Db {
    if pid !in db.projects then db
    else DropBranches(db, BranchesOf(db, pid)).(projects := db.projects - {pid})
  }

  // ---- the three-way join

  datatype AccessControl = AccessControl(role: string, verifier: string, project: Id, branch: Id)

  function AccessControlOf(db: Db, eid: Id): Option<AccessControl> {
    if eid !in db.endpoints then None
    else
      var bid := db.endpoints[eid].branch;
      if bid !in db.branches then None
      else
        var pid := db.branches[bid].project;
        if pid !in db.projects then None
        else Some(AccessControl(db.projects[pid].role, db.projects[pid].verifier, pid, bid))
  }

  // ---- what the schema enforces

  ghost predicate References(db: Db) {
    && (forall b :: b in db.branches ==> db.branches[b].project in db.projects)
    && (forall b {:trigger ParentKnown(db, b)} :: b in db.branches ==> ParentKnown(db, b))
    && (forall e :: e in db.endpoints ==> db.endpoints[e].branch in db.branches)
  }

  predicate ParentKnown(db: Db, b: Id)
    requires b in db.branches
  {
    db.branches[b].parent.Some? ==> db.branches[b].parent.value in db.branches
  }

  predicate SameName(a: Branch, b: Branch) { a.project == b.project && a.name == b.name }

  ghost predicate Unique(db: Db) {
    && (forall p, q :: p in db.projects && q in db.projects && db.projects[p].tenant == db.projects[q].tenant ==>
          p == q)
    && (forall a, b :: a in db.branches && b in db.branches && SameName(db.branches[a], db.branches[b]) ==> a == b)
    && (forall d, e :: d in db.endpoints && e in db.endpoints && db.endpoints[d].branch == db.endpoints[e].branch ==>
          d == e)
  }

  /** References and uniqueness survive every statement. */
  lemma InsertProjectKeepsSchema(db: Db, pid: Id, p: Project, bid: Id, b: Branch, eid: Id, ep: Endpoint)
    requires References(db) && Unique(db)
    ensures var r := InsertProject(db, pid, p, bid, b, eid, ep);
            r.Ok? ==> References(r.value) && Unique(r.value)
  {
    if pid !in db.projects && !TenantTaken(db, p.tenant) {
      var d := db.(projects := db.projects[pid := p]);
      forall a | a in d.branches ensures ParentKnown(d, a) {
        assert ParentKnown(db, a);
      }
      InsertBranchKeepsSchema(d, bid, b, eid, ep);
    }
  }

  lemma InsertBranchKeepsSchema(db: Db, bid: Id, b: Branch, eid: Id, ep: Endpoint)
    requires References(db) && Unique(db)
    ensures var r := InsertBranchAndEndpoint(db, bid, b, eid, ep);
            r.Ok? ==> References(r.value) && Unique(r.value)
  {
    var r := InsertBranchAndEndpoint(db, bid, b, eid, ep);
    if r.Ok? {
      assert forall a :: a in db.branches ==> !SameName(db.branches[a], b);
      assert forall e :: e in db.endpoints ==> db.endpoints[e].branch != ep.branch;
      SchemaAfterInsert(db, r.value, bid, b, eid, ep);
    }
  }

  lemma SchemaAfterInsert(db: Db, d: Db, bid: Id, b: Branch, eid: Id, ep: Endpoint)
    requires References(db) && Unique(db)
    requires d == db.(branches := db.branches[bid := b], endpoints := db.endpoints[eid := ep])
    requires bid !in db.branches && eid !in db.endpoints && b.project in db.projects
    requires b.parent.Some? ==> b.parent.value in d.branches
    requires ep.branch in d.branches
    requires forall a :: a in db.branches ==> !SameName(db.branches[a], b)
    requires forall e :: e in db.endpoints ==> db.endpoints[e].branch != ep.branch
    ensures References(d) && Unique(d)
  {
    forall a | a in d.branches ensures ParentKnown(d, a) {
      assert a != bid ==> ParentKnown(db, a);
    }
    UniqueAfterInsert(db, d, bid, b, eid, ep);
  }

  lemma UniqueAfterInsert(db: Db, d: Db, bid: Id, b: Branch, eid: Id, ep: Endpoint)
    requires Unique(db) && d == db.(branches := db.branches[bid := b], endpoints := db.endpoints[eid := ep])
    requires forall a :: a in db.branches ==> !SameName(db.branches[a], b)
    requires forall e :: e in db.endpoints ==> db.endpoints[e].branch != ep.branch
    ensures Unique(d)
  {
  }

  lemma RemoveBranchKeepsSchema(db: Db, bid: Id)
    requires References(db) && Unique(db)
    ensures References(RemoveBranch(db, bid)) && Unique(RemoveBranch(db, bid))
  {
    DropBranchesKeepsSchema(db, {bid});
  }

  lemma RemoveProjectKeepsSchema(db: Db, pid: Id)
    requires References(db) && Unique(db)
    ensures References(RemoveProject(db, pid)) && Unique(RemoveProject(db, pid))
  {
    if pid !in db.projects {
      return;
    }
    var d := DropBranches(db, BranchesOf(db, pid));
    DropBranchesKeepsSchema(db, BranchesOf(db, pid));
    NoBranchIsLeft(db, pid);
    EmptyProjectCanGo(d, pid);
    assert RemoveProject(db, pid) == d.(projects := d.projects - {pid});
  }

  lemma NoBranchIsLeft(db: Db, pid: Id)
    ensures forall b :: b in DropBranches(db, BranchesOf(db, pid)).branches ==>
      DropBranches(db, BranchesOf(db, pid)).branches[b].project != pid
  {
  }

  lemma EmptyProjectCanGo(db: Db, pid: Id)
    requires References(db) && Unique(db) && forall b :: b in db.branches ==> db.branches[b].project != pid
    ensures References(db.(projects := db.projects - {pid})) && Unique(db.(projects := db.projects - {pid}))
  {
    var d := db.(projects := db.projects - {pid});
    forall b | b in d.branches ensures ParentKnown(d, b) {
      assert ParentKnown(db, b);
    }
  }

  lemma DropBranchesKeepsSchema(db: Db, gone: set<Id>)
    requires References(db) && Unique(db)
    ensures References(DropBranches(db, gone)) && Unique(DropBranches(db, gone))
  {
    assert References(DropBranches(db, gone)) by { DropKeepsReferences(db, gone); }
    assert Unique(DropBranches(db, gone)) by { DropKeepsUnique(db, gone); }
  }

  lemma DropKeepsReferences(db: Db, gone: set<Id>)
    requires References(db)
    ensures References(DropBranches(db, gone))
  {
    var d := DropBranches(db, gone);
    forall b | b in d.branches ensures ParentKnown(d, b) {
      assert ParentKnown(db, b);
    }
  }

  lemma DropKeepsUnique(db: Db, gone: set<Id>)
    requires Unique(db)
    ensures Unique(DropBranches(db, gone))
  {
    var d := DropBranches(db, gone);
    forall a, b | a in d.branches && b in d.branches && SameName(d.branches[a], d.branches[b]) ensures a == b {
      assert SameName(db.branches[a], db.branches[b]);
    }
  }

  /** Under the schema the join finds exactly the existing endpoints, with its own branch's project. */
  lemma JoinFindsEveryEndpoint(db: Db, eid: Id)
    requires References(db)
    ensures AccessControlOf(db, eid).Some? <==> eid in db.endpoints
    ensures eid in db.endpoints ==>
      var ac := AccessControlOf(db, eid).value;
      ac.branch == db.endpoints[eid].branch && ac.project == db.branches[ac.branch].project && ac.project in db.projects
  {
  }
}
