/**
 * Creating and deleting projects and branches: the API handlers as interleaved, failing,
 * interruptible sequences of calls on the pageserver and the catalog. Proved of every run:
 * nothing on the pageserver is unaccounted for, and the branch tree keeps its shape.
 */
module Provisioning {
  import opened Base
  import opened Database
  import opened Catalog
  import opened BranchPoint

  /** Where a branch was cut: the ancestor timeline and the position on it. */
  datatype Cut = Cut(ancestor: Id, at: nat)

  datatype Timeline = Timeline(tenant: Id, origin: Option<Cut>)

  /**
   * Tenants and timelines. `record` is the position up to which a timeline has been ingested
   * (last_record_lsn); it never goes back and is remembered after the timeline is gone.
   */
  datatype Pageserver = Pageserver(tenants: set<Id>, timelines: map<Id, Timeline>, record: map<Id, nat>)

  /** The generated ids and the request of a createProject. */
  datatype ProjectPlan = ProjectPlan(pid: Id, project: Project, bid: Id, timeline: Id, eid: Id, suspendAfter: int)

  /** The generated ids and the request of a createBranch. */
  datatype BranchPlan = BranchPlan(pid: Id, name: string, parent: Option<Id>, bid: Id, timeline: Id, eid: Id)

  datatype Handler =
    | AttachTenant(n: ProjectPlan) | MakeTimeline(n: ProjectPlan)
    | SaveProject(n: ProjectPlan) | UndoTenant(n: ProjectPlan)
    | FindProject(q: BranchPlan) | FindParent(q: BranchPlan, tenant: Id)
    | AskCommit(q: BranchPlan, tenant: Id, from: Id, ancestor: Id)
    | PollRecord(q: BranchPlan, tenant: Id, from: Id, ancestor: Id, at: nat, deadline: Time)
    | Pause(q: BranchPlan, tenant: Id, from: Id, ancestor: Id, at: nat, deadline: Time)
    | CutTimeline(q: BranchPlan, tenant: Id, from: Id, ancestor: Id, at: nat)
    | SaveBranch(q: BranchPlan, tenant: Id, from: Id, at: nat) | UndoTimeline(q: BranchPlan, tenant: Id)
    | FindBranch(path: Id, bid: Id) | FindOwner(bid: Id, branch: Branch)
    | DropTimeline(bid: Id, branch: Branch, tenant: Id) | DropRow(bid: Id, branch: Branch)
    | FindDoomed(pid: Id) | DropTenant(pid: Id, tenant: Id) | DropProjectRow(pid: Id, tenant: Id)
    | Ended

  type Tid = nat

  /** Done; failed without effect; took effect but reported as failed; or the position the safekeepers report. */
  datatype Reply = Fine | Fail | Lost | Reported(at: nat)

  /**
   * `hist` keeps the first version of every row, `used` every id ever generated, `leaked` the
   * tenants and timelines a handler gave up, `deleted` the projects whose row a delete removed,
   * `order` the rank of each branch by insertion.
   */
  datatype Sys = Sys(
    db: Db, ps: Pageserver, now: Time, handlers: map<Tid, Handler>,
    hist: Db, used: set<Id>, leaked: set<Id>, deleted: set<Id>, order: map<Id, nat>, serial: nat)

  datatype Label =
    | Tick(d: nat)
    | Ingest(x: Id, d: nat)               // the pageserver ingests more of a timeline
    | CreateProject(t: Tid, n: ProjectPlan) | CreateBranch(t: Tid, q: BranchPlan)
    | DeleteBranch(t: Tid, path: Id, bid: Id) | DeleteProject(t: Tid, pid: Id)
    | Crash(t: Tid)
    | Act(t: Tid, out: Reply, pick: Id)     // pick: the default branch the listing finds

  // ---- pageserver calls

  function Record(ps: Pageserver, x: Id): nat { if x in ps.record then ps.record[x] else 0 }

  function RaiseRecord(ps: Pageserver, x: Id, to: nat): Pageserver {
    ps.(record := ps.record[x := if to > Record(ps, x) then to else Record(ps, x)])
  }

  /** A branch starts with everything up to its cut. */
  function AddTimeline(ps: Pageserver, timeline: Id, t: Timeline): Pageserver {
    RaiseRecord(ps.(timelines := ps.timelines[timeline := t]), timeline, if t.origin.Some? then t.origin.value.at
        else 0)
  }

  /** Deleting a tenant takes its timelines along. */
  function WithoutTenant(ps: Pageserver, tenant: Id): Pageserver {
    ps.(tenants := ps.tenants - {tenant}, timelines := map x | x in ps.timelines
        && ps.timelines[x].tenant != tenant :: ps.timelines[x])
  }

  function WithoutTimeline(ps: Pageserver, timeline: Id): Pageserver { ps.(timelines := ps.timelines - {timeline}) }

  // ---- the rows the handlers insert

  function ProjectInsert(db: Db, n: ProjectPlan, now: Time): Result<Db> {
    InsertProject(db, n.pid, n.project, n.bid, Branch(n.pid, "main", n.timeline, None, true), n.eid,
                  NewEndpoint(n.bid, Some(Suspended), Requested(n.suspendAfter), now))
  }

  function BranchInsert(db: Db, q: BranchPlan, from: Id, now: Time): Result<Db> {
    InsertBranchAndEndpoint(db, q.bid, Branch(q.pid, q.name, q.timeline, Some(from), false), q.eid,
                            NewEndpoint(q.bid, Some(Suspended), 0, now))
  }

  // ---- moves

  /** New database and pageserver, next position, and what is given up. */
  datatype Effect = Effect(db: Db, ps: Pageserver, next: Handler, lost: set<Id>)

  predicate TookEffect(out: Reply) { out == Fine || out == Lost }

  predicate Creates(h: Handler) { h.AttachTenant? || h.MakeTimeline? || h.SaveProject? || h.UndoTenant? }

  predicate Branches(h: Handler) { h.FindProject? || h.FindParent? || Cutting(h) || h.SaveBranch? || h.UndoTimeline? }

  /** From the chosen ancestor to the timeline cut from it. */
  predicate Cutting(h: Handler) { h.AskCommit? || h.PollRecord? || h.Pause? || h.CutTimeline? }

  predicate Removes(h: Handler) {
    h.FindBranch? || h.FindOwner? || h.DropTimeline? || h.DropRow? || h.FindDoomed? || h.DropTenant?
        || h.DropProjectRow?
  }

  /** createProject: attach, timeline, rows; a failed insert drops the tenant, a failed timeline drops nothing. */
  function CreateMove(h: Handler, db: Db, ps: Pageserver, now: Time, out: Reply): Effect
    requires Creates(h)
  {
    var n := h.n;
    var tenant := n.project.tenant;
    match h
    case AttachTenant(_) =>
      if !TookEffect(out) then Effect(db, ps, Ended, {})
      else if out == Fine then Effect(db, ps.(tenants := ps.tenants + {tenant}), MakeTimeline(n), {})
      else Effect(db, ps.(tenants := ps.tenants + {tenant}), Ended, {tenant})
    case MakeTimeline(_) =>
      if !TookEffect(out) || tenant !in ps.tenants then Effect(db, ps, Ended, {tenant})
      else if out == Fine then Effect(db, AddTimeline(ps, n.timeline, Timeline(tenant, None)), SaveProject(n), {})
      else Effect(db, AddTimeline(ps, n.timeline, Timeline(tenant, None)), Ended, {tenant, n.timeline})
    case SaveProject(_) =>
      var r := ProjectInsert(db, n, now);
      if !TookEffect(out) || r.Err? then Effect(db, ps, UndoTenant(n), {})
      else Effect(r.value, ps, if out == Fine then Ended else UndoTenant(n), {})
    case UndoTenant(_) =>
      if TookEffect(out) then Effect(db, WithoutTenant(ps, tenant), Ended, {})
      else Effect(db, ps, Ended, {tenant, n.timeline})
  }

  /** The timeline exists on the tenant. */
  predicate Serves(ps: Pageserver, timeline: Id, tenant: Id) {
    timeline in ps.timelines && ps.timelines[timeline].tenant == tenant
  }

  /** createBranch: project, parent, timeline, rows; a failed insert drops the timeline. */
  function BranchMove(h: Handler, db: Db, ps: Pageserver, now: Time, out: Reply, pick: Id): Effect
    requires Branches(h)
  {
    var q := h.q;
    match h
    case FindProject(_) =>
      Effect(db, ps, if out == Fine && q.pid in db.projects then FindParent(q, db.projects[q.pid].tenant)
          else Ended, {})
    case FindParent(_, tenant) =>
      var from := if q.parent.Some? then q.parent.value else pick;
      if out == Fine && from in db.branches && db.branches[from].project == q.pid
          && (q.parent.None? ==> db.branches[from].isDefault)
      then Effect(db, ps, AskCommit(q, tenant, from, db.branches[from].timeline), {})
      else Effect(db, ps, Ended, {})
    case AskCommit(_, tenant, from, ancestor) =>
      Effect(db, ps, if out.Reported? then PollRecord(q, tenant, from, ancestor, out.at, now + INGEST_BUDGET)
          else Ended, {})
    case PollRecord(_, tenant, from, ancestor, at, deadline) =>
      Effect(db, ps, if out != Fine || !Serves(ps, ancestor, tenant) then Ended
                     else if Record(ps, ancestor) >= at then CutTimeline(q, tenant, from, ancestor, at)
                     else if now > deadline then Ended
                     else Pause(q, tenant, from, ancestor, at, deadline), {})
    case Pause(_, tenant, from, ancestor, at, deadline) =>
      Effect(db, ps, if out == Fine then PollRecord(q, tenant, from, ancestor, at, deadline) else Ended, {})
    case CutTimeline(_, tenant, from, ancestor, at) =>
      var cut := Timeline(tenant, Some(Cut(ancestor, at)));
      if !TookEffect(out) || tenant !in ps.tenants || !Serves(ps, ancestor, tenant) then Effect(db, ps, Ended, {})
      else if out == Fine then Effect(db, AddTimeline(ps, q.timeline, cut), SaveBranch(q, tenant, from, at), {})
      else Effect(db, AddTimeline(ps, q.timeline, cut), Ended, {q.timeline})
    case SaveBranch(_, tenant, from, _) =>
      var r := BranchInsert(db, q, from, now);
      if !TookEffect(out) || r.Err? then Effect(db, ps, UndoTimeline(q, tenant), {})
      else Effect(r.value, ps, if out == Fine then Ended else UndoTimeline(q, tenant), {})
    case UndoTimeline(_, _) =>
      if TookEffect(out) then Effect(db, WithoutTimeline(ps, q.timeline), Ended, {})
      else Effect(db, ps, Ended, {q.timeline})
  }

  /** deleteBranch and deleteProject: storage first, then the row. */
  function RemoveMove(h: Handler, db: Db, ps: Pageserver, out: Reply): Effect
    requires Removes(h)
  {
    match h
    case FindBranch(path, bid) =>
      Effect(db, ps, if out == Fine && bid in db.branches && db.branches[bid].project == path
          && !db.branches[bid].isDefault
                     then FindOwner(bid, db.branches[bid]) else Ended, {})
    case FindOwner(bid, b) =>
      Effect(db, ps, if out == Fine && b.project in db.projects
          then DropTimeline(bid, b, db.projects[b.project].tenant) else Ended, {})
    case DropTimeline(bid, b, _) =>
      Effect(db, if TookEffect(out) then WithoutTimeline(ps, b.timeline)
          else ps, if out == Fine then DropRow(bid, b) else Ended, {})
    case DropRow(bid, _) =>
      Effect(if TookEffect(out) then RemoveBranch(db, bid) else db, ps, Ended, {})
    case FindDoomed(pid) =>
      Effect(db, ps, if out == Fine && pid in db.projects then DropTenant(pid, db.projects[pid].tenant) else Ended, {})
    case DropTenant(pid, tenant) =>
      Effect(db, if TookEffect(out) then WithoutTenant(ps, tenant)
          else ps, if out == Fine then DropProjectRow(pid, tenant) else Ended, {})
    case DropProjectRow(pid, _) =>
      Effect(if TookEffect(out) then RemoveProject(db, pid) else db, ps, Ended, {})
  }

  function Move(s: Sys, h: Handler, out: Reply, pick: Id): Effect
    requires !h.Ended?
  {
    if Creates(h) then CreateMove(h, s.db, s.ps, s.now, out)
    else if Branches(h) then BranchMove(h, s.db, s.ps, s.now, out, pick)
    else RemoveMove(h, s.db, s.ps, out)
  }

  /** A call whose reply is lost has done what a successful one does, and a call that fails nothing. */
  lemma RepliesDoNotMatter(s: Sys, h: Handler, pick: Id)
    requires !h.Ended?
    ensures Move(s, h, Lost, pick).db == Move(s, h, Fine, pick).db
        && Move(s, h, Lost, pick).ps == Move(s, h, Fine, pick).ps
    ensures Move(s, h, Fail, pick).db == s.db && Move(s, h, Fail, pick).ps == s.ps
  {
  }

  // ---- steps

  /** All ids a creation has generated. */
  function PlanIds(h: Handler): set<Id> {
    if Creates(h) then {h.n.pid, h.n.project.tenant, h.n.bid, h.n.timeline, h.n.eid}
    else if Branches(h) then {h.q.bid, h.q.timeline, h.q.eid}
    else {}
  }

  /** Tenants and timelines on the pageserver that only the handler accounts for. */
  function HeldTenants(h: Handler): set<Id> {
    if h.MakeTimeline? || h.SaveProject? || h.UndoTenant? then {h.n.project.tenant} else {}
  }

  function HeldTimelines(h: Handler): set<Id> {
    if h.SaveProject? || h.UndoTenant? then {h.n.timeline}
    else if h.SaveBranch? || h.UndoTimeline? then {h.q.timeline}
    else {}
  }

  predicate Enabled(s: Sys, l: Label) {
    match l
    case Tick(_) => true
    case Ingest(x, d) => x in s.ps.timelines && Record(s.ps, x) + d < TWO64
    case CreateProject(t, n) => t !in s.handlers && PlanIds(AttachTenant(n)) !! s.used
    case CreateBranch(t, q) => t !in s.handlers && PlanIds(FindProject(q)) !! s.used
    case DeleteBranch(t, _, _) => t !in s.handlers
    case DeleteProject(t, _) => t !in s.handlers
    case Crash(t) => t in s.handlers
    case Act(t, out, pick) =>
      t in s.handlers && !s.handlers[t].Ended? &&
      // the listing finds the project's default branch if there is one
      (s.handlers[t].FindParent? && s.handlers[t].q.parent.None?
          && (exists b :: b in s.db.branches && IsDefaultOf(s.db, b, s.handlers[t].q.pid)) ==>
         IsDefaultOf(s.db, pick, s.handlers[t].q.pid))
  }

  function Started(s: Sys, t: Tid, h: Handler): Sys {
    s.(handlers := s.handlers[t := h], used := s.used + PlanIds(h))
  }

  function Acted(s: Sys, t: Tid, out: Reply, pick: Id): Sys
    requires t in s.handlers && !s.handlers[t].Ended?
  {
    Updated(s, t, out, Move(s, s.handlers[t], out, pick))
  }

  function Updated(s: Sys, t: Tid, out: Reply, m: Effect): Sys
    requires t in s.handlers
  {
    var h := s.handlers[t];
    s.(db := m.db, ps := m.ps, handlers := s.handlers[t := m.next], hist := Remember(s.hist, m.db),
       leaked := s.leaked + m.lost,
       deleted := if h.DropProjectRow? && TookEffect(out) then s.deleted + {h.pid} else s.deleted,
       order := if Saves(s, h, m) then s.order[NewBid(h) := s.serial] else s.order,
       serial := s.serial + 1)
  }

  function NewBid(h: Handler): Id
    requires h.SaveProject? || h.SaveBranch?
  {
    if h.SaveProject? then h.n.bid else h.q.bid
  }

  /** The step inserts rows. */
  predicate Saves(s: Sys, h: Handler, m: Effect) { (h.SaveProject? || h.SaveBranch?) && m.db != s.db }

  function Apply(s: Sys, l: Label): Sys
    requires Enabled(s, l)
  {
    match l
    case Tick(d) => s.(now := s.now + d)
    case Ingest(x, d) => s.(ps := RaiseRecord(s.ps, x, Record(s.ps, x) + d))
    case CreateProject(t, n) => Started(s, t, AttachTenant(n))
    case CreateBranch(t, q) => Started(s, t, FindProject(q))
    case DeleteBranch(t, path, bid) => Started(s, t, FindBranch(path, bid))
    case DeleteProject(t, pid) => Started(s, t, FindDoomed(pid))
    case Crash(t) => s.(handlers := s.handlers - {t},
        leaked := s.leaked + HeldTenants(s.handlers[t]) + HeldTimelines(s.handlers[t]))
    case Act(t, out, pick) => Acted(s, t, out, pick)
  }

  ghost predicate IsTrace(states: seq<Sys>, labels: seq<Label>) {
    && |states| == |labels| + 1
    && forall i | 0 <= i < |labels| :: Enabled(states[i], labels[i]) && states[i + 1] == Apply(states[i], labels[i])
  }

  /** One more step at the end of a run. */
  lemma TraceExtends(states: seq<Sys>, labels: seq<Label>, l: Label)
    requires IsTrace(states, labels) && Enabled(states[|labels|], l)
    ensures IsTrace(states + [Apply(states[|labels|], l)], labels + [l])
  {
    var (ss, ls) := (states + [Apply(states[|labels|], l)], labels + [l]);
    forall i | 0 <= i < |ls| ensures Enabled(ss[i], ls[i]) && ss[i + 1] == Apply(ss[i], ls[i]) {
      assert i < |labels| ==> states[i + 1] == Apply(states[i], labels[i]);
    }
  }

  // ---- the invariant

  /** Ids of the history. */
  ghost predicate Known(h: Db, x: Id) {
    || x in h.projects || x in h.branches || x in h.endpoints
    || (exists p :: p in h.projects && h.projects[p].tenant == x)
    || (exists b :: b in h.branches && h.branches[b].timeline == x)
  }

  ghost predicate TenantsOnce(h: Db) {
    forall p, q :: p in h.projects && q in h.projects && h.projects[p].tenant == h.projects[q].tenant ==> p == q
  }

  /** A creation that has not inserted its rows yet. */
  predicate Unsaved(h: Handler) {
    h.AttachTenant? || h.MakeTimeline? || h.SaveProject? || h.FindProject? || h.FindParent? || Cutting(h)
        || h.SaveBranch?
  }

  /** Ids: everything known is used; unsaved plans are unknown and apart from each other. */
  ghost predicate IdsOk(s: Sys) {
    && (forall x :: Known(s.hist, x) ==> x in s.used)
    && (forall t :: t in s.handlers ==> PlanIds(s.handlers[t]) <= s.used)
    && (forall t, x :: t in s.handlers && Unsaved(s.handlers[t]) && x in PlanIds(s.handlers[t]) ==> !Known(s.hist, x))
    && (forall t, u :: t in s.handlers && u in s.handlers && t != u ==>
          PlanIds(s.handlers[t]) !! PlanIds(s.handlers[u]))
  }

  /** What a handler has read stays true of the history. */
  ghost predicate RefsOk(h: Db, ps: Pageserver, x: Handler) {
    match x
    case SaveProject(n) => IfThere(ps, n.timeline, Timeline(n.project.tenant, None))
    case UndoTenant(n) => OnTenant(ps, n.timeline, n.project.tenant)
    case FindParent(q, tenant) => q.pid in h.projects && h.projects[q.pid].tenant == tenant
    case AskCommit(q, tenant, from, ancestor) => AncestorOk(h, q, tenant, from, ancestor)
    case PollRecord(q, tenant, from, ancestor, _, _) => AncestorOk(h, q, tenant, from, ancestor)
    case Pause(q, tenant, from, ancestor, _, _) => AncestorOk(h, q, tenant, from, ancestor)
    case CutTimeline(q, tenant, from, ancestor, at) => AncestorOk(h, q, tenant, from, ancestor)
        && at <= Record(ps, ancestor)
    case SaveBranch(q, tenant, from, at) =>
      from in h.branches && AncestorOk(h, q, tenant, from, h.branches[from].timeline)
      && IfThere(ps, q.timeline, Timeline(tenant, Some(Cut(h.branches[from].timeline, at))))
    case FindOwner(bid, b) => bid in h.branches && SameBranch(h.branches[bid], b) && !b.isDefault
    case DropTimeline(bid, b, tenant) => bid in h.branches && SameBranch(h.branches[bid], b) && !b.isDefault
    case DropRow(bid, b) => bid in h.branches && SameBranch(h.branches[bid], b) && !b.isDefault
        && b.timeline !in ps.timelines
    case DropTenant(pid, tenant) => pid in h.projects && h.projects[pid].tenant == tenant
    case DropProjectRow(pid, tenant) => pid in h.projects && h.projects[pid].tenant == tenant && tenant !in ps.tenants
    case _ => true
  }

  predicate OnTenant(ps: Pageserver, timeline: Id, tenant: Id) {
    timeline in ps.timelines ==> ps.timelines[timeline].tenant == tenant
  }

  predicate IfThere(ps: Pageserver, timeline: Id, t: Timeline) {
    timeline in ps.timelines ==> ps.timelines[timeline] == t
  }

  /** The ancestor is the timeline of the branch chosen as parent, on the project's tenant. */
  predicate AncestorOk(h: Db, q: BranchPlan, tenant: Id, from: Id, ancestor: Id) {
    && q.pid in h.projects && h.projects[q.pid].tenant == tenant
    && from in h.branches && h.branches[from].project == q.pid && h.branches[from].timeline == ancestor
  }

  /** Timelines belong to attached tenants, and those with rows to their project's tenant. */
  ghost predicate PsOk(h: Db, ps: Pageserver) {
    && (forall x :: x in ps.timelines ==> ps.timelines[x].tenant in ps.tenants)
    && (forall b :: b in h.branches && h.branches[b].project in h.projects ==>
          OnTenant(ps, h.branches[b].timeline, h.projects[h.branches[b].project].tenant))
  }

  /** No branch was cut beyond what its ancestor had ingested; positions are 64-bit. */
  ghost predicate CutsIngested(ps: Pageserver) {
    && (forall x :: x in ps.timelines && ps.timelines[x].origin.Some? ==>
          ps.timelines[x].origin.value.at <= Record(ps, ps.timelines[x].origin.value.ancestor))
    && (forall x :: x in ps.record ==> ps.record[x] < TWO64)
  }

  /** Timelines descend as their branches do: cut from the parent's timeline, or from none. */
  ghost predicate OriginsFit(h: Db, ps: Pageserver) {
    forall b :: b in h.branches && h.branches[b].timeline in ps.timelines ==>
      OriginFits(h, h.branches[b].parent, ps.timelines[h.branches[b].timeline].origin)
  }

  predicate OriginFits(h: Db, parent: Option<Id>, origin: Option<Cut>) {
    if parent.None? then origin.None?
    else parent.value in h.branches && origin.Some? && origin.value.ancestor == h.branches[parent.value].timeline
  }

  ghost predicate TenantAccounted(s: Sys, x: Id) {
    || (exists p :: p in s.db.projects && s.db.projects[p].tenant == x)
    || (exists t :: t in s.handlers && x in HeldTenants(s.handlers[t]))
    || x in s.leaked
  }

  ghost predicate TimelineAccounted(s: Sys, x: Id) {
    || (exists b :: b in s.db.branches && s.db.branches[b].timeline == x)
    || (exists t :: t in s.handlers && x in HeldTimelines(s.handlers[t]))
    || x in s.leaked
  }

  /** Conservation: whatever is on the pageserver has a row, is held by a handler, or is a known leak. */
  ghost predicate Conserved(s: Sys) {
    && (forall x :: x in s.ps.tenants ==> TenantAccounted(s, x))
    && (forall x :: x in s.ps.timelines ==> TimelineAccounted(s, x))
  }

  /** A project that a delete has removed is gone from everywhere. */
  ghost predicate Erased(s: Sys, p: Id) {
    && p in s.hist.projects && p !in s.db.projects
    && s.hist.projects[p].tenant !in s.ps.tenants
    && (forall x :: x in s.ps.timelines ==> s.ps.timelines[x].tenant != s.hist.projects[p].tenant)
    && (forall b :: b in s.db.branches ==> s.db.branches[b].project != p)
  }

  ghost predicate Inv(s: Sys) {
    && HistoryOk(s.hist) && Recorded(s.db, s.hist) && TenantsOnce(s.hist)
    && IdsOk(s)
    && (forall t :: t in s.handlers ==> RefsOk(s.hist, s.ps, s.handlers[t]))
    && PsOk(s.hist, s.ps) && CutsIngested(s.ps) && OriginsFit(s.hist, s.ps)
  }

  // ---- one move

  /** The rows a move may add. */
  function EntryOf(h: Handler): Entry {
    match h
    case SaveProject(n) => ProjectRows(n.pid, n.bid, n.timeline, n.eid)
    case SaveBranch(q, _, _, _) => BranchRows(q.bid, q.timeline, q.eid)
    case _ => NoRows
  }

  /** Where the rows of `d` come from, seen from the history. */
  ghost predicate RowsFrom(d: Db, h: Db, x: Handler) {
    && NewOrRecorded(d, h, EntryOf(x))
    && (forall p :: p in d.projects && p !in h.projects ==>
          x.SaveProject? && p == x.n.pid && d.projects[p] == x.n.project)
    && (forall b :: b in d.branches && b !in h.branches ==>
          || (x.SaveProject? && b == x.n.bid && d.branches[b].project == x.n.pid && d.branches[b].parent == None)
          || (x.SaveBranch? && b == x.q.bid && d.branches[b].project == x.q.pid
                && d.branches[b].parent == Some(x.from)))
  }

  /** Every row of `d` is one of `db`, up to a lost parent. */
  ghost predicate Fewer(d: Db, db: Db) {
    && (forall p :: p in d.projects ==> p in db.projects && d.projects[p] == db.projects[p])
    && (forall b :: b in d.branches ==> b in db.branches && SameBranch(d.branches[b], db.branches[b]))
    && (forall e :: e in d.endpoints ==> e in db.endpoints && d.endpoints[e] == db.endpoints[e])
  }

  lemma RemovalsAreFewer(db: Db, id: Id)
    ensures Fewer(db, db) && Fewer(RemoveBranch(db, id), db) && Fewer(RemoveProject(db, id), db)
  {
  }

  lemma FewerRows(d: Db, db: Db, h: Db, x: Handler)
    requires Recorded(db, h) && Fewer(d, db)
    ensures RowsFrom(d, h, x)
  {
  }

  lemma ProjectRowsInserted(db: Db, h: Db, x: Handler, now: Time)
    requires Recorded(db, h) && x.SaveProject? && ProjectInsert(db, x.n, now).Ok?
    ensures RowsFrom(ProjectInsert(db, x.n, now).value, h, x)
  {
  }

  lemma BranchRowsInserted(db: Db, h: Db, x: Handler, now: Time)
    requires Recorded(db, h) && x.SaveBranch? && BranchInsert(db, x.q, x.from, now).Ok?
    ensures RowsFrom(BranchInsert(db, x.q, x.from, now).value, h, x)
  {
  }

  lemma MoveRows(s: Sys, h: Handler, out: Reply, pick: Id)
    requires !h.Ended? && Recorded(s.db, s.hist)
    ensures RowsFrom(Move(s, h, out, pick).db, s.hist, h)
  {
    var d := Move(s, h, out, pick).db;
    MoveDb(s, h, out, pick);
    if h.SaveProject? && d != s.db {
      ProjectRowsInserted(s.db, s.hist, h, s.now);
    } else if h.SaveBranch? && d != s.db {
      BranchRowsInserted(s.db, s.hist, h, s.now);
    } else {
      OtherMovesAreFewer(s, h, d);
      FewerRows(d, s.db, s.hist, h);
    }
  }

  /** What a move does to the database. */
  lemma MoveDb(s: Sys, h: Handler, out: Reply, pick: Id)
    requires !h.Ended?
    ensures var d := Move(s, h, out, pick).db;
      || d == s.db
      || (h.SaveProject? && ProjectInsert(s.db, h.n, s.now) == Ok(d))
      || (h.SaveBranch? && BranchInsert(s.db, h.q, h.from, s.now) == Ok(d))
      || (h.DropRow? && d == RemoveBranch(s.db, h.bid))
      || (h.DropProjectRow? && d == RemoveProject(s.db, h.pid))
  {
  }

  lemma OtherMovesAreFewer(s: Sys, h: Handler, d: Db)
    requires || d == s.db
             || (h.DropRow? && d == RemoveBranch(s.db, h.bid))
             || (h.DropProjectRow? && d == RemoveProject(s.db, h.pid))
    ensures Fewer(d, s.db)
  {
    RemovalsAreFewer(s.db, if h.DropRow? then h.bid else if h.DropProjectRow? then h.pid else "");
  }

  /** What a move may put on the pageserver: the tenant and timeline of its own unsaved plan. */
  ghost predicate PsStep(ps: Pageserver, ps': Pageserver, h: Handler) {
    && (forall x :: x in ps'.tenants ==> x in ps.tenants || (Unsaved(h) && x in PlanIds(h)))
    && (forall x :: x in ps'.timelines ==>
          || (x in ps.timelines && ps'.timelines[x] == ps.timelines[x])
          || (Unsaved(h) && x in PlanIds(h)))
    && (forall x :: x in ps'.timelines ==> ps'.timelines[x].tenant in ps'.tenants)
    && (forall x :: Record(ps', x) >= Record(ps, x))
  }

  lemma MovePs(s: Sys, h: Handler, out: Reply, pick: Id)
    requires !h.Ended? && forall x :: x in s.ps.timelines ==> s.ps.timelines[x].tenant in s.ps.tenants
    ensures PsStep(s.ps, Move(s, h, out, pick).ps, h)
  {
    if Creates(h) {
      CreateMovePs(h, s.db, s.ps, s.now, out);
    } else if Branches(h) {
      BranchMovePs(h, s.db, s.ps, s.now, out, pick);
    }
  }

  lemma CreateMovePs(h: Handler, db: Db, ps: Pageserver, now: Time, out: Reply)
    requires Creates(h) && forall x :: x in ps.timelines ==> ps.timelines[x].tenant in ps.tenants
    ensures PsStep(ps, CreateMove(h, db, ps, now, out).ps, h)
  {
  }

  lemma BranchMovePs(h: Handler, db: Db, ps: Pageserver, now: Time, out: Reply, pick: Id)
    requires Branches(h) && forall x :: x in ps.timelines ==> ps.timelines[x].tenant in ps.tenants
    ensures PsStep(ps, BranchMove(h, db, ps, now, out, pick).ps, h)
  {
  }

  /** The next position keeps the plan or drops it, and only saving ends its being unsaved. */
  predicate NextStep(s: Sys, h: Handler, m: Effect) {
    && (m.next.Ended? || PlanIds(m.next) == PlanIds(h))
    && (Unsaved(m.next) ==> Unsaved(h) && !h.SaveProject? && !h.SaveBranch?)
    && (h.SaveProject? || h.SaveBranch? ==> m.ps == s.ps)
  }

  lemma MoveNext(s: Sys, h: Handler, out: Reply, pick: Id)
    requires !h.Ended?
    ensures NextStep(s, h, Move(s, h, out, pick))
  {
  }

  /** References of the handler that moves, in its next position. */
  lemma MoveRefs(s: Sys, h: Handler, out: Reply, pick: Id)
    requires !h.Ended? && Recorded(s.db, s.hist) && RefsOk(s.hist, s.ps, h)
    ensures var m := Move(s, h, out, pick);
            m.db == s.db || m.next.Ended? || m.next.UndoTenant? || m.next.UndoTimeline?
    ensures var m := Move(s, h, out, pick);
            RefsOk(s.hist, m.ps, m.next)
  {
    if Creates(h) {
    } else if Branches(h) {
      BranchRefs(s, h, out, pick);
    }
  }

  lemma BranchRefs(s: Sys, h: Handler, out: Reply, pick: Id)
    requires Branches(h) && Recorded(s.db, s.hist) && RefsOk(s.hist, s.ps, h)
    ensures var m := BranchMove(h, s.db, s.ps, s.now, out, pick);
            RefsOk(s.hist, m.ps, m.next) && (m.db == s.db || m.next.Ended? || m.next.UndoTimeline?)
  {
  }

  /** What the proofs below use of a move. */
  ghost predicate Sound(s: Sys, h: Handler, m: Effect) {
    RowsFrom(m.db, s.hist, h) && PsStep(s.ps, m.ps, h) && NextStep(s, h, m) && RefsOk(s.hist, m.ps, m.next)
  }

  // ---- one step keeps the invariant

  /** A step makes known only ids of the plan it saves. */
  lemma NewlyKnown(d: Db, h: Db, x: Handler, id: Id)
    requires RowsFrom(d, h, x) && Known(Remember(h, d), id)
    ensures Known(h, id) || (id in PlanIds(x) && (x.SaveProject? || x.SaveBranch?))
  {
    var h' := Remember(h, d);
    if b :| b in h'.branches && h'.branches[b].timeline == id {
      BranchOrigin(d, h, EntryOf(x), b);
    }
  }

  lemma StepKeepsIds(s: Sys, t: Tid, out: Reply, m: Effect)
    requires IdsOk(s) && t in s.handlers && Sound(s, s.handlers[t], m)
    ensures IdsOk(Updated(s, t, out, m))
  {
    StepKeepsPlans(s, t, out, m);
    var (s', h) := (Updated(s, t, out, m), s.handlers[t]);
    forall x | Known(s'.hist, x) ensures x in s'.used {
      NewlyKnown(m.db, s.hist, h, x);
    }
    forall u, x | u in s'.handlers && Unsaved(s'.handlers[u]) && x in PlanIds(s'.handlers[u])
      ensures !Known(s'.hist, x) {
      assert x in PlanIds(s.handlers[u]);
      if Known(s'.hist, x) {
        NewlyKnown(m.db, s.hist, h, x);
      }
    }
  }

  /** Plans stay apart, and only shrink. */
  lemma StepKeepsPlans(s: Sys, t: Tid, out: Reply, m: Effect)
    requires IdsOk(s) && t in s.handlers && NextStep(s, s.handlers[t], m)
    ensures var s' := Updated(s, t, out, m);
      && (forall u :: u in s'.handlers ==>
            PlanIds(s'.handlers[u]) <= PlanIds(s.handlers[u]) && PlanIds(s'.handlers[u]) <= s'.used)
      && (forall u, v :: u in s'.handlers && v in s'.handlers && u != v ==>
            PlanIds(s'.handlers[u]) !! PlanIds(s'.handlers[v]))
  {
    var s' := Updated(s, t, out, m);
    PlansShrink(s, t, out, m);
    forall u, v | u in s'.handlers && v in s'.handlers && u != v
      ensures PlanIds(s'.handlers[u]) !! PlanIds(s'.handlers[v])
    {
      var (a, b) := (PlanIds(s.handlers[u]), PlanIds(s.handlers[v]));
      SmallerStayApart(a, PlanIds(s'.handlers[u]), b, PlanIds(s'.handlers[v]));
    }
  }

  lemma PlansShrink(s: Sys, t: Tid, out: Reply, m: Effect)
    requires IdsOk(s) && t in s.handlers && NextStep(s, s.handlers[t], m)
    ensures var s' := Updated(s, t, out, m);
      forall u :: u in s'.handlers ==>
        PlanIds(s'.handlers[u]) <= PlanIds(s.handlers[u]) && PlanIds(s'.handlers[u]) <= s'.used
  {
  }

  lemma SmallerStayApart(a: set<Id>, a': set<Id>, b: set<Id>, b': set<Id>)
    requires a !! b && a' <= a && b' <= b
    ensures a' !! b'
  {
  }

  /** The references of a bystander survive the pageserver step of another. */
  lemma RefsSurvive(h: Db, h': Db, ps: Pageserver, ps': Pageserver, mover: Handler, x: Handler)
    requires RefsOk(h, ps, x) && PsStep(ps, ps', mover) && Extends(h, h')
    requires PlanIds(x) !! PlanIds(mover)
    requires forall id :: Unsaved(mover) && id in PlanIds(mover) ==> !Known(h, id)
    ensures RefsOk(h', ps', x)
  {
    if x.DropRow? {
      assert Known(h, x.branch.timeline);
    } else if x.DropProjectRow? {
      assert Known(h, x.tenant);
    }
  }

  lemma StepKeepsRefs(s: Sys, t: Tid, out: Reply, m: Effect)
    requires Inv(s) && t in s.handlers && Sound(s, s.handlers[t], m) && Extends(s.hist, Remember(s.hist, m.db))
    ensures var s' := Updated(s, t, out, m);
            forall u :: u in s'.handlers ==> RefsOk(s'.hist, s'.ps, s'.handlers[u])
  {
    var (s', h) := (Updated(s, t, out, m), s.handlers[t]);
    forall u | u in s'.handlers ensures RefsOk(s'.hist, s'.ps, s'.handlers[u]) {
      if u != t {
        RefsSurvive(s.hist, s'.hist, s.ps, s'.ps, h, s.handlers[u]);
      } else {
        RefsExtend(s.hist, s'.hist, s'.ps, m.next);
      }
    }
  }

  lemma RefsExtend(h: Db, h': Db, ps: Pageserver, x: Handler)
    requires RefsOk(h, ps, x) && Extends(h, h')
    ensures RefsOk(h', ps, x)
  {
  }

  lemma StepKeepsPs(s: Sys, t: Tid, out: Reply, m: Effect)
    requires Inv(s) && t in s.handlers && Sound(s, s.handlers[t], m) && Extends(s.hist, Remember(s.hist, m.db))
    ensures PsOk(Updated(s, t, out, m).hist, m.ps)
  {
    var (h', h) := (Remember(s.hist, m.db), s.handlers[t]);
    forall b | b in h'.branches && h'.branches[b].project in h'.projects
      ensures OnTenant(m.ps, h'.branches[b].timeline, h'.projects[h'.branches[b].project].tenant)
    {
      BranchOrigin(m.db, s.hist, EntryOf(h), b);
      if b in s.hist.branches {
        assert Known(s.hist, s.hist.branches[b].timeline);
      } else {
        PlanIsFresh(s, t);
        SavedTimeline(s, h, m.db, b);
      }
    }
  }

  /** The row just saved: its timeline, if on the pageserver, is on the project's tenant. */
  lemma SavedTimeline(s: Sys, h: Handler, d: Db, b: Id)
    requires RowsFrom(d, s.hist, h) && RefsOk(s.hist, s.ps, h) && Fresh(s.hist, EntryOf(h))
    requires b in Remember(s.hist, d).branches && b !in s.hist.branches
    requires Remember(s.hist, d).branches[b].project in Remember(s.hist, d).projects
    ensures OnTenant(s.ps, Remember(s.hist, d).branches[b].timeline,
        Remember(s.hist, d).projects[Remember(s.hist, d).branches[b].project].tenant)
    ensures h.SaveProject? || h.SaveBranch?
  {
    BranchOrigin(d, s.hist, EntryOf(h), b);
    assert b in d.branches;
  }

  /** A move cuts only within what is ingested. */
  lemma MoveKeepsCuts(s: Sys, h: Handler, out: Reply, pick: Id)
    requires !h.Ended? && CutsIngested(s.ps) && RefsOk(s.hist, s.ps, h)
    ensures CutsIngested(Move(s, h, out, pick).ps)
  {
    if Creates(h) {
      CreatorsKeepCuts(s.db, s.ps, s.now, h, out);
    } else if Branches(h) {
      BranchersKeepCuts(s.db, s.ps, s.now, s.hist, h, out, pick);
    }
  }

  lemma CreatorsKeepCuts(db: Db, ps: Pageserver, now: Time, h: Handler, out: Reply)
    requires Creates(h) && CutsIngested(ps)
    ensures CutsIngested(CreateMove(h, db, ps, now, out).ps)
  {
  }

  lemma BranchersKeepCuts(db: Db, ps: Pageserver, now: Time, hist: Db, h: Handler, out: Reply, pick: Id)
    requires Branches(h) && CutsIngested(ps) && RefsOk(hist, ps, h)
    ensures CutsIngested(BranchMove(h, db, ps, now, out, pick).ps)
  {
  }

  /** The new row's timeline, if on the pageserver, was cut from its parent's. */
  lemma StepKeepsOrigins(s: Sys, t: Tid, out: Reply, m: Effect)
    requires Inv(s) && t in s.handlers && Sound(s, s.handlers[t], m) && Extends(s.hist, Remember(s.hist, m.db))
    ensures OriginsFit(Remember(s.hist, m.db), m.ps)
  {
    var (h', h) := (Remember(s.hist, m.db), s.handlers[t]);
    forall b | b in h'.branches && h'.branches[b].timeline in m.ps.timelines
      ensures OriginFits(h', h'.branches[b].parent, m.ps.timelines[h'.branches[b].timeline].origin)
    {
      BranchOrigin(m.db, s.hist, EntryOf(h), b);
      if b in s.hist.branches {
        assert Known(s.hist, s.hist.branches[b].timeline);
      } else {
        PlanIsFresh(s, t);
        assert b in m.db.branches;
      }
    }
  }

  lemma StepKeepsTenants(s: Sys, t: Tid, m: Effect)
    requires TenantsOnce(s.hist) && IdsOk(s) && t in s.handlers && RowsFrom(m.db, s.hist, s.handlers[t])
    ensures TenantsOnce(Remember(s.hist, m.db))
  {
    var h := s.handlers[t];
    assert Unsaved(h) ==> forall x :: x in PlanIds(h) ==> !Known(s.hist, x);
  }

  lemma ActKeepsInv(s: Sys, t: Tid, out: Reply, pick: Id)
    requires Inv(s) && Enabled(s, Act(t, out, pick))
    ensures Inv(Acted(s, t, out, pick)) && Extends(s.hist, Acted(s, t, out, pick).hist)
    ensures Sound(s, s.handlers[t], Move(s, s.handlers[t], out, pick))
  {
    var h := s.handlers[t];
    MoveRows(s, h, out, pick);
    MovePs(s, h, out, pick);
    MoveNext(s, h, out, pick);
    MoveRefs(s, h, out, pick);
    MoveKeepsCuts(s, h, out, pick);
    EffectKeepsInv(s, t, out, Move(s, h, out, pick));
  }

  lemma EffectKeepsInv(s: Sys, t: Tid, out: Reply, m: Effect)
    requires Inv(s) && t in s.handlers && Sound(s, s.handlers[t], m) && CutsIngested(m.ps)
    ensures Inv(Updated(s, t, out, m)) && Extends(s.hist, Updated(s, t, out, m).hist)
  {
    var h := s.handlers[t];
    PlanIsFresh(s, t);
    RememberRecords(m.db, s.hist, EntryOf(h));
    RememberCloses(m.db, s.hist, EntryOf(h));
    StepKeepsIds(s, t, out, m);
    StepKeepsRefs(s, t, out, m);
    StepKeepsPs(s, t, out, m);
    StepKeepsOrigins(s, t, out, m);
    StepKeepsTenants(s, t, m);
  }

  lemma PlanIsFresh(s: Sys, t: Tid)
    requires IdsOk(s) && t in s.handlers
    ensures Fresh(s.hist, EntryOf(s.handlers[t]))
  {
    var h := s.handlers[t];
    if h.SaveProject? || h.SaveBranch? {
      assert forall x :: x in PlanIds(h) ==> !Known(s.hist, x);
      var x := EntryOf(h);
      assert x.bid in PlanIds(h) && x.eid in PlanIds(h) && x.timeline in PlanIds(h);
      assert !Known(s.hist, x.timeline);
    }
  }

  /** A new handler with fresh ids, if any. */
  lemma StartKeepsIds(s: Sys, t: Tid, h: Handler)
    requires IdsOk(s) && t !in s.handlers && PlanIds(h) !! s.used
    ensures IdsOk(Started(s, t, h))
  {
    forall x | x in PlanIds(h) ensures !Known(s.hist, x) {
      assert x !in s.used;
    }
  }

  lemma StartKeepsInv(s: Sys, t: Tid, h: Handler)
    requires Inv(s) && t !in s.handlers && PlanIds(h) !! s.used
    requires h.AttachTenant? || h.FindProject? || h.FindBranch? || h.FindDoomed?
    ensures Inv(Started(s, t, h))
  {
    StartKeepsIds(s, t, h);
  }

  lemma CrashKeepsInv(s: Sys, t: Tid)
    requires Inv(s) && t in s.handlers
    ensures Inv(Apply(s, Crash(t)))
  {
  }

  lemma IngestKeepsInv(s: Sys, x: Id, d: nat)
    requires Inv(s) && Enabled(s, Ingest(x, d))
    ensures Inv(Apply(s, Ingest(x, d)))
  {
    var s' := Apply(s, Ingest(x, d));
    forall t | t in s'.handlers ensures RefsOk(s'.hist, s'.ps, s'.handlers[t]) {
      assert RefsOk(s.hist, s.ps, s.handlers[t]);
    }
  }

  lemma OtherStepsKeepInv(s: Sys, l: Label)
    requires Inv(s) && Enabled(s, l) && !l.Act?
    ensures Inv(Apply(s, l))
  {
    match l
    case Tick(d) => TickKeepsInv(s, d);
    case Ingest(x, d) => IngestKeepsInv(s, x, d);
    case Crash(t) => CrashKeepsInv(s, t);
    case _ => ArrivalKeepsInv(s, l);
  }

  lemma TickKeepsInv(s: Sys, d: nat)
    requires Inv(s)
    ensures Inv(Apply(s, Tick(d)))
  {
  }

  lemma ArrivalKeepsInv(s: Sys, l: Label)
    requires Inv(s) && Enabled(s, l) && (l.CreateProject? || l.CreateBranch? || l.DeleteBranch? || l.DeleteProject?)
    ensures Inv(Apply(s, l))
  {
    var h :=
      match l
      case CreateProject(t, n) => AttachTenant(n)
      case CreateBranch(t, q) => FindProject(q)
      case DeleteBranch(t, path, bid) => FindBranch(path, bid)
      case DeleteProject(t, pid) => FindDoomed(pid);
    StartKeepsInv(s, l.t, h);
  }

  // ---- conservation

  /** Whatever a move creates or held before is, if still there, held, leaked, or in a row. */
  lemma MoveHandsOver(s: Sys, h: Handler, out: Reply, pick: Id)
    requires !h.Ended? && RefsOk(s.hist, s.ps, h)
    ensures HandedOver(s.ps, h, Move(s, h, out, pick))
  {
    if Creates(h) {
      CreatorsHandOver(s.db, s.ps, s.now, s.hist, h, out);
    } else if Branches(h) {
      BranchersHandOver(s.db, s.ps, s.now, h, out, pick);
    }
  }

  ghost predicate HandedOver(ps: Pageserver, h: Handler, m: Effect) {
    && (forall x :: x in m.ps.tenants && (x !in ps.tenants || x in HeldTenants(h)) ==>
          || x in HeldTenants(m.next) || x in m.lost
          || (h.SaveProject? && h.n.pid in m.db.projects && m.db.projects[h.n.pid].tenant == x))
    && (forall x :: x in m.ps.timelines && (x !in ps.timelines || x in HeldTimelines(h)) ==>
          || x in HeldTimelines(m.next) || x in m.lost
          || ((h.SaveProject? || h.SaveBranch?) && NewBid(h) in m.db.branches
              && m.db.branches[NewBid(h)].timeline == x))
  }

  lemma CreatorsHandOver(db: Db, ps: Pageserver, now: Time, hist: Db, h: Handler, out: Reply)
    requires Creates(h) && RefsOk(hist, ps, h)
    ensures HandedOver(ps, h, CreateMove(h, db, ps, now, out))
  {
  }

  lemma BranchersHandOver(db: Db, ps: Pageserver, now: Time, h: Handler, out: Reply, pick: Id)
    requires Branches(h)
    ensures HandedOver(ps, h, BranchMove(h, db, ps, now, out, pick))
  {
  }

  /** Rows only go after what they account for has gone. */
  lemma RowsOutliveStorage(s: Sys, h: Handler, out: Reply, pick: Id)
    requires !h.Ended? && Recorded(s.db, s.hist) && HistoryOk(s.hist) && PsOk(s.hist, s.ps) && RefsOk(s.hist, s.ps, h)
    ensures var m := Move(s, h, out, pick);
      && (forall p ::
            p in s.db.projects && s.db.projects[p].tenant in m.ps.tenants
                && s.db.projects[p].tenant in s.ps.tenants ==>
            p in m.db.projects && m.db.projects[p] == s.db.projects[p])
      && (forall b ::
            b in s.db.branches && s.db.branches[b].timeline in m.ps.timelines
                && s.db.branches[b].timeline in s.ps.timelines ==>
            b in m.db.branches && m.db.branches[b].timeline == s.db.branches[b].timeline)
  {
    if h.DropRow? && TookEffect(out) {
      BranchRowGoesLast(s, h.bid, h.branch);
    } else if h.DropProjectRow? && TookEffect(out) {
      ProjectRowGoesLast(s, h.pid, h.tenant);
    } else if h.SaveProject? || h.SaveBranch? {
      InsertsKeepRows(s, h, out, pick);
    } else {
      OthersKeepRows(s, h, out, pick);
    }
  }

  lemma OthersKeepRows(s: Sys, h: Handler, out: Reply, pick: Id)
    requires !h.Ended? && !h.SaveProject? && !h.SaveBranch? && !(h.DropRow? && TookEffect(out))
        && !(h.DropProjectRow? && TookEffect(out))
    ensures Move(s, h, out, pick).db == s.db
  {
  }

  lemma InsertsKeepRows(s: Sys, h: Handler, out: Reply, pick: Id)
    requires h.SaveProject? || h.SaveBranch?
    ensures var m := Move(s, h, out, pick);
      && (forall p :: p in s.db.projects ==> p in m.db.projects && m.db.projects[p] == s.db.projects[p])
      && (forall b :: b in s.db.branches ==> b in m.db.branches && m.db.branches[b] == s.db.branches[b])
  {
  }

  lemma BranchRowGoesLast(s: Sys, bid: Id, b: Branch)
    requires Recorded(s.db, s.hist) && bid in s.hist.branches && SameBranch(s.hist.branches[bid], b)
        && b.timeline !in s.ps.timelines
    ensures forall a :: a in s.db.branches && s.db.branches[a].timeline in s.ps.timelines ==>
      a in RemoveBranch(s.db, bid).branches && RemoveBranch(s.db, bid).branches[a].timeline == s.db.branches[a].timeline
  {
  }

  lemma ProjectRowGoesLast(s: Sys, pid: Id, tenant: Id)
    requires Recorded(s.db, s.hist) && HistoryOk(s.hist) && PsOk(s.hist, s.ps)
    requires pid in s.hist.projects && s.hist.projects[pid].tenant == tenant && tenant !in s.ps.tenants
    ensures forall p :: p in s.db.projects && s.db.projects[p].tenant in s.ps.tenants ==>
        p in RemoveProject(s.db, pid).projects
    ensures forall a :: a in s.db.branches && s.db.branches[a].timeline in s.ps.timelines ==>
      a in RemoveProject(s.db, pid).branches
          && RemoveProject(s.db, pid).branches[a].timeline == s.db.branches[a].timeline
  {
    forall a | a in s.db.branches && s.db.branches[a].timeline in s.ps.timelines
      ensures s.db.branches[a].project != pid {
      assert OnTenant(s.ps, s.hist.branches[a].timeline, s.hist.projects[s.hist.branches[a].project].tenant);
    }
  }

  lemma ActConserves(s: Sys, t: Tid, out: Reply, pick: Id)
    requires Inv(s) && Conserved(s) && Enabled(s, Act(t, out, pick))
    ensures Conserved(Acted(s, t, out, pick))
  {
    var (s', h) := (Acted(s, t, out, pick), s.handlers[t]);
    MoveHandsOver(s, h, out, pick);
    RowsOutliveStorage(s, h, out, pick);
    TenantsHandedOver(s, t, out, Move(s, h, out, pick));
    TimelinesHandedOver(s, t, out, Move(s, h, out, pick));
  }

  lemma TenantsHandedOver(s: Sys, t: Tid, out: Reply, m: Effect)
    requires t in s.handlers && Conserved(s)
    requires forall x :: x in m.ps.tenants && (x !in s.ps.tenants || x in HeldTenants(s.handlers[t])) ==>
      x in HeldTenants(m.next) || x in m.lost
      || (s.handlers[t].SaveProject? && s.handlers[t].n.pid in m.db.projects
            && m.db.projects[s.handlers[t].n.pid].tenant == x)
    requires forall p ::
        p in s.db.projects && s.db.projects[p].tenant in m.ps.tenants && s.db.projects[p].tenant in s.ps.tenants ==>
      p in m.db.projects && m.db.projects[p] == s.db.projects[p]
    ensures forall x :: x in m.ps.tenants ==> TenantAccounted(Updated(s, t, out, m), x)
  {
    var s' := Updated(s, t, out, m);
    forall x | x in m.ps.tenants ensures TenantAccounted(s', x) {
      assert s'.handlers[t] == m.next;
      if x in s.ps.tenants && x !in HeldTenants(s.handlers[t]) {
        assert TenantAccounted(s, x);
        if u :| u in s.handlers && x in HeldTenants(s.handlers[u]) {
          assert u in s'.handlers && s'.handlers[u] == s.handlers[u];
        }
      }
    }
  }

  lemma TimelinesHandedOver(s: Sys, t: Tid, out: Reply, m: Effect)
    requires t in s.handlers && Conserved(s)
    requires forall x :: x in m.ps.timelines && (x !in s.ps.timelines || x in HeldTimelines(s.handlers[t])) ==>
      x in HeldTimelines(m.next) || x in m.lost
      || ((s.handlers[t].SaveProject? || s.handlers[t].SaveBranch?) && NewBid(s.handlers[t]) in m.db.branches
          && m.db.branches[NewBid(s.handlers[t])].timeline == x)
    requires forall b ::
        b in s.db.branches && s.db.branches[b].timeline in m.ps.timelines
            && s.db.branches[b].timeline in s.ps.timelines ==>
      b in m.db.branches && m.db.branches[b].timeline == s.db.branches[b].timeline
    ensures forall x :: x in m.ps.timelines ==> TimelineAccounted(Updated(s, t, out, m), x)
  {
    var s' := Updated(s, t, out, m);
    forall x | x in m.ps.timelines ensures TimelineAccounted(s', x) {
      assert s'.handlers[t] == m.next;
      if x in s.ps.timelines && x !in HeldTimelines(s.handlers[t]) {
        assert TimelineAccounted(s, x);
        if u :| u in s.handlers && x in HeldTimelines(s.handlers[u]) {
          assert u in s'.handlers && s'.handlers[u] == s.handlers[u];
        }
      }
    }
  }

  /** Starting or losing a handler keeps the accounts: what it held becomes a leak. */
  lemma OtherStepsConserve(s: Sys, l: Label)
    requires Conserved(s) && Enabled(s, l) && !l.Act?
    ensures Conserved(Apply(s, l))
  {
    var s' := Apply(s, l);
    forall x | x in s'.ps.tenants ensures TenantAccounted(s', x) {
      assert TenantAccounted(s, x);
      if u :| u in s.handlers && x in HeldTenants(s.handlers[u]) {
        assert x in s'.leaked || (u in s'.handlers && s'.handlers[u] == s.handlers[u]);
      }
    }
    forall x | x in s'.ps.timelines ensures TimelineAccounted(s', x) {
      assert TimelineAccounted(s, x);
      if u :| u in s.handlers && x in HeldTimelines(s.handlers[u]) {
        assert x in s'.leaked || (u in s'.handlers && s'.handlers[u] == s.handlers[u]);
      }
    }
  }

  // ---- what the creator of a project has made

  /** The part of a new project that is on the pageserver when its creator is at `h`. */
  predicate Prepared(ps: Pageserver, h: Handler) {
    && (h.MakeTimeline? || h.SaveProject? ==> h.n.project.tenant in ps.tenants)
    && (h.SaveProject? ==> Get(ps.timelines, h.n.timeline) == Some(Timeline(h.n.project.tenant, None)))
  }

  ghost predicate AllPrepared(s: Sys) { forall t :: t in s.handlers ==> Prepared(s.ps, s.handlers[t]) }

  /** No other handler takes away what the creator of a project has made. */
  lemma OthersSparePlans(s: Sys, t: Tid, out: Reply, pick: Id, u: Tid)
    requires Inv(s) && Enabled(s, Act(t, out, pick)) && u in s.handlers && u != t
    requires Prepared(s.ps, s.handlers[u])
    ensures Prepared(Move(s, s.handlers[t], out, pick).ps, s.handlers[u])
  {
    if s.handlers[u].MakeTimeline? || s.handlers[u].SaveProject? {
      MovesSparePlans(s, s.handlers[u], s.handlers[t], out, pick);
    }
  }

  lemma MovesSparePlans(s: Sys, h: Handler, x: Handler, out: Reply, pick: Id)
    requires (h.MakeTimeline? || h.SaveProject?) && Prepared(s.ps, h) && RefsOk(s.hist, s.ps, x) && !x.Ended?
    requires PlanIds(h) !! PlanIds(x) && forall id :: id in PlanIds(h) ==> !Known(s.hist, id)
    ensures Prepared(Move(s, x, out, pick).ps, h)
  {
    assert h.n.project.tenant in PlanIds(h) && h.n.timeline in PlanIds(h);
    TakenAway(s, x, out, pick, h.n.project.tenant, h.n.timeline);
  }

  /** What is taken off the pageserver was known to the catalog or planned by who takes it. */
  lemma TakenAway(s: Sys, x: Handler, out: Reply, pick: Id, tenant: Id, timeline: Id)
    requires RefsOk(s.hist, s.ps, x) && !x.Ended? && tenant !in PlanIds(x) && timeline !in PlanIds(x)
    requires !Known(s.hist, tenant) && !Known(s.hist, timeline)
    ensures var ps' := Move(s, x, out, pick).ps;
      && (tenant in s.ps.tenants ==> tenant in ps'.tenants)
      && (timeline in s.ps.timelines && s.ps.timelines[timeline].tenant == tenant ==>
            timeline in ps'.timelines && ps'.timelines[timeline] == s.ps.timelines[timeline])
  {
    if Creates(x) {
      CreatorsTakeTheirOwn(s, x, out, tenant, timeline);
    } else if Removes(x) {
      assert x.DropTenant? ==> Known(s.hist, x.tenant);
      assert x.DropTimeline? ==> Known(s.hist, x.branch.timeline);
    } else {
      assert Move(s, x, out, pick) == BranchMove(x, s.db, s.ps, s.now, out, pick);
    }
  }

  lemma CreatorsTakeTheirOwn(s: Sys, x: Handler, out: Reply, tenant: Id, timeline: Id)
    requires Creates(x) && tenant !in PlanIds(x) && timeline !in PlanIds(x)
    ensures var ps' := CreateMove(x, s.db, s.ps, s.now, out).ps;
      && (tenant in s.ps.tenants ==> tenant in ps'.tenants)
      && (timeline in s.ps.timelines && s.ps.timelines[timeline].tenant == tenant ==>
            timeline in ps'.timelines && ps'.timelines[timeline] == s.ps.timelines[timeline])
  {
  }

  lemma ActKeepsPrepared(s: Sys, t: Tid, out: Reply, pick: Id)
    requires Inv(s) && AllPrepared(s) && Enabled(s, Act(t, out, pick))
    ensures AllPrepared(Acted(s, t, out, pick))
  {
    var s' := Acted(s, t, out, pick);
    OwnMovePrepares(s, s.handlers[t], out, pick);
    forall u | u in s'.handlers && u != t ensures Prepared(s'.ps, s'.handlers[u]) {
      OthersSparePlans(s, t, out, pick, u);
    }
  }

  lemma OwnMovePrepares(s: Sys, h: Handler, out: Reply, pick: Id)
    requires !h.Ended? && Prepared(s.ps, h)
    ensures Prepared(Move(s, h, out, pick).ps, Move(s, h, out, pick).next)
  {
  }

  // ---- deleted projects

  ghost predicate DeletedAreErased(s: Sys) { forall p :: p in s.deleted ==> Erased(s, p) }

  /** Once gone, a project stays gone: nobody attaches its tenant again or saves a branch under it. */
  lemma ErasedStays(s: Sys, t: Tid, out: Reply, m: Effect, p: Id)
    requires IdsOk(s) && Erased(s, p) && t in s.handlers && PsStep(s.ps, m.ps, s.handlers[t])
    requires Extends(s.hist, Remember(s.hist, m.db)) && Memberships(s.db, m.db, s.handlers[t])
    ensures Erased(Updated(s, t, out, m), p)
  {
    var h := s.handlers[t];
    assert Known(s.hist, s.hist.projects[p].tenant) && Known(s.hist, p);
    assert PsStep(s.ps, m.ps, h);
    assert h.SaveProject? ==> h.n.pid in PlanIds(h) && Unsaved(h);
    assert p !in m.db.projects;
  }

  /** What a move does to rows, as far as project membership goes. */
  ghost predicate Memberships(db: Db, d: Db, h: Handler) {
    && (forall b :: b in d.branches ==>
          (b in db.branches && d.branches[b].project == db.branches[b].project)
              || d.branches[b].project in d.projects)
    && (forall q :: q in d.projects ==> q in db.projects || (h.SaveProject? && q == h.n.pid))
    && (d.branches.Keys - db.branches.Keys != {} ==> h.SaveProject? || h.SaveBranch?)
  }

  lemma MoveProjects(s: Sys, h: Handler, out: Reply, pick: Id)
    requires !h.Ended?
    ensures Memberships(s.db, Move(s, h, out, pick).db, h)
  {
    var d := Move(s, h, out, pick).db;
    MoveDb(s, h, out, pick);
    if h.SaveProject? || h.SaveBranch? {
      InsertMemberships(s, h, d);
    } else {
      OtherMovesAreFewer(s, h, d);
      FewerMemberships(s.db, d, h);
    }
  }

  lemma FewerMemberships(db: Db, d: Db, h: Handler)
    requires Fewer(d, db)
    ensures Memberships(db, d, h)
  {
  }

  lemma InsertMemberships(s: Sys, h: Handler, d: Db)
    requires h.SaveProject? || h.SaveBranch?
    requires || d == s.db
             || (h.SaveProject? && ProjectInsert(s.db, h.n, s.now) == Ok(d))
             || (h.SaveBranch? && BranchInsert(s.db, h.q, h.from, s.now) == Ok(d))
    ensures Memberships(s.db, d, h)
  {
  }

  /** The step that deletes the row of a project: everything else of it has gone before. */
  lemma DeletingErases(s: Sys, t: Tid)
    requires Inv(s) && t in s.handlers && s.handlers[t].DropProjectRow?
    ensures var h := s.handlers[t];
      var d := RemoveProject(s.db, h.pid);
      && h.pid in s.hist.projects && h.pid !in d.projects
      && s.hist.projects[h.pid].tenant !in s.ps.tenants
      && (forall x :: x in s.ps.timelines ==> s.ps.timelines[x].tenant != s.hist.projects[h.pid].tenant)
      && (References(s.db) ==> forall b :: b in d.branches ==> d.branches[b].project != h.pid)
  {
    NothingLeft(s.db, s.hist, s.ps, s.handlers[t]);
  }

  lemma NothingLeft(db: Db, hist: Db, ps: Pageserver, h: Handler)
    requires Recorded(db, hist) && PsOk(hist, ps) && RefsOk(hist, ps, h) && h.DropProjectRow?
    ensures var d := RemoveProject(db, h.pid);
      && h.pid in hist.projects && h.pid !in d.projects && hist.projects[h.pid].tenant !in ps.tenants
      && (forall x :: x in ps.timelines ==> ps.timelines[x].tenant != hist.projects[h.pid].tenant)
      && (References(db) ==> forall b :: b in d.branches ==> d.branches[b].project != h.pid)
  {
  }

  lemma ActKeepsErased(s: Sys, t: Tid, out: Reply, pick: Id)
    requires Inv(s) && References(s.db) && DeletedAreErased(s) && Enabled(s, Act(t, out, pick))
    ensures DeletedAreErased(Acted(s, t, out, pick))
  {
    ActIsSound(s, t, out, pick);
    forall p | p in Acted(s, t, out, pick).deleted ensures Erased(Acted(s, t, out, pick), p) {
      ErasedAfter(s, t, out, pick, p);
    }
  }

  lemma ErasedAfter(s: Sys, t: Tid, out: Reply, pick: Id, p: Id)
    requires IdsOk(s) && References(s.db) && Enabled(s, Act(t, out, pick)) && (p in s.deleted ==> Erased(s, p))
    requires Recorded(s.db, s.hist) && PsOk(s.hist, s.ps) && RefsOk(s.hist, s.ps, s.handlers[t])
    requires Extends(s.hist, Acted(s, t, out, pick).hist)
    requires PsStep(s.ps, Move(s, s.handlers[t], out, pick).ps, s.handlers[t])
    ensures p in Acted(s, t, out, pick).deleted ==> Erased(Acted(s, t, out, pick), p)
  {
    if p in s.deleted {
      OldErased(s, t, out, pick, p);
    } else if s.handlers[t].DropProjectRow? && TookEffect(out) {
      ErasedNow(s, t, out, pick);
    }
  }

  lemma ActIsSound(s: Sys, t: Tid, out: Reply, pick: Id)
    requires Inv(s) && Enabled(s, Act(t, out, pick))
    ensures Extends(s.hist, Acted(s, t, out, pick).hist) && Sound(s, s.handlers[t], Move(s, s.handlers[t], out, pick))
  {
    ActKeepsInv(s, t, out, pick);
  }

  lemma OldErased(s: Sys, t: Tid, out: Reply, pick: Id, p: Id)
    requires IdsOk(s) && Erased(s, p) && Enabled(s, Act(t, out, pick)) && Extends(s.hist, Acted(s, t, out, pick).hist)
    requires PsStep(s.ps, Move(s, s.handlers[t], out, pick).ps, s.handlers[t])
    ensures Erased(Acted(s, t, out, pick), p)
  {
    MoveProjects(s, s.handlers[t], out, pick);
    ErasedStays(s, t, out, Move(s, s.handlers[t], out, pick), p);
  }

  lemma ErasedNow(s: Sys, t: Tid, out: Reply, pick: Id)
    requires t in s.handlers && s.handlers[t].DropProjectRow? && TookEffect(out)
    requires Recorded(s.db, s.hist) && PsOk(s.hist, s.ps) && RefsOk(s.hist, s.ps, s.handlers[t]) && References(s.db)
    requires Extends(s.hist, Acted(s, t, out, pick).hist)
    ensures Erased(Acted(s, t, out, pick), s.handlers[t].pid)
  {
    NothingLeft(s.db, s.hist, s.ps, s.handlers[t]);
    var m := Move(s, s.handlers[t], out, pick);
    assert m.db == RemoveProject(s.db, s.handlers[t].pid) && m.ps == s.ps;
  }

  // ---- the branch tree

  ghost predicate TreeKept(s: Sys) { TreeAt(s.db, s.order, s.serial) }

  lemma ProjectTree(db: Db, order: map<Id, nat>, serial: nat, n: ProjectPlan, now: Time)
    requires TreeAt(db, order, serial) && ProjectInsert(db, n, now).Ok?
    ensures ProjectInsert(db, n, now).value != db
        && TreeAt(ProjectInsert(db, n, now).value, order[n.bid := serial], serial + 1)
  {
    InsertProjectKeepsTree(db, order, n.pid, n.project, n.bid, "main", n.timeline, n.eid,
                           NewEndpoint(n.bid, Some(Suspended), Requested(n.suspendAfter), now), serial);
  }

  lemma BranchTree(db: Db, order: map<Id, nat>, serial: nat, q: BranchPlan, from: Id, now: Time)
    requires TreeAt(db, order, serial) && BranchInsert(db, q, from, now).Ok?
    requires from != q.bid && (from in db.branches ==> db.branches[from].project == q.pid)
    ensures BranchInsert(db, q, from, now).value != db
        && TreeAt(BranchInsert(db, q, from, now).value, order[q.bid := serial], serial + 1)
  {
    InsertBranchKeepsTree(db, order, q.bid, q.pid, q.name, q.timeline, from, q.eid,
        NewEndpoint(q.bid, Some(Suspended), 0, now), serial);
  }

  lemma RemovalTree(db: Db, order: map<Id, nat>, serial: nat, d: Db)
    requires TreeAt(db, order, serial) && TreeOk(d, order) && Fewer(d, db)
    ensures TreeAt(d, order, serial + 1)
  {
  }

  /** Where the database and the ranks are after a step. */
  lemma ActedTree(s: Sys, t: Tid, out: Reply, pick: Id)
    requires Enabled(s, Act(t, out, pick))
    ensures var (s', h) := (Acted(s, t, out, pick), s.handlers[t]);
      && s'.serial == s.serial + 1
      && ((s'.db == s.db && s'.order == s.order)
          || (h.SaveProject? && ProjectInsert(s.db, h.n, s.now).Ok? && s'.db == ProjectInsert(s.db, h.n, s.now).value
              && (s'.db != s.db ==> s'.order == s.order[h.n.bid := s.serial]))
          || (h.SaveBranch? && BranchInsert(s.db, h.q, h.from, s.now).Ok?
                && s'.db == BranchInsert(s.db, h.q, h.from, s.now).value
              && (s'.db != s.db ==> s'.order == s.order[h.q.bid := s.serial]))
          || (h.DropRow? && s'.db == RemoveBranch(s.db, h.bid) && s'.order == s.order)
          || (h.DropProjectRow? && s'.db == RemoveProject(s.db, h.pid) && s'.order == s.order))
  {
  }

  lemma ProjectStepTree(s: Sys, s': Sys, n: ProjectPlan)
    requires TreeAt(s.db, s.order, s.serial) && ProjectInsert(s.db, n, s.now).Ok?
        && s'.db == ProjectInsert(s.db, n, s.now).value
    requires s'.serial == s.serial + 1 && (s'.db != s.db ==> s'.order == s.order[n.bid := s.serial])
    ensures TreeAt(s'.db, s'.order, s'.serial)
  {
    ProjectTree(s.db, s.order, s.serial, n, s.now);
  }

  lemma BranchStepTree(s: Sys, s': Sys, q: BranchPlan, from: Id)
    requires TreeAt(s.db, s.order, s.serial) && BranchInsert(s.db, q, from, s.now).Ok?
        && s'.db == BranchInsert(s.db, q, from, s.now).value
    requires s'.serial == s.serial + 1 && (s'.db != s.db ==> s'.order == s.order[q.bid := s.serial])
    requires from != q.bid && (from in s.db.branches ==> s.db.branches[from].project == q.pid)
    ensures TreeAt(s'.db, s'.order, s'.serial)
  {
    BranchTree(s.db, s.order, s.serial, q, from, s.now);
  }

  lemma ActKeepsTree(s: Sys, t: Tid, out: Reply, pick: Id)
    requires Inv(s) && TreeKept(s) && Enabled(s, Act(t, out, pick))
    ensures TreeKept(Acted(s, t, out, pick))
  {
    var (s', h) := (Acted(s, t, out, pick), s.handlers[t]);
    ActedTree(s, t, out, pick);
    if s'.db == s.db && s'.order == s.order {
      RemovalsAreFewer(s.db, "");
      RemovalTree(s.db, s.order, s.serial, s.db);
    } else if h.SaveProject? {
      ProjectStepTree(s, s', h.n);
    } else if h.SaveBranch? {
      ParentIsOlder(s, t);
      BranchStepTree(s, s', h.q, h.from);
    } else {
      RowRemovalKeepsTree(s, t);
    }
  }

  /** The parent read earlier is still, if there, a branch of the project, and not the new one. */
  lemma ParentIsOlder(s: Sys, t: Tid)
    requires Inv(s) && t in s.handlers && s.handlers[t].SaveBranch?
    ensures var h := s.handlers[t];
        h.from != h.q.bid && (h.from in s.db.branches ==> s.db.branches[h.from].project == h.q.pid)
  {
    var h := s.handlers[t];
    assert RefsOk(s.hist, s.ps, h);
    assert h.q.bid in PlanIds(h) && Unsaved(h);
    assert Known(s.hist, h.from) && !Known(s.hist, h.q.bid);
  }

  lemma RowRemovalKeepsTree(s: Sys, t: Tid)
    requires Inv(s) && TreeAt(s.db, s.order, s.serial) && t in s.handlers
    ensures s.handlers[t].DropRow? ==> TreeAt(RemoveBranch(s.db, s.handlers[t].bid), s.order, s.serial + 1)
    ensures s.handlers[t].DropProjectRow? ==> TreeAt(RemoveProject(s.db, s.handlers[t].pid), s.order, s.serial + 1)
  {
    var h := s.handlers[t];
    if h.DropRow? {
      NotTheDefault(s, t);
      RemoveBranchKeepsTree(s.db, s.order, h.bid);
      RemovalsAreFewer(s.db, h.bid);
      RemovalTree(s.db, s.order, s.serial, RemoveBranch(s.db, h.bid));
    } else if h.DropProjectRow? {
      RemoveProjectKeepsTree(s.db, s.order, h.pid);
      RemovalsAreFewer(s.db, h.pid);
      RemovalTree(s.db, s.order, s.serial, RemoveProject(s.db, h.pid));
    }
  }

  lemma NotTheDefault(s: Sys, t: Tid)
    requires t in s.handlers && s.handlers[t].DropRow? && Recorded(s.db, s.hist) && RefsOk(s.hist, s.ps, s.handlers[t])
    ensures s.handlers[t].bid in s.db.branches ==> !s.db.branches[s.handlers[t].bid].isDefault
  {
  }

  // ---- whole runs

  ghost predicate Good(s: Sys) { Inv(s) && Conserved(s) && AllPrepared(s) && TreeKept(s) && DeletedAreErased(s) }

  lemma StepKeepsGood(s: Sys, l: Label)
    requires Good(s) && Enabled(s, l)
    ensures Good(Apply(s, l))
  {
    if l.Act? {
      assert Inv(Apply(s, l)) by { ActKeepsInv(s, l.t, l.out, l.pick); }
      assert Conserved(Apply(s, l)) by { ActConserves(s, l.t, l.out, l.pick); }
      assert TreeKept(Apply(s, l)) by { ActKeepsTree(s, l.t, l.out, l.pick); }
      assert DeletedAreErased(Apply(s, l)) by { ActKeepsErased(s, l.t, l.out, l.pick); }
      assert AllPrepared(Apply(s, l)) by { ActKeepsPrepared(s, l.t, l.out, l.pick); }
    } else {
      OthersKeepGood(s, l);
    }
  }

  lemma OthersKeepGood(s: Sys, l: Label)
    requires Good(s) && Enabled(s, l) && !l.Act?
    ensures Good(Apply(s, l))
  {
    assert Inv(Apply(s, l)) by { OtherStepsKeepInv(s, l); }
    assert Conserved(Apply(s, l)) by { OtherStepsConserve(s, l); }
    assert AllPrepared(Apply(s, l)) && TreeKept(Apply(s, l))
        && DeletedAreErased(Apply(s, l)) by { OthersKeepRest(s, l); }
  }

  lemma OthersKeepRest(s: Sys, l: Label)
    requires AllPrepared(s) && TreeKept(s) && DeletedAreErased(s) && Enabled(s, l) && !l.Act?
    ensures AllPrepared(Apply(s, l)) && TreeKept(Apply(s, l)) && DeletedAreErased(Apply(s, l))
  {
    var s' := Apply(s, l);
    assert s'.db == s.db && s'.hist == s.hist && s'.deleted == s.deleted && s'.order == s.order
        && s'.serial == s.serial;
    assert s'.ps.tenants == s.ps.tenants && s'.ps.timelines == s.ps.timelines;
    forall p | p in s'.deleted ensures Erased(s', p) {
      assert Erased(s, p);
    }
  }

  /** An empty catalog and an empty pageserver. */
  predicate Pristine(s: Sys) {
    s.db == EMPTY && s.hist == EMPTY && s.ps == Pageserver({}, map[], map[]) && s.handlers == map[] && s.deleted == {}
  }

  lemma PristineIsGood(s: Sys)
    requires Pristine(s)
    ensures Good(s)
  {
    assert Inv(s) && TreeKept(s);
  }

  /**
   * In every run of interleaved, failing and interrupted handlers, at every instant: storage
   * is conserved, every project has exactly one default branch, every branch an endpoint and
   * a parent in its own project or none, every branch timeline was cut from the timeline of
   * the parent it was created under and not beyond what that had ingested, and a deleted
   * project has left nothing behind - neither rows nor tenant nor timelines, whoever was
   * creating branches in it meanwhile.
   */
  lemma {:induction false} HandlersKeepTheBooks(states: seq<Sys>, labels: seq<Label>)
    requires IsTrace(states, labels) && Good(states[0])
    ensures forall i | 0 <= i < |states| :: Conserved(states[i]) && TreeKept(states[i]) && Acyclic(states[i].db)
    ensures forall i | 0 <= i < |states| :: CutsIngested(states[i].ps) && OriginsFit(states[i].hist, states[i].ps)
    ensures forall i, p | 0 <= i < |states| && p in states[i].deleted :: Erased(states[i], p)
  {
    for n := 0 to |labels|
      invariant forall i | 0 <= i <= n :: Good(states[i])
    {
      assert states[n + 1] == Apply(states[n], labels[n]);
      StepKeepsGood(states[n], labels[n]);
    }
    forall i, p | 0 <= i < |states| && p in states[i].deleted ensures Erased(states[i], p) {
      assert Good(states[i]);
    }
    forall i | 0 <= i < |states| ensures Acyclic(states[i].db) {
      assert Good(states[i]);
      TreesAreAcyclic(states[i].db, states[i].order);
    }
  }
}
