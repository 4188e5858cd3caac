/** A run of the handlers in which everything goes well: a project, and a branch under a parent asked for. */
module Creation {
  import opened Base
  import opened Database
  import opened Catalog
  import opened BranchPoint
  import opened Provisioning
  import opened Accounts

  function MainBranch(n: ProjectPlan): Branch { Branch(n.pid, "main", n.timeline, None, true) }

  /** An endpoint of the branch that has never run. */
  function Unused(branch: Id, suspendAfter: int, now: Time): Endpoint {
    Endpoint(branch, Suspended, None, suspendAfter, None, None, now)
  }

  function Threshold(n: ProjectPlan): int { if n.suspendAfter > 0 then n.suspendAfter else 300 }

  /** The rows of the project alone, and with the branch. */
  function ProjectDb(n: ProjectPlan, now: Time): Db {
    Db(map[n.pid := n.project], map[n.bid := MainBranch(n)], map[n.eid := Unused(n.bid, Threshold(n), now)])
  }

  function BranchDb(n: ProjectPlan, q: BranchPlan, now: Time): Db {
    Db(map[n.pid := n.project],
       map[n.bid := MainBranch(n), q.bid := Branch(n.pid, q.name, q.timeline, Some(n.bid), false)],
       map[n.eid := Unused(n.bid, Threshold(n), now), q.eid := Unused(q.bid, 300, now)])
  }

  function ProjectPs(n: ProjectPlan): Pageserver {
    Pageserver({n.project.tenant}, map[n.timeline := Timeline(n.project.tenant, None)], map[n.timeline := 0])
  }

  function BranchPs(n: ProjectPlan, q: BranchPlan): Pageserver {
    Pageserver({n.project.tenant},
               map[n.timeline := Timeline(n.project.tenant, None),
                   q.timeline := Timeline(n.project.tenant, Some(Cut(n.timeline, 0)))],
               map[n.timeline := 0, q.timeline := 0])
  }

  /** A run from `s` has come to these rows and this storage, with handler `t` at `h`. */
  ghost predicate Come(s: Sys, states: seq<Sys>, labels: seq<Label>, t: Tid, h: Handler, db: Db, ps: Pageserver) {
    && IsTrace(states, labels) && states[0] == s
    && var z := states[|labels|];
       t in z.handlers && z.handlers[t] == h && z.db == db && z.ps == ps && z.now == s.now
  }

  /** The inserts as the schema sees them. */
  lemma InsertsAre(n: ProjectPlan, q: BranchPlan, now: Time)
    requires q.pid == n.pid && q.name != "main" && q.bid != n.bid && q.eid != n.eid
    ensures ProjectInsert(EMPTY, n, now) == Ok(ProjectDb(n, now))
    ensures BranchInsert(ProjectDb(n, now), q, n.bid, now) == Ok(BranchDb(n, q, now))
  {
    var d := ProjectDb(n, now);
    assert !BranchServed(d, q.bid) && !NameTaken(d, n.pid, q.name);
    assert BranchInsert(d, q, n.bid, now).Ok?;
    assert BranchInsert(d, q, n.bid, now).value == BranchDb(n, q, now);
  }

  lemma ProjectIsMade(s: Sys, t: Tid, n: ProjectPlan) returns (states: seq<Sys>, labels: seq<Label>)
    requires Pristine(s) && PlanIds(AttachTenant(n)) !! s.used
    requires ProjectInsert(EMPTY, n, s.now) == Ok(ProjectDb(n, s.now))
    ensures Come(s, states, labels, t, Ended, ProjectDb(n, s.now), ProjectPs(n))
    ensures states[|labels|].handlers == map[t := Ended] && states[|labels|].used == s.used + PlanIds(AttachTenant(n))
  {
    states, labels := AttachFirst(s, t, n);
    states, labels := OneMore(states, labels, t, Fine, Effect(EMPTY, ProjectPs(n), SaveProject(n), {}));
    states, labels := OneMore(states, labels, t, Fine, Effect(ProjectDb(n, s.now), ProjectPs(n), Ended, {}));
  }

  /** A call that only reads. */
  lemma Reads(s: Sys, states: seq<Sys>, labels: seq<Label>, t: Tid, h: Handler, db: Db, ps: Pageserver, out: Reply,
      next: Handler) returns (ss: seq<Sys>, ls: seq<Label>)
    requires Come(s, states, labels, t, h, db, ps) && Branches(h) && (h.FindParent? ==> h.q.parent.Some?)
    requires BranchMove(h, db, ps, s.now, out, "") == Effect(db, ps, next, {})
    ensures Come(s, ss, ls, t, next, db, ps) && ss[|ls|].handlers == states[|labels|].handlers[t := next]
  {
    ss, ls := OneMore(states, labels, t, out, Effect(db, ps, next, {}));
  }

  /** With the request in: the project, the parent, its position, which is ingested. */
  lemma ParentIsReady(s: Sys, states: seq<Sys>, labels: seq<Label>, u: Tid, n: ProjectPlan, q: BranchPlan)
    returns (ss: seq<Sys>, ls: seq<Label>)
    requires Come(s, states, labels, u, FindProject(q), ProjectDb(n, s.now), ProjectPs(n))
    requires q.pid == n.pid && q.parent == Some(n.bid)
    ensures Come(s, ss, ls, u, CutTimeline(q, n.project.tenant, n.bid, n.timeline, 0), ProjectDb(n, s.now),
                 ProjectPs(n))
    ensures forall v :: v in states[|labels|].handlers && v != u ==>
      v in ss[|ls|].handlers && ss[|ls|].handlers[v] == states[|labels|].handlers[v]
  {
    var (db, ps, tenant, x) := (ProjectDb(n, s.now), ProjectPs(n), n.project.tenant, n.timeline);
    ss, ls := Reads(s, states, labels, u, FindProject(q), db, ps, Fine, FindParent(q, tenant));
    ss, ls := Reads(s, ss, ls, u, FindParent(q, tenant), db, ps, Fine, AskCommit(q, tenant, n.bid, x));
    var poll := PollRecord(q, tenant, n.bid, x, 0, s.now + 30_000);
    ss, ls := Reads(s, ss, ls, u, AskCommit(q, tenant, n.bid, x), db, ps, Reported(0), poll);
    ss, ls := Reads(s, ss, ls, u, poll, db, ps, Fine, CutTimeline(q, tenant, n.bid, x, 0));
  }

  /** The cut starts the new timeline at position 0 of the parent's. */
  lemma CutIs(n: ProjectPlan, q: BranchPlan)
    requires q.timeline != n.timeline
    ensures AddTimeline(ProjectPs(n), q.timeline,
        Timeline(n.project.tenant, Some(Cut(n.timeline, 0)))) == BranchPs(n, q)
  {
  }

  lemma TimelineIsMade(s: Sys, states: seq<Sys>, labels: seq<Label>, u: Tid, n: ProjectPlan, q: BranchPlan, db: Db)
    returns (ss: seq<Sys>, ls: seq<Label>)
    requires Come(s, states, labels, u, CutTimeline(q, n.project.tenant, n.bid, n.timeline, 0), db, ProjectPs(n))
    requires q.timeline != n.timeline
    ensures Come(s, ss, ls, u, SaveBranch(q, n.project.tenant, n.bid, 0), db, BranchPs(n, q))
    ensures ss[|ls|].handlers.Keys == states[|labels|].handlers.Keys
    ensures forall v :: v in ss[|ls|].handlers && v != u ==> ss[|ls|].handlers[v] == states[|labels|].handlers[v]
  {
    CutIs(n, q);
    ss, ls := OneMore(states, labels, u, Fine,
                      Effect(db, BranchPs(n, q), SaveBranch(q, n.project.tenant, n.bid, 0), {}));
  }

  lemma BranchIsSaved(s: Sys, states: seq<Sys>, labels: seq<Label>, u: Tid, n: ProjectPlan, q: BranchPlan, db: Db,
      next: Db, ps: Pageserver) returns (ss: seq<Sys>, ls: seq<Label>)
    requires Come(s, states, labels, u, SaveBranch(q, n.project.tenant, n.bid, 0), db, ps)
    requires BranchInsert(db, q, n.bid, s.now) == Ok(next)
    ensures Come(s, ss, ls, u, Ended, next, ps)
    ensures ss[|ls|].handlers.Keys == states[|labels|].handlers.Keys
    ensures forall v :: v in ss[|ls|].handlers && v != u ==> ss[|ls|].handlers[v] == states[|labels|].handlers[v]
  {
    ss, ls := OneMore(states, labels, u, Fine, Effect(next, ps, Ended, {}));
  }

  /**
   * From nothing: a project is created, then a branch under its main branch asked for as
   * parent. Both requests are answered, and rows and storage are exactly the two.
   */
  lemma ProjectThenBranch(s: Sys, t: Tid, n: ProjectPlan, u: Tid, q: BranchPlan)
    returns (states: seq<Sys>, labels: seq<Label>)
    requires Pristine(s) && t != u && PlanIds(AttachTenant(n)) !! s.used
    requires PlanIds(FindProject(q)) !! s.used + PlanIds(AttachTenant(n))
    requires q.pid == n.pid && q.parent == Some(n.bid) && q.name != "main"
    ensures IsTrace(states, labels) && states[0] == s && states[|labels|].now == s.now
    ensures AtEnd(states[|labels|], t) && AtEnd(states[|labels|], u)
    ensures states[|labels|].db == BranchDb(n, q, s.now) && states[|labels|].ps == BranchPs(n, q)
  {
    InsertsAre(n, q, s.now);
    states, labels := ProjectIsMade(s, t, n);
    TraceExtends(states, labels, CreateBranch(u, q));
    states, labels := states + [Started(states[|labels|], u, FindProject(q))], labels + [CreateBranch(u, q)];
    states, labels := ParentIsReady(s, states, labels, u, n, q);
    states, labels := TimelineIsMade(s, states, labels, u, n, q, ProjectDb(n, s.now));
    states, labels := BranchIsSaved(s, states, labels, u, n, q, ProjectDb(n, s.now), BranchDb(n, q, s.now),
        BranchPs(n, q));
  }
}
