/**
 * The create and delete handlers as the programs they are, over a catalog and a pageserver
 * that other handlers keep changing between any two of their calls. Every method is proved
 * to take only steps of the transition system of Provisioning, so its invariant holds at
 * every instant of them; beside that each says what its answer tells the client.
 */
module Handling {
  import opened Base
  import opened Database
  import opened Catalog
  import opened Provisioning
  import Safekeeper
  import opened BranchPoint
  import Lsn

  /** What happens around one call: other steps first, then time passes, then its outcome. */
  datatype Gap = Gap(others: seq<Label>, delay: nat, out: Reply)

  class Backend {
    var sys: Sys
    var script: seq<Gap>
    ghost var states: seq<Sys>
    ghost var labels: seq<Label>

    ghost predicate Valid() reads this {
      IsTrace(states, labels) && states[|labels|] == sys && AllGood(states)
    }

    constructor (initial: Sys, script: seq<Gap>)
      requires Good(initial)
      ensures Valid() && sys == initial
    {
      this.sys, this.script, this.states, this.labels := initial, script, [initial], [];
    }

    /** The run has grown; no branch is forgotten, and time does not go back. */
    twostate predicate Grown() reads this {
      && Valid() && old(states) <= states && old(labels) <= labels && Remembers(old(sys.hist), sys.hist)
      && sys.now >= old(sys.now)
    }

    /** From here on no call fails, and beside them there is only time and the pageserver's ingestion. */
    ghost predicate Calm() reads this { forall g :: g in script ==> CalmGap(g) }

    /** If it was calm, it still is, and nothing but time and ingestion has moved. */
    twostate predicate Rested() reads this { old(Calm()) ==> Calm() && Quiet(old(sys), sys) }

    /** The last step was a call of `t`, with this outcome, in state `met`. */
    ghost predicate JustCalled(t: Tid, out: Reply, met: Sys) reads this {
      && |states| == |labels| + 1 && |labels| > 0 && states[|labels| - 1] == met
      && labels[|labels| - 1].Act? && labels[|labels| - 1].t == t && labels[|labels| - 1].out == out
    }

    method Step(l: Label)
      requires Valid() && Enabled(sys, l)
      modifies this
      ensures Grown() && sys == Apply(old(sys), l) && script == old(script)
      ensures states == old(states) + [sys] && labels == old(labels) + [l]
    {
      TraceExtends(states, labels, l);
      GoodRunExtends(states, sys, l);
      sys := Apply(sys, l);
      states, labels := states + [sys], labels + [l];
    }

    /** A request comes in: its handler stands at its first call. */
    method Begin(l: Label, t: Tid, h: Handler)
      requires Valid() && t !in sys.handlers && Enabled(sys, l) && Begins(l, t, h)
      modifies this
      ensures Grown() && IsAt(sys, t, h) && sys.db == old(sys.db) && sys.ps == old(sys.ps) && Rested()
      ensures sys.hist == old(sys.hist)
    {
      Step(l);
    }

    /** Before the next call of `t` others move, and at least `rest` passes; its position stays. */
    method Await(t: Tid, rest: nat) returns (out: Reply)
      requires Valid() && t in sys.handlers
      modifies this
      ensures Grown() && t in sys.handlers && sys.handlers[t] == old(sys.handlers[t])
      ensures sys.now > old(sys.now) + rest
      ensures Rested() && (old(Calm()) ==> out == Fine)
    {
      var gap := if script == [] then Gap([], 0, Fine) else script[0];
      script := if script == [] then [] else script[1..];
      for n := 0 to |gap.others|
        invariant Grown() && t in sys.handlers && sys.handlers[t] == old(sys.handlers[t]) && sys.now >= old(sys.now)
        invariant old(Calm()) ==> Calm() && CalmGap(gap) && Quiet(old(sys), sys)
      {
        var l := gap.others[n];
        if Enabled(sys, l) && !Concerns(l, t) {
          if l.Tick? || l.Ingest? {
            QuietStep(sys, l);
          }
          Step(l);
        }
      }
      Step(Tick(1 + rest + gap.delay));
      out := gap.out;
    }

    /** The next call of `t`: its outcome and the state it met. */
    method Call(t: Tid) returns (out: Reply, met: Sys)
      requires Valid() && t in sys.handlers && !sys.handlers[t].Ended? && !sys.handlers[t].FindParent?
      modifies this
      ensures Grown() && t in met.handlers && met.handlers[t] == old(sys.handlers[t])
          && met.now == sys.now > old(sys.now)
      ensures Calls(met, sys, t, out, "") && Remembers(old(sys.hist), met.hist)
      ensures old(Calm()) ==> Calm() && Quiet(old(sys), met) && out == Fine
    {
      out := Await(t, 0);
      met := sys;
      Commit(t, out, "");
    }

    /** A call of `t` whose outcome is known: it was asked of somebody else. */
    method Receive(t: Tid, out: Reply) returns (met: Sys)
      requires Valid() && t in sys.handlers && !sys.handlers[t].Ended? && !sys.handlers[t].FindParent?
      modifies this
      ensures Grown() && t in met.handlers && met.handlers[t] == old(sys.handlers[t])
          && met.now == sys.now > old(sys.now)
      ensures Calls(met, sys, t, out, "") && (old(Calm()) ==> Calm() && Quiet(old(sys), met))
    {
      var _ := Await(t, 0);
      met := sys;
      Commit(t, out, "");
    }

    /** The call itself, nobody moving before it; `pick` is what a listing found. */
    method Commit(t: Tid, out: Reply, pick: Id)
      requires Valid() && t in sys.handlers && Enabled(sys, Act(t, out, pick))
      modifies this
      ensures Grown() && sys.now == old(sys.now) && script == old(script)
      ensures Calls(old(sys), sys, t, out, pick) && JustCalled(t, out, old(sys))
    {
      CommitHolds(states, sys, t, out, pick);
      Step(Act(t, out, pick));
    }
  }

  predicate Begins(l: Label, t: Tid, h: Handler) {
    || (l.CreateProject? && l.t == t && h == AttachTenant(l.n))
          || (l.CreateBranch? && l.t == t && h == FindProject(l.q))
    || (l.DeleteBranch? && l.t == t && h == FindBranch(l.path, l.bid))
    || (l.DeleteProject? && l.t == t && h == FindDoomed(l.pid))
  }

  /** A step of `t` itself. */
  predicate Concerns(l: Label, t: Tid) { (l.Act? || l.Crash?) && l.t == t }

  /** No failure, and only time and ingestion before it. */
  predicate CalmGap(g: Gap) { g.out == Fine && forall l :: l in g.others ==> l.Tick? || l.Ingest? }

  /** The catalog and the storage are the same, except that more may have been ingested. */
  ghost predicate Quiet(s: Sys, s': Sys) {
    && s'.db == s.db && s'.ps.tenants == s.ps.tenants && s'.ps.timelines == s.ps.timelines
    && forall x :: Record(s'.ps, x) >= Record(s.ps, x)
  }

  lemma QuietStep(s: Sys, l: Label)
    requires Enabled(s, l) && (l.Tick? || l.Ingest?)
    ensures Quiet(s, Apply(s, l))
  {
  }

  ghost predicate AllGood(states: seq<Sys>) {
    forall i {:trigger Good(states[i])} :: 0 <= i < |states| ==> Good(states[i])
  }

  predicate Remembers(h: Db, h': Db) {
    forall b :: b in h.branches ==> b in h'.branches && h'.branches[b] == h.branches[b]
  }

  lemma GoodRunExtends(states: seq<Sys>, s: Sys, l: Label)
    requires AllGood(states) && states != [] && s == states[|states| - 1] && Enabled(s, l)
    ensures AllGood(states + [Apply(s, l)]) && Remembers(s.hist, Apply(s, l).hist)
  {
    assert Good(states[|states| - 1]);
    StepKeepsGood(s, l);
    HistoryGrows(s, l);
  }

  lemma HistoryGrows(s: Sys, l: Label)
    requires Good(s) && Enabled(s, l)
    ensures Remembers(s.hist, Apply(s, l).hist)
  {
    if l.Act? {
      ActKeepsInv(s, l.t, l.out, l.pick);
    }
  }

  /** What a call of `t` met in `s`, and where it led. */
  ghost predicate Calls(s: Sys, s': Sys, t: Tid, out: Reply, pick: Id) {
    && t in s.handlers && !s.handlers[t].Ended? && Reaches(s, s', t, Move(s, s.handlers[t], out, pick))
    && Prepared(s.ps, s.handlers[t]) && (Unsaved(s.handlers[t]) ==> PlanApart(s, s.handlers[t]))
    && StillTrue(s.db, s.ps, s'.hist, s.handlers[t]) && InsertsFit(s, s.handlers[t])
    && (s'.handlers[t].AskCommit? ==> FromHistory(s.db, s'.hist, s'.handlers[t].from))
  }

  /** The parent and its project are there, and the name is free. */
  predicate RoomFor(db: Db, q: BranchPlan, from: Id) {
    && q.pid in db.projects && from in db.branches
    && forall b :: b in db.branches && db.branches[b].project == q.pid ==> db.branches[b].name != q.name
  }

  /** The rows of a creation are always accepted for a project, and for a branch if there is room. */
  ghost predicate InsertsFit(s: Sys, h: Handler) {
    && (h.SaveProject? ==> ProjectInsert(s.db, h.n, s.now).Ok?)
    && (h.SaveBranch? ==> (BranchInsert(s.db, h.q, h.from, s.now).Ok? <==> RoomFor(s.db, h.q, h.from)))
  }

  lemma GoodInsertsFit(s: Sys, t: Tid)
    requires Good(s) && t in s.handlers
    ensures InsertsFit(s, s.handlers[t])
  {
    if s.handlers[t].SaveProject? {
      ProjectAlwaysFits(s, t);
    } else if s.handlers[t].SaveBranch? {
      BranchFitsIfRoom(s, t);
    }
  }

  /** Nothing in the database has an id of the plan. */
  lemma PlanIsUnseen(s: Sys, t: Tid, x: Id)
    requires IdsOk(s) && Recorded(s.db, s.hist) && t in s.handlers && Unsaved(s.handlers[t])
        && x in PlanIds(s.handlers[t])
    ensures x !in s.db.projects && x !in s.db.branches && x !in s.db.endpoints
  {
    assert !Known(s.hist, x);
  }

  lemma ProjectAlwaysFits(s: Sys, t: Tid)
    requires Good(s) && t in s.handlers && s.handlers[t].SaveProject?
    ensures ProjectInsert(s.db, s.handlers[t].n, s.now).Ok?
  {
    var n := s.handlers[t].n;
    PlanIsUnseen(s, t, n.pid);
    PlanIsUnseen(s, t, n.bid);
    PlanIsUnseen(s, t, n.eid);
    PlannedIsUnknown(s, t, n.project.tenant);
    InsertedExactly(s.db, n.pid, n.project, n.bid, Branch(n.pid, "main", n.timeline, None, true), n.eid, n.bid,
        Some(Suspended), Requested(n.suspendAfter), s.now);
  }

  lemma BranchFitsIfRoom(s: Sys, t: Tid)
    requires Good(s) && t in s.handlers && s.handlers[t].SaveBranch?
    ensures var h := s.handlers[t];
      BranchInsert(s.db, h.q, h.from, s.now).Ok? <==> RoomFor(s.db, h.q, h.from)
  {
    var (q, from) := (s.handlers[t].q, s.handlers[t].from);
    PlanIsUnseen(s, t, q.bid);
    PlanIsUnseen(s, t, q.eid);
    ParentIsOlder(s, t);
    FitsExactly(s.db, q.bid, Branch(q.pid, q.name, q.timeline, Some(from), false), q.eid, q.bid, Some(Suspended), 0,
        s.now);
  }

  /** The system is where the move of `t` leads. */
  predicate Reaches(s: Sys, s': Sys, t: Tid, m: Effect) {
    t in s'.handlers && s'.handlers[t] == m.next && s'.db == m.db && s'.ps == m.ps && s'.leaked == s.leaked + m.lost
  }

  /** The history knows the branch as it was read. */
  predicate FromHistory(db: Db, h: Db, b: Id) {
    b in db.branches && b in h.branches && SameBranch(db.branches[b], h.branches[b])
  }

  /** What a handler about to write or delete a row read earlier, as it is when it does. */
  predicate StillTrue(db: Db, ps: Pageserver, hist: Db, h: Handler) {
    && (h.PollRecord? ==> Record(ps, h.ancestor) < TWO64)
    && (h.SaveBranch? ==>
          && h.from != h.q.bid && (h.from in db.branches ==> FromHistory(db, hist, h.from))
          && h.from in hist.branches && IfThere(ps, h.q.timeline,
                Timeline(h.tenant, Some(Cut(hist.branches[h.from].timeline, h.at)))))
    && (h.DropRow? ==>
          h.bid in hist.branches && SameBranch(hist.branches[h.bid], h.branch) && !h.branch.isDefault
              && h.branch.timeline !in ps.timelines)
  }

  lemma WhatWasReadHolds(s: Sys, t: Tid, out: Reply, pick: Id)
    requires Good(s) && Enabled(s, Act(t, out, pick))
    ensures var s' := Acted(s, t, out, pick);
      && Prepared(s.ps, s.handlers[t]) && StillTrue(s.db, s.ps, s'.hist, s.handlers[t])
      && (s'.handlers[t].AskCommit? ==> FromHistory(s.db, s'.hist, s'.handlers[t].from))
  {
    if s.handlers[t].SaveBranch? {
      ParentIsOlder(s, t);
    }
    ReadsHold(s, t, out, pick);
  }

  lemma CallsHold(s: Sys, t: Tid, out: Reply, pick: Id)
    requires Good(s) && Enabled(s, Act(t, out, pick))
    ensures Calls(s, Acted(s, t, out, pick), t, out, pick)
  {
    PlannedStorage(s, t);
    GoodInsertsFit(s, t);
    WhatWasReadHolds(s, t, out, pick);
    LeadsOn(s, t, out, pick);
  }

  lemma CommitHolds(states: seq<Sys>, s: Sys, t: Tid, out: Reply, pick: Id)
    requires AllGood(states) && states != [] && s == states[|states| - 1] && Enabled(s, Act(t, out, pick))
    ensures Calls(s, Acted(s, t, out, pick), t, out, pick)
  {
    assert Good(states[|states| - 1]);
    CallsHold(s, t, out, pick);
  }

  lemma LeadsOn(s: Sys, t: Tid, out: Reply, pick: Id)
    requires Enabled(s, Act(t, out, pick))
    ensures Reaches(s, Acted(s, t, out, pick), t, Move(s, s.handlers[t], out, pick))
  {
  }

  lemma ReadsHold(s: Sys, t: Tid, out: Reply, pick: Id)
    requires Enabled(s, Act(t, out, pick)) && RefsOk(s.hist, s.ps, s.handlers[t]) && Recorded(s.db, s.hist)
    requires CutsIngested(s.ps) && (s.handlers[t].SaveBranch? ==> s.handlers[t].from != s.handlers[t].q.bid)
    ensures var s' := Acted(s, t, out, pick);
      && StillTrue(s.db, s.ps, s'.hist, s.handlers[t])
      && (s'.handlers[t].AskCommit? ==> FromHistory(s.db, s'.hist, s'.handlers[t].from))
  {
    var (s', h) := (Acted(s, t, out, pick), s.handlers[t]);
    RefsAreTrue(s.db, s.ps, s.hist, s'.hist, h);
    AncestorRead(s, h, out, pick);
  }

  lemma RefsAreTrue(db: Db, ps: Pageserver, h: Db, h': Db, x: Handler)
    requires RefsOk(h, ps, x) && Recorded(db, h) && Remembers(h, h') && CutsIngested(ps)
    requires x.SaveBranch? ==> x.from != x.q.bid
    ensures StillTrue(db, ps, h', x)
  {
  }

  lemma AncestorRead(s: Sys, h: Handler, out: Reply, pick: Id)
    requires !h.Ended?
    ensures var m := Move(s, h, out, pick);
      m.next.AskCommit? ==> m.next.from in s.db.branches
  {
  }

  /** What generated ids promise: storage under them that the handler has not made is a leak. */
  ghost predicate PlanApart(s: Sys, h: Handler) {
    forall x :: x in PlanIds(h) ==>
      && (x in s.ps.tenants && x !in HeldTenants(h) ==> x in s.leaked)
      && (x in s.ps.timelines && x !in HeldTimelines(h) ==> x in s.leaked)
  }

  lemma PlannedStorage(s: Sys, t: Tid)
    requires Good(s) && t in s.handlers
    ensures Unsaved(s.handlers[t]) ==> PlanApart(s, s.handlers[t])
  {
    if Unsaved(s.handlers[t]) {
      forall x | x in PlanIds(s.handlers[t])
        ensures x in s.ps.tenants && x !in HeldTenants(s.handlers[t]) ==> x in s.leaked
        ensures x in s.ps.timelines && x !in HeldTimelines(s.handlers[t]) ==> x in s.leaked
      {
        PlannedIsUnknown(s, t, x);
        assert x in s.ps.tenants ==> TenantAccounted(s, x);
        assert x in s.ps.timelines ==> TimelineAccounted(s, x);
      }
    }
  }

  /** No row and no other handler has an id of the plan. */
  lemma PlannedIsUnknown(s: Sys, t: Tid, x: Id)
    requires IdsOk(s) && Recorded(s.db, s.hist) && t in s.handlers && Unsaved(s.handlers[t])
        && x in PlanIds(s.handlers[t])
    ensures forall p :: p in s.db.projects ==> s.db.projects[p].tenant != x
    ensures forall b :: b in s.db.branches ==> s.db.branches[b].timeline != x
    ensures forall u :: u in s.handlers && u != t ==>
        x !in HeldTenants(s.handlers[u]) && x !in HeldTimelines(s.handlers[u])
  {
    assert !Known(s.hist, x);
    forall u | u in s.handlers && u != t
      ensures x !in HeldTenants(s.handlers[u]) && x !in HeldTimelines(s.handlers[u]) {
      assert PlanIds(s.handlers[u]) !! PlanIds(s.handlers[t]);
    }
  }

  /** A new endpoint of the branch, with this threshold. */
  predicate NeverRan(ep: Endpoint, branch: Id, suspendAfter: int) {
    && ep.branch == branch && ep.state == Suspended && ep.suspendAfter == suspendAfter
    && ep.addr == None && ep.lastStarted == None && ep.lastActive == None
  }

  /** A project as its creator answers for it: rows, tenant and timeline. */
  predicate Created(s: Sys, n: ProjectPlan) {
    && n.pid in s.db.projects && s.db.projects[n.pid] == n.project
    && n.bid in s.db.branches && s.db.branches[n.bid] == Branch(n.pid, "main", n.timeline, None, true)
    && n.eid in s.db.endpoints
    && NeverRan(s.db.endpoints[n.eid], n.bid, if n.suspendAfter > 0 then n.suspendAfter else 300)
    && n.project.tenant in s.ps.tenants && Get(s.ps.timelines, n.timeline) == Some(Timeline(n.project.tenant, None))
  }

  /** A branch as its creator answers for it: its row under `from`, and its endpoint. */
  predicate Branched(db: Db, q: BranchPlan, from: Id) {
    && q.bid in db.branches && db.branches[q.bid] == Branch(q.pid, q.name, q.timeline, Some(from), false)
    && q.eid in db.endpoints && NeverRan(db.endpoints[q.eid], q.bid, 300)
    && from in db.branches && db.branches[from].project == q.pid
    && (if q.parent.Some? then q.parent == Some(from) else db.branches[from].isDefault)
  }

  /** A branch to cut from: its project's tenant and its timeline. */
  datatype Ancestor = Ancestor(tenant: Id, from: Id, timeline: Id)

  /** The ancestor is the parent asked for or the default branch, in the project. */
  predicate Chosen(h: Db, q: BranchPlan, a: Ancestor) {
    && a.from in h.branches && h.branches[a.from].project == q.pid && h.branches[a.from].timeline == a.timeline
    && (if q.parent.Some? then q.parent == Some(a.from) else h.branches[a.from].isDefault)
  }

  /** The branch is the parent asked for, or no parent was and it is the default branch; it is of the project. */
  predicate IsParent(db: Db, q: BranchPlan, b: Id) {
    && b in db.branches && db.branches[b].project == q.pid
    && (q.parent == Some(b) || (q.parent == None && db.branches[b].isDefault))
  }

  ghost predicate HasParent(db: Db, q: BranchPlan) { exists b :: IsParent(db, q, b) }

  /** The tenant is attached and has the ancestor's timeline. */
  predicate CanCut(ps: Pageserver, a: Ancestor) { a.tenant in ps.tenants && Serves(ps, a.timeline, a.tenant) }

  /** The pageserver has not ingested some position that was reported. */
  ghost predicate Lags(ps: Pageserver, timeline: Id, replies: seq<Safekeeper.Reply>) {
    exists p :: p in Safekeeper.Positions(replies) && Record(ps, timeline) < p
  }

  /**
   * What a createBranch asks of the catalog and the pageserver: the project exists, the name
   * is free in it, a parent asked for is a branch of it, and the parent's timeline is there.
   */
  ghost predicate Wanted(s: Sys, q: BranchPlan) {
    && q.pid in s.db.projects
    && (forall b :: b in s.db.branches && s.db.branches[b].project == q.pid ==> s.db.branches[b].name != q.name)
    && (q.parent.Some? ==> q.parent.value in s.db.branches && s.db.branches[q.parent.value].project == q.pid)
    && (forall b :: IsParent(s.db, q, b) ==> s.db.branches[b].timeline in s.ps.timelines)
  }

  /** The parent's timeline is behind some position reported. */
  ghost predicate StillLags(s: Sys, db: Db, q: BranchPlan, replies: seq<Safekeeper.Reply>) {
    exists b :: IsParent(db, q, b) && Lags(s.ps, db.branches[b].timeline, replies)
  }

  /** The ancestor as the catalog has it. */
  predicate AsListed(db: Db, q: BranchPlan, a: Ancestor) {
    && IsParent(db, q, a.from) && db.branches[a.from].timeline == a.timeline
    && q.pid in db.projects && db.projects[q.pid].tenant == a.tenant
  }

  /** With the ancestor found, what is asked for is that it can be cut and that there is room. */
  lemma WantedExactly(s: Sys, q: BranchPlan, a: Ancestor)
    requires Good(s) && AsListed(s.db, q, a)
    ensures Wanted(s, q) <==> CanCut(s.ps, a) && RoomFor(s.db, q, a.from)
  {
    ListedCanBeCut(s, q, a);
    OneParent(s, q, a);
    ListedIsWanted(s, q, a);
  }

  lemma ListedIsWanted(s: Sys, q: BranchPlan, a: Ancestor)
    requires AsListed(s.db, q, a) && forall b :: IsParent(s.db, q, b) ==> b == a.from
    ensures Wanted(s, q) <==> a.timeline in s.ps.timelines && RoomFor(s.db, q, a.from)
  {
  }

  /** Every project has a default branch, so a parent is always found. */
  /**
   * What a createBranch begun in `s` has to answer if no call fails: it succeeds if it can,
   * unless the parent's timeline is not ingested in time, and only if it can.
   */
  ghost predicate Served(s: Sys, z: Sys, q: BranchPlan, replies: seq<Safekeeper.Reply>, r: Result<string>) {
    && (Wanted(s, q) && Safekeeper.Positions(replies) != {} ==>
          r.Ok? || (r == Err(TimedOut) && StillLags(z, s.db, q, replies)))
    && (r.Ok? ==> Wanted(s, q))
  }

  /** The same, with the ancestor known. */
  ghost predicate ServedFrom(s: Sys, z: Sys, q: BranchPlan, a: Ancestor, replies: seq<Safekeeper.Reply>,
      r: Result<string>) {
    && (CanCut(s.ps, a) && RoomFor(s.db, q, a.from) && Safekeeper.Positions(replies) != {} ==>
          r.Ok? || (r == Err(TimedOut) && Lags(z.ps, a.timeline, replies)))
    && (r.Ok? ==> CanCut(s.ps, a) && RoomFor(s.db, q, a.from))
  }

  lemma ServedByCut(states: seq<Sys>, s: Sys, mid: Sys, z: Sys, q: BranchPlan, a: Ancestor,
      replies: seq<Safekeeper.Reply>, r: Result<string>)
    requires AllGood(states) && states != [] && s == states[|states| - 1]
    requires AsListed(s.db, q, a) && Quiet(s, mid) && ServedFrom(mid, z, q, a, replies, r)
    ensures Served(s, z, q, replies, r)
  {
    assert Good(states[|states| - 1]);
    WantedExactly(s, q, a);
    assert IsParent(s.db, q, a.from);
  }

  lemma ServedNone(states: seq<Sys>, s: Sys, z: Sys, q: BranchPlan, replies: seq<Safekeeper.Reply>, r: Result<string>)
    requires AllGood(states) && states != [] && s == states[|states| - 1] && r.Err?
    requires !(q.pid in s.db.projects && HasParent(s.db, q))
    ensures Served(s, z, q, replies, r)
  {
    assert Good(states[|states| - 1]);
    if Wanted(s, q) {
      WantedHasParent(s, q);
    }
  }

  lemma WantedHasParent(s: Sys, q: BranchPlan)
    requires Good(s) && Wanted(s, q)
    ensures HasParent(s.db, q)
  {
    if q.parent.Some? {
      assert IsParent(s.db, q, q.parent.value);
    } else {
      var b :| IsDefaultOf(s.db, b, q.pid);
      assert IsParent(s.db, q, b);
    }
  }

  lemma ListedCanBeCut(s: Sys, q: BranchPlan, a: Ancestor)
    requires Inv(s) && AsListed(s.db, q, a)
    ensures CanCut(s.ps, a) <==> a.timeline in s.ps.timelines
  {
    assert a.from in s.hist.branches && s.hist.branches[a.from].project in s.hist.projects;
    assert OnTenant(s.ps, a.timeline, a.tenant);
  }

  lemma OneParent(s: Sys, q: BranchPlan, a: Ancestor)
    requires OneDefault(s.db) && IsParent(s.db, q, a.from)
    ensures forall b :: IsParent(s.db, q, b) ==> b == a.from
  {
    forall b | IsParent(s.db, q, b) ensures b == a.from {
      assert q.parent.None? ==> IsDefaultOf(s.db, b, q.pid) && IsDefaultOf(s.db, a.from, q.pid);
    }
  }

  /** Where the read of the parent leads. */
  lemma ParentReached(s: Sys, s': Sys, t: Tid, q: BranchPlan, tenant: Id, out: Reply, from: Id)
    requires Calls(s, s', t, out, from) && s.handlers[t] == FindParent(q, tenant)
    requires (IsParent(s.db, q, from) <==> HasParent(s.db, q)) && (q.parent.Some? ==> from == q.parent.value)
    ensures if out == Fine && IsParent(s.db, q, from) then
        s'.handlers[t] == AskCommit(q, tenant, from, s.db.branches[from].timeline)
            && Chosen(s'.hist, q, Ancestor(tenant, from, s.db.branches[from].timeline))
      else GivenUp(s', t, q.timeline)
  {
  }

  function CutOf(a: Ancestor, at: nat): Timeline { Timeline(a.tenant, Some(Cut(a.timeline, at))) }

  predicate CutAt(ps: Pageserver, timeline: Id, a: Ancestor, at: nat) {
    Get(ps.timelines, timeline) == Some(CutOf(a, at)) && Record(ps, timeline) >= at
  }

  /** At some instant since state `lo` the timeline existed, cut at `at` from the ancestor, with all up to there. */
  ghost predicate WasCut(states: seq<Sys>, lo: nat, timeline: Id, a: Ancestor, at: nat) {
    exists k | lo <= k < |states| :: CutAt(states[k].ps, timeline, a, at)
  }

  /** What a successful createBranch has done since state `lo`, with the commit position it returns. */
  ghost predicate Delivered(states: seq<Sys>, lo: nat, s: Sys, q: BranchPlan, a: Ancestor, commit: string) {
    && Lsn.Parse(commit).Some? && Branched(s.db, q, a.from) && s.db.branches[a.from].timeline == a.timeline
    && WasCut(states, lo, q.timeline, a, Lsn.Parse(commit).value)
    && IfThere(s.ps, q.timeline, CutOf(a, Lsn.Parse(commit).value))
  }

  /** The handler has ended, and a timeline it made is gone or a known leak. */
  predicate GivenUp(s: Sys, t: Tid, timeline: Id) {
    t in s.handlers && s.handlers[t].Ended? && (timeline in s.ps.timelines ==> timeline in s.leaked)
  }

  /** How a round of the wait ends. */
  datatype Verdict = Caught | Behind | Broken(error: Error)

  predicate OnlyLate(v: Verdict) { v.Broken? ==> v.error == TimedOut }

  predicate IsAt(s: Sys, t: Tid, h: Handler) { t in s.handlers && s.handlers[t] == h }

  predicate BranchGone(s: Sys, path: Id, bid: Id) {
    && bid in s.hist.branches && s.hist.branches[bid].project == path && !s.hist.branches[bid].isDefault
    && bid !in s.db.branches && s.hist.branches[bid].timeline !in s.ps.timelines
  }

  /** The branch is one of the project named, and not its default one. */
  predicate MayGo(db: Db, path: Id, bid: Id) {
    bid in db.branches && db.branches[bid].project == path && !db.branches[bid].isDefault
  }

  lemma ProjectsAreThere(states: seq<Sys>, s: Sys)
    requires AllGood(states) && states != [] && s == states[|states| - 1]
    ensures forall b :: b in s.db.branches ==> s.db.branches[b].project in s.db.projects
  {
    assert Good(states[|states| - 1]);
  }

  class Handlers {
    const backend: Backend

    constructor (backend: Backend) ensures this.backend == backend { this.backend := backend; }

    /**
     * createProject. Success means that rows, tenant and timeline all exist; after an error
     * the tenant is gone or a known leak.
     */
    method CreateProject(t: Tid, n: ProjectPlan) returns (r: Result<()>)
      requires backend.Valid() && t !in backend.sys.handlers && PlanIds(AttachTenant(n)) !! backend.sys.used
      modifies backend
      ensures backend.Grown() && t in backend.sys.handlers && backend.sys.handlers[t].Ended?
      ensures r.Ok? ==> Created(backend.sys, n)
      ensures r.Err? && n.project.tenant in backend.sys.ps.tenants ==> n.project.tenant in backend.sys.leaked
      ensures old(backend.Calm()) ==> r.Ok?
    {
      backend.Begin(Label.CreateProject(t, n), t, AttachTenant(n));
      var attached := Attach(t, n);
      if !attached {
        return Err(Unavailable);
      }
      r := StoreProject(t, n);
    }

    method Attach(t: Tid, n: ProjectPlan) returns (ok: bool)
      requires backend.Valid() && IsAt(backend.sys, t, AttachTenant(n))
      modifies backend
      ensures backend.Grown() && t in backend.sys.handlers
      ensures backend.sys.handlers[t] == if ok then MakeTimeline(n) else Ended
      ensures !ok && n.project.tenant in backend.sys.ps.tenants ==> n.project.tenant in backend.sys.leaked
      ensures old(backend.Calm()) ==> ok && backend.Calm()
    {
      var out, met := backend.Call(t);
      ok := out == Fine;
    }

    /** With the tenant attached: the timeline, whose failure is not compensated, then the rows. */
    method StoreProject(t: Tid, n: ProjectPlan) returns (r: Result<()>)
      requires backend.Valid() && t in backend.sys.handlers && backend.sys.handlers[t] == MakeTimeline(n)
      modifies backend
      ensures backend.Grown() && t in backend.sys.handlers && backend.sys.handlers[t].Ended?
      ensures r.Ok? ==> Created(backend.sys, n)
      ensures r.Err? && n.project.tenant in backend.sys.ps.tenants ==> n.project.tenant in backend.sys.leaked
      ensures old(backend.Calm()) ==> r.Ok?
    {
      var out, met := backend.Call(t);
      if out != Fine {
        return Err(Unavailable);
      }
      r := SaveNewProject(t, n);
    }

    /** The rows, or the compensation. */
    method SaveNewProject(t: Tid, n: ProjectPlan) returns (r: Result<()>)
      requires backend.Valid() && t in backend.sys.handlers && backend.sys.handlers[t] == SaveProject(n)
      modifies backend
      ensures backend.Grown() && t in backend.sys.handlers && backend.sys.handlers[t].Ended?
      ensures r.Ok? ==> Created(backend.sys, n)
      ensures r.Err? && n.project.tenant in backend.sys.ps.tenants ==> n.project.tenant in backend.sys.leaked
      ensures old(backend.Calm()) ==> r.Ok?
    {
      var out, met := backend.Call(t);
      var saved := if out == Fine then ProjectInsert(met.db, n, met.now) else Err(Unavailable);
      if saved.Err? {
        DropNewTenant(t, n);
        return Err(saved.error);
      }
      r := Ok(());
    }

    /** The compensation; its error is only logged. */
    method DropNewTenant(t: Tid, n: ProjectPlan)
      requires backend.Valid() && IsAt(backend.sys, t, UndoTenant(n))
      modifies backend
      ensures backend.Grown() && t in backend.sys.handlers && backend.sys.handlers[t].Ended?
      ensures n.project.tenant in backend.sys.ps.tenants ==> n.project.tenant in backend.sys.leaked
    {
      var out, met := backend.Call(t);
    }

    /** The default branch in a listing of the project's branches, if there is one. */
    method FindDefault(db: Db, pid: Id) returns (found: Option<Id>)
      ensures found.Some? ==> IsDefaultOf(db, found.value, pid)
      ensures found.None? ==> forall b :: !IsDefaultOf(db, b, pid)
    {
      var left := BranchesOf(db, pid);
      while left != {}
        invariant left <= BranchesOf(db, pid)
        invariant forall b :: b in db.branches && b !in left ==> !IsDefaultOf(db, b, pid)
        decreases left
      {
        var b :| b in left;
        if db.branches[b].isDefault {
          return Some(b);
        }
        left := left - {b};
      }
      found := None;
    }

    /** The parent asked for, or the default branch of a listing; whether it is a branch of the project. */
    method PickParent(db: Db, q: BranchPlan) returns (from: Id, found: bool)
      ensures found <==> HasParent(db, q)
      ensures found <==> IsParent(db, q, from)
      ensures q.parent.Some? ==> from == q.parent.value
      ensures q.parent.None? && (exists b :: b in db.branches && IsDefaultOf(db, b, q.pid)) ==>
        IsDefaultOf(db, from, q.pid)
    {
      if q.parent.Some? {
        from := q.parent.value;
        found := from in db.branches && db.branches[from].project == q.pid;
        assert found ==> IsParent(db, q, from);
      } else {
        var pick := FindDefault(db, q.pid);
        from, found := if pick.Some? then pick.value else "", pick.Some?;
        assert found ==> IsParent(db, q, from);
        assert forall b :: IsParent(db, q, b) ==> IsDefaultOf(db, b, q.pid);
      }
    }

    /**
     * The ancestor: the parent asked for, if it is in the project, or the default branch. The
     * only other reason to refuse is that the call, made in state `met`, did not succeed.
     */
    method ResolveParent(t: Tid, q: BranchPlan, tenant: Id)
      returns (r: Result<Ancestor>, ghost met: Sys, ghost reply: Reply)
      requires backend.Valid() && IsAt(backend.sys, t, FindParent(q, tenant))
      modifies backend
      ensures backend.Grown() && t in backend.sys.handlers
      ensures r.Ok? ==>
        r.value.tenant == tenant && Chosen(backend.sys.hist, q, r.value)
            && backend.sys.handlers[t] == AskCommit(q, tenant, r.value.from, r.value.timeline)
      ensures r.Err? ==> GivenUp(backend.sys, t, q.timeline)
      ensures backend.JustCalled(t, reply, met) && (r.Ok? <==> reply == Fine && HasParent(met.db, q))
      ensures r.Ok? ==> IsParent(met.db, q, r.value.from) && met.db.branches[r.value.from].timeline == r.value.timeline
      ensures backend.Rested() && (old(backend.Calm()) ==> reply == Fine && met.db == old(backend.sys.db))
      ensures r != Err(TimedOut)
    {
      var out := backend.Await(t, 0);
      met, reply := backend.sys, out;
      var db := backend.sys.db;
      var from, found := PickParent(db, q);
      backend.Commit(t, out, from);
      ParentReached(met, backend.sys, t, q, tenant, out, from);
      if out != Fine || !found {
        r := Err(if out == Fine then Refused else Unavailable);
      } else {
        r := Ok(Ancestor(tenant, from, db.branches[from].timeline));
      }
    }

    /** The project, then the ancestor. */
    method FindAncestor(t: Tid, q: BranchPlan) returns (r: Result<Ancestor>)
      requires backend.Valid() && t !in backend.sys.handlers && PlanIds(FindProject(q)) !! backend.sys.used
      modifies backend
      ensures backend.Grown() && t in backend.sys.handlers
      ensures r.Ok? ==>
        Chosen(backend.sys.hist, q, r.value)
            && backend.sys.handlers[t] == AskCommit(q, r.value.tenant, r.value.from, r.value.timeline)
      ensures r.Err? ==> GivenUp(backend.sys, t, q.timeline)
      ensures backend.Rested()
      ensures old(backend.Calm()) ==>
        (r.Ok? <==> q.pid in old(backend.sys).db.projects && HasParent(old(backend.sys).db, q))
      ensures old(backend.Calm()) && r.Ok? ==> AsListed(old(backend.sys).db, q, r.value)
      ensures r != Err(TimedOut)
    {
      backend.Begin(Label.CreateBranch(t, q), t, FindProject(q));
      r := ReadAncestor(t, q);
    }

    /** The same for a handler that stands at its first call. */
    method ReadAncestor(t: Tid, q: BranchPlan) returns (r: Result<Ancestor>)
      requires backend.Valid() && IsAt(backend.sys, t, FindProject(q))
      modifies backend
      ensures backend.Grown() && t in backend.sys.handlers
      ensures r.Ok? ==>
        Chosen(backend.sys.hist, q, r.value)
            && backend.sys.handlers[t] == AskCommit(q, r.value.tenant, r.value.from, r.value.timeline)
      ensures r.Err? ==> GivenUp(backend.sys, t, q.timeline)
      ensures backend.Rested()
      ensures old(backend.Calm()) ==>
        (r.Ok? <==> q.pid in old(backend.sys).db.projects && HasParent(old(backend.sys).db, q))
      ensures old(backend.Calm()) && r.Ok? ==> AsListed(old(backend.sys).db, q, r.value)
      ensures r != Err(TimedOut)
    {
      var tenant := FindTenant(t, q);
      if tenant.Err? {
        return Err(tenant.error);
      }
      ghost var met, reply;
      r, met, reply := ResolveParent(t, q, tenant.value);
    }

    method FindTenant(t: Tid, q: BranchPlan) returns (r: Result<Id>)
      requires backend.Valid() && IsAt(backend.sys, t, FindProject(q))
      modifies backend
      ensures backend.Grown()
      ensures r.Ok? ==> IsAt(backend.sys, t, FindParent(q, r.value))
      ensures r.Err? ==> GivenUp(backend.sys, t, q.timeline)
      ensures backend.Rested()
      ensures old(backend.Calm()) ==> (r.Ok? <==> q.pid in old(backend.sys).db.projects)
      ensures old(backend.Calm()) && r.Ok? ==> r.value == old(backend.sys).db.projects[q.pid].tenant
      ensures r != Err(TimedOut)
    {
      var out, met := backend.Call(t);
      if out != Fine || q.pid !in met.db.projects {
        return Err(if out == Fine then NotFound else Unavailable);
      }
      r := Ok(met.db.projects[q.pid].tenant);
    }

    /** GetTimeline's last_record_lsn; a lost reply is one that cannot be understood. */
    function LastRecord(ps: Pageserver, a: Ancestor, out: Reply): Result<string> {
      if out != Fine && out != Lost then Err(Unavailable)
      else if !Serves(ps, a.timeline, a.tenant) then Err(NotFound)
      else Ok(if out == Fine then Lsn.Format(Record(ps, a.timeline)) else "")
    }

    /** One round of the wait: asks the pageserver how far the ancestor is. */
    method Round(t: Tid, q: BranchPlan, a: Ancestor, commit: string, at: nat, deadline: Time) returns (v: Verdict)
      requires backend.Valid() && Lsn.Parse(commit) == Some(at)
      requires IsAt(backend.sys, t, PollRecord(q, a.tenant, a.from, a.timeline, at, deadline))
      modifies backend
      ensures backend.Grown() && backend.sys.now > old(backend.sys.now) && t in backend.sys.handlers
      ensures v.Caught? ==> backend.sys.handlers[t] == CutTimeline(q, a.tenant, a.from, a.timeline, at)
      ensures v.Behind? ==>
        backend.sys.now <= deadline && backend.sys.handlers[t] == Pause(q, a.tenant, a.from, a.timeline, at, deadline)
      ensures v.Broken? ==> GivenUp(backend.sys, t, q.timeline)
      ensures v == Broken(TimedOut) ==> backend.sys.now > deadline && Record(backend.sys.ps, a.timeline) < at
      ensures backend.Rested() && (v.Behind? ==> Record(backend.sys.ps, a.timeline) < at)
      ensures old(backend.Calm()) && Serves(old(backend.sys.ps), a.timeline, a.tenant) ==> OnlyLate(v)
    {
      var out, met := backend.Call(t);
      var detail := LastRecord(met.ps, a, out);
      if detail.Err? {
        return Broken(detail.error);
      }
      var caught := Lsn.AtLeast(detail.value, commit);
      if out == Fine {
        CaughtUpExactly(Record(met.ps, a.timeline), commit);
      } else {
        assert Lsn.Parse("").None?;
      }
      if caught.Err? {
        return Broken(Malformed);
      }
      v := if caught.value then Caught else if met.now > deadline then Broken(TimedOut) else Behind;
    }

    /**
     * waitAncestorIngested. Success returns the first of the highest positions the safekeepers
     * reported, with the handler about to cut there; every call before was a round in which the
     * ancestor was behind, and a time-out means that the budget is over and it still is.
     */
    method WaitAncestorIngested(t: Tid, q: BranchPlan, a: Ancestor, replies: seq<Safekeeper.Reply>)
      returns (r: Result<string>)
      requires backend.Valid() && IsAt(backend.sys, t, AskCommit(q, a.tenant, a.from, a.timeline))
      modifies backend
      ensures backend.Grown() && t in backend.sys.handlers
      ensures Safekeeper.Positions(replies) == {} ==> r.Err?
      ensures r.Ok? ==>
        && Safekeeper.IsFirstHighest(replies, r.value) && Lsn.Parse(r.value).Some?
        && backend.sys.handlers[t] == CutTimeline(q, a.tenant, a.from, a.timeline, Lsn.Parse(r.value).value)
      ensures r.Err? ==> GivenUp(backend.sys, t, q.timeline)
      ensures r == Err(TimedOut) ==>
        backend.sys.now > old(backend.sys.now) + 30_000 && Lags(backend.sys.ps, a.timeline, replies)
      ensures backend.Rested()
      ensures old(backend.Calm()) && Serves(old(backend.sys.ps), a.timeline, a.tenant) ==>
        Safekeeper.Positions(replies) != {} ==> r.Ok? || r == Err(TimedOut)
    {
      var best, at := CommitPosition(replies);
      Ask(t, q, a, at);
      if at.None? {
        return Err(Unavailable);
      }
      r := WaitFor(t, q, a, best, at.value, backend.sys.now + INGEST_BUDGET);
    }

    /** The best report and its position. */
    method CommitPosition(replies: seq<Safekeeper.Reply>) returns (best: string, at: Option<nat>)
      ensures at.None? <==> Safekeeper.Positions(replies) == {}
      ensures at.Some? ==> Safekeeper.IsFirstHighest(replies, best) && Lsn.Parse(best) == at
      ensures at.Some? ==> at.value in Safekeeper.Positions(replies)
    {
      var found := Safekeeper.MaxCommitLsn(replies);
      if found.Ok? {
        Safekeeper.HighestIsUnique(replies, found.value, replies, found.value);
      }
      best := if found.Ok? then found.value else "";
      at := if found.Ok? then Lsn.Parse(best) else None;
    }

    /** The safekeepers have answered with a position, or not. */
    method Ask(t: Tid, q: BranchPlan, a: Ancestor, at: Option<nat>)
      requires backend.Valid() && IsAt(backend.sys, t, AskCommit(q, a.tenant, a.from, a.timeline))
      modifies backend
      ensures backend.Grown() && backend.sys.now > old(backend.sys.now)
      ensures at.Some? ==>
          IsAt(backend.sys, t, PollRecord(q, a.tenant, a.from, a.timeline, at.value, backend.sys.now + 30_000))
      ensures at.None? ==> GivenUp(backend.sys, t, q.timeline)
      ensures backend.Rested()
    {
      var met := backend.Receive(t, if at.Some? then Reported(at.value) else Fail);
    }

    /** The rounds of the wait, a poll interval apart, until the deadline has passed. */
    method WaitFor(t: Tid, q: BranchPlan, a: Ancestor, commit: string, at: nat, deadline: Time)
      returns (r: Result<string>)
      requires backend.Valid() && Lsn.Parse(commit) == Some(at)
      requires IsAt(backend.sys, t, PollRecord(q, a.tenant, a.from, a.timeline, at, deadline))
      modifies backend
      ensures backend.Grown() && t in backend.sys.handlers
      ensures r.Ok? ==> r.value == commit && backend.sys.handlers[t] == CutTimeline(q, a.tenant, a.from, a.timeline, at)
      ensures r.Err? ==> GivenUp(backend.sys, t, q.timeline)
      ensures r == Err(TimedOut) ==> backend.sys.now > deadline && Record(backend.sys.ps, a.timeline) < at
      ensures backend.Rested()
      ensures old(backend.Calm()) && Serves(old(backend.sys.ps), a.timeline, a.tenant) ==> r.Ok? || r == Err(TimedOut)
    {
      var round := Round(t, q, a, commit, at, deadline);
      while round.Behind?
        invariant backend.Grown() && t in backend.sys.handlers
        invariant round.Caught? ==> backend.sys.handlers[t] == CutTimeline(q, a.tenant, a.from, a.timeline, at)
        invariant round.Behind? ==>
          backend.sys.now <= deadline && backend.sys.handlers[t] == Pause(q, a.tenant, a.from, a.timeline, at, deadline)
        invariant round.Broken? ==> GivenUp(backend.sys, t, q.timeline)
        invariant round == Broken(TimedOut) ==> backend.sys.now > deadline && Record(backend.sys.ps, a.timeline) < at
        invariant backend.Rested()
        invariant old(backend.Calm()) && Serves(old(backend.sys.ps), a.timeline, a.tenant) ==> OnlyLate(round)
        decreases round.Behind?, deadline - backend.sys.now
      {
        round := NextRound(t, q, a, commit, at, deadline);
      }
      r := if round.Caught? then Ok(commit) else Err(round.error);
    }

    /** A pause and a round; a cancelled request ends the wait. */
    method NextRound(t: Tid, q: BranchPlan, a: Ancestor, commit: string, at: nat, deadline: Time) returns (v: Verdict)
      requires backend.Valid() && Lsn.Parse(commit) == Some(at)
      requires IsAt(backend.sys, t, Pause(q, a.tenant, a.from, a.timeline, at, deadline))
      modifies backend
      ensures backend.Grown() && backend.sys.now > old(backend.sys.now) + 200 && t in backend.sys.handlers
      ensures v.Caught? ==> backend.sys.handlers[t] == CutTimeline(q, a.tenant, a.from, a.timeline, at)
      ensures v.Behind? ==>
          backend.sys.now <= deadline && backend.sys.handlers[t] == Pause(q, a.tenant, a.from, a.timeline, at,
              deadline)
      ensures v.Broken? ==> GivenUp(backend.sys, t, q.timeline)
      ensures v == Broken(TimedOut) ==> backend.sys.now > deadline && Record(backend.sys.ps, a.timeline) < at
      ensures backend.Rested()
      ensures old(backend.Calm()) && Serves(old(backend.sys.ps), a.timeline, a.tenant) ==> OnlyLate(v)
    {
      var go := Sleep(t, q, a, at, deadline);
      if !go {
        return Broken(Cancelled);
      }
      v := Round(t, q, a, commit, at, deadline);
    }

    /** The pause between two rounds; false when the request is cancelled. */
    method Sleep(t: Tid, q: BranchPlan, a: Ancestor, at: nat, deadline: Time) returns (go: bool)
      requires backend.Valid()
      requires IsAt(backend.sys, t, Pause(q, a.tenant, a.from, a.timeline, at, deadline))
      modifies backend
      ensures backend.Grown() && t in backend.sys.handlers && backend.sys.now > old(backend.sys.now) + 200
      ensures go ==> backend.sys.handlers[t] == PollRecord(q, a.tenant, a.from, a.timeline, at, deadline)
      ensures !go ==> GivenUp(backend.sys, t, q.timeline)
      ensures backend.Rested() && (old(backend.Calm()) ==> go)
    {
      var out := backend.Await(t, INGEST_POLL);
      backend.Commit(t, out, "");
      go := out == Fine;
    }

    /**
     * createBranch. Success means that the rows exist, under the requested parent or the default
     * branch of the project, and that the timeline was created on the parent's timeline at the
     * position returned, the first of the highest the safekeepers reported; after an error the
     * timeline is gone or a known leak.
     */
    method CreateBranch(t: Tid, q: BranchPlan, replies: seq<Safekeeper.Reply>) returns (r: Result<string>)
      requires backend.Valid() && t !in backend.sys.handlers && PlanIds(FindProject(q)) !! backend.sys.used
      modifies backend
      ensures backend.Grown() && t in backend.sys.handlers && backend.sys.handlers[t].Ended?
      ensures r.Ok? ==>
        && Safekeeper.IsFirstHighest(replies, r.value)
        && exists a :: Delivered(backend.states, |old(backend.states)|, backend.sys, q, a, r.value)
      ensures r.Err? && q.timeline in backend.sys.ps.timelines ==> q.timeline in backend.sys.leaked
      // it succeeds whenever it can: if the ancestor is ingested in time
      ensures old(backend.Calm()) ==> Served(old(backend.sys), backend.sys, q, replies, r)
      ensures r == Err(TimedOut) ==> backend.sys.now > old(backend.sys.now) + 30_000
    {
      ghost var (states, s, calm) := (backend.states, backend.sys, backend.Calm());
      var a := FindAncestor(t, q);
      if a.Err? {
        if calm {
          ServedNone(states, s, backend.sys, q, replies, Err(a.error));
        }
        return Err(a.error);
      }
      ghost var (lo, mid) := (|backend.states|, backend.sys);
      r := CutBranch(t, q, a.value, replies);
      if calm {
        ServedByCut(states, s, mid, backend.sys, q, a.value, replies, r);
      }
      if r.Ok? {
        assert Delivered(backend.states, lo, backend.sys, q, a.value, r.value);
        assert Delivered(backend.states, |old(backend.states)|, backend.sys, q, a.value, r.value);
      }
    }

    /** With the ancestor known: its branch point, the timeline there, the rows. */
    method CutBranch(t: Tid, q: BranchPlan, a: Ancestor, replies: seq<Safekeeper.Reply>) returns (r: Result<string>)
      requires backend.Valid() && IsAt(backend.sys, t, AskCommit(q, a.tenant, a.from, a.timeline))
          && Chosen(backend.sys.hist, q, a)
      modifies backend
      ensures backend.Grown() && t in backend.sys.handlers && backend.sys.handlers[t].Ended?
      ensures r.Ok? ==>
          Safekeeper.IsFirstHighest(replies, r.value)
              && Delivered(backend.states, |old(backend.states)|, backend.sys, q, a, r.value)
      ensures r.Err? && q.timeline in backend.sys.ps.timelines ==> q.timeline in backend.sys.leaked
      ensures r == Err(TimedOut) ==> backend.sys.now > old(backend.sys.now) + 30_000
      ensures old(backend.Calm()) ==> ServedFrom(old(backend.sys), backend.sys, q, a, replies, r)
    {
      var point := WaitAncestorIngested(t, q, a, replies);
      if point.Err? {
        return point;
      }
      var made := MakeBranch(t, q, a, Lsn.Parse(point.value).value);
      r := if made.Ok? then point else Err(made.error);
    }

    /** The timeline, then the rows. */
    method MakeBranch(t: Tid, q: BranchPlan, a: Ancestor, at: nat) returns (r: Result<()>)
      requires backend.Valid() && IsAt(backend.sys, t, CutTimeline(q, a.tenant, a.from, a.timeline, at))
          && Chosen(backend.sys.hist, q, a)
      modifies backend
      ensures backend.Grown() && t in backend.sys.handlers && backend.sys.handlers[t].Ended?
      ensures r.Ok? ==>
        && Branched(backend.sys.db, q, a.from) && backend.sys.db.branches[a.from].timeline == a.timeline
        && WasCut(backend.states, |old(backend.states)|, q.timeline, a, at)
        && IfThere(backend.sys.ps, q.timeline, CutOf(a, at))
      ensures r.Err? && q.timeline in backend.sys.ps.timelines ==> q.timeline in backend.sys.leaked
      ensures r != Err(TimedOut)
      ensures old(backend.Calm()) ==>
        (r.Ok? <==> CanCut(old(backend.sys.ps), a) && RoomFor(old(backend.sys.db), q, a.from))
    {
      var out, met := backend.Call(t);
      if out != Fine || a.tenant !in met.ps.tenants || !Serves(met.ps, a.timeline, a.tenant) {
        return Err(Unavailable);
      }
      ghost var k := |backend.states| - 1;
      assert CutAt(backend.states[k].ps, q.timeline, a, at);
      r := SaveNewBranch(t, q, a, at);
      assert CutAt(backend.states[k].ps, q.timeline, a, at);
    }

    /** The rows, or the compensation. */
    method SaveNewBranch(t: Tid, q: BranchPlan, a: Ancestor, at: nat) returns (r: Result<()>)
      requires backend.Valid() && IsAt(backend.sys, t, SaveBranch(q, a.tenant, a.from, at))
          && Chosen(backend.sys.hist, q, a)
      modifies backend
      ensures backend.Grown() && t in backend.sys.handlers && backend.sys.handlers[t].Ended?
      ensures r.Ok? ==>
        && Branched(backend.sys.db, q, a.from) && backend.sys.db.branches[a.from].timeline == a.timeline
        && IfThere(backend.sys.ps, q.timeline, CutOf(a, at))
      ensures r.Err? && q.timeline in backend.sys.ps.timelines ==> q.timeline in backend.sys.leaked
      ensures r != Err(TimedOut)
      ensures old(backend.Calm()) ==> (r.Ok? <==> RoomFor(old(backend.sys.db), q, a.from))
    {
      var out, met := backend.Call(t);
      var saved := if out == Fine then BranchInsert(met.db, q, a.from, met.now) else Err(Unavailable);
      if saved.Err? {
        DropNewTimeline(t, q);
        return Err(if out == Fine then Constraint else Unavailable);
      }
      r := Ok(());
    }

    /** The compensation; its error is only logged. */
    method DropNewTimeline(t: Tid, q: BranchPlan)
      requires backend.Valid() && t in backend.sys.handlers && backend.sys.handlers[t].UndoTimeline?
          && backend.sys.handlers[t].q == q
      modifies backend
      ensures backend.Grown() && GivenUp(backend.sys, t, q.timeline)
    {
      var out, met := backend.Call(t);
    }

    /**
     * deleteBranch, without the compute. Success means that the branch belonged to the project
     * named and was not its default one, and that its row and its timeline are gone.
     */
    method DeleteBranch(t: Tid, path: Id, bid: Id) returns (r: Result<()>)
      requires backend.Valid() && t !in backend.sys.handlers
      modifies backend
      ensures backend.Grown() && t in backend.sys.handlers && backend.sys.handlers[t].Ended?
      ensures r.Ok? ==> BranchGone(backend.sys, path, bid)
      ensures old(backend.Calm()) ==> (r.Ok? <==> MayGo(old(backend.sys).db, path, bid))
    {
      ProjectsAreThere(backend.states, backend.sys);
      backend.Begin(Label.DeleteBranch(t, path, bid), t, FindBranch(path, bid));
      var b := LookUp(t, path, bid);
      if b.Err? {
        return Err(b.error);
      }
      r := DropBranch(t, bid, b.value);
    }

    /** The branch's row, which has to be of the project named and not its default one. */
    method LookUp(t: Tid, path: Id, bid: Id) returns (r: Result<Branch>)
      requires backend.Valid() && IsAt(backend.sys, t, FindBranch(path, bid))
      modifies backend
      ensures backend.Grown() && t in backend.sys.handlers
      ensures r.Ok? ==> r.value.project == path && backend.sys.handlers[t] == FindOwner(bid, r.value)
      ensures r.Err? ==> backend.sys.handlers[t].Ended?
      ensures backend.Rested() && (old(backend.Calm()) ==> (r.Ok? <==> MayGo(old(backend.sys).db, path, bid)))
    {
      var out, met := backend.Call(t);
      if out != Fine {
        return Err(Unavailable);
      }
      if bid !in met.db.branches || met.db.branches[bid].project != path {
        return Err(NotFound);
      }
      if met.db.branches[bid].isDefault {
        return Err(Refused);
      }
      r := Ok(met.db.branches[bid]);
    }

    /** With the branch as it was read: the project for its tenant, the timeline, the row. */
    method DropBranch(t: Tid, bid: Id, b: Branch) returns (r: Result<()>)
      requires backend.Valid() && t in backend.sys.handlers && backend.sys.handlers[t] == FindOwner(bid, b)
      modifies backend
      ensures backend.Grown() && t in backend.sys.handlers && backend.sys.handlers[t].Ended?
      ensures r.Ok? ==> BranchGone(backend.sys, b.project, bid)
      ensures old(backend.Calm()) ==> (r.Ok? <==> b.project in old(backend.sys).db.projects)
    {
      var out, met := backend.Call(t);
      if out != Fine || b.project !in met.db.projects {
        return Err(if out == Fine then NotFound else Unavailable);
      }
      r := DropStorage(t, bid, b);
    }

    /** The timeline, then the row. */
    method DropStorage(t: Tid, bid: Id, b: Branch) returns (r: Result<()>)
      requires backend.Valid() && t in backend.sys.handlers && backend.sys.handlers[t].DropTimeline?
      requires backend.sys.handlers[t].bid == bid && backend.sys.handlers[t].branch == b
      modifies backend
      ensures backend.Grown() && t in backend.sys.handlers && backend.sys.handlers[t].Ended?
      ensures r.Ok? ==> BranchGone(backend.sys, b.project, bid)
      ensures old(backend.Calm()) ==> r.Ok?
    {
      var out, met := backend.Call(t);
      if out != Fine {
        return Err(Unavailable);
      }
      r := DropBranchRow(t, bid, b);
    }

    method DropBranchRow(t: Tid, bid: Id, b: Branch) returns (r: Result<()>)
      requires backend.Valid() && t in backend.sys.handlers && backend.sys.handlers[t] == DropRow(bid, b)
      modifies backend
      ensures backend.Grown() && t in backend.sys.handlers && backend.sys.handlers[t].Ended?
      ensures r.Ok? ==> BranchGone(backend.sys, b.project, bid)
      ensures old(backend.Calm()) ==> r.Ok?
    {
      var out, met := backend.Call(t);
      r := if out == Fine then Ok(()) else Err(Unavailable);
    }

    /** deleteProject, without the computes. Success means that nothing of the project is left. */
    method DeleteProject(t: Tid, pid: Id) returns (r: Result<()>)
      requires backend.Valid() && t !in backend.sys.handlers
      modifies backend
      ensures backend.Grown() && t in backend.sys.handlers && backend.sys.handlers[t].Ended?
      ensures r.Ok? ==> pid in backend.sys.deleted && Erased(backend.sys, pid)
      ensures old(backend.Calm()) ==> (r.Ok? <==> pid in old(backend.sys).db.projects)
    {
      backend.Begin(Label.DeleteProject(t, pid), t, FindDoomed(pid));
      var out, met := backend.Call(t);
      if out != Fine || pid !in met.db.projects {
        return Err(if out == Fine then NotFound else Unavailable);
      }
      r := DropProject(t, pid);
    }

    /** The tenant with its timelines, then the row with its branches. */
    method DropProject(t: Tid, pid: Id) returns (r: Result<()>)
      requires backend.Valid() && t in backend.sys.handlers && backend.sys.handlers[t].DropTenant?
          && backend.sys.handlers[t].pid == pid
      modifies backend
      ensures backend.Grown() && t in backend.sys.handlers && backend.sys.handlers[t].Ended?
      ensures r.Ok? ==> pid in backend.sys.deleted && Erased(backend.sys, pid)
      ensures old(backend.Calm()) ==> r.Ok?
    {
      var out, met := backend.Call(t);
      if out != Fine {
        return Err(Unavailable);
      }
      r := DropProjectRow(t, pid);
    }

    method DropProjectRow(t: Tid, pid: Id) returns (r: Result<()>)
      requires backend.Valid() && t in backend.sys.handlers && backend.sys.handlers[t].DropProjectRow?
          && backend.sys.handlers[t].pid == pid
      modifies backend
      ensures backend.Grown() && t in backend.sys.handlers && backend.sys.handlers[t].Ended?
      ensures r.Ok? ==> pid in backend.sys.deleted && Erased(backend.sys, pid)
      ensures old(backend.Calm()) ==> r.Ok?
    {
      var out := backend.Await(t, 0);
      backend.Step(Act(t, out, ""));
      DeletedInGoodRun(backend.states, backend.sys);
      r := if out == Fine then Ok(()) else Err(Unavailable);
    }
  }

  lemma DeletedInGoodRun(states: seq<Sys>, s: Sys)
    requires AllGood(states) && states != [] && s == states[|states| - 1]
    ensures forall p :: p in s.deleted ==> Erased(s, p)
  {
    assert Good(states[|states| - 1]);
  }
}
