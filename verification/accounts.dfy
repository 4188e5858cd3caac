/**
 * The books of the pageserver against the catalog, both ways and exactly. Storage without a
 * row and without a handler that answers for it is orphaned; a row without its storage is
 * hollow. For every step it is said precisely when it makes one or the other.
 */
module Accounts {
  import opened Base
  import opened Database
  import opened Catalog
  import opened Provisioning

  // ---- storage without a row

  ghost predicate TenantRow(db: Db, x: Id) { exists p :: p in db.projects && db.projects[p].tenant == x }

  ghost predicate TimelineRow(db: Db, x: Id) { exists b :: b in db.branches && db.branches[b].timeline == x }

  ghost predicate TenantKept(s: Sys, x: Id) { exists t :: t in s.handlers && x in HeldTenants(s.handlers[t]) }

  ghost predicate TimelineKept(s: Sys, x: Id) { exists t :: t in s.handlers && x in HeldTimelines(s.handlers[t]) }

  /** On the pageserver, but no row names it and no running handler will name or delete it. */
  ghost predicate OrphanTenant(s: Sys, x: Id) { x in s.ps.tenants && !TenantRow(s.db, x) && !TenantKept(s, x) }

  ghost predicate OrphanTimeline(s: Sys, x: Id) { x in s.ps.timelines && !TimelineRow(s.db, x) && !TimelineKept(s, x) }

  /**
   * The steps that orphan a tenant: the loss of the handler that answers for it, an attach
   * whose reply is lost, any failure of the first timeline, a failed compensation.
   */
  ghost predicate OrphansTenant(s: Sys, l: Label, x: Id) {
    match l
    case Crash(t) => t in s.handlers && x in HeldTenants(s.handlers[t]) && x in s.ps.tenants && !TenantRow(s.db, x)
    case Act(t, out, _) =>
      t in s.handlers &&
      (match s.handlers[t]
       case AttachTenant(n) => x == n.project.tenant && out == Lost && x !in s.ps.tenants
       case MakeTimeline(n) => x == n.project.tenant && out != Fine
       case UndoTenant(n) => x == n.project.tenant && !TookEffect(out) && x in s.ps.tenants && !TenantRow(s.db, x)
       case _ => false)
    case _ => false
  }

  /** The steps that orphan a timeline: its handler is lost, its creation loses the reply, a compensation fails. */
  ghost predicate OrphansTimeline(s: Sys, l: Label, x: Id) {
    match l
    case Crash(t) => t in s.handlers && x in HeldTimelines(s.handlers[t]) && x in s.ps.timelines
        && !TimelineRow(s.db, x)
    case Act(t, out, _) =>
      t in s.handlers &&
      (match s.handlers[t]
       case MakeTimeline(n) => x == n.timeline && out == Lost && x !in s.ps.timelines
       case UndoTenant(n) => x == n.timeline && !TookEffect(out) && x in s.ps.timelines && !TimelineRow(s.db, x)
       case CutTimeline(q, tenant, _, ancestor, _) => x == q.timeline && out == Lost && x !in s.ps.timelines
           && Serves(s.ps, ancestor, tenant)
       case UndoTimeline(q, _) => x == q.timeline && !TookEffect(out) && x in s.ps.timelines && !TimelineRow(s.db, x)
       case _ => false)
    case _ => false
  }

  /** Rows that name storage which stays, stay. */
  lemma RowsStay(s: Sys, t: Tid, out: Reply, pick: Id, x: Id)
    requires Inv(s) && Enabled(s, Act(t, out, pick))
    ensures var m := Move(s, s.handlers[t], out, pick);
      && (TenantRow(s.db, x) && x in s.ps.tenants && x in m.ps.tenants ==> TenantRow(m.db, x))
      && (TimelineRow(s.db, x) && x in s.ps.timelines && x in m.ps.timelines ==> TimelineRow(m.db, x))
  {
    RowsOutliveStorage(s, s.handlers[t], out, pick);
  }

  /** A move makes rows only of its own plan. */
  lemma RowsMade(s: Sys, t: Tid, out: Reply, pick: Id, x: Id)
    requires Enabled(s, Act(t, out, pick))
    ensures var (h, d) := (s.handlers[t], Acted(s, t, out, pick).db);
      && (TenantRow(d, x) && !TenantRow(s.db, x) ==> h.SaveProject? && x == h.n.project.tenant)
      && (TimelineRow(d, x) && !TimelineRow(s.db, x) ==>
            (h.SaveProject? && x == h.n.timeline) || (h.SaveBranch? && x == h.q.timeline))
  {
    var (h, d) := (s.handlers[t], Acted(s, t, out, pick).db);
    ActedTree(s, t, out, pick);
    if d != s.db {
      if h.SaveProject? {
        ProjectRowsAre(s.db, h.n, s.now, x);
      } else if h.SaveBranch? {
        BranchRowsAre(s.db, h.q, h.from, s.now, x);
      } else {
        RemovalsAreFewer(s.db, if h.DropRow? then h.bid else h.pid);
        FewerRowsName(d, s.db, x);
      }
    }
  }

  lemma ProjectRowsAre(db: Db, n: ProjectPlan, now: Time, x: Id)
    requires ProjectInsert(db, n, now).Ok?
    ensures var d := ProjectInsert(db, n, now).value;
      && (TenantRow(d, x) ==> TenantRow(db, x) || x == n.project.tenant)
      && (TimelineRow(d, x) ==> TimelineRow(db, x) || x == n.timeline)
  {
  }

  lemma BranchRowsAre(db: Db, q: BranchPlan, from: Id, now: Time, x: Id)
    requires BranchInsert(db, q, from, now).Ok?
    ensures var d := BranchInsert(db, q, from, now).value;
      && (TenantRow(d, x) ==> TenantRow(db, x))
      && (TimelineRow(d, x) ==> TimelineRow(db, x) || x == q.timeline)
  {
  }

  lemma FewerRowsName(d: Db, db: Db, x: Id)
    requires Fewer(d, db)
    ensures (TenantRow(d, x) ==> TenantRow(db, x)) && (TimelineRow(d, x) ==> TimelineRow(db, x))
  {
  }

  /** Nobody else answers for what a handler answers for or plans. */
  lemma PlansAreApart(s: Sys, t: Tid, x: Id)
    requires IdsOk(s) && t in s.handlers && x in PlanIds(s.handlers[t])
    ensures forall u :: u in s.handlers && u != t ==>
        x !in HeldTenants(s.handlers[u]) && x !in HeldTimelines(s.handlers[u])
  {
    forall u | u in s.handlers && u != t
      ensures x !in HeldTenants(s.handlers[u]) && x !in HeldTimelines(s.handlers[u]) {
      assert PlanIds(s.handlers[u]) !! PlanIds(s.handlers[t]);
    }
  }

  /** Storage under the ids of an unfinished creation has no row. */
  lemma PlansHaveNoRows(s: Sys, t: Tid, x: Id)
    requires IdsOk(s) && Recorded(s.db, s.hist) && t in s.handlers && Unsaved(s.handlers[t])
        && x in PlanIds(s.handlers[t])
    ensures !TenantRow(s.db, x) && !TimelineRow(s.db, x)
  {
    assert !Known(s.hist, x);
  }

  /** How one move of `h` changes who answers for a tenant. */
  ghost predicate TenantMove(ps: Pageserver, db: Db, h: Handler, out: Reply, m: Effect, x: Id) {
    && (x in HeldTenants(m.next) ==> (h.AttachTenant? && out == Fine && x == h.n.project.tenant) || x in HeldTenants(h))
    && (x in m.ps.tenants && x !in ps.tenants ==> h.AttachTenant? && TookEffect(out) && x == h.n.project.tenant)
    && (h.AttachTenant? && TookEffect(out) ==> h.n.project.tenant in m.ps.tenants && m.db == db)
    && (h.AttachTenant? && out == Lost ==> m.next.Ended?)
    && (h.AttachTenant? && out == Fine ==> h.n.project.tenant in HeldTenants(m.next))
    && (x in HeldTenants(h) && x in m.ps.tenants ==>
          x in HeldTenants(m.next) || GivesUpTenant(h, out) || (h.SaveProject? && TenantRow(m.db, x)))
    && (GivesUpTenant(h, out) ==> m.ps.tenants == ps.tenants && m.next.Ended? && m.db == db)
  }

  predicate GivesUpTenant(h: Handler, out: Reply) {
    (h.MakeTimeline? && out != Fine) || (h.UndoTenant? && !TookEffect(out))
  }

  lemma HandsOverTenant(s: Sys, h: Handler, out: Reply, pick: Id, x: Id)
    requires !h.Ended? && Prepared(s.ps, h)
    ensures TenantMove(s.ps, s.db, h, out, Move(s, h, out, pick), x)
  {
    if Creates(h) {
      CreatorHandsOverTenant(s.ps, s.db, s.now, h, out, x);
    } else if Branches(h) {
      BrancherHasNoTenant(s.ps, s.db, s.now, h, out, pick, x);
    }
  }

  lemma CreatorHandsOverTenant(ps: Pageserver, db: Db, now: Time, h: Handler, out: Reply, x: Id)
    requires Creates(h) && Prepared(ps, h)
    ensures TenantMove(ps, db, h, out, CreateMove(h, db, ps, now, out), x)
  {
    var m := CreateMove(h, db, ps, now, out);
    assert h.SaveProject? && m.next.Ended? ==>
        h.n.pid in m.db.projects && m.db.projects[h.n.pid].tenant == h.n.project.tenant;
  }

  lemma BrancherHasNoTenant(ps: Pageserver, db: Db, now: Time, h: Handler, out: Reply, pick: Id, x: Id)
    requires Branches(h)
    ensures TenantMove(ps, db, h, out, BranchMove(h, db, ps, now, out, pick), x)
  {
  }

  /** How one move of `h` changes who answers for a timeline. */
  ghost predicate TimelineMove(ps: Pageserver, db: Db, h: Handler, out: Reply, m: Effect, x: Id) {
      && (x in HeldTimelines(m.next) ==>
            x in HeldTimelines(h) || (MakesTimeline(ps, h) && out == Fine && x == OwnTimeline(h)))
      && (x in m.ps.timelines && x !in ps.timelines ==> MakesTimeline(ps, h) && TookEffect(out) && x == OwnTimeline(h))
      && (MakesTimeline(ps, h) && TookEffect(out) ==> OwnTimeline(h) in m.ps.timelines && m.db == db)
      && (MakesTimeline(ps, h) && out == Fine ==> OwnTimeline(h) in HeldTimelines(m.next))
      && (MakesTimeline(ps, h) && out == Lost ==> m.next.Ended?)
      && (x in HeldTimelines(h) && x in m.ps.timelines ==>
            x in HeldTimelines(m.next) || FailsToUndo(h, out)
                || ((h.SaveProject? || h.SaveBranch?) && TimelineRow(m.db, x)))
      && (FailsToUndo(h, out) ==> m.ps.timelines == ps.timelines && m.next.Ended? && m.db == db)
  }

  lemma HandsOverTimeline(s: Sys, h: Handler, out: Reply, pick: Id, x: Id)
    requires !h.Ended? && RefsOk(s.hist, s.ps, h)
    ensures TimelineMove(s.ps, s.db, h, out, Move(s, h, out, pick), x)
  {
    if Creates(h) {
      CreatorHandsOver(s.ps, s.db, s.now, h, out, x);
    } else if Branches(h) {
      BrancherHandsOver(s.ps, s.db, s.now, h, out, pick, x);
    }
  }

  lemma CreatorHandsOver(ps: Pageserver, db: Db, now: Time, h: Handler, out: Reply, x: Id)
    requires Creates(h) && (h.UndoTenant? ==> OnTenant(ps, h.n.timeline, h.n.project.tenant))
    ensures TimelineMove(ps, db, h, out, CreateMove(h, db, ps, now, out), x)
  {
    var m := CreateMove(h, db, ps, now, out);
    assert h.SaveProject? && m.next.Ended? ==>
        h.n.bid in m.db.branches && m.db.branches[h.n.bid].timeline == h.n.timeline;
  }

  lemma BrancherHandsOver(ps: Pageserver, db: Db, now: Time, h: Handler, out: Reply, pick: Id, x: Id)
    requires Branches(h)
    ensures TimelineMove(ps, db, h, out, BranchMove(h, db, ps, now, out, pick), x)
  {
    var m := BranchMove(h, db, ps, now, out, pick);
    assert h.SaveBranch? && m.next.Ended? ==>
        h.q.bid in m.db.branches && m.db.branches[h.q.bid].timeline == h.q.timeline;
  }

  /** The next call creates the handler's own timeline, if it takes effect. */
  predicate MakesTimeline(ps: Pageserver, h: Handler) {
    (h.MakeTimeline? && h.n.project.tenant in ps.tenants)
        || (h.CutTimeline? && h.tenant in ps.tenants && Serves(ps, h.ancestor, h.tenant))
  }

  function OwnTimeline(h: Handler): Id
    requires h.MakeTimeline? || h.CutTimeline?
  {
    if h.MakeTimeline? then h.n.timeline else h.q.timeline
  }

  predicate FailsToUndo(h: Handler, out: Reply) { (h.UndoTenant? || h.UndoTimeline?) && !TookEffect(out) }

  // ---- exactly when storage is orphaned

  /**
   * For every step of every reachable state: a tenant becomes orphaned by it if and only if
   * it is one of the steps above. With rows and other handlers around: a lost reply to the
   * insert followed by a failed compensation leaves a row, so that is not among them.
   */
  lemma TenantsOrphanedExactly(s: Sys, l: Label, x: Id)
    requires Good(s) && Enabled(s, l)
    ensures OrphanTenant(Apply(s, l), x) && !OrphanTenant(s, x) <==> OrphansTenant(s, l, x)
  {
    if l.Act? {
      ActOrphansTenant(s, l.t, l.out, l.pick, x);
    } else if l.Crash? {
      CrashOrphans(s, l.t, x);
    } else {
      OthersOrphanNothing(s, l, x);
    }
  }

  lemma TimelinesOrphanedExactly(s: Sys, l: Label, x: Id)
    requires Good(s) && Enabled(s, l)
    ensures OrphanTimeline(Apply(s, l), x) && !OrphanTimeline(s, x) <==> OrphansTimeline(s, l, x)
  {
    if l.Act? {
      ActOrphansTimeline(s, l.t, l.out, l.pick, x);
    } else if l.Crash? {
      CrashOrphans(s, l.t, x);
    } else {
      OthersOrphanNothing(s, l, x);
    }
  }

  lemma CrashOrphans(s: Sys, t: Tid, x: Id)
    requires IdsOk(s) && t in s.handlers
    ensures OrphanTenant(Apply(s, Crash(t)), x) && !OrphanTenant(s, x) <==> OrphansTenant(s, Crash(t), x)
    ensures OrphanTimeline(Apply(s, Crash(t)), x) && !OrphanTimeline(s, x) <==> OrphansTimeline(s, Crash(t), x)
  {
    var s' := Apply(s, Crash(t));
    if x in HeldTenants(s.handlers[t]) || x in HeldTimelines(s.handlers[t]) {
      PlansAreApart(s, t, x);
    } else {
      assert TenantKept(s', x) <==> TenantKept(s, x) by { KeptByOthers(s, s', t, x); }
      assert TimelineKept(s', x) <==> TimelineKept(s, x) by { KeptByOthers(s, s', t, x); }
    }
  }

  predicate KeepsTenant(s: Sys, t: Tid, x: Id) { t in s.handlers && x in HeldTenants(s.handlers[t]) }

  predicate KeepsTimeline(s: Sys, t: Tid, x: Id) { t in s.handlers && x in HeldTimelines(s.handlers[t]) }

  /** If `t` does not answer for `x` before or after, nothing changes as to who does. */
  lemma KeptByOthers(s: Sys, s': Sys, t: Tid, x: Id)
    requires forall u :: u != t ==>
        (u in s.handlers <==> u in s'.handlers) && (u in s.handlers ==> s'.handlers[u] == s.handlers[u])
    ensures !KeepsTenant(s, t, x) && !KeepsTenant(s', t, x) ==> (TenantKept(s', x) <==> TenantKept(s, x))
    ensures !KeepsTimeline(s, t, x) && !KeepsTimeline(s', t, x) ==> (TimelineKept(s', x) <==> TimelineKept(s, x))
  {
  }

  lemma OthersOrphanNothing(s: Sys, l: Label, x: Id)
    requires Enabled(s, l) && !l.Act? && !l.Crash?
    ensures OrphanTenant(Apply(s, l), x) ==> OrphanTenant(s, x)
    ensures OrphanTimeline(Apply(s, l), x) ==> OrphanTimeline(s, x)
  {
    var s' := Apply(s, l);
    if l.Tick? || l.Ingest? {
      assert s'.handlers == s.handlers;
    } else {
      KeptByOthers(s, s', l.t, x);
    }
  }

  lemma ActOrphansTenant(s: Sys, t: Tid, out: Reply, pick: Id, x: Id)
    requires Inv(s) && AllPrepared(s) && Enabled(s, Act(t, out, pick))
    ensures OrphanTenant(Acted(s, t, out, pick), x) && !OrphanTenant(s, x) <==> OrphansTenant(s, Act(t, out, pick), x)
  {
    var (s', h) := (Acted(s, t, out, pick), s.handlers[t]);
    var m := Move(s, h, out, pick);
    assert Prepared(s.ps, h);
    HandsOverTenant(s, h, out, pick, x);
    RowsStay(s, t, out, pick, x);
    RowsMade(s, t, out, pick, x);
    if x in PlanIds(h) {
      PlansAreApart(s, t, x);
      if Unsaved(h) {
        PlansHaveNoRows(s, t, x);
      }
    }
    assert s'.handlers[t] == m.next && s'.db == m.db && s'.ps == m.ps;
    OrphaningTenant(s, s', t, out, pick, x, m);
    TenantOrphaned(s, s', t, out, pick, x, m);
  }

  /** The facts about a step from which the two directions follow. */
  ghost predicate TenantStep(s: Sys, s': Sys, t: Tid, out: Reply, x: Id, m: Effect) {
    && t in s.handlers && !s.handlers[t].Ended? && s'.handlers == s.handlers[t := m.next] && s'.db == m.db
    && s'.ps == m.ps
    && Prepared(s.ps, s.handlers[t]) && TenantMove(s.ps, s.db, s.handlers[t], out, m, x)
    && (TenantRow(s.db, x) && x in s.ps.tenants && x in m.ps.tenants ==> TenantRow(m.db, x))
    && (TenantRow(m.db, x) && !TenantRow(s.db, x) ==> s.handlers[t].SaveProject? && x == s.handlers[t].n.project.tenant)
    && (x in PlanIds(s.handlers[t]) ==> forall u :: u in s.handlers && u != t ==> x !in HeldTenants(s.handlers[u]))
    && (x in PlanIds(s.handlers[t]) && Unsaved(s.handlers[t]) ==> !TenantRow(s.db, x))
  }

  lemma OrphaningTenant(s: Sys, s': Sys, t: Tid, out: Reply, pick: Id, x: Id, m: Effect)
    requires TenantStep(s, s', t, out, x, m)
    ensures OrphanTenant(s', x) && !OrphanTenant(s, x) ==> OrphansTenant(s, Act(t, out, pick), x)
  {
    KeptByOthers(s, s', t, x);
    assert t in s'.handlers && s'.handlers[t] == m.next;
    assert x in HeldTenants(m.next) ==> TenantKept(s', x);
  }

  lemma TenantOrphaned(s: Sys, s': Sys, t: Tid, out: Reply, pick: Id, x: Id, m: Effect)
    requires TenantStep(s, s', t, out, x, m)
    ensures OrphansTenant(s, Act(t, out, pick), x) ==> OrphanTenant(s', x) && !OrphanTenant(s, x)
  {
    if OrphansTenant(s, Act(t, out, pick), x) {
      assert x in PlanIds(s.handlers[t]) && m.next.Ended?;
      assert x in HeldTenants(s.handlers[t]) ==> TenantKept(s, x);
    }
  }

  lemma ActOrphansTimeline(s: Sys, t: Tid, out: Reply, pick: Id, x: Id)
    requires Inv(s) && AllPrepared(s) && Enabled(s, Act(t, out, pick))
    ensures OrphanTimeline(Acted(s, t, out, pick), x) && !OrphanTimeline(s, x) <==>
        OrphansTimeline(s, Act(t, out, pick), x)
  {
    var (s', h) := (Acted(s, t, out, pick), s.handlers[t]);
    var m := Move(s, h, out, pick);
    assert RefsOk(s.hist, s.ps, h) && Prepared(s.ps, h);
    HandsOverTimeline(s, h, out, pick, x);
    RowsStay(s, t, out, pick, x);
    RowsMade(s, t, out, pick, x);
    if x in PlanIds(h) {
      PlansAreApart(s, t, x);
      if Unsaved(h) {
        PlansHaveNoRows(s, t, x);
      }
    }
    assert t in s'.handlers && s'.handlers[t] == m.next && s'.db == m.db && s'.ps == m.ps;
    OrphaningTimeline(s, s', t, out, pick, x, m);
    TimelineOrphaned(s, s', t, out, pick, x, m);
  }

  /** The facts about a step from which the two directions follow. */
  ghost predicate TimelineStep(s: Sys, s': Sys, t: Tid, out: Reply, x: Id, m: Effect) {
    && t in s.handlers && !s.handlers[t].Ended? && s'.handlers == s.handlers[t := m.next] && s'.db == m.db
    && s'.ps == m.ps
    && Prepared(s.ps, s.handlers[t]) && (forall y :: y in s.ps.timelines ==> s.ps.timelines[y].tenant in s.ps.tenants)
    && TimelineMove(s.ps, s.db, s.handlers[t], out, m, x)
    && (TimelineRow(s.db, x) && x in s.ps.timelines && x in m.ps.timelines ==> TimelineRow(m.db, x))
    && (TimelineRow(m.db, x) && !TimelineRow(s.db, x) ==>
          (s.handlers[t].SaveProject? && x == s.handlers[t].n.timeline)
              || (s.handlers[t].SaveBranch? && x == s.handlers[t].q.timeline))
    && (x in PlanIds(s.handlers[t]) ==> forall u :: u in s.handlers && u != t ==> x !in HeldTimelines(s.handlers[u]))
    && (x in PlanIds(s.handlers[t]) && Unsaved(s.handlers[t]) ==> !TimelineRow(s.db, x))
  }

  lemma OrphaningTimeline(s: Sys, s': Sys, t: Tid, out: Reply, pick: Id, x: Id, m: Effect)
    requires TimelineStep(s, s', t, out, x, m)
    ensures OrphanTimeline(s', x) && !OrphanTimeline(s, x) ==> OrphansTimeline(s, Act(t, out, pick), x)
  {
    KeptByOthers(s, s', t, x);
    assert t in s'.handlers && s'.handlers[t] == m.next;
    assert x in HeldTimelines(m.next) ==> TimelineKept(s', x);
  }

  lemma TimelineOrphaned(s: Sys, s': Sys, t: Tid, out: Reply, pick: Id, x: Id, m: Effect)
    requires TimelineStep(s, s', t, out, x, m)
    ensures OrphansTimeline(s, Act(t, out, pick), x) ==> OrphanTimeline(s', x) && !OrphanTimeline(s, x)
  {
    if OrphansTimeline(s, Act(t, out, pick), x) {
      assert x in PlanIds(s.handlers[t]) && m.next.Ended?;
      assert x in HeldTimelines(s.handlers[t]) ==> TimelineKept(s, x);
    }
  }

  // ---- rows without storage

  ghost predicate HollowProject(s: Sys, p: Id) { p in s.db.projects && s.db.projects[p].tenant !in s.ps.tenants }

  ghost predicate HollowBranch(s: Sys, b: Id) { b in s.db.branches && s.db.branches[b].timeline !in s.ps.timelines }

  /** The tenant that the step deletes, if it deletes one. */
  function DeletedTenant(s: Sys, l: Label): Option<Id> {
    if l.Act? && l.t in s.handlers && TookEffect(l.out) then
      match s.handlers[l.t]
      case UndoTenant(n) => Some(n.project.tenant)
      case DropTenant(_, tenant) => Some(tenant)
      case _ => None
    else None
  }

  function DeletedTimeline(s: Sys, l: Label): Option<Id> {
    if l.Act? && l.t in s.handlers && TookEffect(l.out) then
      match s.handlers[l.t]
      case UndoTimeline(q, _) => Some(q.timeline)
      case DropTimeline(_, b, _) => Some(b.timeline)
      case _ => None
    else None
  }

  /**
   * A project's row loses its tenant to deleteProject, before its own deletion, or to a
   * compensation after an insert whose reply was lost.
   */
  ghost predicate HollowsProject(s: Sys, l: Label, p: Id) {
    p in s.db.projects && s.db.projects[p].tenant in s.ps.tenants
        && DeletedTenant(s, l) == Some(s.db.projects[p].tenant)
  }

  /**
   * A branch's row loses its timeline with its tenant, to deleteBranch or to a compensation;
   * or it is inserted after deleteProject has taken the timeline.
   */
  ghost predicate HollowsBranch(s: Sys, l: Label, b: Id) {
    || (b in s.db.branches && s.db.branches[b].timeline in s.ps.timelines
        && (DeletedTimeline(s, l) == Some(s.db.branches[b].timeline)
            || DeletedTenant(s, l) == Some(s.ps.timelines[s.db.branches[b].timeline].tenant)))
    || (l.Act? && l.t in s.handlers && TookEffect(l.out) && s.handlers[l.t].SaveBranch? && b == s.handlers[l.t].q.bid
        && BranchInsert(s.db, s.handlers[l.t].q, s.handlers[l.t].from, s.now).Ok?
        && s.handlers[l.t].q.timeline !in s.ps.timelines)
  }

  /** For every step of every reachable state: when exactly it takes the storage from a row. */
  lemma ProjectsHollowedExactly(s: Sys, l: Label, p: Id)
    requires Good(s) && Enabled(s, l)
    ensures HollowProject(Apply(s, l), p) && !HollowProject(s, p) <==> HollowsProject(s, l, p)
  {
    if l.Act? {
      PreparedInGood(s, l.t);
      ActHollowsProject(s, l.t, l.out, l.pick, p);
    } else {
      OthersHollowNothing(s, l, p);
    }
  }

  lemma PreparedInGood(s: Sys, t: Tid)
    requires Good(s) && t in s.handlers
    ensures Prepared(s.ps, s.handlers[t])
  {
  }

  lemma OthersHollowNothing(s: Sys, l: Label, x: Id)
    requires Enabled(s, l) && !l.Act?
    ensures HollowProject(Apply(s, l), x) <==> HollowProject(s, x)
    ensures HollowBranch(Apply(s, l), x) <==> HollowBranch(s, x)
    ensures !HollowsProject(s, l, x) && !HollowsBranch(s, l, x)
  {
    assert Apply(s, l).db == s.db && Apply(s, l).ps.tenants == s.ps.tenants
        && Apply(s, l).ps.timelines == s.ps.timelines;
  }

  lemma ActHollowsProject(s: Sys, t: Tid, out: Reply, pick: Id, p: Id)
    requires Enabled(s, Act(t, out, pick)) && Prepared(s.ps, s.handlers[t])
    ensures HollowProject(Acted(s, t, out, pick), p) && !HollowProject(s, p) <==>
        HollowsProject(s, Act(t, out, pick), p)
  {
    ActedTree(s, t, out, pick);
    TenantsAfter(s, s.handlers[t], out, pick);
  }

  lemma TenantsAfter(s: Sys, h: Handler, out: Reply, pick: Id)
    requires !h.Ended?
    ensures var ps' := Move(s, h, out, pick).ps;
      ps'.tenants == if (h.UndoTenant? || h.DropTenant?)
          && TookEffect(out) then s.ps.tenants - {if h.UndoTenant? then h.n.project.tenant else h.tenant}
                     else if h.AttachTenant? && TookEffect(out) then s.ps.tenants + {h.n.project.tenant}
                     else s.ps.tenants
  {
  }

  lemma BranchesHollowedExactly(s: Sys, l: Label, b: Id)
    requires Good(s) && Enabled(s, l)
    ensures HollowBranch(Apply(s, l), b) && !HollowBranch(s, b) <==> HollowsBranch(s, l, b)
  {
    if l.Act? {
      PreparedInGood(s, l.t);
      ActHollowsBranch(s, l.t, l.out, l.pick, b);
    } else {
      OthersHollowNothing(s, l, b);
    }
  }

  lemma ActHollowsBranch(s: Sys, t: Tid, out: Reply, pick: Id, b: Id)
    requires Enabled(s, Act(t, out, pick)) && Prepared(s.ps, s.handlers[t])
    ensures HollowBranch(Acted(s, t, out, pick), b) && !HollowBranch(s, b) <==> HollowsBranch(s, Act(t, out, pick), b)
  {
    if b in s.db.branches {
      ActHollowsOldBranch(s, t, out, pick, b);
    } else {
      ActHollowsNewBranch(s, t, out, pick, b);
    }
  }

  lemma ActHollowsOldBranch(s: Sys, t: Tid, out: Reply, pick: Id, b: Id)
    requires Enabled(s, Act(t, out, pick)) && Prepared(s.ps, s.handlers[t]) && b in s.db.branches
    ensures HollowBranch(Acted(s, t, out, pick), b) && !HollowBranch(s, b) <==> HollowsBranch(s, Act(t, out, pick), b)
  {
    var (h, x) := (s.handlers[t], s.db.branches[b].timeline);
    TimelineAfter(s, h, out, pick, x);
    MoveDb(s, h, out, pick);
    OldBranchHollowed(s, Move(s, h, out, pick), t, out, pick, b);
  }

  lemma OldBranchHollowed(s: Sys, m: Effect, t: Tid, out: Reply, pick: Id, b: Id)
    requires t in s.handlers && b in s.db.branches && Prepared(s.ps, s.handlers[t])
    requires var (h, x) := (s.handlers[t], s.db.branches[b].timeline);
      x in m.ps.timelines <==>
        || (x in s.ps.timelines && !(TookEffect(out) && Deletes(s.ps, h, x)))
        || (MakesTimeline(s.ps, h) && TookEffect(out) && x == OwnTimeline(h))
    requires b in m.db.branches ==> m.db.branches[b].timeline == s.db.branches[b].timeline
    requires b !in m.db.branches ==> s.handlers[t].DropRow? || s.handlers[t].DropProjectRow?
    ensures (b in m.db.branches && m.db.branches[b].timeline !in m.ps.timelines) && !HollowBranch(s, b)
       <==> HollowsBranch(s, Act(t, out, pick), b)
  {
  }

  lemma ActHollowsNewBranch(s: Sys, t: Tid, out: Reply, pick: Id, b: Id)
    requires Enabled(s, Act(t, out, pick)) && Prepared(s.ps, s.handlers[t]) && b !in s.db.branches
    ensures HollowBranch(Acted(s, t, out, pick), b) <==> HollowsBranch(s, Act(t, out, pick), b)
  {
    ActedTree(s, t, out, pick);
    if b in Acted(s, t, out, pick).db.branches {
      NewBranch(s, t, out, pick, b);
    }
  }

  /** Which timelines a move leaves. */
  lemma TimelineAfter(s: Sys, h: Handler, out: Reply, pick: Id, x: Id)
    requires !h.Ended?
    ensures x in Move(s, h, out, pick).ps.timelines <==>
      || (x in s.ps.timelines && !(TookEffect(out) && Deletes(s.ps, h, x)))
      || (MakesTimeline(s.ps, h) && TookEffect(out) && x == OwnTimeline(h))
  {
  }

  predicate Deletes(ps: Pageserver, h: Handler, x: Id)
    requires x in ps.timelines
  {
    match h
    case UndoTenant(n) => ps.timelines[x].tenant == n.project.tenant
    case DropTenant(_, tenant) => ps.timelines[x].tenant == tenant
    case UndoTimeline(q, _) => x == q.timeline
    case DropTimeline(_, b, _) => x == b.timeline
    case _ => false
  }

  /** A row that is new after a step was inserted by it. */
  lemma NewBranch(s: Sys, t: Tid, out: Reply, pick: Id, b: Id)
    requires Enabled(s, Act(t, out, pick)) && Prepared(s.ps, s.handlers[t])
    requires b !in s.db.branches && b in Acted(s, t, out, pick).db.branches
    ensures var (h, s') := (s.handlers[t], Acted(s, t, out, pick));
      && TookEffect(out) && s'.ps == s.ps
      && ((h.SaveProject? && b == h.n.bid && s'.db.branches[b].timeline == h.n.timeline
            && h.n.timeline in s.ps.timelines)
          || (h.SaveBranch? && b == h.q.bid && s'.db.branches[b].timeline == h.q.timeline
                && BranchInsert(s.db, h.q, h.from, s.now).Ok?))
  {
    ActedTree(s, t, out, pick);
  }

  // ---- whole runs

  /** Whatever is orphaned at the end of a run was orphaned by one of its steps, or from the start. */
  lemma {:induction false} OrphansHaveCauses(states: seq<Sys>, labels: seq<Label>, x: Id)
    requires IsTrace(states, labels) && Good(states[0])
    ensures OrphanTenant(states[|labels|], x) && !OrphanTenant(states[0], x) ==>
        exists i | 0 <= i < |labels| :: OrphansTenant(states[i], labels[i], x)
    ensures OrphanTimeline(states[|labels|], x) && !OrphanTimeline(states[0], x) ==>
        exists i | 0 <= i < |labels| :: OrphansTimeline(states[i], labels[i], x)
  {
    for n := 0 to |labels|
      invariant Good(states[n])
      invariant OrphanTenant(states[n], x) && !OrphanTenant(states[0], x) ==>
          exists i | 0 <= i < n :: OrphansTenant(states[i], labels[i], x)
      invariant OrphanTimeline(states[n], x) && !OrphanTimeline(states[0], x) ==>
          exists i | 0 <= i < n :: OrphansTimeline(states[i], labels[i], x)
    {
      assert states[n + 1] == Apply(states[n], labels[n]);
      StepKeepsGood(states[n], labels[n]);
      TenantsOrphanedExactly(states[n], labels[n], x);
      TimelinesOrphanedExactly(states[n], labels[n], x);
    }
  }

  ghost predicate OrphansNothing(s: Sys, l: Label) { forall x :: !OrphansTenant(s, l, x) && !OrphansTimeline(s, l, x) }

  ghost predicate AtRest(s: Sys) { forall t :: t in s.handlers ==> s.handlers[t].Ended? }

  /** In a run without such steps, once all handlers have ended, all storage has its row. */
  lemma NothingIsOrphaned(states: seq<Sys>, labels: seq<Label>, x: Id)
    requires IsTrace(states, labels) && Pristine(states[0]) && AtRest(states[|labels|])
    requires forall i | 0 <= i < |labels| :: OrphansNothing(states[i], labels[i])
    ensures x in states[|labels|].ps.tenants ==> TenantRow(states[|labels|].db, x)
    ensures x in states[|labels|].ps.timelines ==> TimelineRow(states[|labels|].db, x)
  {
    PristineIsGood(states[0]);
    OrphansHaveCauses(states, labels, x);
    NobodyKeeps(states[|labels|], x);
  }

  lemma NobodyKeeps(s: Sys, x: Id)
    requires AtRest(s)
    ensures !TenantKept(s, x) && !TimelineKept(s, x)
  {
  }

  ghost predicate NoneHollow(s: Sys) { forall x :: !HollowProject(s, x) && !HollowBranch(s, x) }

  ghost predicate HollowsNothing(s: Sys, l: Label) { forall x :: !HollowsProject(s, l, x) && !HollowsBranch(s, l, x) }

  lemma StepHollows(s: Sys, l: Label)
    requires Good(s) && NoneHollow(s) && Enabled(s, l)
    ensures NoneHollow(Apply(s, l)) <==> HollowsNothing(s, l)
  {
    forall x ensures HollowedExactly(s, Apply(s, l), l, x) {
      ProjectsHollowedExactly(s, l, x);
      BranchesHollowedExactly(s, l, x);
    }
    SumHollows(s, Apply(s, l), l);
  }

  ghost predicate HollowedExactly(s: Sys, s': Sys, l: Label, x: Id) {
    && (HollowProject(s', x) && !HollowProject(s, x) <==> HollowsProject(s, l, x))
    && (HollowBranch(s', x) && !HollowBranch(s, x) <==> HollowsBranch(s, l, x))
  }

  lemma SumHollows(s: Sys, s': Sys, l: Label)
    requires NoneHollow(s) && forall x :: HollowedExactly(s, s', l, x)
    ensures NoneHollow(s') <==> HollowsNothing(s, l)
  {
    forall x ensures HollowProject(s', x) <==> HollowsProject(s, l, x) {
      assert HollowedExactly(s, s', l, x) && !HollowProject(s, x);
    }
    forall x ensures HollowBranch(s', x) <==> HollowsBranch(s, l, x) {
      assert HollowedExactly(s, s', l, x) && !HollowBranch(s, x);
    }
  }

  /** Every row has its storage throughout a run if and only if no step of the run takes it away. */
  lemma {:induction false} RowsHaveStorage(states: seq<Sys>, labels: seq<Label>)
    requires IsTrace(states, labels) && Good(states[0]) && NoneHollow(states[0])
    ensures (forall i | 0 <= i < |labels| :: HollowsNothing(states[i], labels[i])) <==>
        (forall i | 0 <= i < |states| :: NoneHollow(states[i]))
  {
    for n := 0 to |labels|
      invariant Good(states[n])
      invariant (forall i | 0 <= i < n :: HollowsNothing(states[i], labels[i])) <==>
          (forall i | 0 <= i <= n :: NoneHollow(states[i]))
    {
      assert states[n + 1] == Apply(states[n], labels[n]);
      StepKeepsGood(states[n], labels[n]);
      if NoneHollow(states[n]) {
        StepHollows(states[n], labels[n]);
      }
    }
  }

  // ---- createProject does both

  /** A creation that has attached its tenant. */
  lemma AttachFirst(s: Sys, t: Tid, n: ProjectPlan) returns (states: seq<Sys>, labels: seq<Label>)
    requires t !in s.handlers && PlanIds(AttachTenant(n)) !! s.used
    ensures IsTrace(states, labels) && |labels| == 2 && states[0] == s
    ensures var z := states[2];
      && z.db == s.db && z.now == s.now && z.handlers == s.handlers[t := MakeTimeline(n)]
      && z.used == s.used + PlanIds(AttachTenant(n))
      && z.ps == s.ps.(tenants := s.ps.tenants + {n.project.tenant})
  {
    var s1 := Started(s, t, AttachTenant(n));
    states, labels := [s, s1, Acted(s1, t, Fine, "")], [CreateProject(t, n), Act(t, Fine, "")];
  }

  /** One more call of `t`, whose effect is known. */
  lemma OneMore(states: seq<Sys>, labels: seq<Label>, t: Tid, out: Reply, m: Effect)
    returns (ss: seq<Sys>, ls: seq<Label>)
    requires IsTrace(states, labels) && t in states[|labels|].handlers
    requires var h := states[|labels|].handlers[t];
      !h.Ended? && (h.FindParent? ==> h.q.parent.Some?)
    requires Move(states[|labels|], states[|labels|].handlers[t], out, "") == m
    ensures IsTrace(ss, ls) && |ss| > 0 && ss[0] == states[0]
    ensures var (z, z') := (states[|labels|], ss[|ls|]);
      z'.handlers == z.handlers[t := m.next] && z'.db == m.db && z'.ps == m.ps && z'.now == z.now && z'.used == z.used
  {
    TraceExtends(states, labels, Act(t, out, ""));
    ss, ls := states + [Acted(states[|labels|], t, out, "")], labels + [Act(t, out, "")];
  }

  /** The first timeline fails: nobody crashes and no compensation is tried, but the tenant is orphaned. */
  lemma FailedTimelineOrphansTenant(s: Sys, t: Tid, n: ProjectPlan) returns (states: seq<Sys>, labels: seq<Label>)
    requires IdsOk(s) && Recorded(s.db, s.hist) && t !in s.handlers && PlanIds(AttachTenant(n)) !! s.used
    ensures IsTrace(states, labels) && states[0] == s
    ensures OrphanTenant(states[|labels|], n.project.tenant) && AtEnd(states[|labels|], t)
  {
    NobodyKnows(s, AttachTenant(n), n.project.tenant);
    states, labels := AttachFirst(s, t, n);
    var z := states[2];
    states, labels := OneMore(states, labels, t, Fail, Effect(z.db, z.ps, Ended, {n.project.tenant}));
  }

  predicate AtEnd(s: Sys, t: Tid) { t in s.handlers && s.handlers[t].Ended? }

  /** Ids not generated yet occur nowhere. */
  lemma NobodyKnows(s: Sys, h: Handler, x: Id)
    requires IdsOk(s) && Recorded(s.db, s.hist) && PlanIds(h) !! s.used && x in PlanIds(h)
    ensures !TenantRow(s.db, x) && !TenantKept(s, x)
  {
    assert !Known(s.hist, x);
    forall u | u in s.handlers ensures x !in HeldTenants(s.handlers[u]) { assert PlanIds(s.handlers[u]) <= s.used; }
  }

  lemma ComesToSave(s: Sys, t: Tid, n: ProjectPlan) returns (states: seq<Sys>, labels: seq<Label>)
    requires t !in s.handlers && PlanIds(AttachTenant(n)) !! s.used
    ensures IsTrace(states, labels) && states[0] == s
    ensures var z := states[|labels|];
      t in z.handlers && z.handlers[t] == SaveProject(n) && z.db == s.db && z.now == s.now
  {
    states, labels := AttachFirst(s, t, n);
    var ps := AddTimeline(states[2].ps, n.timeline, Timeline(n.project.tenant, None));
    states, labels := OneMore(states, labels, t, Fine, Effect(s.db, ps, SaveProject(n), {}));
  }

  /** The insert succeeds but its reply is lost: the compensation takes the tenant from under the row. */
  lemma LostInsertHollowsProject(s: Sys, t: Tid, n: ProjectPlan) returns (states: seq<Sys>, labels: seq<Label>)
    requires t !in s.handlers && PlanIds(AttachTenant(n)) !! s.used && ProjectInsert(s.db, n, s.now).Ok?
    ensures IsTrace(states, labels) && states[0] == s
    ensures HollowProject(states[|labels|], n.pid) && AtEnd(states[|labels|], t)
  {
    var tenant := n.project.tenant;
    var db := ProjectInsert(s.db, n, s.now).value;
    states, labels := ComesToSave(s, t, n);
    var ps := states[|labels|].ps;
    states, labels := OneMore(states, labels, t, Lost, Effect(db, ps, UndoTenant(n), {}));
    states, labels := OneMore(states, labels, t, Fine, Effect(db, WithoutTenant(ps, tenant), Ended, {}));
  }
}
