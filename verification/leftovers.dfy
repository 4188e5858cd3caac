/**
 * What deletions and failures leave behind: which rows are without storage at any instant,
 * and through which steps; and that without a small set of mishaps none is left at rest.
 */
module Leftovers {
  import opened Base
  import opened Database
  import opened Catalog
  import opened Provisioning
  import opened Accounts

  // ---- rows are hollow exactly after a step that took their storage

  /** Once hollow, a row stays so as long as it exists; once gone, it stays gone. */
  lemma HollowStays(s: Sys, t: Tid, out: Reply, pick: Id, p: Id)
    requires Inv(s) && Enabled(s, Act(t, out, pick)) && p in s.hist.projects
        && (p in s.db.projects ==> HollowProject(s, p))
    ensures var s' := Acted(s, t, out, pick);
      p in s'.hist.projects && (p in s'.db.projects ==> HollowProject(s', p))
  {
    ActKeepsInv(s, t, out, pick);
    var (h, m) := (s.handlers[t], Move(s, s.handlers[t], out, pick));
    assert Known(s.hist, p) && Known(s.hist, s.hist.projects[p].tenant);
    assert Unsaved(h) ==> p !in PlanIds(h) && s.hist.projects[p].tenant !in PlanIds(h);
    MoveProjects(s, h, out, pick);
  }

  lemma HollowBranchStays(s: Sys, t: Tid, out: Reply, pick: Id, b: Id)
    requires Inv(s) && Enabled(s, Act(t, out, pick)) && b in s.hist.branches
        && (b in s.db.branches ==> HollowBranch(s, b))
    ensures var s' := Acted(s, t, out, pick);
      b in s'.hist.branches && (b in s'.db.branches ==> HollowBranch(s', b))
  {
    ActKeepsInv(s, t, out, pick);
    PlansMissBranch(s, t, b);
    if b !in s.db.branches {
      if b in Acted(s, t, out, pick).db.branches {
        BranchesCome(s, t, out, pick, b);
      }
    } else {
      StillMissing(s, Acted(s, t, out, pick), s.handlers[t], b);
    }
  }

  lemma PlansMissBranch(s: Sys, t: Tid, b: Id)
    requires IdsOk(s) && t in s.handlers && b in s.hist.branches
    ensures Unsaved(s.handlers[t]) ==>
        b !in PlanIds(s.handlers[t]) && s.hist.branches[b].timeline !in PlanIds(s.handlers[t])
  {
    assert Known(s.hist, b) && Known(s.hist, s.hist.branches[b].timeline);
  }

  lemma StillMissing(s: Sys, s': Sys, h: Handler, b: Id)
    requires Recorded(s.db, s.hist) && Recorded(s'.db, s'.hist) && Extends(s.hist, s'.hist) && PsStep(s.ps, s'.ps, h)
    requires b in s.hist.branches && HollowBranch(s, b)
    requires Unsaved(h) ==> s.hist.branches[b].timeline !in PlanIds(h)
    ensures b in s'.db.branches ==> HollowBranch(s', b)
  {
  }

  /** A branch's row appears only by its own insertion. */
  lemma BranchesCome(s: Sys, t: Tid, out: Reply, pick: Id, b: Id)
    requires Enabled(s, Act(t, out, pick)) && b !in s.db.branches && b in Acted(s, t, out, pick).db.branches
    ensures var h := s.handlers[t]; Unsaved(h) && b in PlanIds(h)
  {
    ActedTree(s, t, out, pick);
  }

  ghost predicate TookProject(states: seq<Sys>, labels: seq<Label>, n: nat, p: Id)
    requires n <= |labels| <= |states|
  {
    exists i | 0 <= i < n :: HollowsProject(states[i], labels[i], p)
  }

  ghost predicate TookBranch(states: seq<Sys>, labels: seq<Label>, n: nat, b: Id)
    requires n <= |labels| <= |states|
  {
    exists i | 0 <= i < n :: HollowsBranch(states[i], labels[i], b)
  }

  /** What is remembered of a row whose storage a step took. */
  ghost predicate Gone(s: Sys, x: Id, took: bool, tookBranch: bool) {
    && (took ==> x in s.hist.projects && (x in s.db.projects ==> HollowProject(s, x))) && (HollowProject(s, x) ==> took)
    && (tookBranch ==> x in s.hist.branches && (x in s.db.branches ==> HollowBranch(s, x)))
    && (HollowBranch(s, x) ==> tookBranch)
  }

  lemma StepRemembers(s: Sys, l: Label, x: Id, took: bool, tookBranch: bool)
    requires Good(s) && Enabled(s, l) && Gone(s, x, took, tookBranch)
    ensures Gone(Apply(s, l), x, took || HollowsProject(s, l, x), tookBranch || HollowsBranch(s, l, x))
  {
    ProjectsHollowedExactly(s, l, x);
    BranchesHollowedExactly(s, l, x);
    RowsStayHollow(s, l, x);
    GoodIsRecorded(s, l);
    HollowIsKnown(Apply(s, l), x);
  }

  lemma GoodIsRecorded(s: Sys, l: Label)
    requires Good(s) && Enabled(s, l)
    ensures Recorded(Apply(s, l).db, Apply(s, l).hist)
  {
    StepKeepsGood(s, l);
  }

  lemma RowsStayHollow(s: Sys, l: Label, x: Id)
    requires Good(s) && Enabled(s, l)
    ensures var s' := Apply(s, l);
      && (x in s.hist.projects && (x in s.db.projects ==> HollowProject(s, x)) ==>
            x in s'.hist.projects && (x in s'.db.projects ==> HollowProject(s', x)))
      && (x in s.hist.branches && (x in s.db.branches ==> HollowBranch(s, x)) ==>
            x in s'.hist.branches && (x in s'.db.branches ==> HollowBranch(s', x)))
  {
    if l.Act? {
      if x in s.hist.projects && (x in s.db.projects ==> HollowProject(s, x)) {
        HollowStays(s, l.t, l.out, l.pick, x);
      }
      if x in s.hist.branches && (x in s.db.branches ==> HollowBranch(s, x)) {
        HollowBranchStays(s, l.t, l.out, l.pick, x);
      }
    } else {
      OthersHollowNothing(s, l, x);
    }
  }

  lemma HollowIsKnown(s: Sys, x: Id)
    requires Recorded(s.db, s.hist)
    ensures HollowProject(s, x) ==> x in s.hist.projects
    ensures HollowBranch(s, x) ==> x in s.hist.branches
  {
  }

  lemma {:induction false} GoodThroughout(states: seq<Sys>, labels: seq<Label>, n: nat)
    requires IsTrace(states, labels) && Good(states[0]) && n <= |labels|
    ensures Good(states[n])
    decreases n
  {
    if n > 0 {
      GoodThroughout(states, labels, n - 1);
      assert states[n] == Apply(states[n - 1], labels[n - 1]);
      StepKeepsGood(states[n - 1], labels[n - 1]);
    }
  }

  lemma TookNext(states: seq<Sys>, labels: seq<Label>, n: nat, x: Id)
    requires n < |labels| <= |states|
    ensures TookProject(states, labels, n + 1, x) <==>
        TookProject(states, labels, n, x) || HollowsProject(states[n], labels[n], x)
    ensures TookBranch(states, labels, n + 1, x) <==>
        TookBranch(states, labels, n, x) || HollowsBranch(states[n], labels[n], x)
  {
  }

  lemma NextRemembers(states: seq<Sys>, labels: seq<Label>, n: nat, x: Id)
    requires IsTrace(states, labels) && Good(states[0]) && n < |labels|
    requires Gone(states[n], x, TookProject(states, labels, n, x), TookBranch(states, labels, n, x))
    ensures Gone(states[n + 1], x, TookProject(states, labels, n + 1, x), TookBranch(states, labels, n + 1, x))
  {
    GoodThroughout(states, labels, n);
    TookNext(states, labels, n, x);
    assert states[n + 1] == Apply(states[n], labels[n]);
    StepRemembers(states[n], labels[n], x, TookProject(states, labels, n, x), TookBranch(states, labels, n, x));
  }

  lemma {:induction false} Remembered(states: seq<Sys>, labels: seq<Label>, n: nat, x: Id)
    requires IsTrace(states, labels) && Good(states[0]) && states[0].db == EMPTY && n <= |labels|
    ensures Gone(states[n], x, TookProject(states, labels, n, x), TookBranch(states, labels, n, x))
    decreases n
  {
    if n > 0 {
      Remembered(states, labels, n - 1, x);
      NextRemembers(states, labels, n - 1, x);
    }
  }

  /**
   * At every instant of every run from nothing, exactly those existing rows are without
   * storage from which an earlier step has taken it: nothing gives it back.
   */
  lemma HollowRowsExactly(states: seq<Sys>, labels: seq<Label>, n: nat, x: Id)
    requires IsTrace(states, labels) && Pristine(states[0]) && n <= |labels|
    ensures HollowProject(states[n], x) <==> x in states[n].db.projects && TookProject(states, labels, n, x)
    ensures HollowBranch(states[n], x) <==> x in states[n].db.branches && TookBranch(states, labels, n, x)
  {
    PristineIsGood(states[0]);
    Remembered(states, labels, n, x);
  }

  // ---- at rest

  /**
   * What has to go wrong for a row to stay without its storage: a delete handler lost before
   * it deletes the row, a lost reply or a failure of the deletions, a lost reply of an insert.
   */
  predicate Mishap(s: Sys, l: Label) {
    match l
    case Crash(t) => t in s.handlers && (s.handlers[t].DropRow? || s.handlers[t].DropProjectRow?)
    case Act(t, out, _) =>
      t in s.handlers &&
      (match s.handlers[t]
       case DropTimeline(_, _, _) => out == Lost
       case DropTenant(_, _) => out == Lost
       case DropRow(_, _) => !TookEffect(out)
       case DropProjectRow(_, _) => !TookEffect(out)
       case SaveProject(_) => out == Lost
       case SaveBranch(_, _, _, _) => out == Lost
       case _ => false)
    case _ => false
  }

  predicate Undoes(h: Handler) { h.UndoTenant? || h.UndoTimeline? }

  /** A handler is about to delete the project's row. */
  ghost predicate RowGoes(s: Sys, p: Id) {
    exists t :: t in s.handlers && s.handlers[t].DropProjectRow? && s.handlers[t].pid == p
  }

  ghost predicate BranchGoes(s: Sys, b: Id)
    requires b in s.db.branches
  {
    || (exists t :: t in s.handlers && s.handlers[t].DropRow? && s.handlers[t].bid == b)
    || RowGoes(s, s.db.branches[b].project)
  }

  /** Compensations are only for rows that were never there. */
  ghost predicate UndoesNothingKnown(s: Sys) {
    forall t, x :: t in s.handlers && Undoes(s.handlers[t]) && x in PlanIds(s.handlers[t]) ==> !Known(s.hist, x)
  }

  /** Every row without storage is about to go. */
  ghost predicate HollowsGo(s: Sys) {
    && (forall p :: HollowProject(s, p) ==> RowGoes(s, p))
    && (forall b :: HollowBranch(s, b) ==> BranchGoes(s, b))
  }

  /** A branch about to be saved has its timeline, or its project is about to go. */
  ghost predicate SavesAreBacked(s: Sys) {
    forall t :: t in s.handlers && s.handlers[t].SaveBranch? && s.handlers[t].q.timeline !in s.ps.timelines ==>
      s.handlers[t].q.pid !in s.db.projects || RowGoes(s, s.handlers[t].q.pid)
  }

  ghost predicate Orderly(s: Sys) { UndoesNothingKnown(s) && HollowsGo(s) && SavesAreBacked(s) }

  /** A deletion under way is carried out. */
  lemma RowStillGoes(s: Sys, t: Tid, out: Reply, pick: Id, p: Id)
    requires Enabled(s, Act(t, out, pick)) && !Mishap(s, Act(t, out, pick)) && RowGoes(s, p)
    ensures var s' := Acted(s, t, out, pick);
      RowGoes(s', p) || p !in s'.db.projects
  {
    var s' := Acted(s, t, out, pick);
    var u :| u in s.handlers && s.handlers[u].DropProjectRow? && s.handlers[u].pid == p;
    if u != t {
      assert s'.handlers[u] == s.handlers[u];
    }
  }

  lemma BranchStillGoes(s: Sys, t: Tid, out: Reply, pick: Id, b: Id)
    requires Enabled(s, Act(t, out, pick)) && !Mishap(s, Act(t, out, pick)) && b in s.db.branches && BranchGoes(s, b)
    requires References(Acted(s, t, out, pick).db)
    requires var s' := Acted(s, t, out, pick);
      b in s'.db.branches ==> s'.db.branches[b].project == s.db.branches[b].project
    ensures var s' := Acted(s, t, out, pick);
      b in s'.db.branches ==> BranchGoes(s', b)
  {
    var s' := Acted(s, t, out, pick);
    if u :| u in s.handlers && s.handlers[u].DropRow? && s.handlers[u].bid == b {
      if u != t {
        assert s'.handlers[u] == s.handlers[u];
      }
    } else {
      RowStillGoes(s, t, out, pick, s.db.branches[b].project);
    }
  }

  lemma RememberNothing(h: Db, db: Db)
    requires Recorded(db, h)
    ensures Remember(h, db) == h
  {
    var r := Remember(h, db);
    assert r.projects == h.projects && r.branches == h.branches && r.endpoints == h.endpoints;
  }

  lemma ComesToUndo(s: Sys, h: Handler, out: Reply, pick: Id)
    requires !h.Ended? && (h.SaveProject? || h.SaveBranch? ==> out != Lost)
    ensures var m := Move(s, h, out, pick);
      Undoes(m.next) ==> Unsaved(h) && m.db == s.db && PlanIds(m.next) == PlanIds(h)
  {
  }

  lemma StaysUnknown(s: Sys, t: Tid, out: Reply, pick: Id)
    requires Enabled(s, Act(t, out, pick)) && !Mishap(s, Act(t, out, pick)) && UndoesNothingKnown(s)
    requires IdsOk(s) && Recorded(s.db, s.hist) && RowsFrom(Move(s, s.handlers[t], out, pick).db, s.hist, s.handlers[t])
    ensures UndoesNothingKnown(Acted(s, t, out, pick))
  {
    var (s', h, m) := (Acted(s, t, out, pick), s.handlers[t], Move(s, s.handlers[t], out, pick));
    ComesToUndo(s, h, out, pick);
    RememberNothing(s.hist, s.db);
    forall u, x | u in s'.handlers && Undoes(s'.handlers[u]) && x in PlanIds(s'.handlers[u])
      ensures !Known(s'.hist, x) {
      if u != t {
        assert s'.handlers[u] == s.handlers[u] && PlanIds(s.handlers[u]) !! PlanIds(h);
        OthersStayUnknown(m.db, s.hist, h, x);
      }
    }
  }

  lemma OthersStayUnknown(d: Db, h: Db, mover: Handler, x: Id)
    requires RowsFrom(d, h, mover) && !Known(h, x) && x !in PlanIds(mover)
    ensures !Known(Remember(h, d), x)
  {
    if Known(Remember(h, d), x) {
      NewlyKnown(d, h, mover, x);
    }
  }

  // ---- newly hollow rows are about to go

  /** The tenant deleted is that of a project whose row goes next. */
  lemma ProjectGoesNext(s: Sys, t: Tid, out: Reply, pick: Id, p: Id)
    requires Recorded(s.db, s.hist) && TenantsOnce(s.hist) && t in s.handlers && RefsOk(s.hist, s.ps, s.handlers[t])
    requires Enabled(s, Act(t, out, pick)) && !Mishap(s, Act(t, out, pick)) && UndoesNothingKnown(s)
    requires HollowsProject(s, Act(t, out, pick), p)
    ensures RowGoes(Acted(s, t, out, pick), p)
  {
    var (s', h) := (Acted(s, t, out, pick), s.handlers[t]);
    assert Known(s.hist, s.db.projects[p].tenant) && (Undoes(h) ==> s.db.projects[p].tenant !in PlanIds(h));
    assert h.DropTenant? && h.pid == p;
    assert s'.handlers[t] == DropProjectRow(p, h.tenant);
  }

  lemma BranchGoesNext(s: Sys, t: Tid, out: Reply, pick: Id, b: Id)
    requires Recorded(s.db, s.hist) && TenantsOnce(s.hist) && HistoryOk(s.hist) && PsOk(s.hist, s.ps)
    requires t in s.handlers && RefsOk(s.hist, s.ps, s.handlers[t])
    requires Enabled(s, Act(t, out, pick)) && !Mishap(s, Act(t, out, pick)) && UndoesNothingKnown(s)
    requires b in s.db.branches && HollowsBranch(s, Act(t, out, pick), b)
    ensures var s' := Acted(s, t, out, pick);
      b in s'.db.branches && BranchGoes(s', b)
  {
    HollowedIsDeleted(s, t, out, pick, b);
    BranchIsKnown(s, b);
    TakenByDeletion(s, s.handlers[t], out, b);
    DeletionGoesOn(s, t, out, pick, b);
  }

  lemma HollowedIsDeleted(s: Sys, t: Tid, out: Reply, pick: Id, b: Id)
    requires t in s.handlers && b in s.db.branches && HollowsBranch(s, Act(t, out, pick), b)
    ensures s.db.branches[b].timeline in s.ps.timelines && TookEffect(out)
        && Deletes(s.ps, s.handlers[t], s.db.branches[b].timeline)
  {
  }

  lemma BranchIsKnown(s: Sys, b: Id)
    requires Recorded(s.db, s.hist) && HistoryOk(s.hist) && PsOk(s.hist, s.ps)
    requires b in s.db.branches && s.db.branches[b].timeline in s.ps.timelines
    ensures var (x, p) := (s.db.branches[b].timeline, s.db.branches[b].project);
      && p in s.hist.projects && s.ps.timelines[x].tenant == s.hist.projects[p].tenant
      && Known(s.hist, x) && Known(s.hist, s.ps.timelines[x].tenant)
  {
    assert OnTenant(s.ps, s.hist.branches[b].timeline, s.hist.projects[s.hist.branches[b].project].tenant);
  }

  /** The handler that has deleted a branch's storage deletes its row next. */
  lemma DeletionGoesOn(s: Sys, t: Tid, out: Reply, pick: Id, b: Id)
    requires Recorded(s.db, s.hist) && TenantsOnce(s.hist) && HistoryOk(s.hist)
    requires t in s.handlers && RefsOk(s.hist, s.ps, s.handlers[t])
        && (s.handlers[t].DropTimeline? || s.handlers[t].DropTenant?)
    requires out == Fine && b in s.db.branches && s.db.branches[b].timeline in s.ps.timelines
    requires Deletes(s.ps, s.handlers[t], s.db.branches[b].timeline)
    requires s.db.branches[b].project in s.hist.projects
    requires s.ps.timelines[s.db.branches[b].timeline].tenant == s.hist.projects[s.db.branches[b].project].tenant
    ensures var s' := Acted(s, t, out, pick);
      b in s'.db.branches && BranchGoes(s', b)
  {
    AfterStorage(s, t, pick);
    DeletesNext(s, Acted(s, t, out, pick), t, b);
  }

  lemma DeletesNext(s: Sys, s': Sys, t: Tid, b: Id)
    requires Recorded(s.db, s.hist) && TenantsOnce(s.hist) && HistoryOk(s.hist)
    requires t in s.handlers && RefsOk(s.hist, s.ps, s.handlers[t])
    requires b in s.db.branches && s.db.branches[b].timeline in s.ps.timelines
    requires Deletes(s.ps, s.handlers[t], s.db.branches[b].timeline)
    requires s.db.branches[b].project in s.hist.projects
    requires s.ps.timelines[s.db.branches[b].timeline].tenant == s.hist.projects[s.db.branches[b].project].tenant
    requires GoesOn(s, s', t)
    ensures b in s'.db.branches && BranchGoes(s', b)
  {
    if s.handlers[t].DropTimeline? {
      TimelineOfBranch(s, s.handlers[t], b);
    } else {
      assert s.handlers[t].pid == s.db.branches[b].project;
    }
  }

  /** After the storage the row: the handler is at its deletion. */
  predicate GoesOn(s: Sys, s': Sys, t: Tid) {
    && t in s.handlers && t in s'.handlers && s'.db == s.db
    && (s.handlers[t].DropTimeline? || s.handlers[t].DropTenant?)
    && s'.handlers[t] == if s.handlers[t].DropTimeline? then DropRow(s.handlers[t].bid, s.handlers[t].branch)
                         else DropProjectRow(s.handlers[t].pid, s.handlers[t].tenant)
  }

  lemma TimelineOfBranch(s: Sys, h: Handler, b: Id)
    requires Recorded(s.db, s.hist) && HistoryOk(s.hist) && h.DropTimeline? && RefsOk(s.hist, s.ps, h)
    requires b in s.db.branches && s.db.branches[b].timeline == h.branch.timeline
    ensures h.bid == b
  {
  }

  lemma AfterStorage(s: Sys, t: Tid, pick: Id)
    requires t in s.handlers && (s.handlers[t].DropTimeline? || s.handlers[t].DropTenant?)
    ensures GoesOn(s, Acted(s, t, Fine, pick), t)
  {
  }

  lemma TakenByDeletion(s: Sys, h: Handler, out: Reply, b: Id)
    requires Recorded(s.db, s.hist) && b in s.db.branches && s.db.branches[b].timeline in s.ps.timelines
    requires Undoes(h) ==> s.db.branches[b].timeline !in PlanIds(h)
                           && s.ps.timelines[s.db.branches[b].timeline].tenant !in PlanIds(h)
    requires !h.Ended? && Deletes(s.ps, h, s.db.branches[b].timeline)
    ensures h.DropTimeline? || h.DropTenant?
  {
  }

  // ---- branches about to be saved

  /** A branch about to be saved loses its timeline only with the tenant, and then its project goes. */
  lemma SaverLosesToDeletion(s: Sys, t: Tid, out: Reply, pick: Id, u: Tid)
    requires Enabled(s, Act(t, out, pick)) && !Mishap(s, Act(t, out, pick)) && UndoesNothingKnown(s)
    requires IdsOk(s) && TenantsOnce(s.hist) && RefsOk(s.hist, s.ps, s.handlers[t])
    requires u in s.handlers && u != t && s.handlers[u].SaveBranch? && RefsOk(s.hist, s.ps, s.handlers[u])
    requires var q := s.handlers[u].q;
        q.timeline in s.ps.timelines && q.timeline !in Acted(s, t, out, pick).ps.timelines
    ensures RowGoes(Acted(s, t, out, pick), s.handlers[u].q.pid)
  {
    var (h, q) := (s.handlers[t], s.handlers[u].q);
    assert q.timeline in PlanIds(s.handlers[u]) && q.timeline !in PlanIds(h);
    assert !Known(s.hist, q.timeline) && Known(s.hist, s.handlers[u].tenant);
    assert h.DropTimeline? ==> h.branch.timeline != q.timeline;
    TimelineAfter(s, h, out, pick, q.timeline);
    assert TookEffect(out) && Deletes(s.ps, h, q.timeline);
    TakenWithTenant(s, h, q.timeline);
    AfterStorage(s, t, pick);
    assert h.pid == q.pid;
  }

  lemma TakenWithTenant(s: Sys, h: Handler, x: Id)
    requires x in s.ps.timelines && Deletes(s.ps, h, x) && !Known(s.hist, x) && x !in PlanIds(h)
    requires RefsOk(s.hist, s.ps, h) && Known(s.hist, s.ps.timelines[x].tenant)
    requires Undoes(h) ==> s.ps.timelines[x].tenant !in PlanIds(h)
    requires h.DropTimeline? ==> h.branch.timeline != x
    ensures h.DropTenant? && h.tenant == s.ps.timelines[x].tenant
  {
  }

  /** A handler that has just cut its timeline has it. */
  lemma JustCut(s: Sys, t: Tid, out: Reply, pick: Id)
    requires Enabled(s, Act(t, out, pick))
    ensures var h' := Acted(s, t, out, pick).handlers[t];
      h'.SaveBranch? ==> h'.q.timeline in Acted(s, t, out, pick).ps.timelines
  {
  }

  lemma SaverStaysBacked(s: Sys, t: Tid, out: Reply, pick: Id, u: Tid)
    requires Inv(s) && Enabled(s, Act(t, out, pick)) && !Mishap(s, Act(t, out, pick)) && Orderly(s)
    requires var s' := Acted(s, t, out, pick);
      u in s'.handlers && s'.handlers[u].SaveBranch? && s'.handlers[u].q.timeline !in s'.ps.timelines
    ensures var s' := Acted(s, t, out, pick);
      s'.handlers[u].q.pid !in s'.db.projects || RowGoes(s', s'.handlers[u].q.pid)
  {
    JustCut(s, t, out, pick);
    assert u != t && u in s.handlers && Acted(s, t, out, pick).handlers[u] == s.handlers[u];
    assert RefsOk(s.hist, s.ps, s.handlers[t]) && RefsOk(s.hist, s.ps, s.handlers[u]);
    WaitingSaverStaysBacked(s, t, out, pick, u);
  }

  lemma WaitingSaverStaysBacked(s: Sys, t: Tid, out: Reply, pick: Id, u: Tid)
    requires Enabled(s, Act(t, out, pick)) && !Mishap(s, Act(t, out, pick)) && UndoesNothingKnown(s)
        && SavesAreBacked(s)
    requires IdsOk(s) && TenantsOnce(s.hist) && RefsOk(s.hist, s.ps, s.handlers[t])
    requires u in s.handlers && u != t && s.handlers[u].SaveBranch? && RefsOk(s.hist, s.ps, s.handlers[u])
    requires s.handlers[u].q.timeline !in Acted(s, t, out, pick).ps.timelines
    ensures var (s', p) := (Acted(s, t, out, pick), s.handlers[u].q.pid);
      p !in s'.db.projects || RowGoes(s', p)
  {
    var q := s.handlers[u].q;
    if q.timeline in s.ps.timelines {
      SaverLosesToDeletion(s, t, out, pick, u);
    } else if RowGoes(s, q.pid) {
      RowStillGoes(s, t, out, pick, q.pid);
    } else {
      GoneStaysGone(s, t, out, pick, q.pid);
    }
  }

  lemma GoneStaysGone(s: Sys, t: Tid, out: Reply, pick: Id, p: Id)
    requires IdsOk(s) && Enabled(s, Act(t, out, pick)) && p in s.hist.projects && p !in s.db.projects
    ensures p !in Acted(s, t, out, pick).db.projects
  {
    assert Known(s.hist, p);
    assert Unsaved(s.handlers[t]) ==> p !in PlanIds(s.handlers[t]);
    MoveProjects(s, s.handlers[t], out, pick);
  }

  // ---- every hollow row goes

  lemma ProjectsStillGo(s: Sys, t: Tid, out: Reply, pick: Id, p: Id)
    requires Inv(s) && AllPrepared(s) && Enabled(s, Act(t, out, pick)) && !Mishap(s, Act(t, out, pick)) && Orderly(s)
    ensures HollowProject(Acted(s, t, out, pick), p) ==> RowGoes(Acted(s, t, out, pick), p)
  {
    ActHollowsProject(s, t, out, pick, p);
    if HollowsProject(s, Act(t, out, pick), p) {
      ProjectGoesNext(s, t, out, pick, p);
    } else if HollowProject(s, p) {
      RowStillGoes(s, t, out, pick, p);
    }
  }

  /** A row inserted too late belongs to a project that is about to go. */
  lemma LateBranchGoes(s: Sys, t: Tid, out: Reply, pick: Id, b: Id)
    requires Enabled(s, Act(t, out, pick)) && SavesAreBacked(s) && Prepared(s.ps, s.handlers[t]) && b !in s.db.branches
    requires HollowBranch(Acted(s, t, out, pick), b)
    ensures BranchGoes(Acted(s, t, out, pick), b)
  {
    var (s', h) := (Acted(s, t, out, pick), s.handlers[t]);
    NewBranch(s, t, out, pick, b);
    assert h.SaveBranch? && h.q.pid in s.db.projects && s'.db.branches[b].project == h.q.pid;
    var u :| u in s.handlers && s.handlers[u].DropProjectRow? && s.handlers[u].pid == h.q.pid;
    assert u != t && s'.handlers[u] == s.handlers[u];
  }

  lemma BranchesStillGo(s: Sys, t: Tid, out: Reply, pick: Id, b: Id)
    requires Inv(s) && AllPrepared(s) && Enabled(s, Act(t, out, pick)) && !Mishap(s, Act(t, out, pick)) && Orderly(s)
    requires References(Acted(s, t, out, pick).db) && Recorded(Acted(s, t, out, pick).db, Acted(s, t, out, pick).hist)
    requires Extends(s.hist, Acted(s, t, out, pick).hist)
    ensures HollowBranch(Acted(s, t, out, pick), b) ==> BranchGoes(Acted(s, t, out, pick), b)
  {
    if HollowBranch(Acted(s, t, out, pick), b) {
      if b !in s.db.branches {
        LateBranchGoes(s, t, out, pick, b);
      } else {
        OldBranchGoes(s, t, out, pick, b);
      }
    }
  }

  lemma OldBranchGoes(s: Sys, t: Tid, out: Reply, pick: Id, b: Id)
    requires Inv(s) && AllPrepared(s) && Enabled(s, Act(t, out, pick)) && !Mishap(s, Act(t, out, pick)) && Orderly(s)
    requires References(Acted(s, t, out, pick).db) && Recorded(Acted(s, t, out, pick).db, Acted(s, t, out, pick).hist)
    requires Extends(s.hist, Acted(s, t, out, pick).hist) && b in s.db.branches
        && HollowBranch(Acted(s, t, out, pick), b)
    ensures BranchGoes(Acted(s, t, out, pick), b)
  {
    WasHollowOrIsHollowed(s, t, out, pick, b);
    if HollowsBranch(s, Act(t, out, pick), b) {
      BranchGoesNext(s, t, out, pick, b);
    } else {
      OldHollowGoes(s, t, out, pick, b);
    }
  }

  lemma WasHollowOrIsHollowed(s: Sys, t: Tid, out: Reply, pick: Id, b: Id)
    requires Enabled(s, Act(t, out, pick)) && Prepared(s.ps, s.handlers[t]) && HollowBranch(Acted(s, t, out, pick), b)
    ensures HollowBranch(s, b) || HollowsBranch(s, Act(t, out, pick), b)
  {
    ActHollowsBranch(s, t, out, pick, b);
  }

  lemma OldHollowGoes(s: Sys, t: Tid, out: Reply, pick: Id, b: Id)
    requires Enabled(s, Act(t, out, pick)) && !Mishap(s, Act(t, out, pick)) && Recorded(s.db, s.hist)
    requires References(Acted(s, t, out, pick).db) && Recorded(Acted(s, t, out, pick).db, Acted(s, t, out, pick).hist)
    requires Extends(s.hist, Acted(s, t, out, pick).hist) && HollowBranch(s, b) && BranchGoes(s, b)
    ensures b in Acted(s, t, out, pick).db.branches ==> BranchGoes(Acted(s, t, out, pick), b)
  {
    BranchStillGoes(s, t, out, pick, b);
  }

  lemma ActStaysOrderly(s: Sys, t: Tid, out: Reply, pick: Id)
    requires Good(s) && Enabled(s, Act(t, out, pick)) && !Mishap(s, Act(t, out, pick)) && Orderly(s)
    ensures Orderly(Acted(s, t, out, pick))
  {
    var s' := Acted(s, t, out, pick);
    ActKeepsInv(s, t, out, pick);
    ActKeepsTree(s, t, out, pick);
    assert UndoesNothingKnown(s') by { StaysUnknown(s, t, out, pick); }
    forall p ensures HollowProject(s', p) ==> RowGoes(s', p) { ProjectsStillGo(s, t, out, pick, p); }
    forall b ensures HollowBranch(s', b) ==> BranchGoes(s', b) { BranchesStillGo(s, t, out, pick, b); }
    forall u | u in s'.handlers && s'.handlers[u].SaveBranch? && s'.handlers[u].q.timeline !in s'.ps.timelines
      ensures s'.handlers[u].q.pid !in s'.db.projects || RowGoes(s', s'.handlers[u].q.pid)
    {
      SaverStaysBacked(s, t, out, pick, u);
    }
  }

  lemma OthersStayOrderly(s: Sys, l: Label)
    requires Enabled(s, l) && !l.Act? && !Mishap(s, l) && Orderly(s)
    ensures Orderly(Apply(s, l))
  {
    var s' := Apply(s, l);
    assert s'.db == s.db && s'.hist == s.hist && s'.ps.tenants == s.ps.tenants && s'.ps.timelines == s.ps.timelines;
    forall p | RowGoes(s, p) ensures RowGoes(s', p) {
      var u :| u in s.handlers && s.handlers[u].DropProjectRow? && s.handlers[u].pid == p;
      assert u in s'.handlers && s'.handlers[u] == s.handlers[u];
    }
    forall b | b in s.db.branches && BranchGoes(s, b) ensures BranchGoes(s', b) {
      if u :| u in s.handlers && s.handlers[u].DropRow? && s.handlers[u].bid == b {
        assert u in s'.handlers && s'.handlers[u] == s.handlers[u];
      }
    }
    forall p ensures HollowProject(s', p) ==> RowGoes(s', p) { assert HollowProject(s', p) ==> HollowProject(s, p); }
    forall b ensures HollowBranch(s', b) ==> BranchGoes(s', b) { assert HollowBranch(s', b) ==> HollowBranch(s, b); }
  }

  lemma StepStaysOrderly(s: Sys, l: Label)
    requires Good(s) && Enabled(s, l) && !Mishap(s, l) && Orderly(s)
    ensures Orderly(Apply(s, l))
  {
    if l.Act? {
      ActStaysOrderly(s, l.t, l.out, l.pick);
    } else {
      OthersStayOrderly(s, l);
    }
  }

  lemma {:induction false} StaysOrderly(states: seq<Sys>, labels: seq<Label>, n: nat)
    requires IsTrace(states, labels) && Good(states[0]) && Orderly(states[0]) && n <= |labels|
    requires forall i | 0 <= i < |labels| :: !Mishap(states[i], labels[i])
    ensures Orderly(states[n])
    decreases n
  {
    if n > 0 {
      StaysOrderly(states, labels, n - 1);
      GoodThroughout(states, labels, n - 1);
      assert states[n] == Apply(states[n - 1], labels[n - 1]);
      StepStaysOrderly(states[n - 1], labels[n - 1]);
    }
  }

  /**
   * At rest, after a run from nothing without such a mishap, whatever was created, deleted,
   * failed or compensated in whatever interleaving: every row has its storage.
   */
  lemma NoneHollowAtRest(states: seq<Sys>, labels: seq<Label>)
    requires IsTrace(states, labels) && Pristine(states[0]) && AtRest(states[|labels|])
    requires forall i | 0 <= i < |labels| :: !Mishap(states[i], labels[i])
    ensures NoneHollow(states[|labels|])
  {
    PristineIsGood(states[0]);
    PristineIsOrderly(states[0]);
    StaysOrderly(states, labels, |labels|);
    NothingGoesAtRest(states[|labels|]);
  }

  lemma PristineIsOrderly(s: Sys)
    requires Pristine(s)
    ensures Orderly(s)
  {
  }

  lemma NothingGoesAtRest(s: Sys)
    requires Orderly(s) && AtRest(s)
    ensures NoneHollow(s)
  {
  }
}
