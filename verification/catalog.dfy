/**
 * The catalog over time: what rows keep for ever, and the shape of the branch tree that the
 * schema does not enforce.
 */
module Catalog {
  import opened Base
  import opened Database

  // ---- history: every row ever inserted, in its first version

  /** Adds the rows of `db` that `hist` has not seen. */
  function Remember(hist: Db, db: Db): Db {
    Db(db.projects + hist.projects, db.branches + hist.branches, db.endpoints + hist.endpoints)
  }

  /** The history is closed, and ids in it were never used twice. */
  ghost predicate HistoryOk(h: Db) {
    && (forall e :: e in h.endpoints ==> h.endpoints[e].branch in h.branches)
    && (forall b :: b in h.branches ==> h.branches[b].project in h.projects)
    && (forall a, b :: a in h.branches && b in h.branches && h.branches[a].timeline == h.branches[b].timeline ==>
          a == b)
    && (forall d, e :: d in h.endpoints && e in h.endpoints && h.endpoints[d].branch == h.endpoints[e].branch ==>
          d == e)
  }

  /** What an update of other rows never changes in a branch: all but its parent. */
  predicate SameBranch(a: Branch, b: Branch) {
    a.project == b.project && a.timeline == b.timeline && a.isDefault == b.isDefault
  }

  /** Existing rows agree with the history on everything that never changes. */
  ghost predicate Recorded(db: Db, h: Db) {
    && (forall p :: p in db.projects ==> p in h.projects && db.projects[p] == h.projects[p])
    && (forall b :: b in db.branches ==> b in h.branches && SameBranch(db.branches[b], h.branches[b]))
    && (forall e :: e in db.endpoints ==> e in h.endpoints && db.endpoints[e].branch == h.endpoints[e].branch)
  }

  ghost predicate Extends(h: Db, h': Db) {
    && (forall p :: p in h.projects ==> p in h'.projects && h'.projects[p] == h.projects[p])
    && (forall b :: b in h.branches ==> b in h'.branches && h'.branches[b] == h.branches[b])
    && (forall e :: e in h.endpoints ==> e in h'.endpoints && h'.endpoints[e] == h.endpoints[e])
  }

  /** The rows one transaction adds. */
  datatype Entry = NoRows | ProjectRows(pid: Id, bid: Id, timeline: Id, eid: Id) | BranchRows(bid: Id, timeline: Id,
      eid: Id)

  predicate NewTimeline(h: Db, timeline: Id) {
    forall b :: b in h.branches ==> h.branches[b].timeline != timeline
  }

  /** Generated ids are new: never used by a row that exists or ever existed. */
  predicate Fresh(h: Db, x: Entry) {
    && (x.ProjectRows? ==> x.pid !in h.projects)
    && (!x.NoRows? ==> x.bid !in h.branches && x.eid !in h.endpoints && NewTimeline(h, x.timeline))
  }

  /** The rows of `d` are recorded ones or those of `x`. */
  ghost predicate NewOrRecorded(d: Db, h: Db, x: Entry) {
    && (forall p :: p in d.projects ==>
          (p in h.projects && d.projects[p] == h.projects[p]) || (x.ProjectRows? && p == x.pid))
    && (forall b :: b in d.branches ==>
          || (b in h.branches && SameBranch(d.branches[b], h.branches[b]))
          || (!x.NoRows? && b == x.bid && d.branches[b].timeline == x.timeline
                && d.branches[b].project in d.projects.Keys + h.projects.Keys))
    && (forall e :: e in d.endpoints ==>
          || (e in h.endpoints && d.endpoints[e].branch == h.endpoints[e].branch)
          || (!x.NoRows? && e == x.eid && d.endpoints[e].branch == x.bid && x.bid in d.branches))
  }

  lemma RememberRecords(d: Db, h: Db, x: Entry)
    requires Fresh(h, x) && NewOrRecorded(d, h, x)
    ensures Recorded(d, Remember(h, d)) && Extends(h, Remember(h, d))
  {
  }

  lemma RememberCloses(d: Db, h: Db, x: Entry)
    requires HistoryOk(h) && Fresh(h, x) && NewOrRecorded(d, h, x)
    ensures HistoryOk(Remember(h, d))
  {
    var h' := Remember(h, d);
    forall b | b in h'.branches ensures h'.branches[b].project in h'.projects {
      BranchOrigin(d, h, x, b);
    }
    forall e | e in h'.endpoints ensures h'.endpoints[e].branch in h'.branches {
      EndpointOrigin(d, h, x, e);
    }
    forall a, b | a in h'.branches && b in h'.branches && h'.branches[a].timeline == h'.branches[b].timeline
      ensures a == b {
      BranchOrigin(d, h, x, a);
      BranchOrigin(d, h, x, b);
    }
    forall a, b | a in h'.endpoints && b in h'.endpoints && h'.endpoints[a].branch == h'.endpoints[b].branch
      ensures a == b {
      EndpointOrigin(d, h, x, a);
      EndpointOrigin(d, h, x, b);
    }
  }

  lemma BranchOrigin(d: Db, h: Db, x: Entry, b: Id)
    requires NewOrRecorded(d, h, x) && b in Remember(h, d).branches
    ensures var h' := Remember(h, d);
      || (b in h.branches && h'.branches[b] == h.branches[b])
      || (b !in h.branches && !x.NoRows? && b == x.bid && h'.branches[b].timeline == x.timeline
            && h'.branches[b].project in h'.projects)
  {
  }

  lemma EndpointOrigin(d: Db, h: Db, x: Entry, e: Id)
    requires NewOrRecorded(d, h, x) && e in Remember(h, d).endpoints
    ensures var h' := Remember(h, d);
      || (e in h.endpoints && h'.endpoints[e] == h.endpoints[e])
      || (e !in h.endpoints && !x.NoRows? && e == x.eid && h'.endpoints[e].branch == x.bid && x.bid in h'.branches)
  {
  }

  // ---- the branch tree

  predicate IsDefaultOf(db: Db, b: Id, p: Id) {
    b in db.branches && db.branches[b].project == p && db.branches[b].isDefault
  }

  /** Every project has a default branch, and only one. */
  ghost predicate OneDefault(db: Db) {
    && (forall p :: p in db.projects ==> exists b :: IsDefaultOf(db, b, p))
    && (forall a, b, p :: IsDefaultOf(db, a, p) && IsDefaultOf(db, b, p) ==> a == b)
  }

  /** Every branch has an endpoint; that it has only one is the schema's. */
  ghost predicate AllServed(db: Db) {
    forall b :: b in db.branches ==> BranchServed(db, b)
  }

  /** Parents are branches of the same project, older in `order`. */
  ghost predicate Rooted(db: Db, order: map<Id, nat>) {
    && db.branches.Keys <= order.Keys
    && forall b {:trigger ParentOk(db, order, b)} :: b in db.branches ==> ParentOk(db, order, b)
  }

  /** All ranks so far are below `n`. */
  ghost predicate RanksBelow(db: Db, order: map<Id, nat>, n: nat) {
    forall b :: b in db.branches ==> b in order && order[b] < n
  }

  ghost predicate ParentOk(db: Db, order: map<Id, nat>, b: Id)
    requires b in db.branches
  {
    var p := db.branches[b].parent;
    p.Some? ==>
      && b in order && p.value in db.branches && db.branches[p.value].project == db.branches[b].project
      && p.value in order && order[p.value] < order[b]
  }

  ghost predicate TreeOk(db: Db, order: map<Id, nat>) {
    References(db) && Unique(db) && OneDefault(db) && AllServed(db) && Rooted(db, order)
  }

  ghost predicate TreeAt(db: Db, order: map<Id, nat>, n: nat) { TreeOk(db, order) && RanksBelow(db, order, n) }

  /** The n-th ancestor of a branch. */
  function Ancestor(db: Db, b: Id, n: nat): Option<Id>
    decreases n
  {
    if n == 0 then Some(b)
    else if b !in db.branches || db.branches[b].parent.None? then None
    else Ancestor(db, db.branches[b].parent.value, n - 1)
  }

  lemma {:induction false} AncestorsAreOlder(db: Db, order: map<Id, nat>, b: Id, n: nat)
    requires Rooted(db, order) && b in db.branches && Ancestor(db, b, n + 1).Some?
    ensures var a := Ancestor(db, b, n + 1).value;
            a in db.branches && db.branches[a].project == db.branches[b].project && order[a] < order[b]
    decreases n
  {
    assert ParentOk(db, order, b);
    var p := db.branches[b].parent.value;
    if n > 0 {
      AncestorsAreOlder(db, order, p, n - 1);
    }
  }

  /** The parent relation has no cycles and stays inside the project. */
  lemma NoBranchIsItsOwnAncestor(db: Db, order: map<Id, nat>, b: Id, n: nat)
    requires Rooted(db, order) && b in db.branches
    ensures Ancestor(db, b, n + 1) != Some(b)
    ensures Ancestor(db, b, n + 1).Some? ==> Ancestor(db, b, n + 1).value in BranchesOf(db, db.branches[b].project)
  {
    if Ancestor(db, b, n + 1).Some? {
      AncestorsAreOlder(db, order, b, n);
    }
  }

  /** No branch descends from itself. */
  ghost predicate Acyclic(db: Db) {
    forall b, n: nat | n > 0 && b in db.branches :: Ancestor(db, b, n) != Some(b)
  }

  lemma TreesAreAcyclic(db: Db, order: map<Id, nat>)
    requires TreeOk(db, order)
    ensures Acyclic(db)
  {
    forall b, n: nat | n > 0 && b in db.branches ensures Ancestor(db, b, n) != Some(b) {
      NoBranchIsItsOwnAncestor(db, order, b, n - 1);
    }
  }

  // ---- what each catalog transaction does to the tree

  lemma InsertProjectKeepsTree(db: Db, order: map<Id, nat>, pid: Id, p: Project, bid: Id, name: string,
      timeline: Id, eid: Id, ep: Endpoint, n: nat)
    requires TreeAt(db, order, n) && ep.branch == bid
    ensures var r := InsertProject(db, pid, p, bid, Branch(pid, name, timeline, None, true), eid, ep);
            r.Ok? ==> r.value != db && TreeAt(r.value, order[bid := n], n + 1)
  {
    var b := Branch(pid, name, timeline, None, true);
    var r := InsertProject(db, pid, p, bid, b, eid, ep);
    InsertProjectKeepsSchema(db, pid, p, bid, b, eid, ep);
    if r.Ok? {
      TreeAfterProject(db, r.value, order, pid, bid, b, eid, n);
    }
  }

  lemma TreeAfterProject(db: Db, d: Db, order: map<Id, nat>, pid: Id, bid: Id, b: Branch, eid: Id, n: nat)
    requires References(db) && OneDefault(db) && AllServed(db) && Rooted(db, order)
    requires d.projects.Keys == db.projects.Keys + {pid} && d.branches == db.branches[bid := b]
    requires pid !in db.projects && bid !in db.branches && eid !in db.endpoints && eid in d.endpoints
        && d.endpoints[eid].branch == bid
    requires d.endpoints == db.endpoints[eid := d.endpoints[eid]]
    requires b.project == pid && b.isDefault && b.parent.None?
    requires RanksBelow(db, order, n)
    ensures OneDefault(d) && AllServed(d) && Rooted(d, order[bid := n]) && RanksBelow(d, order[bid := n], n + 1)
    ensures d != db
  {
    RanksAfterInsert(db, d, order, bid, b, n);
    ServedAfterInsert(db, d, bid, eid);
    NewRootAfterInsert(db, d, order, bid, b, n);
    assert OneDefault(d) by { DefaultsAfterProject(db, d, pid, bid); }
  }

  lemma NewRootAfterInsert(db: Db, d: Db, order: map<Id, nat>, bid: Id, b: Branch, n: nat)
    requires Rooted(db, order) && RanksBelow(db, order, n) && d.branches == db.branches[bid := b]
    requires bid !in db.branches && b.parent.None?
    ensures Rooted(d, order[bid := n])
  {
    RootedAfterInsert(db, d, order, bid, b, n);
  }

  lemma RanksAfterInsert(db: Db, d: Db, order: map<Id, nat>, bid: Id, b: Branch, n: nat)
    requires RanksBelow(db, order, n) && d.branches == db.branches[bid := b] && bid !in db.branches
    ensures d != db && RanksBelow(d, order[bid := n], n + 1)
  {
    assert bid in d.branches;
  }

  lemma InsertBranchKeepsTree(db: Db, order: map<Id, nat>, bid: Id, pid: Id, name: string, timeline: Id, parent: Id,
      eid: Id, ep: Endpoint, n: nat)
    requires TreeAt(db, order, n) && ep.branch == bid && parent != bid
    requires parent in db.branches ==> db.branches[parent].project == pid
    ensures var r := InsertBranchAndEndpoint(db, bid, Branch(pid, name, timeline, Some(parent), false), eid, ep);
            r.Ok? ==> r.value != db && TreeAt(r.value, order[bid := n], n + 1)
  {
    var b := Branch(pid, name, timeline, Some(parent), false);
    var r := InsertBranchAndEndpoint(db, bid, b, eid, ep);
    InsertBranchKeepsSchema(db, bid, b, eid, ep);
    if r.Ok? {
      TreeAfterBranch(db, r.value, order, bid, b, eid, n);
    }
  }

  lemma TreeAfterBranch(db: Db, d: Db, order: map<Id, nat>, bid: Id, b: Branch, eid: Id, n: nat)
    requires OneDefault(db) && AllServed(db) && Rooted(db, order)
    requires d.projects == db.projects && d.branches == db.branches[bid := b]
    requires bid !in db.branches && eid !in db.endpoints && eid in d.endpoints && d.endpoints[eid].branch == bid
    requires d.endpoints == db.endpoints[eid := d.endpoints[eid]]
    requires b.parent.Some? && b.parent.value in db.branches && db.branches[b.parent.value].project == b.project
        && !b.isDefault
    requires RanksBelow(db, order, n)
    ensures OneDefault(d) && AllServed(d) && Rooted(d, order[bid := n]) && RanksBelow(d, order[bid := n], n + 1)
    ensures d != db
  {
    RanksAfterInsert(db, d, order, bid, b, n);
    assert AllServed(d) by { ServedAfterInsert(db, d, bid, eid); }
    assert Rooted(d, order[bid := n]) by { RootedAfterInsert(db, d, order, bid, b, n); }
    assert OneDefault(d) by { DefaultsAfterBranch(db, d, bid); }
  }

  lemma DefaultsAfterBranch(db: Db, d: Db, bid: Id)
    requires OneDefault(db) && bid !in db.branches && d.projects == db.projects
    requires bid in d.branches && !d.branches[bid].isDefault && d.branches == db.branches[bid := d.branches[bid]]
    ensures OneDefault(d)
  {
    SameDefaults(db, d);
  }

  lemma ServedAfterInsert(db: Db, d: Db, bid: Id, eid: Id)
    requires AllServed(db) && eid !in db.endpoints && eid in d.endpoints && d.endpoints[eid].branch == bid
    requires d.branches.Keys == db.branches.Keys + {bid}
    requires forall e :: e in db.endpoints ==> e in d.endpoints && d.endpoints[e] == db.endpoints[e]
    ensures AllServed(d)
  {
    forall b | b in d.branches ensures BranchServed(d, b) {
      if b == bid {
        assert eid in d.endpoints;
      } else {
        var e :| e in db.endpoints && db.endpoints[e].branch == b;
        assert e in d.endpoints && d.endpoints[e].branch == b;
      }
    }
  }

  lemma RootedAfterInsert(db: Db, d: Db, order: map<Id, nat>, bid: Id, b: Branch, n: nat)
    requires Rooted(db, order) && bid !in db.branches && d.branches == db.branches[bid := b]
    requires b.parent.Some? ==> b.parent.value in db.branches && db.branches[b.parent.value].project == b.project
    requires RanksBelow(db, order, n)
    ensures Rooted(d, order[bid := n])
  {
    forall a | a in d.branches ensures ParentOk(d, order[bid := n], a) {
      assert a != bid ==> ParentOk(db, order, a);
    }
  }

  lemma DefaultsAfterProject(db: Db, d: Db, pid: Id, bid: Id)
    requires OneDefault(db) && References(db) && pid !in db.projects && d.projects.Keys == db.projects.Keys + {pid}
    requires bid in d.branches && d.branches[bid].project == pid && d.branches[bid].isDefault
    requires d.branches == db.branches[bid := d.branches[bid]] && bid !in db.branches
    ensures OneDefault(d)
  {
    forall p | p in d.projects ensures exists b :: IsDefaultOf(d, b, p) {
      if p == pid {
        assert IsDefaultOf(d, bid, p);
      } else {
        var b :| IsDefaultOf(db, b, p);
        assert IsDefaultOf(d, b, p);
      }
    }
    forall a, b, p | IsDefaultOf(d, a, p) && IsDefaultOf(d, b, p) ensures a == b {
      assert p != pid ==> IsDefaultOf(db, a, p) && IsDefaultOf(db, b, p);
      assert p == pid ==> a !in db.branches && b !in db.branches;
    }
  }

  /** Adding or removing branches that are not defaults. */
  lemma SameDefaults(db: Db, d: Db)
    requires OneDefault(db) && d.projects.Keys <= db.projects.Keys
    requires forall b :: b in d.branches && d.branches[b].isDefault ==>
      b in db.branches && db.branches[b].isDefault && db.branches[b].project == d.branches[b].project
    requires forall b :: b in db.branches && db.branches[b].isDefault && db.branches[b].project in d.projects ==>
      b in d.branches && d.branches[b].isDefault && db.branches[b].project == d.branches[b].project
    ensures OneDefault(d)
  {
    forall p | p in d.projects ensures exists b :: IsDefaultOf(d, b, p) {
      var b :| IsDefaultOf(db, b, p);
      assert IsDefaultOf(d, b, p);
    }
    forall a, b, p | IsDefaultOf(d, a, p) && IsDefaultOf(d, b, p) ensures a == b {
      assert IsDefaultOf(db, a, p) && IsDefaultOf(db, b, p);
    }
  }

  lemma DropKeepsServedAndRooted(db: Db, d: Db, order: map<Id, nat>, gone: set<Id>)
    requires AllServed(db) && Rooted(db, order)
    requires d.branches == DropBranches(db, gone).branches && d.endpoints == DropBranches(db, gone).endpoints
    ensures AllServed(d) && Rooted(d, order)
  {
    forall b | b in d.branches ensures BranchServed(d, b) {
      var e :| e in db.endpoints && db.endpoints[e].branch == b;
      assert e in d.endpoints;
    }
    forall b | b in d.branches ensures ParentOk(d, order, b) {
      assert ParentOk(db, order, b);
    }
  }

  lemma RemoveBranchKeepsDefaults(db: Db, bid: Id)
    requires OneDefault(db) && (bid in db.branches ==> !db.branches[bid].isDefault)
    ensures OneDefault(RemoveBranch(db, bid))
  {
    SameDefaults(db, RemoveBranch(db, bid));
  }

  lemma RemoveProjectKeepsDefaults(db: Db, pid: Id)
    requires OneDefault(db)
    ensures OneDefault(RemoveProject(db, pid))
  {
    SameDefaults(db, RemoveProject(db, pid));
  }

  /** Deleting a branch that is not the default one. */
  lemma RemoveBranchKeepsTree(db: Db, order: map<Id, nat>, bid: Id)
    requires TreeOk(db, order) && (bid in db.branches ==> !db.branches[bid].isDefault)
    ensures TreeOk(RemoveBranch(db, bid), order)
  {
    var d := RemoveBranch(db, bid);
    assert References(d) && Unique(d) by { RemoveBranchKeepsSchema(db, bid); }
    assert AllServed(d) && Rooted(d, order) by { DropKeepsServedAndRooted(db, d, order, {bid}); }
    assert OneDefault(d) by { RemoveBranchKeepsDefaults(db, bid); }
  }

  lemma RemoveProjectKeepsTree(db: Db, order: map<Id, nat>, pid: Id)
    requires TreeOk(db, order)
    ensures TreeOk(RemoveProject(db, pid), order)
  {
    var d := RemoveProject(db, pid);
    if pid in db.projects {
      assert References(d) && Unique(d) by { RemoveProjectKeepsSchema(db, pid); }
      assert AllServed(d) && Rooted(d, order) by { DropKeepsServedAndRooted(db, d, order, BranchesOf(db, pid)); }
      assert OneDefault(d) by { RemoveProjectKeepsDefaults(db, pid); }
    }
  }
}
