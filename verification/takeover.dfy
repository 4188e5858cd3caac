/**
 * Takeovers of stale rows. They are safe exactly as far as the timeout assumption behind
 * them goes: owners act within STALE_AFTER of their compare-and-swap, and one waker at a
 * time holds a takeover decision. Without the second assumption two wakers both win.
 */
module Takeover {
  import opened Base
  import opened Database
  import opened Lifecycle
  import opened SingleFlight

  function Since(pc: Pc): Time
    requires Claim(pc).Some?
  {
    pc.since
  }

  /** Every live owner made its compare-and-swap at most STALE_AFTER ago. */
  ghost predicate Timely(s: Sys) {
    forall t :: t in s.threads && Claim(s.threads[t].pc).Some? ==> s.now - Since(s.threads[t].pc) <= STALE_AFTER
  }

  ghost predicate Deciding(s: Sys, t: Tid, e: Id) {
    t in s.threads && s.threads[t].ep == e && (s.threads[t].pc.TakeStarting? || s.threads[t].pc.TakeSuspending?)
  }

  ghost predicate SoleDecision(s: Sys) {
    forall t, u, e :: Deciding(s, t, e) && Deciding(s, u, e) ==> t == u
  }

  /** The row of an owned endpoint was last written by the owner's compare-and-swap. */
  ghost predicate Stamped(s: Sys) {
    forall t :: t in s.threads && Claim(s.threads[t].pc).Some? ==>
      var row := CellOf(s, s.threads[t].ep).row;
      row.Some? ==> row.value.updated == Since(s.threads[t].pc)
  }

  /** While a waker holds a takeover decision, the endpoint has no owner and its row stays abandoned. */
  ghost predicate Vacant(s: Sys) {
    forall t, e :: Deciding(s, t, e) ==>
      var row := CellOf(s, e).row;
      e in s.hist.endpoints && (row.Some? ==>
          !HasOwner(s, e) && (row.value.state == Starting || row.value.state == Suspending))
  }

  ghost predicate Safe(s: Sys) { Exclusive(s) && KnowsEndpoints(s) && Stamped(s) && Vacant(s) }

  /** What an Act step does to the stamp and to decisions. */
  predicate StampShape(s: Sys, pc: Pc, row: Option<Endpoint>, pc': Pc, row': Option<Endpoint>) {
    && (Claim(pc').Some? && Claim(pc).None? ==> row'.Some? && row'.value.updated == Since(pc') == s.now)
    && (Claim(pc').Some? && Claim(pc).Some? ==> Since(pc') == Since(pc))
    && ((pc'.TakeStarting? || pc'.TakeSuspending?) ==>
          row' == row &&
          (pc.TakeStarting? || (pc.Read? && row.Some? && Stale(row.value, s.now)
              && (row.value.state == Starting || row.value.state == Suspending))))
  }

  lemma MovesStamp(s: Sys, th: Thread, out: Out)
    requires !th.pc.Done?
    ensures StampShape(s, th.pc, CellOf(s, th.ep).row, Move(s, th, out).pc, Move(s, th, out).cell.row)
  {
    var c := CellOf(s, th.ep);
    if th.pc.Own? {
      OwnerMovesStamp(th.pc.since, th.pc.job, c, th.ep, s, out);
    } else if th.pc.Susp? {
      assert Move(s, th, out) == SuspendMove(th.pc.since, th.pc.task, c, s.now, out);
    }
  }

  lemma OwnerMovesStamp(since: Time, job: Job, c: Cell, e: Id, s: Sys, out: Out)
    ensures var m := OwnerMove(since, job, c, e, s, out);
            StampShape(s, Own(since, job), c.row, m.pc, m.cell.row)
  {
  }

  /** One step of a run in which the assumptions hold. */
  lemma StepStaysSafe(s: Sys, l: Label)
    requires Safe(s) && Timely(s) && SoleDecision(s) && Enabled(s, l)
    requires !Overwrites(s, l) && !LosesRunning(s, l)
    requires SoleDecision(Apply(s, l))
    ensures !Displaces(s, l) && Safe(Apply(s, l))
  {
    StepKeepsKnown(s, l);
    if l.Act? {
      TakeoverMeetsNoOwner(s, l);
      OwnershipKeptExactly(s, l);
      ActStaysSafe(s, l.t, l.out);
    } else {
      OwnershipKeptExactly(s, l);
      EnvironmentStaysSafe(s, l);
    }
  }

  /** A takeover never displaces a live owner. */
  lemma TakeoverMeetsNoOwner(s: Sys, l: Label)
    requires Vacant(s) && Enabled(s, l)
    ensures TakesOver(s, l) ==> !HasOwner(s, s.threads[l.t].ep)
  {
    if TakesOver(s, l) {
      assert Deciding(s, l.t, s.threads[l.t].ep);
    }
  }

  lemma ActStaysSafe(s: Sys, t: Tid, out: Out)
    requires Safe(s) && Timely(s) && SoleDecision(s) && Enabled(s, Act(t, out))
    requires !Hazard(s, Act(t, out)) || TakesOver(s, Act(t, out))
    requires Exclusive(Apply(s, Act(t, out))) && SoleDecision(Apply(s, Act(t, out)))
    ensures Stamped(Apply(s, Act(t, out))) && Vacant(Apply(s, Act(t, out)))
  {
    ActShape(s, t, out);
    ActedCells(s, t, out);
    MovesStamp(s, s.threads[t], out);
    var (s', e) := (Apply(s, Act(t, out)), s.threads[t].ep);
    assert Claim(s.threads[t].pc).Some? ==> Owns(s, t, e);
    forall u | u in s'.threads && Claim(s'.threads[u].pc).Some?
      ensures var row := CellOf(s', s'.threads[u].ep).row;
              row.Some? ==> row.value.updated == Since(s'.threads[u].pc)
    {
      assert Owns(s', u, s'.threads[u].ep);
      if u != t && s'.threads[u].ep == e {
        OwnedRowUntouched(s, t, out, u);
      } else if u == t {
        assert Claim(s.threads[t].pc).Some? ==> s.threads[t].pc.Own? || s.threads[t].pc.Susp?;
      }
    }
    forall u, d | Deciding(s', u, d)
      ensures var row := CellOf(s', d).row;
              d in s'.hist.endpoints && (row.Some? ==>
                  !HasOwner(s', d) && (row.value.state == Starting || row.value.state == Suspending))
    {
      if u != t {
        assert Deciding(s, u, d);
        if d == e { OthersDecisionUntouched(s, t, out, u); }
        NoNewOwner(s, t, out, u, d);
      } else {
        DecisionIsSound(s, t, out);
      }
    }
  }

  /** A step by another thread does not touch an owned row. */
  lemma OwnedRowUntouched(s: Sys, t: Tid, out: Out, u: Tid)
    requires Safe(s) && Enabled(s, Act(t, out)) && (!Hazard(s, Act(t, out)) || TakesOver(s, Act(t, out)))
    requires u != t && Owns(s, u, s.threads[t].ep)
    ensures CellOf(Apply(s, Act(t, out)), s.threads[t].ep).row == CellOf(s, s.threads[t].ep).row
  {
    ActShape(s, t, out);
    TakeoverMeetsNoOwner(s, Act(t, out));
    assert !Owns(s, t, s.threads[t].ep);
  }

  /** A step by another thread leaves the row of an endpoint under decision in place. */
  lemma OthersDecisionUntouched(s: Sys, t: Tid, out: Out, u: Tid)
    requires Safe(s) && SoleDecision(s) && Enabled(s, Act(t, out))
        && (!Hazard(s, Act(t, out)) || TakesOver(s, Act(t, out)))
    requires u != t && Deciding(s, u, s.threads[t].ep)
    ensures CellOf(s, s.threads[t].ep).row.Some? ==>
      CellOf(Apply(s, Act(t, out)), s.threads[t].ep).row == CellOf(s, s.threads[t].ep).row
  {
    ActShape(s, t, out);
    var e := s.threads[t].ep;
    assert !Deciding(s, t, e);
    assert CellOf(s, e).row.Some? ==> !Owns(s, t, e);
  }

  lemma NoNewOwner(s: Sys, t: Tid, out: Out, u: Tid, d: Id)
    requires Safe(s) && SoleDecision(s) && Enabled(s, Act(t, out))
    requires u != t && Deciding(s, u, d)
    ensures CellOf(Apply(s, Act(t, out)), d).row.Some? ==> !HasOwner(Apply(s, Act(t, out)), d)
  {
    ActShape(s, t, out);
    var s' := Apply(s, Act(t, out));
    if CellOf(s', d).row.Some? {
      assert CellOf(s, d).row.Some?;
      assert !Deciding(s, t, d);
      forall v ensures !Owns(s', v, d) {
        assert !Owns(s, v, d);
      }
    }
  }

  /** A decision is only taken, or kept, on a row without an owner. */
  lemma DecisionIsSound(s: Sys, t: Tid, out: Out)
    requires Safe(s) && Timely(s) && Enabled(s, Act(t, out))
    requires Deciding(Apply(s, Act(t, out)), t, s.threads[t].ep)
    ensures var (s', e) := (Apply(s, Act(t, out)), s.threads[t].ep);
            var row := CellOf(s', e).row;
            e in s'.hist.endpoints && (row.Some? ==>
                !HasOwner(s', e) && (row.value.state == Starting || row.value.state == Suspending))
  {
    ActShape(s, t, out);
    ActedCells(s, t, out);
    MovesStamp(s, s.threads[t], out);
    var (s', e) := (Apply(s, Act(t, out)), s.threads[t].ep);
    if CellOf(s, e).row.Some? {
      forall v ensures !Owns(s', v, e) {
        if s.threads[t].pc.TakeStarting? {
          assert Deciding(s, t, e);
        }
        assert Owns(s', v, e) ==> Owns(s, v, e);
      }
    }
    if s.threads[t].pc.TakeStarting? {
      assert Deciding(s, t, e);
    }
  }

  lemma EnvironmentStaysSafe(s: Sys, l: Label)
    requires Safe(s) && Enabled(s, l) && !l.Act?
    ensures Stamped(Apply(s, l)) && Vacant(Apply(s, l))
  {
    var s' := Apply(s, l);
    StepKeepsKnown(s, l);
    forall u | u in s'.threads && Claim(s'.threads[u].pc).Some?
      ensures var row := CellOf(s', s'.threads[u].ep).row;
              row.Some? ==> row.value.updated == Since(s'.threads[u].pc)
    {
      assert u in s.threads && s.threads[u] == s'.threads[u];
      OtherStepsKeepRows(s, l, s'.threads[u].ep);
    }
    forall u, d | Deciding(s', u, d)
      ensures var row := CellOf(s', d).row;
              d in s'.hist.endpoints && (row.Some? ==>
                  !HasOwner(s', d) && (row.value.state == Starting || row.value.state == Suspending))
    {
      assert Deciding(s, u, d);
      OtherStepsKeepRows(s, l, d);
      assert forall v :: Owns(s', v, d) ==> Owns(s, v, d);
    }
  }

  ghost predicate NobodyDecides(s: Sys) { forall t, e :: !Deciding(s, t, e) }

  /**
   * Single flight with takeovers, under every interleaving and with owners that crash at any
   * point: if live owners are never older than STALE_AFTER and no two wakers hold a takeover
   * decision on the same endpoint at once, no takeover meets a live owner.
   */
  lemma {:induction false} SafeTakeoverTheorem(states: seq<Sys>, labels: seq<Label>)
    requires IsRun(states, labels)
    requires NobodyOwns(states[0]) && NobodyDecides(states[0]) && KnowsEndpoints(states[0])
    requires forall i | 0 <= i < |states| :: Timely(states[i]) && SoleDecision(states[i])
    requires forall i | 0 <= i < |labels| :: !Overwrites(states[i], labels[i]) && !LosesRunning(states[i], labels[i])
    ensures forall i | 0 <= i < |states| :: Exclusive(states[i])
    ensures forall i | 0 <= i < |labels| :: TakesOver(states[i], labels[i]) ==>
        !HasOwner(states[i], states[i].threads[labels[i].t].ep)
  {
    for n := 0 to |labels|
      invariant forall i | 0 <= i <= n :: Safe(states[i])
    {
      assert states[n + 1] == Apply(states[n], labels[n]) && SoleDecision(states[n + 1]);
      StepStaysSafe(states[n], labels[n]);
    }
    forall i | 0 <= i < |labels| && TakesOver(states[i], labels[i])
      ensures !HasOwner(states[i], states[i].threads[labels[i].t].ep)
    {
      TakeoverMeetsNoOwner(states[i], labels[i]);
    }
  }

  // ---- the assumption is needed

  /** A waker that arrives at a stale `starting` row decides to take it over. */
  lemma DecideTakeover(s: Sys, t: Tid, e: Id) returns (states: seq<Sys>, labels: seq<Label>)
    requires t !in s.threads && s.cfg.readyTimeout >= 0
    requires InState(CellOf(s, e).row, Starting) && Stale(CellOf(s, e).row.value, s.now)
    ensures IsRun(states, labels) && states[0] == s
    ensures Decided(s, t, e, states[|labels|])
  {
    var s1 := Arrive(s, t, e);
    var s2 := OneMove(s1, t, Read);
    var s3 := OneMove(s2, t, TakeStarting);
    states, labels := [s, s1, s2, s3], [Wake(t, e), Act(t, Fine), Act(t, Fine)];
  }

  ghost predicate Decided(s: Sys, t: Tid, e: Id, z: Sys) {
    && z.now == s.now && z.cfg == s.cfg && CellOf(z, e) == CellOf(s, e) && SameElsewhere(s, z)
    && z.threads == s.threads[t := Thread(e, TakeStarting, s.now, s.now)]
  }

  /** Catalog and counts of starts are the same. */
  ghost predicate SameElsewhere(s: Sys, z: Sys) {
    z.db.projects == s.db.projects && z.db.branches == s.db.branches && z.starts == s.starts
  }

  lemma Arrive(s: Sys, t: Tid, e: Id) returns (s': Sys)
    requires t !in s.threads
    ensures Enabled(s, Wake(t, e)) && s' == Apply(s, Wake(t, e))
    ensures s'.now == s.now && s'.cfg == s.cfg && s'.threads == s.threads[t := Thread(e, Top, s.now, s.now)]
    ensures CellOf(s', e) == CellOf(s, e) && SameElsewhere(s, s')
  {
    s' := Apply(s, Wake(t, e));
  }

  /** A move that only changes the position. */
  lemma OneMove(s: Sys, t: Tid, pc: Pc) returns (s': Sys)
    requires t in s.threads && (s.threads[t].pc.Top? || s.threads[t].pc.Read?)
    requires Move(s, s.threads[t], Fine) == Effect(CellOf(s, s.threads[t].ep), pc)
    ensures Enabled(s, Act(t, Fine)) && s' == Apply(s, Act(t, Fine))
    ensures s'.now == s.now && s'.cfg == s.cfg && s'.threads == s.threads[t := s.threads[t].(pc := pc, at := s.now)]
    ensures CellOf(s', s.threads[t].ep) == CellOf(s, s.threads[t].ep) && SameElsewhere(s, s')
  {
    s' := Apply(s, Act(t, Fine));
    ActedCells(s, t, Fine);
  }

  /** Both are at the start of what an owner does, on a row just taken over. */
  ghost predicate BothOwn(s: Sys, t: Tid, u: Tid, e: Id, z: Sys) {
    && t in z.threads && z.threads[t].ep == e && z.threads[t].pc == Own(s.now, ClearPod)
    && u in z.threads && z.threads[u].ep == e && z.threads[u].pc == Own(s.now, ClearPod)
    && InState(CellOf(z, e).row, Starting) && InState(CellOf(s, e).row, Starting)
    && CellOf(z, e).row.value.branch == CellOf(s, e).row.value.branch && SameElsewhere(s, z)
  }

  /**
   * From every state with a stale `starting` row, two wakers that both saw it stale both win
   * their compare-and-swap, starting -> starting, and both own the endpoint.
   */
  lemma TwoTakeoversOverlap(s: Sys, t: Tid, u: Tid, e: Id) returns (states: seq<Sys>, labels: seq<Label>)
    requires t != u && t !in s.threads && u !in s.threads && s.cfg.readyTimeout >= 0
    requires InState(CellOf(s, e).row, Starting) && Stale(CellOf(s, e).row.value, s.now)
    ensures IsRun(states, labels) && states[0] == s && BothOwn(s, t, u, e, states[|labels|])
    ensures Owns(states[|labels|], t, e) && Owns(states[|labels|], u, e) && !OneOwner(states[|labels|])
  {
    states, labels := BothDecide(s, t, u, e);
    var s2 := states[|labels|];
    states, labels := ActOn(states, labels, t, Fine);
    var s3 := states[|labels|];
    assert Follows(s2, s3, t, Move(s2, s2.threads[t], Fine));
    states, labels := ActOn(states, labels, u, Fine);
    assert Follows(s3, states[|labels|], u, Move(s3, s3.threads[u], Fine));
    assert Owns(states[|labels|], t, e) && Owns(states[|labels|], u, e);
  }

  lemma BothDecide(s: Sys, t: Tid, u: Tid, e: Id) returns (states: seq<Sys>, labels: seq<Label>)
    requires t != u && t !in s.threads && u !in s.threads && s.cfg.readyTimeout >= 0
    requires InState(CellOf(s, e).row, Starting) && Stale(CellOf(s, e).row.value, s.now)
    ensures IsRun(states, labels) && states[0] == s
    ensures var z := states[|labels|];
      && z.now == s.now && CellOf(z, e) == CellOf(s, e) && SameElsewhere(s, z)
      && z.threads == s.threads[t := Thread(e, TakeStarting, s.now, s.now)][u := Thread(e, TakeStarting, s.now, s.now)]
  {
    var ss, ls := DecideTakeover(s, t, e);
    var us, ms := DecideTakeover(ss[|ls|], u, e);
    Concat(ss, ls, us, ms);
    states, labels := ss + us[1..], ls + ms;
  }
}
