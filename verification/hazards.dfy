/** Runs of the two other hazardous writes: what they do to a live owner and to a running row. */
module Hazards {
  import opened Base
  import opened Address
  import opened Database
  import opened Cluster
  import opened Lifecycle
  import opened SingleFlight
  import opened Convergence
  import opened Starts
  import opened Restart

  /** Thread `t`, begun at this instant, stands at `pc` with its endpoint's row and objects as in `c`. */
  ghost predicate Stood(z: Sys, t: Tid, e: Id, pc: Pc, c: Cell) {
    && t in z.threads && z.threads[t] == Thread(e, pc, z.now, z.now) && CellOf(z, e) == c && z.cfg.readyTimeout >= 0
  }

  /** The other threads and the settings are as before. */
  ghost predicate RestSame(s: Sys, z: Sys, t: Tid) {
    z.threads.Keys == s.threads.Keys + {t} && z.now == s.now && forall u :: u in s.threads && u != t ==>
        z.threads[u] == s.threads[u]
  }

  lemma Comes(states: seq<Sys>, labels: seq<Label>, t: Tid, e: Id, c: Cell) returns (ss: seq<Sys>, ls: seq<Label>)
    requires IsRun(states, labels) && t !in states[|labels|].threads
    requires CellOf(states[|labels|], e) == c && states[|labels|].cfg.readyTimeout >= 0
    ensures IsRun(ss, ls) && ss[0] == states[0] && Stood(ss[|ls|], t, e, Top, c)
        && RestSame(states[|labels|], ss[|ls|], t)
  {
    Extend(states, labels, Wake(t, e));
    ss, ls := states + [Apply(states[|labels|], Wake(t, e))], labels + [Wake(t, e)];
  }

  /** A waker's next step, no time passing. */
  lemma Hops(states: seq<Sys>, labels: seq<Label>, t: Tid, e: Id, pc: Pc, c: Cell)
    returns (ss: seq<Sys>, ls: seq<Label>)
    requires IsRun(states, labels) && Stood(states[|labels|], t, e, pc, c) && IsWake(pc)
    ensures IsRun(ss, ls) && ss[0] == states[0] && RestSame(states[|labels|], ss[|ls|], t)
    ensures var (z, m) := (states[|labels|],
        WakeMove(pc, c, states[|labels|].now, states[|labels|].now, states[|labels|].cfg, Fine));
      Stood(ss[|ls|], t, e, m.pc, m.cell)
  {
    var z := states[|labels|];
    assert Move(z, z.threads[t], Fine) == WakeMove(pc, c, z.now, z.now, z.cfg, Fine);
    ss, ls := ActOn(states, labels, t, Fine);
  }

  // ---- the sweep's repair

  /** A sweep sees the running endpoint without a pod and is about to repair the row. */
  lemma SweepsMissingPod(s: Sys, t: Tid, e: Id) returns (states: seq<Sys>, labels: seq<Label>)
    requires t !in s.threads && InState(CellOf(s, e).row, Running) && CellOf(s, e).pod.None?
    ensures IsRun(states, labels) && states[0] == s && RestSame(s, states[|labels|], t)
    ensures var z := states[|labels|];
      t in z.threads && z.threads[t].ep == e && z.threads[t].pc == SweepRepair && CellOf(z, e) == CellOf(s, e)
          && z.cfg == s.cfg
  {
    var z := Lists(s, t, e);
    states, labels := ActOn([s, z], [Sweep(t, e)], t, Fine);
  }

  lemma Lists(s: Sys, t: Tid, e: Id) returns (z: Sys)
    requires t !in s.threads && InState(CellOf(s, e).row, Running)
    ensures Enabled(s, Sweep(t, e)) && z == Apply(s, Sweep(t, e)) && IsRun([s, z], [Sweep(t, e)])
    ensures z.threads == s.threads[t := Thread(e, SweepStatus(CellOf(s, e).row.value), s.now, s.now)]
    ensures CellOf(z, e) == CellOf(s, e) && z.now == s.now && z.cfg == s.cfg
  {
    z := Apply(s, Sweep(t, e));
  }

  /** A waker sees the same, repairs the row itself and goes round. */
  lemma WakerRepairs(states: seq<Sys>, labels: seq<Label>, u: Tid, e: Id, c: Cell)
    returns (ss: seq<Sys>, ls: seq<Label>, d: Cell)
    requires IsRun(states, labels) && Stood(states[|labels|], u, e, Top, c) && InState(c.row, Running) && c.pod.None?
    ensures IsRun(ss, ls) && ss[0] == states[0] && RestSame(states[|labels|], ss[|ls|], u)
    ensures Stood(ss[|ls|], u, e, Top, d) && InState(d.row, Suspended)
  {
    ss, ls := Hops(states, labels, u, e, Top, c);
    ss, ls := Hops(ss, ls, u, e, Read, c);
    ss, ls := Hops(ss, ls, u, e, Verify(c.row.value.addr), c);
    d := c.(row := CasRow(c.row, Running, Suspended, states[|labels|].now));
    ss, ls := Hops(ss, ls, u, e, Repair, c);
  }

  lemma WakerWins(states: seq<Sys>, labels: seq<Label>, u: Tid, e: Id, c: Cell)
    returns (ss: seq<Sys>, ls: seq<Label>, d: Cell)
    requires IsRun(states, labels) && Stood(states[|labels|], u, e, Top, c) && InState(c.row, Suspended)
    ensures IsRun(ss, ls) && ss[0] == states[0] && RestSame(states[|labels|], ss[|ls|], u)
    ensures Stood(ss[|ls|], u, e, Own(states[|labels|].now, SpecAccess), d) && InState(d.row, Starting)
  {
    ss, ls := Hops(states, labels, u, e, Top, c);
    ss, ls := Hops(ss, ls, u, e, Read, c);
    d := c.(row := CasRow(c.row, Suspended, Starting, states[|labels|].now));
    ss, ls := Hops(ss, ls, u, e, CasSuspended, c);
  }

  /**
   * From every running row whose pod is lost: the sweep and a waker both see it, the waker
   * repairs the row and wins it, and the sweep's repair suspends it under the live owner.
   */
  lemma RepairOverwritesOwner(s: Sys, t: Tid, u: Tid, e: Id) returns (states: seq<Sys>, labels: seq<Label>)
    requires t != u && t !in s.threads && u !in s.threads && s.cfg.readyTimeout >= 0
    requires InState(CellOf(s, e).row, Running) && CellOf(s, e).pod.None?
    ensures IsRun(states, labels) && states[0] == s
    ensures Owns(states[|labels|], u, e) && InState(CellOf(states[|labels|], e).row, Suspended)
        && !Exclusive(states[|labels|])
  {
    var c;
    states, labels := SweepsMissingPod(s, t, e);
    states, labels := Comes(states, labels, u, e, CellOf(s, e));
    states, labels, c := WakerRepairs(states, labels, u, e, CellOf(s, e));
    states, labels, c := WakerWins(states, labels, u, e, c);
    states, labels := SweepOverwrites(states, labels, t, u, e);
  }

  lemma SweepOverwrites(states: seq<Sys>, labels: seq<Label>, t: Tid, u: Tid, e: Id)
    returns (ss: seq<Sys>, ls: seq<Label>)
    requires IsRun(states, labels) && t != u && Owns(states[|labels|], u, e) && CellOf(states[|labels|], e).row.Some?
    requires var z := states[|labels|]; t in z.threads && z.threads[t].ep == e && z.threads[t].pc == SweepRepair
    ensures IsRun(ss, ls) && ss[0] == states[0]
    ensures Owns(ss[|ls|], u, e) && InState(CellOf(ss[|ls|], e).row, Suspended) && !Exclusive(ss[|ls|])
  {
    var z := states[|labels|];
    assert Move(z, z.threads[t], Fine) == SweepMove(SweepRepair, CellOf(z, e), z.now, Fine);
    ss, ls := ActOn(states, labels, t, Fine);
    assert Owns(ss[|ls|], u, e);
  }

  // ---- the lost reply

  /** The failure path of an owner whose row is running already: it stops the pod and leaves the row. */
  lemma FailsOverRunning(states: seq<Sys>, labels: seq<Label>, t: Tid, e: Id, since: Time)
    returns (ss: seq<Sys>, ls: seq<Label>)
    requires IsRun(states, labels) && t in states[|labels|].threads && states[|labels|].threads[t].ep == e
    requires states[|labels|].threads[t].pc == Own(since, FailPod) && InState(CellOf(states[|labels|], e).row, Running)
    ensures IsRun(ss, ls) && ss[0] == states[0]
    ensures var z := ss[|ls|];
      && t in z.threads && z.threads[t].pc == Done(None)
      && InState(CellOf(z, e).row, Running) && CellOf(z, e).pod.None? && CellOf(z, e).cm.None?
  {
    ss, ls := StopsAll(states, labels, t, e, since);
    ss, ls := ActOn(ss, ls, t, Fine);
  }

  lemma StopsAll(states: seq<Sys>, labels: seq<Label>, t: Tid, e: Id, since: Time)
    returns (ss: seq<Sys>, ls: seq<Label>)
    requires IsRun(states, labels) && t in states[|labels|].threads && states[|labels|].threads[t].ep == e
    requires states[|labels|].threads[t].pc == Own(since, FailPod)
    ensures IsRun(ss, ls) && ss[0] == states[0]
    ensures var z := ss[|ls|];
      && t in z.threads && z.threads[t].ep == e && z.threads[t].pc == Own(since, FailMark)
      && CellOf(z, e) == Cell(CellOf(states[|labels|], e).row, None, None)
  {
    ss, ls := ActOn(states, labels, t, Fine);
    ss, ls := ActOn(ss, ls, t, Fine);
  }

  /**
   * From a suspended endpoint without objects: one waker, one lost reply, that of
   * SetEndpointRunning. The call fails, and leaves the row running without a pod.
   */
  lemma LostReplyLeavesNoPod(s: Sys, e: Id, ac: AccessControl, ip: string, t: Tid)
    returns (states: seq<Sys>, labels: seq<Label>)
    requires InState(CellOf(s, e).row, Suspended) && CellOf(s, e).pod.None? && CellOf(s, e).cm.None? && ip != ""
    requires Untouched(s, e) && AccessControlOf(s.db, e) == Some(ac) && t !in s.threads
    requires s.db.endpoints.Keys <= s.hist.endpoints.Keys && s.cfg.readyTimeout > 0
    ensures IsRun(states, labels) && states[0] == s
    ensures var z := states[|labels|];
      t in z.threads && z.threads[t].pc == Done(None) && InState(CellOf(z, e).row, Running) && CellOf(z, e).pod.None?
  {
    var p := Place(e, ac, s.now, s.cfg);
    var c := CellOf(s, e);
    assert Here(p, [s], [], c, s.starts[e]);
    states, labels, c := ComesToSet(p, [s], [], c, s.starts[e], t, ip);
    var z := states[|labels|];
    assert Move(z, z.threads[t], Lost) == ReadyMove(p.now, SetRunning(ip), c, z.now, Lost);
    states, labels := ActOn(states, labels, t, Lost);
    states, labels := FailsOverRunning(states, labels, t, e, p.now);
  }
}
