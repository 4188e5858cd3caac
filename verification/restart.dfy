/**
 * "Concurrent callers converge on a single start", where it fails: waitReady takes the word
 * of compute_ctl, Wake that of Kubernetes. Whether a running endpoint can be started again
 * although nothing goes wrong is decided by its pod and by the wakers about to repair it.
 */
module Restart {
  import opened Base
  import opened Address
  import opened Database
  import opened Cluster
  import opened Lifecycle
  import opened Convergence
  import opened Starts
  import opened SingleFlight

  // ---- growing a calm run

  lemma CalmExtends(states: seq<Sys>, labels: seq<Label>, e: Id, ac: AccessControl, l: Label)
    returns (ss: seq<Sys>, ls: seq<Label>)
    requires IsCalm(states, labels, e, ac) && Enabled(states[|labels|], l) && Smooth(states[|labels|], l, e)
    requires var z := Apply(states[|labels|], l); Prompt(z, e) && AccessControlOf(z.db, e) == Some(ac)
    ensures IsCalm(ss, ls, e, ac) && ss[0] == states[0] && ss[|ls|] == Apply(states[|labels|], l)
  {
    Extend(states, labels, l);
    ss, ls := states + [Apply(states[|labels|], l)], labels + [l];
    forall i | 0 <= i < |ss| ensures Prompt(ss[i], e) && AccessControlOf(ss[i].db, e) == Some(ac) {
      assert i <= |labels| ==> ss[i] == states[i];
    }
    forall i | 0 <= i < |ls| ensures Smooth(ss[i], ls[i], e) {
      assert ss[i] == states[i] && (i < |labels| ==> ls[i] == labels[i]);
    }
  }

  /** One endpoint and the instant at which everything happens. */
  datatype Place = Place(e: Id, ac: AccessControl, now: Time, cfg: Config)

  /** The calm run has come to a state with these objects and this many starts. */
  ghost predicate Here(p: Place, states: seq<Sys>, labels: seq<Label>, c: Cell, starts: int) {
    && IsCalm(states, labels, p.e, p.ac) && c.row.Some? && p.cfg.readyTimeout > 0
    && var z := states[|labels|];
       CellOf(z, p.e) == c && z.now == p.now && z.cfg == p.cfg && z.starts[p.e] == starts
  }

  /** And thread `t`, begun at this instant, stands at `pc`. */
  ghost predicate StandsAt(p: Place, states: seq<Sys>, labels: seq<Label>, c: Cell, starts: int, t: Tid, pc: Pc) {
    Here(p, states, labels, c, starts)
    && t in states[|labels|].threads && states[|labels|].threads[t] == Thread(p.e, pc, p.now, p.now)
  }

  /** The other threads are where they were. */
  ghost predicate OthersSame(s: Sys, z: Sys, t: Tid) {
    forall u :: u in s.threads && u != t ==> u in z.threads && z.threads[u] == s.threads[u]
  }

  lemma ActIsCalm(s: Sys, s': Sys, e: Id, ac: AccessControl, t: Tid, m: Effect)
    requires Prompt(s, e) && AccessControlOf(s.db, e) == Some(ac) && t in s.threads && s.threads[t].ep == e
    requires Follows(s, s', t, m) && s.cfg.readyTimeout > 0
    requires m.cell.row.Some? && m.cell.row.value.branch == s.db.endpoints[e].branch
    requires m.pc.Own? ==> m.pc.since == s.now || (s.threads[t].pc.Own? && m.pc.since == s.threads[t].pc.since)
    ensures Prompt(s', e) && AccessControlOf(s'.db, e) == Some(ac)
  {
    assert CellOf(s', e).row == Some(s'.db.endpoints[e]);
  }

  /** One step of a thread of the endpoint. */
  lemma CalmlyActs(p: Place, states: seq<Sys>, labels: seq<Label>, c: Cell, starts: int, t: Tid, out: Out, m: Effect)
    returns (ss: seq<Sys>, ls: seq<Label>)
    requires Here(p, states, labels, c, starts) && Enabled(states[|labels|], Act(t, out))
    requires states[|labels|].threads[t].ep == p.e && Succeeds(states[|labels|].threads[t].pc, out)
    requires m == Move(states[|labels|], states[|labels|].threads[t], out)
    requires m.cell.row.Some? && m.cell.row.value.branch == c.row.value.branch
    requires m.pc.Own? ==>
      m.pc.since == p.now || (states[|labels|].threads[t].pc.Own? && m.pc.since == states[|labels|].threads[t].pc.since)
    ensures var pc := states[|labels|].threads[t].pc;
      Here(p, ss, ls, m.cell, starts + if pc.Own? && pc.job.PutNewConfig? then 1 else 0) && ss[0] == states[0]
    ensures ss[|ls|].threads == states[|labels|].threads[t := states[|labels|].threads[t].(pc := m.pc, at := p.now)]
  {
    var z := states[|labels|];
    assert c.row == Some(z.db.endpoints[p.e]);
    ActFollows(z, t, out);
    ActIsCalm(z, Apply(z, Act(t, out)), p.e, p.ac, t, m);
    ss, ls := CalmExtends(states, labels, p.e, p.ac, Act(t, out));
  }

  lemma WakerActs(p: Place, states: seq<Sys>, labels: seq<Label>, c: Cell, starts: int, t: Tid, pc: Pc)
    returns (ss: seq<Sys>, ls: seq<Label>)
    requires StandsAt(p, states, labels, c, starts, t, pc) && IsWake(pc)
    ensures var m := WakeMove(pc, c, p.now, p.now, p.cfg, Fine);
      StandsAt(p, ss, ls, m.cell, starts, t, m.pc) && ss[0] == states[0]
    ensures OthersSame(states[|labels|], ss[|ls|], t)
  {
    var m := WakeMove(pc, c, p.now, p.now, p.cfg, Fine);
    assert m == Move(states[|labels|], states[|labels|].threads[t], Fine);
    ss, ls := CalmlyActs(p, states, labels, c, starts, t, Fine, m);
  }

  lemma OwnerActs(p: Place, states: seq<Sys>, labels: seq<Label>, c: Cell, starts: int, t: Tid, job: Job, out: Out)
    returns (ss: seq<Sys>, ls: seq<Label>, m: Effect)
    requires StandsAt(p, states, labels, c, starts, t, Own(p.now, job)) && Succeeds(Own(p.now, job), out)
    requires var r := OwnerMove(p.now, job, c, p.e, states[|labels|], out).cell.row;
      r.Some? && r.value.branch == c.row.value.branch
    ensures m == OwnerMove(p.now, job, c, p.e, states[|labels|], out)
    ensures StandsAt(p, ss, ls, m.cell, starts + if job.PutNewConfig? then 1 else 0, t, m.pc) && ss[0] == states[0]
    ensures OthersSame(states[|labels|], ss[|ls|], t)
  {
    m := OwnerMove(p.now, job, c, p.e, states[|labels|], out);
    assert m == Move(states[|labels|], states[|labels|].threads[t], out);
    ss, ls := CalmlyActs(p, states, labels, c, starts, t, out, m);
  }

  lemma Arrives(p: Place, states: seq<Sys>, labels: seq<Label>, c: Cell, starts: int, t: Tid)
    returns (ss: seq<Sys>, ls: seq<Label>)
    requires Here(p, states, labels, c, starts) && t !in states[|labels|].threads
    ensures StandsAt(p, ss, ls, c, starts, t, Top) && ss[0] == states[0]
    ensures ss[|ls|].threads.Keys == states[|labels|].threads.Keys + {t}
    ensures OthersSame(states[|labels|], ss[|ls|], t)
  {
    ss, ls := CalmExtends(states, labels, p.e, p.ac, Wake(t, p.e));
  }

  // ---- from the loop to a start

  lemma WinsSuspended(p: Place, states: seq<Sys>, labels: seq<Label>, c: Cell, starts: int, t: Tid)
    returns (ss: seq<Sys>, ls: seq<Label>, d: Cell)
    requires StandsAt(p, states, labels, c, starts, t, Top) && InState(c.row, Suspended)
    ensures StandsAt(p, ss, ls, d, starts, t, Own(p.now, SpecAccess)) && ss[0] == states[0]
    ensures InState(d.row, Starting) && d.pod == c.pod && d.cm == c.cm
    ensures OthersSame(states[|labels|], ss[|ls|], t)
  {
    ss, ls := WakerActs(p, states, labels, c, starts, t, Top);
    ss, ls := WakerActs(p, ss, ls, c, starts, t, Read);
    ss, ls := WakerActs(p, ss, ls, c, starts, t, CasSuspended);
    d := WakeMove(CasSuspended, c, p.now, p.now, p.cfg, Fine).cell;
  }

  lemma ReadsSpec(p: Place, states: seq<Sys>, labels: seq<Label>, c: Cell, starts: int, t: Tid)
    returns (ss: seq<Sys>, ls: seq<Label>, spec: Spec)
    requires StandsAt(p, states, labels, c, starts, t, Own(p.now, SpecAccess))
    ensures StandsAt(p, ss, ls, c, starts, t, Own(p.now, PutNewConfig(spec))) && ss[0] == states[0]
    ensures OthersSame(states[|labels|], ss[|ls|], t)
  {
    var owner, m;
    ss, ls, owner := ReadsProject(p, states, labels, c, starts, t);
    assert AccessControlOf(ss[|ls|].db, p.e) == Some(p.ac);
    ss, ls, m := OwnerActs(p, ss, ls, c, starts, t, SpecBranch(p.ac.branch, owner), Fine);
    spec := m.pc.job.spec;
  }

  lemma ReadsProject(p: Place, states: seq<Sys>, labels: seq<Label>, c: Cell, starts: int, t: Tid)
    returns (ss: seq<Sys>, ls: seq<Label>, owner: Project)
    requires StandsAt(p, states, labels, c, starts, t, Own(p.now, SpecAccess))
    ensures StandsAt(p, ss, ls, c, starts, t, Own(p.now, SpecBranch(p.ac.branch, owner))) && ss[0] == states[0]
    ensures OthersSame(states[|labels|], ss[|ls|], t)
  {
    var m;
    assert AccessControlOf(states[|labels|].db, p.e) == Some(p.ac);
    ss, ls, m := OwnerActs(p, states, labels, c, starts, t, SpecAccess, Fine);
    assert AccessControlOf(ss[|ls|].db, p.e) == Some(p.ac);
    ss, ls, m := OwnerActs(p, ss, ls, c, starts, t, SpecProject(p.ac.project, p.ac.branch), Fine);
    owner := m.pc.job.owner;
  }

  /** A waker that finds the row suspended calls Runtime.Start. */
  lemma StartsFromTop(p: Place, states: seq<Sys>, labels: seq<Label>, c: Cell, starts: int, t: Tid)
    returns (ss: seq<Sys>, ls: seq<Label>, d: Cell)
    requires StandsAt(p, states, labels, c, starts, t, Top) && InState(c.row, Suspended)
    ensures Here(p, ss, ls, d, starts + 1) && ss[0] == states[0]
  {
    var spec, m;
    ss, ls, d := WinsSuspended(p, states, labels, c, starts, t);
    ss, ls, spec := ReadsSpec(p, ss, ls, d, starts, t);
    ss, ls, m := OwnerActs(p, ss, ls, d, starts, t, PutNewConfig(spec), Fine);
    d := m.cell;
  }

  /** A waker that verifies a pod which is not Running repairs the row, and finds it suspended. */
  lemma RepairsFromTop(p: Place, states: seq<Sys>, labels: seq<Label>, c: Cell, starts: int, t: Tid)
    returns (ss: seq<Sys>, ls: seq<Label>, d: Cell)
    requires StandsAt(p, states, labels, c, starts, t, Top) && InState(c.row, Running) && !PodRuns(c)
    ensures StandsAt(p, ss, ls, d, starts, t, Top) && ss[0] == states[0]
    ensures InState(d.row, Suspended) && d.row.value.suspendAfter == c.row.value.suspendAfter && d.pod == c.pod
        && d.cm == c.cm
    ensures OthersSame(states[|labels|], ss[|ls|], t)
  {
    ss, ls := WakerActs(p, states, labels, c, starts, t, Top);
    ss, ls := WakerActs(p, ss, ls, c, starts, t, Read);
    ss, ls := WakerActs(p, ss, ls, c, starts, t, Verify(c.row.value.addr));
    ss, ls := WakerActs(p, ss, ls, c, starts, t, Repair);
    d := WakeMove(Repair, c, p.now, p.now, p.cfg, Fine).cell;
  }

  // ---- the exact condition

  /** A calm run from `s` that calls Runtime.Start again. */
  ghost predicate StartsAgain(s: Sys, states: seq<Sys>, labels: seq<Label>, e: Id, ac: AccessControl) {
    IsCalm(states, labels, e, ac) && states[0] == s && states[|labels|].starts[e] > s.starts[e]
  }

  ghost predicate SomeoneRepairs(s: Sys, e: Id) {
    exists t :: t in s.threads && s.threads[t].ep == e && s.threads[t].pc.Repair?
  }

  lemma NewAbove(used: set<Tid>) returns (t: Tid)
    ensures t !in used && forall u :: u in used ==> u < t
  {
    t := 0;
    var left := used;
    while left != {}
      invariant left <= used && forall u :: u in used && u !in left ==> u < t
    {
      var u :| u in left;
      left := left - {u};
      t := if u >= t then u + 1 else t;
    }
  }

  /** The row is running but its pod is not yet: one more waker suffices. */
  lemma UnreadyPodStartsAgain(p: Place, states: seq<Sys>, labels: seq<Label>, c: Cell, starts: int, t: Tid)
    returns (ss: seq<Sys>, ls: seq<Label>, d: Cell)
    requires Here(p, states, labels, c, starts) && IsUp(c) && !PodRuns(c) && t !in states[|labels|].threads
    ensures Here(p, ss, ls, d, starts + 1) && ss[0] == states[0]
  {
    ss, ls := Arrives(p, states, labels, c, starts, t);
    ss, ls, d := RepairsFromTop(p, ss, ls, c, starts, t);
    ss, ls, d := StartsFromTop(p, ss, ls, d, starts, t);
  }

  /** A waker stands at its repair: it hits, and one more waker starts. */
  lemma LateRepairStartsAgain(p: Place, states: seq<Sys>, labels: seq<Label>, c: Cell, starts: int, r: Tid, t: Tid)
    returns (ss: seq<Sys>, ls: seq<Label>, d: Cell)
    requires Here(p, states, labels, c, starts) && IsUp(c) && t !in states[|labels|].threads
    requires r in states[|labels|].threads && states[|labels|].threads[r].ep == p.e
        && states[|labels|].threads[r].pc.Repair?
    ensures Here(p, ss, ls, d, starts + 1) && ss[0] == states[0]
  {
    var m := WakeMove(Repair, c, p.now, states[|labels|].threads[r].begun, p.cfg, Fine);
    assert m == Move(states[|labels|], states[|labels|].threads[r], Fine);
    ss, ls := CalmlyActs(p, states, labels, c, starts, r, Fine, m);
    ss, ls := Arrives(p, ss, ls, m.cell, starts, t);
    ss, ls, d := StartsFromTop(p, ss, ls, m.cell, starts, t);
  }

  /**
   * Exactly when a running endpoint can be started again although every call succeeds and no
   * pod fails: if and only if its pod is not yet Running, or a waker stands at its repair.
   */
  lemma StartsAgainExactly(s: Sys, e: Id, ac: AccessControl, n: int)
    requires Serving(s, e, n) && Prompt(s, e) && AccessControlOf(s.db, e) == Some(ac)
    requires s.db.endpoints.Keys <= s.hist.endpoints.Keys && s.cfg.readyTimeout > 0
    ensures (exists states, labels :: StartsAgain(s, states, labels, e, ac)) <==>
        !PodRuns(CellOf(s, e)) || SomeoneRepairs(s, e)
  {
    if !PodRuns(CellOf(s, e)) || SomeoneRepairs(s, e) {
      var states, labels := CanStartAgain(s, e, ac);
    } else {
      forall states, labels ensures !StartsAgain(s, states, labels, e, ac) {
        if IsCalm(states, labels, e, ac) && states[0] == s {
          SettledNeverStarts(states, labels, e, ac, n);
        }
      }
    }
  }

  lemma SettledNeverStarts(states: seq<Sys>, labels: seq<Label>, e: Id, ac: AccessControl, n: int)
    requires IsCalm(states, labels, e, ac) && Settled(states[0], e, n)
    ensures states[|labels|].starts[e] == states[0].starts[e]
  {
    SettledForGood(states, labels, e, ac, n);
    assert Settled(states[|labels|], e, n);
  }

  lemma CanStartAgain(s: Sys, e: Id, ac: AccessControl) returns (states: seq<Sys>, labels: seq<Label>)
    requires IsUp(CellOf(s, e)) && Prompt(s, e) && AccessControlOf(s.db, e) == Some(ac)
    requires s.db.endpoints.Keys <= s.hist.endpoints.Keys && s.cfg.readyTimeout > 0
    requires !PodRuns(CellOf(s, e)) || SomeoneRepairs(s, e)
    ensures StartsAgain(s, states, labels, e, ac)
  {
    var p := Place(e, ac, s.now, s.cfg);
    var c := CellOf(s, e);
    var t := NewAbove(s.threads.Keys);
    assert Here(p, [s], [], c, s.starts[e]);
    var d;
    if !PodRuns(c) {
      states, labels, d := UnreadyPodStartsAgain(p, [s], [], c, s.starts[e], t);
    } else {
      var r :| r in s.threads && s.threads[r].ep == e && s.threads[r].pc.Repair?;
      states, labels, d := LateRepairStartsAgain(p, [s], [], c, s.starts[e], r, t);
    }
  }

  /** So it is at every instant of every calm run at which the row is running. */
  lemma StartsAgainInRuns(states: seq<Sys>, labels: seq<Label>, e: Id, ac: AccessControl, i: nat)
    requires IsCalm(states, labels, e, ac) && Untouched(states[0], e) && i < |states| && states[i].cfg.readyTimeout > 0
    requires InState(CellOf(states[i], e).row, Running)
    ensures (exists ss, ls :: StartsAgain(states[i], ss, ls, e, ac))
       <==> !PodRuns(CellOf(states[i], e)) || SomeoneRepairs(states[i], e)
  {
    StaysOnTrack(states, labels, e, ac, i);
    StaysKnown(states, labels, i);
    StartsAgainExactly(states[i], e, ac, Due(states, labels, e, i));
  }

  lemma {:induction false} StaysKnown(states: seq<Sys>, labels: seq<Label>, i: nat)
    requires IsRun(states, labels) && KnowsEndpoints(states[0]) && i < |states|
    ensures KnowsEndpoints(states[i])
    decreases i
  {
    if i > 0 {
      StaysKnown(states, labels, i - 1);
      assert states[i] == Apply(states[i - 1], labels[i - 1]);
      StepKeepsKnown(states[i - 1], labels[i - 1]);
    }
  }

  // ---- a run

  /** Runtime.Start for an endpoint without objects, and the pod's address. */
  lemma GetsPod(p: Place, states: seq<Sys>, labels: seq<Label>, c: Cell, starts: int, t: Tid, spec: Spec, ip: string)
    returns (ss: seq<Sys>, ls: seq<Label>, d: Cell)
    requires StandsAt(p, states, labels, c, starts, t, Own(p.now, PutNewConfig(spec))) && c.pod.None? && c.cm.None?
        && ip != ""
    ensures StandsAt(p, ss, ls, d, starts + 1, t, Own(p.now, Ready(p.now + p.cfg.readyTimeout))) && ss[0] == states[0]
    ensures d.row == c.row && PodAddr(d) == Some(ComputeAddr(ip)) && !PodRuns(d) && d.pod.value.ip == ip
    ensures OthersSame(states[|labels|], ss[|ls|], t)
  {
    var m;
    ss, ls, m := OwnerActs(p, states, labels, c, starts, t, PutNewConfig(spec), Fine);
    ss, ls, m := OwnerActs(p, ss, ls, m.cell, starts + 1, t, MakePod, Fine);
    var l := PodAddress(p.e, ip);
    PodStepCells(ss[|ls|], l);
    d := Progress(m.cell, l);
    ss, ls := CalmExtends(ss, ls, p.e, p.ac, l);
  }

  /** compute_ctl answers while the pod is pending. */
  lemma IsToldEarly(p: Place, states: seq<Sys>, labels: seq<Label>, c: Cell, starts: int, t: Tid)
    returns (ss: seq<Sys>, ls: seq<Label>)
    requires StandsAt(p, states, labels, c, starts, t, Own(p.now, Ready(p.now + p.cfg.readyTimeout)))
        && PodAddr(c).Some?
    ensures StandsAt(p, ss, ls, c, starts, t, Own(p.now, SetRunning(c.pod.value.ip))) && ss[0] == states[0]
    ensures OthersSame(states[|labels|], ss[|ls|], t)
  {
    var m;
    var (deadline, ip) := (p.now + p.cfg.readyTimeout, c.pod.value.ip);
    ss, ls, m := OwnerActs(p, states, labels, c, starts, t, Ready(deadline), Fine);
    ss, ls, m := OwnerActs(p, ss, ls, c, starts, t, Probe(deadline, ip), Answer(SaysRunning));
  }

  /** From a suspended endpoint without objects, a waker about to call SetEndpointRunning. */
  lemma ComesToSet(p: Place, states: seq<Sys>, labels: seq<Label>, c: Cell, starts: int, t: Tid, ip: string)
    returns (ss: seq<Sys>, ls: seq<Label>, d: Cell)
    requires Here(p, states, labels, c, starts) && t !in states[|labels|].threads && ip != ""
    requires InState(c.row, Suspended) && c.pod.None? && c.cm.None?
    ensures StandsAt(p, ss, ls, d, starts + 1, t, Own(p.now, SetRunning(ip))) && ss[0] == states[0]
    ensures InState(d.row, Starting) && PodAddr(d) == Some(ComputeAddr(ip)) && !PodRuns(d)
  {
    var spec;
    ss, ls := Arrives(p, states, labels, c, starts, t);
    ss, ls, d := WinsSuspended(p, ss, ls, c, starts, t);
    ss, ls, spec := ReadsSpec(p, ss, ls, d, starts, t);
    ss, ls, d := GetsPod(p, ss, ls, d, starts, t, spec, ip);
    ss, ls := IsToldEarly(p, ss, ls, d, starts + 1, t);
  }

  /**
   * From a suspended endpoint without objects: two wakers, every call succeeds, no time
   * passes, nothing crashes, nobody takes over, sweeps or stops, no pod fails - and
   * Runtime.Start is called twice.
   */
  lemma TwoWakersTwoStarts(s: Sys, e: Id, ac: AccessControl, ip: string) returns (states: seq<Sys>, labels: seq<Label>)
    requires InState(CellOf(s, e).row, Suspended) && CellOf(s, e).pod.None? && CellOf(s, e).cm.None? && ip != ""
    requires Untouched(s, e) && AccessControlOf(s.db, e) == Some(ac)
    requires s.db.endpoints.Keys <= s.hist.endpoints.Keys && s.cfg.readyTimeout > 0
    ensures IsCalm(states, labels, e, ac) && states[0] == s && states[|labels|].now == s.now
    ensures states[|labels|].starts[e] == s.starts[e] + 2
  {
    var p := Place(e, ac, s.now, s.cfg);
    var (c, n) := (CellOf(s, e), s.starts[e]);
    var t := NewAbove(s.threads.Keys);
    assert Here(p, [s], [], c, n);
    var m;
    states, labels, c := ComesToSet(p, [s], [], c, n, t, ip);
    states, labels, m := OwnerActs(p, states, labels, c, n + 1, t, SetRunning(ip), Fine);
    var u := NewAbove(states[|labels|].threads.Keys);
    states, labels, c := UnreadyPodStartsAgain(p, states, labels, m.cell, n + 1, u);
  }
}
