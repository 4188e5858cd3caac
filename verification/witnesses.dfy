/** Runs that show where the assumptions of recovery and of single flight are needed. */
module Witnesses {
  import opened Base
  import opened Address
  import opened Database
  import opened Cluster
  import opened Lifecycle
  import opened Recovery
  import Convergence

  /** Where thread `t` of a lone call begun at `b` stands, and its endpoint's objects. */
  ghost predicate Stands(s: Sys, t: Tid, e: Id, pc: Pc, b: Time, c: Cell) {
    t in s.threads && s.threads[t] == Thread(e, pc, b, s.now) && CellOf(s, e) == c && c.row.Some?
  }

  ghost predicate SameCatalog(s: Sys, s': Sys) {
    s'.db.projects == s.db.projects && s'.db.branches == s.db.branches && s'.cfg == s.cfg
  }

  lemma TickInTime(s: Sys, t: Tid, e: Id, cost: Costs, ac: AccessControl, d: nat)
    requires Attentive(s, t, e, cost, ac) && t in s.threads && s.threads[t].at == s.now
    requires IsWake(s.threads[t].pc) ==> d <= Takes(s.threads[t].pc, cost, s.cfg)
    ensures Attentive(Apply(s, Tick(d)), t, e, cost, ac) && CellOf(Apply(s, Tick(d)), e) == CellOf(s, e)
  {
  }

  lemma ActInTime(s: Sys, s': Sys, t: Tid, e: Id, cost: Costs, ac: AccessControl, m: Effect)
    requires Attentive(s, t, e, cost, ac) && t in s.threads && s.threads[t].ep == e && Follows(s, s', t, m)
    requires Sensible(s.cfg, cost)
    requires CellOf(s, e).row.Some? && m.cell.row.Some? && m.cell.row.value.branch == CellOf(s, e).row.value.branch
    ensures Attentive(s', t, e, cost, ac)
  {
    assert e in s.db.endpoints && e in s'.db.endpoints && s'.db.endpoints[e] == m.cell.row.value;
  }

  /** A lone run goes on: `d` passes, then the waker's next call. */
  lemma Goes(states: seq<Sys>, labels: seq<Label>, t: Tid, e: Id, h: Time, cost: Costs, ac: AccessControl,
             pc: Pc, b: Time, c: Cell, d: nat, out: Out, m: Effect) returns (ss: seq<Sys>, ls: seq<Label>)
    requires LoneRun(states, labels, t, e, h, cost, ac) && Stands(states[|labels|], t, e, pc, b, c) && !pc.Done?
    requires Sensible(states[|labels|].cfg, cost)
    requires IsWake(pc) ==> d <= Takes(pc, cost, states[|labels|].cfg)
    requires Works(pc, c, states[|labels|].now + d, h, out)
    requires m == Move(states[|labels|].(now := states[|labels|].now + d), Thread(e, pc, b, states[|labels|].now), out)
    requires m.cell.row.Some? && m.cell.row.value.branch == c.row.value.branch
    ensures LoneRun(ss, ls, t, e, h, cost, ac) && ss[0] == states[0] && ls == labels + [Tick(d), Act(t, out)]
    ensures Stands(ss[|ls|], t, e, m.pc, b, m.cell) && ss[|ls|].now == states[|labels|].now + d
        && SameCatalog(states[|labels|], ss[|ls|])
  {
    var s1, l1 := Passes(states, labels, t, e, h, cost, ac, d);
    assert s1[|l1|].threads[t] == Thread(e, pc, b, states[|labels|].now);
    ss, ls := Acts(s1, l1, t, e, h, cost, ac, c, out, m);
    assert ls == labels + [Tick(d), Act(t, out)];
  }

  lemma Acts(states: seq<Sys>, labels: seq<Label>, t: Tid, e: Id, h: Time, cost: Costs, ac: AccessControl, c: Cell,
      out: Out, m: Effect)
    returns (ss: seq<Sys>, ls: seq<Label>)
    requires LoneRun(states, labels, t, e, h, cost, ac) && t in states[|labels|].threads
        && CellOf(states[|labels|], e) == c && c.row.Some?
    requires states[|labels|].threads[t].ep == e && !states[|labels|].threads[t].pc.Done?
    requires Sensible(states[|labels|].cfg, cost)
    requires Works(states[|labels|].threads[t].pc, c, states[|labels|].now, h, out)
    requires m == Move(states[|labels|], states[|labels|].threads[t], out)
    requires m.cell.row.Some? && m.cell.row.value.branch == c.row.value.branch
    ensures LoneRun(ss, ls, t, e, h, cost, ac) && ss[0] == states[0] && ls == labels + [Act(t, out)]
    ensures Stands(ss[|ls|], t, e, m.pc, states[|labels|].threads[t].begun, m.cell)
    ensures ss[|ls|].now == states[|labels|].now && SameCatalog(states[|labels|], ss[|ls|])
  {
    ss, ls := ActOn(states, labels, t, out);
    ActInTime(states[|labels|], ss[|ls|], t, e, cost, ac, m);
    LoneRunExtends(states, labels, t, e, h, cost, ac, ss, ls);
    assert ls == labels + [Act(t, out)];
  }

  lemma Passes(states: seq<Sys>, labels: seq<Label>, t: Tid, e: Id, h: Time, cost: Costs, ac: AccessControl, d: nat)
    returns (ss: seq<Sys>, ls: seq<Label>)
    requires LoneRun(states, labels, t, e, h, cost, ac) && t in states[|labels|].threads
        && states[|labels|].threads[t].at == states[|labels|].now
    requires IsWake(states[|labels|].threads[t].pc) ==>
        d <= Takes(states[|labels|].threads[t].pc, cost, states[|labels|].cfg)
    ensures LoneRun(ss, ls, t, e, h, cost, ac) && ss[0] == states[0] && ls == labels + [Tick(d)]
    ensures ss[|ls|] == states[|labels|].(now := states[|labels|].now + d)
        && CellOf(ss[|ls|], e) == CellOf(states[|labels|], e)
  {
    var z := states[|labels|];
    Extend(states, labels, Tick(d));
    TickInTime(z, t, e, cost, ac, d);
    ss, ls := states + [Apply(z, Tick(d))], labels + [Tick(d)];
    LoneRunExtends(states, labels, t, e, h, cost, ac, ss, ls);
  }

  lemma LoneRunExtends(states: seq<Sys>, labels: seq<Label>, t: Tid, e: Id, h: Time, cost: Costs, ac: AccessControl,
      ss: seq<Sys>, ls: seq<Label>)
    requires LoneRun(states, labels, t, e, h, cost, ac) && IsRun(ss, ls) && states <= ss && labels <= ls
        && |ls| == |labels| + 1
    requires Attentive(ss[|ls|], t, e, cost, ac) && Calm(states[|labels|], ls[|labels|], t, e, h)
    ensures LoneRun(ss, ls, t, e, h, cost, ac)
  {
    forall i | 0 <= i < |ss| ensures Attentive(ss[i], t, e, cost, ac) {
      assert i <= |labels| ==> ss[i] == states[i];
    }
    forall i | 0 <= i < |ls| ensures Calm(ss[i], ls[i], t, e, h) {
      assert ss[i] == states[i] && (i < |labels| ==> ls[i] == labels[i]);
    }
  }

  // ---- a lone call, packed

  datatype Trip = Trip(t: Tid, e: Id, h: Time, cost: Costs, ac: AccessControl, b: Time)

  /** The lone call has come to `pc` at time `now`, with its endpoint at `c`, and no pod has vanished. */
  ghost predicate On(k: Trip, states: seq<Sys>, labels: seq<Label>, pc: Pc, c: Cell, now: Time, cfg: Config) {
    && LoneRun(states, labels, k.t, k.e, k.h, k.cost, k.ac) && Stands(states[|labels|], k.t, k.e, pc, k.b, c)
    && states[|labels|].now == now && states[|labels|].cfg == cfg && Sensible(cfg, k.cost)
    && (forall l :: l in labels ==> Stays(l, k.e))
  }

  lemma WakeGoes(k: Trip, states: seq<Sys>, labels: seq<Label>, pc: Pc, c: Cell, now: Time, cfg: Config, d: nat)
    returns (ss: seq<Sys>, ls: seq<Label>)
    requires On(k, states, labels, pc, c, now, cfg) && IsWake(pc)
    requires d <= Takes(pc, k.cost, cfg)
    ensures var m := WakeMove(pc, c, now + d, k.b, cfg, Fine);
      On(k, ss, ls, m.pc, m.cell, now + d, cfg) && ss[0] == states[0]
  {
    var m := WakeMove(pc, c, now + d, k.b, cfg, Fine);
    assert m == Move(states[|labels|].(now := now + d), Thread(k.e, pc, k.b, now), Fine);
    ss, ls := Goes(states, labels, k.t, k.e, k.h, k.cost, k.ac, pc, k.b, c, d, Fine, m);
  }

  // ---- steps too slow for the budget

  /** Looks once at a fresh `starting` or `suspending` row and waits. */
  lemma LooksAndWaits(k: Trip, states: seq<Sys>, labels: seq<Label>, c: Cell, now: Time, cfg: Config, d: nat)
    returns (ss: seq<Sys>, ls: seq<Label>)
    requires On(k, states, labels, Top, c, now, cfg) && d <= k.cost.local && Abandoned(c.row.value)
    requires now + d < k.b + cfg.readyTimeout + WAKE_MARGIN && now + d <= c.row.value.updated + STALE_AFTER
    ensures On(k, ss, ls, Top, c, now + 2 * d, cfg) && ss[0] == states[0]
  {
    ss, ls := WakeGoes(k, states, labels, Top, c, now, cfg, d);
    ss, ls := WakeGoes(k, ss, ls, Read, c, now + d, cfg, 0);
    ss, ls := WakeGoes(k, ss, ls, Wait, c, now + d, cfg, d);
  }

  /** The last look before the row turns stale: the wait and the deadline test after it come too late. */
  lemma LooksTooEarly(k: Trip, states: seq<Sys>, labels: seq<Label>, c: Cell, now: Time)
    returns (ss: seq<Sys>, ls: seq<Label>)
    requires On(k, states, labels, Top, c, now, DEFAULTS) && Abandoned(c.row.value) && c.row.value.updated == k.b
    requires now == k.b + 112_000 && k.cost.local >= 14_750
    ensures On(k, ss, ls, Done(None), c, k.b + 120_500 + 2 * k.cost.local, DEFAULTS) && ss[0] == states[0]
  {
    ss, ls := WakeGoes(k, states, labels, Top, c, now, DEFAULTS, 8_000);
    ss, ls := WakeGoes(k, ss, ls, Read, c, k.b + 120_000, DEFAULTS, 0);
    ss, ls := WakeGoes(k, ss, ls, Wait, c, k.b + 120_000, DEFAULTS, k.cost.local + 500);
    ss, ls := WakeGoes(k, ss, ls, Top, c, k.b + 120_500 + k.cost.local, DEFAULTS, k.cost.local);
  }

  /** The run begins with the call. */
  lemma Begins(k: Trip, s: Sys, c: Cell)
    requires Stands(s, k.t, k.e, Top, k.b, c) && s.now == k.b && k.h <= k.b && Sensible(s.cfg, k.cost)
    requires s.db.endpoints.Keys <= s.hist.endpoints.Keys && AccessControlOf(s.db, k.e) == Some(k.ac)
    ensures On(k, [s], [], Top, c, s.now, s.cfg)
  {
  }

  /** The first step of a lone call of default settings, on an endpoint as it was found. */
  ghost predicate Calls(k: Trip, s: Sys, c: Cell) {
    && Stands(s, k.t, k.e, Top, k.b, c) && s.now == k.b && k.h <= k.b && Sensible(DEFAULTS, k.cost) && s.cfg == DEFAULTS
    && s.db.endpoints.Keys <= s.hist.endpoints.Keys && AccessControlOf(s.db, k.e) == Some(k.ac)
  }

  /** A finished lone call from `s` that did not put the endpoint in service. */
  ghost predicate FailsFrom(k: Trip, s: Sys, states: seq<Sys>, labels: seq<Label>) {
    && LoneRun(states, labels, k.t, k.e, k.h, k.cost, k.ac) && states[0] == s
    && k.t in states[|labels|].threads && states[|labels|].threads[k.t].pc.Done?
    && !Succeeded(states[|labels|], k.t, k.e, k.h)
  }

  /**
   * With the default settings and local steps of 14.75 seconds or more, a lone call whose
   * calls all succeed can time out on a row abandoned just before it, leaving it as it was.
   */
  lemma SlowStepsTimeOut(k: Trip, s: Sys, c: Cell) returns (states: seq<Sys>, labels: seq<Label>)
    requires Calls(k, s, c) && k.cost.local >= 14_750 && Abandoned(c.row.value) && c.row.value.updated == k.b
    ensures FailsFrom(k, s, states, labels) && Stands(states[|labels|], k.t, k.e, Done(None), k.b, c)
  {
    Begins(k, s, c);
    states, labels := LooksAndWaits(k, [s], [], c, k.b, DEFAULTS, 14_000);
    states, labels := LooksAndWaits(k, states, labels, c, k.b + 28_000, DEFAULTS, 14_000);
    states, labels := LooksAndWaits(k, states, labels, c, k.b + 56_000, DEFAULTS, 14_000);
    states, labels := LooksAndWaits(k, states, labels, c, k.b + 84_000, DEFAULTS, 14_000);
    states, labels := LooksTooEarly(k, states, labels, c, k.b + 112_000);
  }

  /** A deadline test that takes longer than the whole call. */
  lemma FirstTestTooLate(k: Trip, s: Sys, c: Cell) returns (states: seq<Sys>, labels: seq<Label>)
    requires Calls(k, s, c) && k.cost.local >= 150_000 && !Convergence.InService(c)
    ensures FailsFrom(k, s, states, labels)
  {
    Begins(k, s, c);
    states, labels := WakeGoes(k, [s], [], Top, c, k.b, DEFAULTS, k.cost.local);
  }

  /** A running row whose pod is gone: after the repair the deadline has passed. */
  lemma SlowCallsTimeOut(k: Trip, s: Sys, c: Cell) returns (states: seq<Sys>, labels: seq<Label>)
    requires Calls(k, s, c) && InState(c.row, Running) && c.pod.None?
    requires k.cost.local < 150_000 && 2 * k.cost.local + 3 * k.cost.call >= 150_000
    ensures FailsFrom(k, s, states, labels)
  {
    var (l, d) := (k.cost.local, k.cost.call);
    Begins(k, s, c);
    states, labels := WakeGoes(k, [s], [], Top, c, k.b, DEFAULTS, l);
    states, labels := WakeGoes(k, states, labels, Read, c, k.b + l, DEFAULTS, d);
    states, labels := WakeGoes(k, states, labels, Verify(c.row.value.addr), c, k.b + l + d, DEFAULTS, d);
    states, labels := WakeGoes(k, states, labels, Repair, c, k.b + l + 2 * d, DEFAULTS, d);
    var e := WakeMove(Repair, c, k.b + l + 3 * d, k.b, DEFAULTS, Fine).cell;
    states, labels := WakeGoes(k, states, labels, Top, e, k.b + l + 3 * d, DEFAULTS, l);
  }

  /** The endpoints on which the time of the call is all that can fail it. */
  predicate InNeed(k: Trip, c: Cell) {
    && c.row.Some? && !Blocked(c, k.h) && !Convergence.InService(c)
    && (Abandoned(c.row.value) ==> c.row.value.updated == k.b) && (c.row.value.state == Running ==> c.pod.None?)
  }

  /**
   * The budget of the default settings, exactly, with local steps and calls counted apart: a
   * lone call whose calls all succeed can fail on such an endpoint if and only if local steps
   * may take 14.75 seconds (abandoned just before), or two of them and three calls 150 seconds
   * (running, the pod gone), or the first deadline test 150 seconds (at rest).
   */
  lemma DefaultBudgetIsExact(k: Trip, s: Sys, c: Cell)
    requires Calls(k, s, c) && InNeed(k, c) && Reachable(s, k.e, k.h)
    ensures (exists states, labels :: FailsFrom(k, s, states, labels)) <==>
      if Abandoned(c.row.value) then k.cost.local >= 14_750
      else if c.row.value.state == Running then 2 * k.cost.local + 3 * k.cost.call >= 150_000
      else k.cost.local >= 150_000
  {
    DefaultBudget(k.cost, c.row.value);
    if Enough(DEFAULTS, k.cost, c.row.value) {
      forall states, labels ensures !FailsFrom(k, s, states, labels) {
        if LoneRun(states, labels, k.t, k.e, k.h, k.cost, k.ac) && states[0] == s {
          LoneWakeEndsWell(states, labels, k.t, k.e, k.h, k.cost, k.ac);
        }
      }
    } else {
      var states, labels := TooSlow(k, s, c);
    }
  }

  lemma TooSlow(k: Trip, s: Sys, c: Cell) returns (states: seq<Sys>, labels: seq<Label>)
    requires Calls(k, s, c) && InNeed(k, c) && !Enough(DEFAULTS, k.cost, c.row.value)
    ensures FailsFrom(k, s, states, labels)
  {
    if Abandoned(c.row.value) {
      states, labels := SlowStepsTimeOut(k, s, c);
    } else if k.cost.local >= 150_000 {
      states, labels := FirstTestTooLate(k, s, c);
    } else {
      states, labels := SlowCallsTimeOut(k, s, c);
    }
  }

  // ---- a dead pod in the way

  lemma OwnerGoes(k: Trip, states: seq<Sys>, labels: seq<Label>, since: Time, job: Job, c: Cell, now: Time,
      cfg: Config, out: Out)
    returns (ss: seq<Sys>, ls: seq<Label>, m: Effect)
    requires On(k, states, labels, Own(since, job), c, now, cfg) && Works(Own(since, job), c, now, k.h, out)
    requires OwnerMove(since, job, c, k.e, states[|labels|], out).cell.row.Some?
    requires OwnerMove(since, job, c, k.e, states[|labels|], out).cell.row.value.branch == c.row.value.branch
    ensures m == OwnerMove(since, job, c, k.e, states[|labels|], out)
    ensures On(k, ss, ls, m.pc, m.cell, now, cfg) && ss[0] == states[0] && SameCatalog(states[|labels|], ss[|ls|])
  {
    var z := states[|labels|];
    m := OwnerMove(since, job, c, k.e, z, out);
    assert z == z.(now := z.now + 0);
    assert m == Move(z, Thread(k.e, Own(since, job), k.b, now), out);
    ss, ls := Goes(states, labels, k.t, k.e, k.h, k.cost, k.ac, Own(since, job), k.b, c, 0, out, m);
  }

  /** A dead pod, with its address, beside a row at rest. */
  predicate InTheWay(c: Cell, h: Time) {
    Dead(c, h) && c.pod.value.phase != PodRunning && c.pod.value.ip != "" && c.cm.Some?
  }

  lemma ReadsCatalog(k: Trip, states: seq<Sys>, labels: seq<Label>, since: Time, c: Cell, now: Time, cfg: Config)
    returns (ss: seq<Sys>, ls: seq<Label>, spec: Spec)
    requires On(k, states, labels, Own(since, SpecAccess), c, now, cfg)
    ensures On(k, ss, ls, Own(since, PutNewConfig(spec)), c, now, cfg) && ss[0] == states[0]
  {
    var m;
    assert AccessControlOf(states[|labels|].db, k.e) == Some(k.ac);
    ss, ls, m := OwnerGoes(k, states, labels, since, SpecAccess, c, now, cfg, Fine);
    ss, ls, m := OwnerGoes(k, ss, ls, since, SpecProject(k.ac.project, k.ac.branch), c, now, cfg, Fine);
    ss, ls, m := OwnerGoes(k, ss, ls, since, m.pc.job, c, now, cfg, Fine);
    spec := m.pc.job.spec;
  }

  /** The catalog reads and Runtime.Start, which accepts the dead pod. */
  lemma StartsOverDead(k: Trip, states: seq<Sys>, labels: seq<Label>, since: Time, c: Cell, now: Time, cfg: Config)
    returns (ss: seq<Sys>, ls: seq<Label>, d: Cell)
    requires On(k, states, labels, Own(since, SpecAccess), c, now, cfg) && InTheWay(c, k.h)
    ensures On(k, ss, ls, Own(since, Ready(now + cfg.readyTimeout)), d, now, cfg) && ss[0] == states[0]
    ensures d.row == c.row && d.pod == c.pod && d.cm.Some?
  {
    var spec, m;
    ss, ls, spec := ReadsCatalog(k, states, labels, since, c, now, cfg);
    ss, ls, d := PutsConfig(k, ss, ls, since, spec, c, now, cfg);
    ss, ls, m := OwnerGoes(k, ss, ls, since, MakePod, d, now, cfg, Fine);
  }

  lemma PutsConfig(k: Trip, states: seq<Sys>, labels: seq<Label>, since: Time, spec: Spec, c: Cell, now: Time,
      cfg: Config)
    returns (ss: seq<Sys>, ls: seq<Label>, d: Cell)
    requires On(k, states, labels, Own(since, PutNewConfig(spec)), c, now, cfg) && c.cm.Some?
    ensures On(k, ss, ls, Own(since, MakePod), d, now, cfg) && ss[0] == states[0]
    ensures d.row == c.row && d.pod == c.pod && d.cm.Some?
  {
    var m;
    ss, ls := FindsConfig(k, states, labels, since, spec, c, now, cfg);
    ss, ls, m := OwnerGoes(k, ss, ls, since, PutOldConfig(spec, c.cm.value.version), c, now, cfg, Fine);
    d := m.cell;
  }

  lemma FindsConfig(k: Trip, states: seq<Sys>, labels: seq<Label>, since: Time, spec: Spec, c: Cell, now: Time,
                    cfg: Config)
    returns (ss: seq<Sys>, ls: seq<Label>)
    requires On(k, states, labels, Own(since, PutNewConfig(spec)), c, now, cfg) && c.cm.Some?
    ensures On(k, ss, ls, Own(since, PutOldConfig(spec, c.cm.value.version)), c, now, cfg) && ss[0] == states[0]
  {
    var m;
    ss, ls, m := OwnerGoes(k, states, labels, since, PutNewConfig(spec), c, now, cfg, Fine);
    ss, ls, m := OwnerGoes(k, ss, ls, since, GetOldConfig(spec), c, now, cfg, Fine);
  }

  /** compute_ctl reports failure: the waker stops the pod and marks the endpoint failed. */
  lemma FailsOnDead(k: Trip, states: seq<Sys>, labels: seq<Label>, since: Time, c: Cell, now: Time, cfg: Config)
    returns (ss: seq<Sys>, ls: seq<Label>, d: Cell)
    requires On(k, states, labels, Own(since, Ready(now + cfg.readyTimeout)), c, now, cfg) && InTheWay(c, k.h)
    requires InState(c.row, Starting) && cfg.readyTimeout > 0
    ensures On(k, ss, ls, Done(None), d, now, cfg) && ss[0] == states[0] && InState(d.row, Failed) && d.pod.None?
  {
    var m;
    ss, ls, m := OwnerGoes(k, states, labels, since, Ready(now + cfg.readyTimeout), c, now, cfg, Fine);
    ss, ls, m := OwnerGoes(k, ss, ls, since, Probe(now + cfg.readyTimeout, c.pod.value.ip), c, now, cfg,
        Answer(SaysFailed));
    ss, ls, d := Cleans(k, ss, ls, since, c, now, cfg);
  }

  lemma Cleans(k: Trip, states: seq<Sys>, labels: seq<Label>, since: Time, c: Cell, now: Time, cfg: Config)
    returns (ss: seq<Sys>, ls: seq<Label>, d: Cell)
    requires On(k, states, labels, Own(since, FailPod), c, now, cfg) && InState(c.row, Starting)
    ensures On(k, ss, ls, Done(None), d, now, cfg) && ss[0] == states[0] && InState(d.row, Failed) && d.pod.None?
  {
    var m;
    ss, ls, m := OwnerGoes(k, states, labels, since, FailPod, c, now, cfg, Fine);
    ss, ls, m := OwnerGoes(k, ss, ls, since, FailConfig, m.cell, now, cfg, Fine);
    ss, ls, m := OwnerGoes(k, ss, ls, since, FailMark, m.cell, now, cfg, Fine);
    d := m.cell;
  }

  /**
   * From every suspended row with a dead pod left behind there is a lone call all of whose
   * calls succeed, and which fails.
   */
  lemma DeadPodFailsACall(k: Trip, s: Sys, c: Cell) returns (states: seq<Sys>, labels: seq<Label>)
    requires Stands(s, k.t, k.e, Top, k.b, c) && s.now == k.b && k.h <= k.b
    requires s.cfg.readyTimeout > 0 && Sensible(s.cfg, k.cost)
    requires s.db.endpoints.Keys <= s.hist.endpoints.Keys && AccessControlOf(s.db, k.e) == Some(k.ac)
    requires InState(c.row, Suspended) && InTheWay(c, k.h)
    ensures FailsFrom(k, s, states, labels) && GaveUpOn(states[|labels|], k.t, k.e)
  {
    var d;
    Begins(k, s, c);
    states, labels, d := WinsAtRest(k, [s], [], c, s.cfg);
    states, labels, d := StartsOverDead(k, states, labels, k.b, d, k.b, s.cfg);
    states, labels, d := FailsOnDead(k, states, labels, k.b, d, k.b, s.cfg);
    EndsFailed(k, states, labels, d, s.cfg);
  }

  lemma WinsAtRest(k: Trip, states: seq<Sys>, labels: seq<Label>, c: Cell, cfg: Config)
    returns (ss: seq<Sys>, ls: seq<Label>, d: Cell)
    requires On(k, states, labels, Top, c, k.b, cfg) && InState(c.row, Suspended) && cfg.readyTimeout > 0
    ensures On(k, ss, ls, Own(k.b, SpecAccess), d, k.b, cfg) && ss[0] == states[0]
    ensures InState(d.row, Starting) && d.pod == c.pod && d.cm == c.cm
  {
    ss, ls := WakeGoes(k, states, labels, Top, c, k.b, cfg, 0);
    ss, ls := WakeGoes(k, ss, ls, Read, c, k.b, cfg, 0);
    ss, ls := WakeGoes(k, ss, ls, CasSuspended, c, k.b, cfg, 0);
    d := WakeMove(CasSuspended, c, k.b, k.b, cfg, Fine).cell;
  }

  lemma EndsFailed(k: Trip, states: seq<Sys>, labels: seq<Label>, c: Cell, cfg: Config)
    requires On(k, states, labels, Done(None), c, k.b, cfg) && InState(c.row, Failed) && c.pod.None?
    ensures FailsFrom(k, states[0], states, labels) && GaveUpOn(states[|labels|], k.t, k.e)
  {
  }
}
