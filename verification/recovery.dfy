/**
 * Recovery by a lone waker. From any row (an abandoned `starting` or `suspending`, a lost
 * pod, a dead leftover pod) two successive calls of Wake, with calls that succeed and new
 * pods that become ready, end with the row running at the live pod's address. The first
 * call always lives long enough to see an abandoned row turn stale: the budget arithmetic.
 */
module Recovery {
  import opened Base
  import opened Address
  import opened Database
  import opened Cluster
  import opened Lifecycle
  import opened EveryRun
  import Convergence

  // ---- the assumptions

  /** A pod from before `h` is dead: it never runs again. Pods since `h` are healthy. */
  predicate Dead(c: Cell, h: Time) { c.pod.Some? && c.pod.value.created < h }

  /**
   * The waker's calls succeed. What answers "running" is the running pod; only a dead or
   * missing pod reports failure or lets the wait time out.
   */
  predicate Works(pc: Pc, c: Cell, now: Time, h: Time, out: Out) {
    if pc.Own? && pc.job.Probe? then
      match out
      case Answer(SaysRunning) => c.pod.Some? && c.pod.value.phase == PodRunning && c.pod.value.ip == pc.job.ip
      case Answer(SaysFailed) => c.pod.None? || Dead(c, h)
      case Answer(SaysOther) => true
      case _ => false
    else
      out == Fine && (pc.Own? && pc.job.Ready? && now >= pc.job.deadline ==> c.pod.None? || Dead(c, h))
  }

  /** Nobody but `t` acts on `e`; its calls work; only dead pods fail or vanish, and stay dead; addresses are IPv4. */
  ghost predicate Calm(s: Sys, l: Label, t: Tid, e: Id, h: Time) {
    match l
    case Wake(_, d) => d != e
    case Sweep(_, d) => d != e
    case Debug(_, d) => d != e
    case Purge(_, d) => d != e
    case Crash(u) => u in s.threads ==> s.threads[u].ep != e
    case Act(u, out) => u in s.threads && s.threads[u].ep == e ==>
        u == t && Works(s.threads[u].pc, CellOf(s, e), s.now, h, out)
    case PodAddress(d, ip) => d == e ==> ':' !in ip
    case PodUp(d) => d == e ==> !Dead(CellOf(s, e), h)
    case PodDown(d) => d == e ==> Dead(CellOf(s, e), h)
    case PodGone(d) => d == e ==> Dead(CellOf(s, e), h)
    case _ => true
  }

  /** The longest a step of the loop takes: a local one (the deadline test, waking up after a wait), or a call. */
  datatype Costs = Costs(local: Time, call: Time)

  function Takes(pc: Pc, cost: Costs, cfg: Config): Time {
    if pc.Top? then cost.local else if pc.Wait? then cfg.pollInterval + cost.local else cost.call
  }

  /** In its loop the waker is never kept longer than that. */
  ghost predicate OnTime(s: Sys, t: Tid, cost: Costs) {
    t in s.threads && IsWake(s.threads[t].pc) ==> s.now <= s.threads[t].at + Takes(s.threads[t].pc, cost, s.cfg)
  }

  predicate Sensible(cfg: Config, cost: Costs) { cost.local >= 0 && cost.call >= 0 && cfg.pollInterval >= 0 }

  /**
   * The call lives long enough. On an abandoned row: from a last look just before the row
   * turns stale through a poll to the next deadline test. On a running row: through the read,
   * the look at the pod and the repair to the second deadline test. Else: to the first one.
   */
  predicate Enough(cfg: Config, cost: Costs, row: Endpoint) {
    Sensible(cfg, cost) &&
    if Abandoned(row) then STALE_AFTER + cfg.pollInterval + 2 * cost.local < cfg.readyTimeout + WAKE_MARGIN
    else if row.state == Running then 2 * cost.local + 3 * cost.call < cfg.readyTimeout + WAKE_MARGIN
    else cost.local < cfg.readyTimeout + WAKE_MARGIN
  }

  /** With the default settings. */
  lemma DefaultBudget(cost: Costs, row: Endpoint)
    requires Sensible(DEFAULTS, cost)
    ensures Enough(DEFAULTS, cost, row) <==>
      if Abandoned(row) then cost.local < 14_750
      else if row.state == Running then 2 * cost.local + 3 * cost.call < 150_000
      else cost.local < 150_000
  {
  }

  // ---- the progress of the call

  /** `late` is how long after `b` the loop may come round again without having waited. */
  datatype Call = Call(b: Time, cost: Costs, late: Time, h: Time, dead: bool, ac: AccessControl, cfg: Config)

  function Late(cost: Costs, row: Endpoint): Time {
    if row.state == Running then cost.local + 3 * cost.call else 0
  }

  predicate Abandoned(row: Endpoint) { row.state == Starting || row.state == Suspending }

  /** Before it owns the endpoint: where the waker can be, and since when at the latest. */
  predicate Approaching(k: Call, pc: Pc, at: Time, row: Endpoint) {
    var limit := k.cfg.readyTimeout + WAKE_MARGIN;
    if Abandoned(row) then
      && row.updated <= k.b && STALE_AFTER + k.cfg.pollInterval + 2 * k.cost.local < limit
      && (pc.Top? || pc.Read? || pc.Wait? || pc.TakeStarting? || (pc.TakeSuspending? && row.state == Suspending))
      && (pc.Top? ==> at <= k.b + STALE_AFTER + k.cfg.pollInterval + k.cost.local)
      && (pc.Wait? ==> at <= k.b + STALE_AFTER)
    else if row.state == Running then
      && RowOk(row) && ':' !in IpOf(row.addr.value) && k.late == Late(k.cost, row) && k.late + k.cost.local < limit
      && (pc.Top? || pc.Read? || pc == Verify(row.addr) || pc.Repair?)
      && at <= k.b + (if pc.Top? then 0
                      else k.cost.local + (if pc.Read? then 0 else if pc.Verify? then k.cost.call else 2 * k.cost.call))
    else
      && k.late + k.cost.local < limit
      && (pc.Top? || pc.Read? || pc.CasSuspended? || (pc.CasFailed? && row.state == Failed))
      && (pc.Top? ==> at <= k.b + k.late)
  }

  predicate Healthy(k: Call, c: Cell) { c.pod.Some? && !Dead(c, k.h) }

  /** Inside startCompute: a failure is only possible when a dead pod was there from the start. */
  predicate Working(k: Call, job: Job, c: Cell) {
    && InState(c.row, Starting)
    && match job
       case ClearConfig => c.pod.None?
       case SpecProject(p, b) => p == k.ac.project && b == k.ac.branch
       case SpecBranch(b, _) => b == k.ac.branch
       case GetOldConfig(_) => c.cm.Some?
       case PutOldConfig(_, seen) => Current(c.cm, seen)
       case Ready(_) => Healthy(k, c) || k.dead
       case Probe(_, _) => Healthy(k, c) || k.dead
       case Pause(_) => Healthy(k, c) || k.dead
       case SetRunning(ip) => Healthy(k, c) && c.pod.value.phase == PodRunning && c.pod.value.ip == ip
       case FailPod => k.dead
       case FailConfig => k.dead && c.pod.None?
       case FailMark => k.dead && c.pod.None?
       case _ => true
  }

  predicate Recovered(k: Call, pc: Pc, c: Cell) {
    && pc.Done? && Convergence.InService(c) && pc.result == c.row.value.addr && Healthy(k, c)
  }

  predicate GaveUp(k: Call, pc: Pc, c: Cell) {
    && pc == Done(None) && InState(c.row, Failed) && c.pod.None? && k.dead
  }

  /** A dead pod can be met: it was there from the start, or is about to be stopped by a takeover. */
  predicate MeetsDead(k: Call, pc: Pc, c: Cell) {
    k.dead || (pc.Own? && pc.job.ClearPod?) || (IsWake(pc) && c.row.Some? && Abandoned(c.row.value))
  }

  predicate Recovering(k: Call, pc: Pc, at: Time, c: Cell) {
    && (Dead(c, k.h) ==> MeetsDead(k, pc, c) && c.pod.value.phase != PodRunning)
    && c.row.Some?
    && if pc.Own? then Working(k, pc.job, c)
       else Recovered(k, pc, c) || GaveUp(k, pc, c) || (IsWake(pc) && Approaching(k, pc, at, c.row.value))
  }

  /** Rows hold well-formed addresses from the past, without colons in the IPs. */
  predicate Plain(c: Cell, now: Time) {
    && (c.row.Some? ==> RowOk(c.row.value) && c.row.value.updated <= now
                        && (c.row.value.addr.Some? ==> ':' !in IpOf(c.row.value.addr.value)))
    && (c.pod.Some? ==> ':' !in c.pod.value.ip)
  }

  // ---- single moves

  lemma OwnerStaysPlain(s: Sys, since: Time, job: Job, c: Cell, e: Id, out: Out)
    requires Plain(c, s.now) && (job.SetRunning? ==> ':' !in job.ip)
    ensures Plain(OwnerMove(since, job, c, e, s, out).cell, s.now)
  {
    if job.SetRunning? { IpOfStoredAddress(job.ip); }
  }

  lemma WakerStaysPlain(pc: Pc, c: Cell, now: Time, begun: Time, cfg: Config)
    requires Plain(c, now) && IsWake(pc)
    ensures Plain(WakeMove(pc, c, now, begun, cfg, Fine).cell, now)
  {
  }

  lemma NamedIsServed(addr: string, ip: string)
    requires IsComputeAddr(addr) && ':' !in IpOf(addr)
    ensures NamesPod(addr, ip) <==> addr == ComputeAddr(ip)
  {
    PortIs55433(IpOf(addr));
    IpOfStoredAddress(ip);
    NamesPodIffSameIp(IpOf(addr), ip);
  }

  lemma WakeMoveRecovers(k: Call, s: Sys, th: Thread)
    requires k.h <= k.b == th.begun && k.cfg == s.cfg && Sensible(s.cfg, k.cost) && k.late >= 0
    requires IsWake(th.pc) && Recovering(k, th.pc, th.at, CellOf(s, th.ep))
    requires th.at <= s.now <= th.at + Takes(th.pc, k.cost, s.cfg)
    ensures Recovering(k, Move(s, th, Fine).pc, s.now, Move(s, th, Fine).cell)
  {
    var c := CellOf(s, th.ep);
    assert Move(s, th, Fine) == WakeMove(th.pc, c, s.now, th.begun, s.cfg, Fine);
    if th.pc.Verify? && c.pod.Some? {
      NamedIsServed(c.row.value.addr.value, c.pod.value.ip);
    }
  }

  lemma OwnerRecovers(k: Call, s: Sys, th: Thread, out: Out)
    requires k.h <= s.now && k.cfg == s.cfg && AccessControlOf(s.db, th.ep) == Some(k.ac)
    requires th.pc.Own? && Recovering(k, th.pc, th.at, CellOf(s, th.ep))
        && Works(th.pc, CellOf(s, th.ep), s.now, k.h, out)
    ensures Recovering(k, Move(s, th, out).pc, s.now, Move(s, th, out).cell)
  {
    var c := CellOf(s, th.ep);
    if IsStart(th.pc.job) {
      assert Move(s, th, out) == StartMove(th.pc.since, th.pc.job, c, th.ep, s.db, s.now, s.cfg, s.k8s.version + 1,
          out);
    } else if IsReady(th.pc.job) {
      assert Move(s, th, out) == ReadyMove(th.pc.since, th.pc.job, c, s.now, out);
    } else {
      assert Move(s, th, out) == StopMove(th.pc.since, th.pc.job, c, s.now, out);
    }
  }

  // ---- steps and runs

  /** What others may do to the endpoint meanwhile: bring its pod up, or finish off a dead one. */
  predicate Drifts(c: Cell, d: Cell, h: Time) {
    && d.row == c.row && d.cm == c.cm
    && (d.pod.Some? && c.pod.Some? && ':' !in c.pod.value.ip ==> ':' !in d.pod.value.ip)
    && (d.pod.Some? ==> c.pod.Some? && d.pod.value.created == c.pod.value.created)
    && (Dead(c, h) && d.pod.Some? ==> d.pod.value.phase == PodRunning ==> c.pod.value.phase == PodRunning)
    && (c.pod.Some? && !Dead(c, h) ==> d.pod.Some? && (c.pod.value.phase == PodRunning ==> d.pod == c.pod))
  }

  lemma DriftKeeps(k: Call, pc: Pc, at: Time, c: Cell, d: Cell)
    requires Recovering(k, pc, at, c) && Drifts(c, d, k.h)
    ensures Recovering(k, pc, at, d)
  {
  }

  lemma OthersDrift(s: Sys, l: Label, t: Tid, e: Id, h: Time)
    requires Enabled(s, l) && Calm(s, l, t, e, h) && (l.Act? ==> s.threads[l.t].ep != e)
    requires e in s.hist.endpoints && CellOf(s, e).row.Some? && CellOf(Apply(s, l), e).row.Some?
    requires t in s.threads && s.threads[t].ep == e
    ensures Drifts(CellOf(s, e), CellOf(Apply(s, l), e), h)
    ensures Apply(s, l).threads.Keys >= {t} && Apply(s, l).threads[t] == s.threads[t]
    ensures Apply(s, l).now >= s.now && Apply(s, l).cfg == s.cfg
  {
    if l.Act? {
      ActedCells(s, l.t, l.out);
    } else {
      OtherStepsKeepRows(s, l, e);
      if IsPodStep(l) {
        PodStepCells(s, l);
      }
    }
  }

  /** The call is in progress at `s`, on its way to one of its two ends. */
  ghost predicate OnCourse(k: Call, s: Sys, t: Tid, e: Id) {
    && t in s.threads && s.threads[t].ep == e && s.threads[t].begun == k.b
    && s.threads[t].at <= s.now && k.b <= s.now && s.cfg == k.cfg
    && Recovering(k, s.threads[t].pc, s.threads[t].at, CellOf(s, e)) && Plain(CellOf(s, e), s.now)
  }

  lemma OwnStepStaysOnCourse(k: Call, s: Sys, t: Tid, out: Out, e: Id)
    requires OnCourse(k, s, t, e) && Enabled(s, Act(t, out)) && Calm(s, Act(t, out), t, e, k.h) && OnTime(s, t, k.cost)
    requires k.h <= k.b && Sensible(k.cfg, k.cost) && k.late >= 0 && AccessControlOf(s.db, e) == Some(k.ac)
    ensures OnCourse(k, Apply(s, Act(t, out)), t, e)
  {
    MoveStaysOnCourse(k, s, t, out, e);
    ActFollows(s, t, out);
  }

  lemma MoveStaysOnCourse(k: Call, s: Sys, t: Tid, out: Out, e: Id)
    requires OnCourse(k, s, t, e) && Enabled(s, Act(t, out)) && Calm(s, Act(t, out), t, e, k.h) && OnTime(s, t, k.cost)
    requires k.h <= k.b && Sensible(k.cfg, k.cost) && k.late >= 0 && AccessControlOf(s.db, e) == Some(k.ac)
    ensures var m := Move(s, s.threads[t], out);
      Recovering(k, m.pc, s.now, m.cell) && Plain(m.cell, s.now)
  {
    var th := s.threads[t];
    if th.pc.Own? {
      OwnerStaysPlain(s, th.pc.since, th.pc.job, CellOf(s, e), e, out);
      OwnerRecovers(k, s, th, out);
      assert Move(s, th, out) == OwnerMove(th.pc.since, th.pc.job, CellOf(s, e), e, s, out);
    } else {
      WakerStaysPlain(th.pc, CellOf(s, e), s.now, th.begun, s.cfg);
      WakeMoveRecovers(k, s, th);
      assert Move(s, th, out) == WakeMove(th.pc, CellOf(s, e), s.now, th.begun, s.cfg, Fine);
    }
  }

  lemma StepStaysOnCourse(k: Call, s: Sys, l: Label, t: Tid, e: Id)
    requires OnCourse(k, s, t, e) && Enabled(s, l) && Calm(s, l, t, e, k.h) && OnTime(s, t, k.cost)
    requires k.h <= k.b && Sensible(k.cfg, k.cost) && k.late >= 0
    requires AccessControlOf(s.db, e) == Some(k.ac) && e in s.hist.endpoints && CellOf(Apply(s, l), e).row.Some?
    ensures OnCourse(k, Apply(s, l), t, e)
  {
    if l.Act? && s.threads[l.t].ep == e {
      OwnStepStaysOnCourse(k, s, t, l.out, e);
    } else {
      OthersDrift(s, l, t, e, k.h);
      DriftKeeps(k, s.threads[t].pc, s.threads[t].at, CellOf(s, e), CellOf(Apply(s, l), e));
    }
  }

  /** Any stored row and any pod, as the control plane may have left them. */
  ghost predicate Reachable(s: Sys, e: Id, h: Time) {
    var c := CellOf(s, e);
    && c.row.Some? && Plain(c, s.now)
    && (Dead(c, h) ==> c.pod.value.phase != PodRunning)
  }

  /** The catalog finds the endpoint, and the waker is on time. */
  ghost predicate Attentive(s: Sys, t: Tid, e: Id, cost: Costs, ac: AccessControl) {
    AccessControlOf(s.db, e) == Some(ac) && OnTime(s, t, cost)
  }

  /** The hypotheses of one lone call of Wake by `t`, begun in the first state, whatever the settings. */
  ghost predicate LoneRun(states: seq<Sys>, labels: seq<Label>, t: Tid, e: Id, h: Time, cost: Costs,
      ac: AccessControl) {
    && IsRun(states, labels) && states[0].db.endpoints.Keys <= states[0].hist.endpoints.Keys
    && t in states[0].threads && states[0].threads[t] == Thread(e, Top, states[0].now, states[0].now)
    && h <= states[0].now
    && (forall i | 0 <= i < |states| :: Attentive(states[i], t, e, cost, ac))
    && (forall i | 0 <= i < |labels| :: Calm(states[i], labels[i], t, e, h))
  }

  /** A lone call with settings under which it lives long enough. */
  ghost predicate LoneCall(states: seq<Sys>, labels: seq<Label>, t: Tid, e: Id, h: Time, cost: Costs,
      ac: AccessControl) {
    LoneRun(states, labels, t, e, h, cost, ac) && (
      var row := CellOf(states[0], e).row; row.Some? ==> Enough(states[0].cfg, cost, row.value))
  }

  /** A dead pod that nobody will stop before the start: the caller can see it. */
  predicate Blocked(c: Cell, h: Time) { Dead(c, h) && c.row.Some? && !Abandoned(c.row.value) }

  ghost predicate Succeeded(s: Sys, t: Tid, e: Id, h: Time) {
    && t in s.threads && s.threads[t].pc.Done? && Convergence.InService(CellOf(s, e)) && !Dead(CellOf(s, e), h)
    && s.threads[t].pc.result == CellOf(s, e).row.value.addr
  }

  ghost predicate GaveUpOn(s: Sys, t: Tid, e: Id) {
    t in s.threads && s.threads[t].pc == Done(None) && InState(CellOf(s, e).row, Failed) && CellOf(s, e).pod.None?
  }

  /**
   * One lone call: when it has ended, the endpoint is in service at the address returned, or
   * the call failed, and then a dead pod had been left behind on a row that was not abandoned,
   * and is gone now.
   */
  lemma {:induction false} LoneWakeEndsWell(states: seq<Sys>, labels: seq<Label>, t: Tid, e: Id, h: Time,
      cost: Costs, ac: AccessControl)
    requires LoneCall(states, labels, t, e, h, cost, ac) && Reachable(states[0], e, h)
    ensures var z := states[|labels|];
      && t in z.threads && Reachable(z, e, h)
      && (z.threads[t].pc.Done? ==> Succeeded(z, t, e, h) || (Blocked(CellOf(states[0], e), h) && GaveUpOn(z, t, e)))
  {
    var (z, c) := (states[0], CellOf(states[0], e));
    var k := Call(z.now, cost, Late(cost, c.row.value), h, Blocked(c, h), ac, z.cfg);
    assert OnCourse(k, states[0], t, e);
    assert e in states[0].db.endpoints;
    for n := 0 to |labels|
      invariant OnCourse(k, states[n], t, e)
      invariant e in states[n].hist.endpoints
    {
      assert states[n + 1] == Apply(states[n], labels[n]);
      assert AccessControlOf(states[n + 1].db, e) == Some(ac);
      StepStaysOnCourse(k, states[n], labels[n], t, e);
    }
  }

  // ---- a dead pod on a row that is not abandoned

  /** On the way to the failure: nobody stops the dead pod before the waker gives up on it. */
  predicate Doomed(pc: Pc, c: Cell, h: Time) {
    c.row.Some? &&
    if pc.Done? then pc.result.None?
    else if pc.Own? then
      && InState(c.row, Starting) && !pc.job.ClearPod? && !pc.job.ClearConfig? && !pc.job.SetRunning?
      && (pc.job.FailConfig? || pc.job.FailMark? || (Dead(c, h) && c.pod.value.phase != PodRunning))
    else
      && IsWake(pc) && !pc.Wait? && !pc.TakeStarting? && !pc.TakeSuspending? && !Abandoned(c.row.value)
      && Dead(c, h) && c.pod.value.phase != PodRunning
  }

  lemma WakerStaysDoomed(pc: Pc, c: Cell, now: Time, begun: Time, cfg: Config, h: Time)
    requires Doomed(pc, c, h) && IsWake(pc)
    ensures Doomed(WakeMove(pc, c, now, begun, cfg, Fine).pc, WakeMove(pc, c, now, begun, cfg, Fine).cell, h)
  {
  }

  lemma OwnerStaysDoomed(s: Sys, th: Thread, out: Out, h: Time)
    requires th.pc.Own? && Doomed(th.pc, CellOf(s, th.ep), h) && Works(th.pc, CellOf(s, th.ep), s.now, h, out)
    ensures Doomed(Move(s, th, out).pc, Move(s, th, out).cell, h)
  {
    assert Move(s, th, out) == OwnerMove(th.pc.since, th.pc.job, CellOf(s, th.ep), th.ep, s, out);
  }

  /** The dead pod does not vanish by itself. */
  predicate Stays(l: Label, e: Id) { l.PodGone? ==> l.e != e }

  lemma StepStaysDoomed(s: Sys, l: Label, t: Tid, e: Id, h: Time)
    requires t in s.threads && s.threads[t].ep == e && Doomed(s.threads[t].pc, CellOf(s, e), h)
    requires Enabled(s, l) && Calm(s, l, t, e, h) && Stays(l, e) && e in s.hist.endpoints
        && CellOf(Apply(s, l), e).row.Some?
    ensures var s' := Apply(s, l);
      t in s'.threads && s'.threads[t].ep == e && Doomed(s'.threads[t].pc, CellOf(s', e), h)
  {
    if l.Act? && l.t == t {
      ActedCells(s, t, l.out);
      if s.threads[t].pc.Own? {
        OwnerStaysDoomed(s, s.threads[t], l.out, h);
      } else {
        WakerStaysDoomed(s.threads[t].pc, CellOf(s, e), s.now, s.threads[t].begun, s.cfg, h);
        assert Move(s, s.threads[t], Fine) == WakeMove(s.threads[t].pc, CellOf(s, e), s.now, s.threads[t].begun,
            s.cfg, Fine);
      }
    } else {
      OthersDrift(s, l, t, e, h);
      DeadStays(s, l, t, e, h);
    }
  }

  lemma DeadStays(s: Sys, l: Label, t: Tid, e: Id, h: Time)
    requires Enabled(s, l) && Calm(s, l, t, e, h) && Stays(l, e) && (l.Act? ==> s.threads[l.t].ep != e)
    ensures CellOf(s, e).pod.Some? ==> CellOf(Apply(s, l), e).pod.Some?
  {
    if l.Act? {
      ActedCells(s, l.t, l.out);
    } else if IsPodStep(l) {
      PodStepCells(s, l);
    }
  }

  /** From there every lone call that ends has failed. */
  lemma {:induction false} BlockedCallsFail(states: seq<Sys>, labels: seq<Label>, t: Tid, e: Id, h: Time,
      cost: Costs, ac: AccessControl)
    requires LoneRun(states, labels, t, e, h, cost, ac) && Reachable(states[0], e, h)
        && Blocked(CellOf(states[0], e), h)
    requires forall i | 0 <= i < |labels| :: Stays(labels[i], e)
    ensures var z := states[|labels|]; t in z.threads && (z.threads[t].pc.Done? ==> z.threads[t].pc.result.None?)
  {
    assert e in states[0].db.endpoints;
    for n := 0 to |labels|
      invariant t in states[n].threads && states[n].threads[t].ep == e
          && Doomed(states[n].threads[t].pc, CellOf(states[n], e), h)
      invariant e in states[n].hist.endpoints
    {
      assert states[n + 1] == Apply(states[n], labels[n]);
      assert AccessControlOf(states[n + 1].db, e) == Some(ac);
      StepStaysDoomed(states[n], labels[n], t, e, h);
    }
  }

  /**
   * Exactly when a lone call whose calls succeed fails, for every finished one: if and only
   * if it finds a dead pod on a row that is not `starting` or `suspending`. A caller can read
   * both before the call.
   */
  lemma LoneWakeFailsExactly(states: seq<Sys>, labels: seq<Label>, t: Tid, e: Id, h: Time, cost: Costs,
      ac: AccessControl)
    requires LoneCall(states, labels, t, e, h, cost, ac) && Reachable(states[0], e, h)
    requires forall i | 0 <= i < |labels| :: Stays(labels[i], e)
    requires t in states[|labels|].threads && states[|labels|].threads[t].pc.Done?
    ensures GaveUpOn(states[|labels|], t, e) <==> Blocked(CellOf(states[0], e), h)
    ensures Succeeded(states[|labels|], t, e, h) <==> !Blocked(CellOf(states[0], e), h)
  {
    LoneWakeEndsWell(states, labels, t, e, h, cost, ac);
    if Blocked(CellOf(states[0], e), h) {
      BlockedCallsFail(states, labels, t, e, h, cost, ac);
    }
  }

  /**
   * Two successive lone calls recover the endpoint from anything: after the second one the
   * row is running and holds the address of the pod that runs.
   */
  lemma TwoWakesRecover(states: seq<Sys>, labels: seq<Label>, t: Tid, later: seq<Sys>, after: seq<Label>, u: Tid,
                        e: Id, h: Time, cost: Costs, ac: AccessControl)
    requires LoneCall(states, labels, t, e, h, cost, ac) && Reachable(states[0], e, h)
    requires t in states[|labels|].threads && states[|labels|].threads[t].pc.Done?
    requires LoneCall(later, after, u, e, h, cost, ac)
    requires CellOf(later[0], e) == CellOf(states[|labels|], e) && later[0].now >= states[|labels|].now
    requires u in later[|after|].threads && later[|after|].threads[u].pc.Done?
    ensures Convergence.InService(CellOf(later[|after|], e))
    ensures later[|after|].threads[u].pc.result == CellOf(later[|after|], e).row.value.addr
  {
    LoneWakeEndsWell(states, labels, t, e, h, cost, ac);
    LoneWakeEndsWell(later, after, u, e, h, cost, ac);
  }
}
