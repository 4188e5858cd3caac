/**
 * The waker as the program it is: loops and calls over a world that everybody else keeps
 * changing between any two of its calls. Every method is proved to take exactly the steps
 * the transition system gives its position, so what is proved of all runs holds of it.
 */
module Waking {
  import opened Base
  import opened Address
  import opened Database
  import opened Cluster
  import opened Lifecycle
  import Returned
  import EveryRun

  /** What the environment does around one call: other steps first, then time passes, then the outcome. */
  datatype Turn = Turn(others: seq<Label>, delay: nat, out: Out)

  /** The shared database, cluster and clock, with the run so far. */
  class World {
    var sys: Sys
    var script: seq<Turn>
    ghost var states: seq<Sys>
    ghost var labels: seq<Label>

    ghost predicate Valid() reads this {
      IsRun(states, labels) && states[|labels|] == sys
    }

    constructor (initial: Sys, script: seq<Turn>)
      ensures Valid() && sys == initial && states == [initial] && labels == []
    {
      this.sys, this.script, this.states, this.labels := initial, script, [initial], [];
    }

    /** The position of thread `t`. */
    ghost function At(t: Tid): Pc
      requires t in sys.threads
      reads this
    {
      sys.threads[t].pc
    }

    /** The state that the last step met. */
    ghost function Met(): Sys
      requires |states| > 1
      reads this
    {
      states[|states| - 2]
    }

    /** The run has grown, `t` is still the same call, and time has passed. */
    twostate predicate Continues(t: Tid) reads this {
      && Valid()
      && old(states) <= states && old(labels) <= labels && |old(labels)| < |labels| && |states| > 1
      && t in old(sys.threads) && t in sys.threads
      && sys.threads[t].ep == old(sys.threads[t].ep) && sys.threads[t].begun == old(sys.threads[t].begun)
      && (forall i | |old(states)| <= i < |states| :: t in states[i].threads)
      && sys.now > old(sys.now) && sys.cfg == old(sys.cfg)
    }

    /** Appends one step to the run. */
    method Step(l: Label)
      requires Valid() && Enabled(sys, l)
      modifies this
      ensures Valid() && sys == Apply(old(sys), l) && script == old(script)
      ensures states == old(states) + [sys] && labels == old(labels) + [l]
    {
      Extend(states, labels, l);
      sys := Apply(sys, l);
      states, labels := states + [sys], labels + [l];
    }

    /** Whatever the others do, they leave `t` alone. */
    method Interfere(t: Tid, others: seq<Label>)
      requires Valid() && t in sys.threads
      modifies this
      ensures Valid() && old(states) <= states && old(labels) <= labels && script == old(script)
      ensures t in sys.threads && sys.threads[t] == old(sys.threads[t])
      ensures forall i | |old(states)| <= i < |states| :: t in states[i].threads
      ensures sys.now >= old(sys.now) && sys.cfg == old(sys.cfg)
    {
      for n := 0 to |others|
        invariant Valid() && old(states) <= states && old(labels) <= labels && script == old(script)
        invariant t in sys.threads && sys.threads[t] == old(sys.threads[t])
        invariant forall i | |old(states)| <= i < |states| :: t in states[i].threads
        invariant sys.now >= old(sys.now) && sys.cfg == old(sys.cfg)
      {
        var l := others[n];
        if Enabled(sys, l) && !(l.Act? && l.t == t) && !(l.Crash? && l.t == t) {
          OthersKeepThread(sys, l, t);
          Step(l);
        }
      }
    }

    /** Others move, then at least `rest` passes; the outcome of the call that follows. */
    method Await(t: Tid, rest: nat) returns (out: Out)
      requires Valid() && t in sys.threads
      modifies this
      ensures Valid() && old(states) <= states && old(labels) <= labels
      ensures t in sys.threads && sys.threads[t] == old(sys.threads[t])
      ensures forall i | |old(states)| <= i < |states| :: t in states[i].threads
      ensures sys.now > old(sys.now) + rest && sys.cfg == old(sys.cfg)
    {
      var turn := if script == [] then Turn([], 0, Fine) else script[0];
      script := if script == [] then [] else script[1..];
      Interfere(t, turn.others);
      Step(Tick(1 + rest + turn.delay));
      out := turn.out;
    }

    /**
     * The next call of thread `t`, taking at least `rest`. Returns its outcome with what the
     * call met: the endpoint's row and objects, and the time.
     */
    method Perform(t: Tid, rest: nat) returns (out: Out, c: Cell, now: Time, before: Sys)
      requires Valid() && t in sys.threads && !At(t).Done?
      modifies this
      ensures Continues(t) && sys.now > old(sys.now) + rest
      ensures t in before.threads && before.threads[t] == old(sys.threads[t]) && before.cfg == sys.cfg
      ensures c == CellOf(before, before.threads[t].ep) && now == before.now == sys.now
      ensures before == Met()
      ensures At(t) == Move(before, before.threads[t], out).pc
      ensures CellOf(sys, before.threads[t].ep) == Move(before, before.threads[t], out).cell
    {
      out := Await(t, rest);
      before, c, now := sys, CellOf(sys, sys.threads[t].ep), sys.now;
      ActedCells(sys, t, out);
      Step(Act(t, out));
    }
  }

  class Waker {
    const world: World

    constructor (world: World) ensures this.world == world { this.world := world; }

    // ---- single calls, by what they return

    /** What a waker does next about a row it has read. */
    ghost function Decision(row: Endpoint, now: Time): Pc {
      match row.state
      case Running => Verify(row.addr)
      case Starting | Suspending => if Stale(row, now) then TakeStarting else Wait
      case Suspended | Failed => CasSuspended
    }

    /** WithEndpointLock: the row and the time at which its age is judged. */
    method ReadEndpoint(t: Tid) returns (r: Result<Endpoint>, now: Time)
      requires world.Valid() && t in world.sys.threads && world.At(t).Read?
      modifies world
      ensures world.Continues(t) && now == world.sys.now
      ensures r.Err? ==> world.At(t) == Done(None)
      ensures r.Ok? ==> CellOf(world.Met(), world.sys.threads[t].ep).row == Some(r.value)
      ensures r.Ok? ==> world.At(t) == Decision(r.value, now)
    {
      var out, c, at, before := world.Perform(t, 0);
      now := at;
      r := if out == Fine && c.row.Some? then Ok(c.row.value) else Err(if c.row.None? then NotFound else Unavailable);
    }

    /** Runtime.Status. */
    method Status(t: Tid) returns (r: Result<Option<Pod>>, now: Time)
      requires world.Valid() && t in world.sys.threads
      requires world.At(t).Verify? || (world.At(t).Own? && world.At(t).job.Ready?)
      modifies world
      ensures world.Continues(t) && now == world.sys.now
      ensures r.Ok? ==> r.value == CellOf(world.Met(), world.sys.threads[t].ep).pod
      ensures old(world.At(t).Verify?) ==>
        world.At(t) == if r.Err? then Done(None)
                       else if Matches(r.value, old(world.At(t)).addr) then Done(old(world.At(t)).addr) else Repair
      ensures old(world.At(t).Own?) ==>
        var (since, deadline) := (old(world.At(t)).since, old(world.At(t)).job.deadline);
        world.At(t) == Own(since, if now >= deadline then FailPod
                                  else if r.Ok? && r.value.Some?
                                      && r.value.value.ip != "" then Probe(deadline, r.value.value.ip)
                                  else Pause(deadline))
    {
      var out, c, at, before := world.Perform(t, 0);
      now := at;
      r := if out == Fine then Ok(c.pod) else Err(Unavailable);
    }

    /** Which compare-and-swap belongs to a position. */
    ghost predicate Swaps(pc: Pc, from: EpState, to: EpState) {
      || (pc.Repair? && from == Running && to == Suspended)
      || (pc.CasSuspended? && from == Suspended && to == Starting)
      || (pc.CasFailed? && from == Failed && to == Starting)
      || (pc.TakeStarting? && from == Starting && to == Starting)
      || (pc.TakeSuspending? && from == Suspending && to == Starting)
      || (pc.Own? && pc.job.FailMark? && from == Starting && to == Failed)
    }

    /** Where the waker goes after an acknowledged compare-and-swap. */
    ghost function AfterSwap(pc: Pc, hit: bool, now: Time): Pc {
      match pc
      case Repair => Top
      case CasSuspended => if hit then Own(now, SpecAccess) else CasFailed
      case CasFailed => if hit then Own(now, SpecAccess) else Top
      case TakeStarting => if hit then Own(now, ClearPod) else TakeSuspending
      case _ => if hit then Own(now, ClearPod) else Top
    }

    lemma SwapLeads(s: Sys, th: Thread, from: EpState, to: EpState, out: Out)
      requires Swaps(th.pc, from, to)
      ensures var (pc, hit) := (Move(s, th, out).pc, InState(CellOf(s, th.ep).row, from));
        pc == if out != Fine || th.pc.Own? then Done(None) else AfterSwap(th.pc, hit, s.now)
    {
    }

    /** TransitionEndpoint: did the row move? */
    method TransitionEndpoint(t: Tid, from: EpState, to: EpState) returns (r: Result<bool>)
      requires world.Valid() && t in world.sys.threads && Swaps(world.At(t), from, to)
      modifies world
      ensures world.Continues(t)
      ensures r.Err? || old(world.At(t)).Own? ==> world.At(t) == Done(None)
      ensures r.Ok? && !old(world.At(t)).Own? ==> world.At(t) == AfterSwap(old(world.At(t)), r.value, world.sys.now)
    {
      var out, c, at, before := world.Perform(t, 0);
      SwapLeads(before, before.threads[t], from, to, out);
      r := if out == Fine then Ok(InState(c.row, from)) else Err(Unavailable);
    }

    /** The wait between two reads of the row; false when the request is cancelled. */
    method Sleep(t: Tid) returns (ok: bool)
      requires world.Valid() && t in world.sys.threads && world.At(t).Wait?
      modifies world
      ensures world.Continues(t) && world.At(t) == if ok then Top else Done(None)
      ensures world.sys.now > old(world.sys.now) + world.sys.cfg.pollInterval
    {
      var out, c, at, before := world.Perform(t, Interval());
      ok := out == Fine;
    }

    /** The wait between two looks at the pod. */
    method SleepAsOwner(t: Tid) returns (ok: bool)
      requires world.Valid() && t in world.sys.threads && world.At(t).Own? && world.At(t).job.Pause?
      modifies world
      ensures world.Continues(t)
      ensures world.At(t) == Own(old(world.At(t)).since, if ok then Ready(old(world.At(t)).job.deadline) else FailPod)
      ensures world.sys.now > old(world.sys.now) + world.sys.cfg.pollInterval
    {
      var out, c, at, before := world.Perform(t, Interval());
      ok := out == Fine;
    }

    function Interval(): nat
      reads world
    {
      if world.sys.cfg.pollInterval > 0 then world.sys.cfg.pollInterval else 0
    }

    /** Runtime.Stop, whose errors startCompute and the takeover ignore. */
    method Stop(t: Tid)
      requires world.Valid() && t in world.sys.threads
      requires world.At(t).Own? && (world.At(t).job.ClearPod? || world.At(t).job.FailPod?)
      modifies world
      ensures world.Continues(t)
      ensures world.At(t) == Own(old(world.At(t)).since, if old(world.At(t)).job.ClearPod? then SpecAccess
          else FailMark)
    {
      var out, c, at, before := world.Perform(t, 0);
      if out != Fine {
        return;
      }
      var out2, c2, at2, before2 := world.Perform(t, 0);
    }

    /** GetAccessControl: whose the endpoint is. */
    method ReadAccess(t: Tid) returns (r: Result<AccessControl>)
      requires world.Valid() && t in world.sys.threads && world.At(t).Own? && world.At(t).job.SpecAccess?
      modifies world
      ensures world.Continues(t)
      ensures world.At(t) == Own(old(world.At(t)).since, if r.Ok? then SpecProject(r.value.project, r.value.branch)
          else FailPod)
    {
      var e := world.sys.threads[t].ep;
      var out, c, at, before := world.Perform(t, 0);
      var ac := AccessControlOf(before.db, e);
      r := if out != Fine then Err(Unavailable) else if ac.None? then Err(NotFound) else Ok(ac.value);
    }

    /** GetProjectByID. */
    method ReadProject(t: Tid, pid: Id, bid: Id) returns (r: Result<Project>)
      requires world.Valid() && t in world.sys.threads && world.At(t).Own? && world.At(t).job == SpecProject(pid, bid)
      modifies world
      ensures world.Continues(t)
      ensures world.At(t) == Own(old(world.At(t)).since, if r.Ok? then SpecBranch(bid, r.value) else FailPod)
    {
      var out, c, at, before := world.Perform(t, 0);
      r := if out != Fine then Err(Unavailable) else if pid !in before.db.projects then Err(NotFound)
          else Ok(before.db.projects[pid]);
    }

    /** GetBranchByID, of which the spec needs the timeline. */
    method ReadBranch(t: Tid, bid: Id, p: Project) returns (r: Result<Branch>)
      requires world.Valid() && t in world.sys.threads && world.At(t).Own? && world.At(t).job == SpecBranch(bid, p)
      modifies world
      ensures world.Continues(t)
      ensures world.At(t) == Own(old(world.At(t)).since, if r.Ok?
          then PutNewConfig(Spec(p.tenant, r.value.timeline, p.role, p.verifier)) else FailPod)
    {
      var out, c, at, before := world.Perform(t, 0);
      r := if out != Fine then Err(Unavailable) else if bid !in before.db.branches then Err(NotFound)
          else Ok(before.db.branches[bid]);
    }

    /** The spec builder: whose the endpoint is, the project, the branch; the spec is made of what they return. */
    method BuildSpec(t: Tid) returns (r: Result<Spec>)
      requires world.Valid() && t in world.sys.threads && world.At(t).Own? && world.At(t).job.SpecAccess?
      modifies world
      ensures world.Continues(t)
      ensures world.At(t) == Own(old(world.At(t)).since, if r.Ok? then PutNewConfig(r.value) else FailPod)
    {
      var access := ReadAccess(t);
      if access.Err? {
        return Err(access.error);
      }
      var project := ReadProject(t, access.value.project, access.value.branch);
      if project.Err? {
        return Err(project.error);
      }
      var branch := ReadBranch(t, access.value.branch, project.value);
      if branch.Err? {
        return Err(branch.error);
      }
      r := Ok(Spec(project.value.tenant, branch.value.timeline, project.value.role, project.value.verifier));
    }

    /** Creates the configmap; `found` reports that it was there already. */
    method CreateConfigMap(t: Tid, spec: Spec) returns (ok: bool, found: bool)
      requires world.Valid() && t in world.sys.threads && world.At(t).Own? && world.At(t).job == PutNewConfig(spec)
      modifies world
      ensures world.Continues(t)
      ensures world.At(t) == Own(old(world.At(t)).since, if !ok then FailPod else if found then GetOldConfig(spec)
          else MakePod)
    {
      var out, c, at, before := world.Perform(t, 0);
      ok, found := out == Fine, c.cm.Some?;
    }

    /** Creates the pod, or finds it there. */
    method CreatePodObject(t: Tid) returns (ok: bool)
      requires world.Valid() && t in world.sys.threads && world.At(t).Own? && world.At(t).job.MakePod?
      modifies world
      ensures world.Continues(t)
      ensures world.At(t) == Own(old(world.At(t)).since, if ok
          then Ready(world.sys.now + world.sys.cfg.readyTimeout) else FailPod)
    {
      var out, c, at, before := world.Perform(t, 0);
      ok := out == Fine;
    }

    /** Runtime.Start: create or refresh the configmap, then create the pod if it is not there. */
    method Start(t: Tid, spec: Spec) returns (ok: bool)
      requires world.Valid() && t in world.sys.threads && world.At(t).Own? && world.At(t).job == PutNewConfig(spec)
      modifies world
      ensures world.Continues(t)
      ensures world.At(t) == Own(old(world.At(t)).since, if ok
          then Ready(world.sys.now + world.sys.cfg.readyTimeout) else FailPod)
    {
      var found;
      ok, found := CreateConfigMap(t, spec);
      if ok && found {
        ok := RefreshConfig(t, spec);
      }
      if ok {
        ok := CreatePodObject(t);
      }
    }

    /** The configmap exists already: get it and update it at the version seen. */
    method RefreshConfig(t: Tid, spec: Spec) returns (ok: bool)
      requires world.Valid() && t in world.sys.threads && world.At(t).Own? && world.At(t).job == GetOldConfig(spec)
      modifies world
      ensures world.Continues(t)
      ensures world.At(t) == Own(old(world.At(t)).since, if ok then MakePod else FailPod)
    {
      var out, c, at, before := world.Perform(t, 0);
      if out != Fine || c.cm.None? {
        return false;
      }
      var out2, c2, at2, before2 := world.Perform(t, 0);
      ok := out2 == Fine && Current(c2.cm, c.cm.value.version);
    }

    /** Asks compute_ctl at the pod's address how it is. */
    method Ask(t: Tid, ip: string) returns (reply: ProbeReply)
      requires world.Valid() && t in world.sys.threads
      requires world.At(t).Own? && world.At(t).job.Probe? && world.At(t).job.ip == ip
      modifies world
      ensures world.Continues(t)
      ensures world.At(t) == Own(old(world.At(t)).since,
        match reply
        case SaysRunning => SetRunning(ip)
        case SaysFailed => FailPod
        case SaysOther => Pause(old(world.At(t)).job.deadline))
    {
      var out, c, at, before := world.Perform(t, 0);
      reply := if out.Answer? then out.reply else SaysOther;
    }

    /** The row that the last step met, unless deleted, is running at `addr` now, and was started now. */
    ghost predicate JustRan(t: Tid, addr: string)
      requires t in world.sys.threads && |world.states| > 1
      reads world
    {
      var (met, row) := (CellOf(world.Met(), world.sys.threads[t].ep).row, CellOf(world.sys,
          world.sys.threads[t].ep).row);
      met.Some? ==> row.Some? && Ran(met.value, row.value, addr, world.sys.now)
    }

    /** Stores that the endpoint runs at this pod, from now on. */
    method SetEndpointRunning(t: Tid, ip: string) returns (ok: bool)
      requires world.Valid() && t in world.sys.threads && world.At(t).Own? && world.At(t).job == SetRunning(ip)
      modifies world
      ensures world.Continues(t)
      ensures world.At(t) == if ok then Done(Some(ip + ":55433")) else Own(old(world.At(t)).since, FailPod)
      ensures ok ==> JustRan(t, ip + ":55433")
    {
      PortIs55433(ip);
      var out, c, at, before := world.Perform(t, 0);
      ok := out == Fine;
    }

    // ---- the program

    /** One round of the wait after a look at the pod: ask it if it has an address, else pause. */
    method Round(t: Tid, st: Result<Option<Pod>>, ghost deadline: Time) returns (done: Option<Result<string>>)
      requires world.Valid() && t in world.sys.threads && world.At(t).Own? && world.At(t).job == NextLook(st, deadline)
      modifies world
      ensures world.Continues(t)
      ensures world.At(t) == Own(old(world.At(t)).since,
        if done.None? then Ready(deadline) else if done.value.Ok? then SetRunning(done.value.value) else FailPod)
    {
      if st.Ok? && st.value.Some? && st.value.value.ip != "" {
        var reply := Ask(t, st.value.value.ip);
        match reply {
          case SaysRunning => return Some(Ok(st.value.value.ip));
          case SaysFailed => return Some(Err(Unavailable));
          case SaysOther =>
        }
      }
      var ok := SleepAsOwner(t);
      done := if ok then None else Some(Err(Cancelled));
    }

    ghost function NextLook(st: Result<Option<Pod>>, deadline: Time): Job {
      if st.Ok? && st.value.Some? && st.value.value.ip != "" then Probe(deadline, st.value.value.ip)
          else Pause(deadline)
    }

    /** Waits until compute_ctl says running, within the ready timeout. */
    method WaitReady(t: Tid) returns (r: Result<string>)
      requires world.Valid() && t in world.sys.threads && world.At(t).Own?
      requires world.At(t).job == Ready(world.sys.now + world.sys.cfg.readyTimeout)
      modifies world
      ensures world.Continues(t)
      ensures world.At(t) == Own(old(world.At(t)).since, if r.Ok? then SetRunning(r.value) else FailPod)
    {
      ghost var since := world.At(t).since;
      var deadline := world.sys.now + world.sys.cfg.readyTimeout;
      var st, now := Status(t);
      while now < deadline
        invariant world.Continues(t) && now <= world.sys.now
        invariant world.At(t) == Own(since, if now >= deadline then FailPod else NextLook(st, deadline))
        decreases deadline - now
      {
        var done := Round(t, st, deadline);
        if done.Some? {
          return done.value;
        }
        st, now := Status(t);
      }
      r := Err(TimedOut);
    }

    /** fail(): stop what was started and mark the endpoint failed. */
    method Abort(t: Tid)
      requires world.Valid() && t in world.sys.threads && world.At(t).Own? && world.At(t).job.FailPod?
      modifies world
      ensures world.Continues(t) && world.At(t) == Done(None)
    {
      Stop(t);
      var r := TransitionEndpoint(t, Starting, Failed);
    }

    /** Build the spec, start the compute, wait for it. */
    method Launch(t: Tid) returns (r: Result<string>)
      requires world.Valid() && t in world.sys.threads && world.At(t).Own? && world.At(t).job.SpecAccess?
      modifies world
      ensures world.Continues(t)
      ensures world.At(t) == Own(old(world.At(t)).since, if r.Ok? then SetRunning(r.value) else FailPod)
    {
      var spec := BuildSpec(t);
      if spec.Err? {
        return Err(spec.error);
      }
      var started := Start(t, spec.value);
      if !started {
        return Err(Unavailable);
      }
      r := WaitReady(t);
    }

    /** startCompute, with ownership of `starting`. */
    method StartCompute(t: Tid) returns (r: Result<string>)
      requires world.Valid() && t in world.sys.threads && world.At(t).Own? && world.At(t).job.SpecAccess?
      modifies world
      ensures world.Continues(t)
      ensures world.At(t) == Done(if r.Ok? then Some(r.value) else None)
      ensures r.Ok? ==> JustRan(t, r.value) && HasPort(r.value)
    {
      r := Launch(t);
      if r.Ok? {
        var stored := SetEndpointRunning(t, r.value);
        PortIs55433(r.value);
        r := if stored then Ok(ComputeAddr(r.value)) else Err(Unavailable);
      }
      if r.Err? {
        Abort(t);
      }
    }

    /** Wins or loses the race to start from `suspended` or `failed`. */
    method TryStart(t: Tid) returns (over: bool, r: Result<string>)
      requires world.Valid() && t in world.sys.threads && world.At(t).CasSuspended?
      modifies world
      ensures world.Continues(t)
      ensures world.At(t) == if over then Done(if r.Ok? then Some(r.value) else None) else Top
    {
      var hit := TransitionEndpoint(t, Suspended, Starting);
      if hit == Ok(false) {
        hit := TransitionEndpoint(t, Failed, Starting);
      }
      if hit.Err? {
        return true, Err(hit.error);
      }
      over, r := hit.value, Err(Unavailable);
      if over {
        r := StartCompute(t);
      }
    }

    /** Takes over a stale start or suspension: clear what it left, then start. */
    method TryTakeover(t: Tid) returns (over: bool, r: Result<string>)
      requires world.Valid() && t in world.sys.threads && world.At(t).TakeStarting?
      modifies world
      ensures world.Continues(t)
      ensures world.At(t) == if over then Done(if r.Ok? then Some(r.value) else None) else Top
    {
      var hit := SwapStale(t);
      if hit.Err? {
        return true, Err(hit.error);
      }
      over, r := hit.value, Err(Unavailable);
      if over {
        Stop(t);
        r := StartCompute(t);
      }
    }

    /** The two swaps of a takeover, from starting and then from suspending. */
    method SwapStale(t: Tid) returns (hit: Result<bool>)
      requires world.Valid() && t in world.sys.threads && world.At(t).TakeStarting?
      modifies world
      ensures world.Continues(t)
      ensures hit.Err? ==> world.At(t) == Done(None)
      ensures hit.Ok? ==> world.At(t) == if hit.value then Own(world.sys.now, ClearPod) else Top
    {
      hit := TransitionEndpoint(t, Starting, Starting);
      if hit == Ok(false) {
        hit := TransitionEndpoint(t, Suspending, Starting);
      }
    }

    /** Trusts a running row only if the pod is Running at its address; else reconciles it. */
    method VerifyRunning(t: Tid, addr: Option<string>) returns (over: bool, r: Result<string>)
      requires world.Valid() && t in world.sys.threads && world.At(t) == Verify(addr)
      modifies world
      ensures world.Continues(t)
      ensures world.At(t) == if over then Done(if r.Ok? then Some(r.value) else None) else Top
    {
      var st, now := Status(t);
      if st.Err? {
        return true, Err(st.error);
      }
      if Matches(st.value, addr) {
        return true, Ok(addr.value);
      }
      var ok := TransitionEndpoint(t, Running, Suspended);
      over, r := ok.Err?, Err(Unavailable);
    }

    /** The deadline test at the head of the loop. */
    method InTime(t: Tid, deadline: Time) returns (b: bool, now: Time)
      requires world.Valid() && t in world.sys.threads && world.At(t).Top?
      requires deadline == world.sys.threads[t].begun + world.sys.cfg.readyTimeout + WAKE_MARGIN
      modifies world
      ensures world.Continues(t) && now == world.sys.now
      ensures b <==> now < deadline
      ensures world.At(t) == if b then Read else Done(None)
    {
      var out, c, at, before := world.Perform(t, 0);
      b, now := at < deadline, at;
    }

    /** One pass of Wake's loop: read the row, act on it. */
    method Pass(t: Tid) returns (over: bool, r: Result<string>)
      requires world.Valid() && t in world.sys.threads && world.At(t).Read?
      modifies world
      ensures world.Continues(t)
      ensures world.At(t) == if over then Done(if r.Ok? then Some(r.value) else None) else Top
    {
      var row, now := ReadEndpoint(t);
      if row.Err? {
        return true, Err(row.error);
      }
      over, r := Decide(t, row.value, now);
    }

    /** Acts on the row as it was read. */
    method Decide(t: Tid, row: Endpoint, now: Time) returns (over: bool, r: Result<string>)
      requires world.Valid() && t in world.sys.threads && world.At(t) == Decision(row, now)
      modifies world
      ensures world.Continues(t)
      ensures world.At(t) == if over then Done(if r.Ok? then Some(r.value) else None) else Top
    {
      match row.state {
        case Running => over, r := VerifyRunning(t, row.addr);
        case Suspended | Failed => over, r := TryStart(t);
        case Starting | Suspending =>
          if Stale(row, now) {
            over, r := TryTakeover(t);
          } else {
            var ok := Sleep(t);
            over, r := !ok, Err(Cancelled);
          }
      }
    }

    /**
     * Wake. Whatever everybody else does meanwhile, the call takes only steps of the
     * transition system, ends, and returns what its thread's position says; an address it
     * returns is vouched for inside the call, unless the row was deleted during it.
     */
    method Wake(t: Tid, e: Id) returns (r: Result<string>)
      requires world.Valid() && t !in world.sys.threads
      modifies world
      ensures world.Valid() && old(world.states) <= world.states && old(world.labels) <= world.labels
      ensures |old(world.labels)| < |world.labels| && world.labels[|old(world.labels)|] == Lifecycle.Wake(t, e)
      ensures t in world.sys.threads && world.At(t) == Done(if r.Ok? then Some(r.value) else None)
      ensures r.Ok? && Returned.Kept(world.states, |old(world.labels)|, e) ==>
        && Returned.Vouched(world.states, world.labels, |old(world.labels)|, |world.labels|, t, e, r.value)
        && (EveryRun.RowsOk(world.states[0]) && EveryRun.SnapshotsOk(world.states[0]) ==>
              r.value == IpOf(r.value) + ":55433")
    {
      ghost var w := |world.labels|;
      world.Step(Lifecycle.Wake(t, e));
      r := Loop(t);
      if r.Ok? && Returned.Kept(world.states, w, e) {
        Returned.ReturnedAddressesAreVouched(world.states, world.labels, w, t, e, r.value);
      }
    }

    method Loop(t: Tid) returns (r: Result<string>)
      requires world.Valid() && t in world.sys.threads && world.At(t).Top?
          && world.sys.threads[t].begun == world.sys.now
      modifies world
      ensures world.Continues(t) && world.At(t) == Done(if r.Ok? then Some(r.value) else None)
    {
      var deadline := world.sys.now + world.sys.cfg.readyTimeout + WAKE_MARGIN;
      var over := false;
      r := Err(TimedOut);
      var intime, now := InTime(t, deadline);
      while intime && !over
        invariant world.Continues(t) && now <= world.sys.now
        invariant intime <==> now < deadline
        invariant !over ==> world.At(t) == if intime then Read else Done(None)
        invariant over ==> world.At(t) == Done(if r.Ok? then Some(r.value) else None)
        invariant !over ==> r.Err?
        decreases !over, deadline - now
      {
        over, r := Pass(t);
        if !over {
          r := Err(TimedOut);
          intime, now := InTime(t, deadline);
        }
      }
    }
  }
}
