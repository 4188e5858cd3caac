/**
 * Single flight: at most one thread owns an endpoint, and the row says so. The lemma
 * OwnershipKeptExactly gives, for every step of every thread, the exact condition under
 * which the step keeps this; the theorems about whole runs follow from it.
 */
module SingleFlight {
  import opened Base
  import opened Database
  import opened Cluster
  import opened Lifecycle

  /** The state in which the row must be while a thread is at `pc`: owners have one. */
  function Claim(pc: Pc): Option<EpState> {
    if pc.Own? then Some(Starting) else if pc.Susp? then Some(Suspending) else None
  }

  ghost predicate Owns(s: Sys, t: Tid, e: Id) {
    t in s.threads && s.threads[t].ep == e && Claim(s.threads[t].pc).Some?
  }

  ghost predicate HasOwner(s: Sys, e: Id) { exists t :: Owns(s, t, e) }

  /** A thread that owns an endpoint owns a known one, whose row (unless deleted) is in the claimed state. */
  ghost predicate ClaimsHold(s: Sys) {
    forall t :: t in s.threads && Claim(s.threads[t].pc).Some? ==>
      var (e, row) := (s.threads[t].ep, CellOf(s, s.threads[t].ep).row);
      e in s.hist.endpoints && (row.Some? ==> row.value.state == Claim(s.threads[t].pc).value)
  }

  ghost predicate OneOwner(s: Sys) {
    forall t, u, e :: Owns(s, t, e) && Owns(s, u, e) ==> t == u
  }

  ghost predicate Exclusive(s: Sys) { ClaimsHold(s) && OneOwner(s) }

  /** Did the call change the database? */
  predicate Applied(out: Out) { out == Fine || out == Lost }

  /** A compare-and-swap from a takeover position that hits: `acked` says whether the waker learns of it. */
  ghost predicate TakesOver(s: Sys, l: Label) {
    l.Act? && l.t in s.threads && Applied(l.out) &&
    var th := s.threads[l.t];
    var row := CellOf(s, th.ep).row;
    (th.pc.TakeStarting? && InState(row, Starting)) || (th.pc.TakeSuspending? && InState(row, Suspending))
  }

  /** The sweep's missing-pod repair or debugStop writes `suspended` over whatever is there. */
  ghost predicate Overwrites(s: Sys, l: Label) {
    l.Act? && l.t in s.threads && Applied(l.out) &&
    var th := s.threads[l.t];
    (th.pc.SweepRepair? || th.pc.DebugSet?) && CellOf(s, th.ep).row.Some?
  }

  /** SetEndpointRunning takes effect but its caller is told it failed. */
  ghost predicate LosesRunning(s: Sys, l: Label) {
    l.Act? && l.t in s.threads && l.out == Lost &&
    var th := s.threads[l.t];
    th.pc.Own? && th.pc.job.SetRunning? && CellOf(s, th.ep).row.Some?
  }

  /** The writes that can break ownership: a caller can tell from the position and the row before the step. */
  ghost predicate Hazard(s: Sys, l: Label) { TakesOver(s, l) || Overwrites(s, l) || LosesRunning(s, l) }

  /**
   * The exact guard: the hazard meets a live owner. A takeover of `starting` whose reply is
   * lost leaves the row and the owners as they were.
   */
  ghost predicate Displaces(s: Sys, l: Label) {
    || (TakesOver(s, l) && HasOwner(s, s.threads[l.t].ep) && !(l.out == Lost && s.threads[l.t].pc.TakeStarting?))
    || (Overwrites(s, l) && HasOwner(s, s.threads[l.t].ep))
    || LosesRunning(s, l)
  }

  // ---- one step

  /** How a single move treats the row and the claim of the thread that makes it. */
  predicate MoveShape(pc: Pc, row: Option<Endpoint>, out: Out, pc': Pc, row': Option<Endpoint>) {
    var hit := (pc.CasSuspended? && InState(row, Suspended)) || (pc.CasFailed? && InState(row, Failed));
    var take := (pc.TakeStarting? && InState(row, Starting)) || (pc.TakeSuspending? && InState(row, Suspending));
    var idle := pc.SweepCas? && InState(row, Running);
    var over := pc.SweepRepair? || pc.DebugSet? || (pc.Susp? && pc.task.SetSuspended?);
    && (row'.Some? <==> row.Some?)
    && (if (hit || take) && Applied(out) then
          InState(row', Starting) && Claim(pc') == if out == Fine then Some(Starting) else None
        else if idle && Applied(out) then
          InState(row', Suspending) && Claim(pc') == if out == Fine then Some(Suspending) else None
        else if over && Applied(out) then
          (row.Some? ==> InState(row', Suspended)) && Claim(pc') == None
        else if pc.Own? && pc.job.SetRunning? && Applied(out) then
          (row.Some? ==> InState(row', Running)) && Claim(pc') == if out == Fine then None else Some(Starting)
        else if pc.Own? && pc.job.FailMark? then
          Claim(pc') == None && (row' == row || (InState(row, Starting) && InState(row', Failed)))
        else if pc.Repair? then
          Claim(pc') == None && (row' == row || (InState(row, Running) && InState(row', Suspended)))
        else
          row' == row && Claim(pc') == (if pc'.Done? then None else Claim(pc)))
  }

  lemma MovesHaveShape(s: Sys, th: Thread, out: Out)
    requires !th.pc.Done?
    ensures MoveShape(th.pc, CellOf(s, th.ep).row, out, Move(s, th, out).pc, Move(s, th, out).cell.row)
  {
    var c := CellOf(s, th.ep);
    if th.pc.Own? {
      OwnerMovesHaveShape(th.pc.since, th.pc.job, c, th.ep, s, out);
    } else if th.pc.Susp? {
      assert Move(s, th, out) == SuspendMove(th.pc.since, th.pc.task, c, s.now, out);
    } else if IsWake(th.pc) {
      assert Move(s, th, out) == WakeMove(th.pc, c, s.now, th.begun, s.cfg, out);
    }
  }

  lemma OwnerMovesHaveShape(since: Time, job: Job, c: Cell, e: Id, s: Sys, out: Out)
    ensures var m := OwnerMove(since, job, c, e, s, out);
            MoveShape(Own(since, job), c.row, out, m.pc, m.cell.row)
  {
  }

  /** What an Act step does to rows, positions and history. */
  lemma ActShape(s: Sys, t: Tid, out: Out)
    requires Enabled(s, Act(t, out))
    ensures var (s', e) := (Apply(s, Act(t, out)), s.threads[t].ep);
      && s'.threads.Keys == s.threads.Keys && s'.hist == s.hist
      && (forall u :: u in s.threads && u != t ==> s'.threads[u] == s.threads[u])
      && s'.threads[t].ep == e
      && MoveShape(s.threads[t].pc, CellOf(s, e).row, out, s'.threads[t].pc, CellOf(s', e).row)
      && (forall d: Id :: d != e ==> CellOf(s', d).row == CellOf(s, d).row)
      && (CellOf(s', e).row.Some? <==> CellOf(s, e).row.Some?)
  {
    ActedCells(s, t, out);
    MovesHaveShape(s, s.threads[t], out);
  }

  /**
   * The exact guard, for every step in every state with exclusive ownership: the step keeps
   * ownership exclusive if and only if it is not a displacing write.
   */
  lemma OwnershipKeptExactly(s: Sys, l: Label)
    requires Exclusive(s) && Enabled(s, l)
    requires s.db.endpoints.Keys <= s.hist.endpoints.Keys
    ensures Exclusive(Apply(s, l)) <==> !Displaces(s, l)
  {
    if l.Act? {
      ActShape(s, l.t, l.out);
      if Displaces(s, l) {
        DisplacingBreaks(s, l.t, l.out);
      } else {
        HarmlessKeeps(s, l.t, l.out);
      }
    } else {
      EnvironmentKeeps(s, l);
    }
  }

  lemma DisplacingBreaks(s: Sys, t: Tid, out: Out)
    requires Exclusive(s) && Enabled(s, Act(t, out)) && Displaces(s, Act(t, out))
    ensures !Exclusive(Apply(s, Act(t, out)))
  {
    ActShape(s, t, out);
    var (s', e) := (Apply(s, Act(t, out)), s.threads[t].ep);
    if LosesRunning(s, Act(t, out)) {
      assert Owns(s', t, e);
    } else {
      var u :| Owns(s, u, e);
      assert u != t;
      assert Owns(s', u, e);
      assert out == Fine && TakesOver(s, Act(t, out)) ==> Owns(s', t, e);
    }
  }

  lemma HarmlessKeeps(s: Sys, t: Tid, out: Out)
    requires Exclusive(s) && Enabled(s, Act(t, out)) && !Displaces(s, Act(t, out))
    requires s.db.endpoints.Keys <= s.hist.endpoints.Keys
    ensures Exclusive(Apply(s, Act(t, out)))
  {
    ActShape(s, t, out);
    HarmlessKeepsOneOwner(s, t, out);
    var (s', e) := (Apply(s, Act(t, out)), s.threads[t].ep);
    forall u | u in s'.threads && Claim(s'.threads[u].pc).Some?
      ensures var (d, row) := (s'.threads[u].ep, CellOf(s', s'.threads[u].ep).row);
              d in s'.hist.endpoints && (row.Some? ==> row.value.state == Claim(s'.threads[u].pc).value)
    {
      var d := s'.threads[u].ep;
      if u != t {
        assert Owns(s, u, d);
        assert d == e ==> HasOwner(s, e) && !Owns(s, t, e);
      }
    }
  }

  lemma HarmlessKeepsOneOwner(s: Sys, t: Tid, out: Out)
    requires Exclusive(s) && Enabled(s, Act(t, out)) && !Displaces(s, Act(t, out))
    ensures OneOwner(Apply(s, Act(t, out)))
  {
    ActShape(s, t, out);
    var (s', e) := (Apply(s, Act(t, out)), s.threads[t].ep);
    forall u, v, d | Owns(s', u, d) && Owns(s', v, d) ensures u == v {
      assert Owns(s, u, d) || (u == t && !HasOwner(s, e));
      assert Owns(s, v, d) || (v == t && !HasOwner(s, e));
    }
  }

  lemma EnvironmentKeeps(s: Sys, l: Label)
    requires Exclusive(s) && Enabled(s, l) && !l.Act?
    ensures Exclusive(Apply(s, l))
  {
    var s' := Apply(s, l);
    forall u, v, d | Owns(s', u, d) && Owns(s', v, d) ensures u == v {
      assert Owns(s, u, d) && Owns(s, v, d);
    }
    forall u | u in s'.threads && Claim(s'.threads[u].pc).Some?
      ensures var (d, row) := (s'.threads[u].ep, CellOf(s', s'.threads[u].ep).row);
              d in s'.hist.endpoints && (row.Some? ==> row.value.state == Claim(s'.threads[u].pc).value)
    {
      var d := s'.threads[u].ep;
      OtherStepsKeepRows(s, l, d);
      assert u in s.threads && s.threads[u] == s'.threads[u];
      assert d in s.hist.endpoints;
    }
  }

  // ---- whole runs

  ghost predicate NobodyOwns(s: Sys) { forall t :: t in s.threads ==> Claim(s.threads[t].pc).None? }

  /** The history knows every existing endpoint. */
  ghost predicate KnowsEndpoints(s: Sys) { s.db.endpoints.Keys <= s.hist.endpoints.Keys }

  lemma StepKeepsKnown(s: Sys, l: Label)
    requires KnowsEndpoints(s) && Enabled(s, l)
    ensures KnowsEndpoints(Apply(s, l)) && s.hist.endpoints.Keys <= Apply(s, l).hist.endpoints.Keys
  {
    var s' := Apply(s, l);
    if l.Act? {
      ActShape(s, l.t, l.out);
    }
    if !l.Admin? {
      forall e | e in s'.db.endpoints ensures e in s.db.endpoints {
        if l.Act? {
          assert CellOf(s', e).row.Some? <==> CellOf(s, e).row.Some?;
        } else {
          OtherStepsKeepRows(s, l, e);
        }
        assert CellOf(s, e).row.Some?;
      }
    }
  }

  lemma {:induction false} RunWithoutDisplacement(states: seq<Sys>, labels: seq<Label>)
    requires IsRun(states, labels)
    requires Exclusive(states[0]) && KnowsEndpoints(states[0])
    requires forall i | 0 <= i < |labels| :: Displaces(states[i], labels[i]) ==> !Exclusive(states[i])
    ensures forall i | 0 <= i < |states| :: Exclusive(states[i]) && KnowsEndpoints(states[i])
  {
    for n := 0 to |labels|
      invariant forall i | 0 <= i <= n :: Exclusive(states[i]) && KnowsEndpoints(states[i])
    {
      OwnershipKeptExactly(states[n], labels[n]);
      StepKeepsKnown(states[n], labels[n]);
    }
  }

  /**
   * Single flight for any number of wakers, sweeps, debug stops, deletes and creations, under
   * every interleaving, crash and failed call, from any rows and pods: as long as no takeover,
   * no overwriting of the state and no lost SetEndpointRunning reply occurs, each endpoint has
   * at most one owner at every instant, and its row is in the owner's state or deleted.
   */
  lemma SingleFlightTheorem(states: seq<Sys>, labels: seq<Label>)
    requires IsRun(states, labels) && NobodyOwns(states[0]) && KnowsEndpoints(states[0])
    requires forall i | 0 <= i < |labels| :: !Hazard(states[i], labels[i])
    ensures forall i | 0 <= i < |states| :: Exclusive(states[i])
  {
    RunWithoutDisplacement(states, labels);
  }

  /** In any run whatsoever, the first loss of exclusive ownership is a hazardous write meeting a live owner. */
  lemma FirstOverlapIsADisplacement(states: seq<Sys>, labels: seq<Label>, n: nat)
    requires IsRun(states, labels) && NobodyOwns(states[0]) && KnowsEndpoints(states[0])
    requires n < |states| && !Exclusive(states[n])
    ensures exists i | 0 <= i < n ::
        Displaces(states[i], labels[i]) && Hazard(states[i], labels[i]) && Exclusive(states[i])
  {
    if forall i | 0 <= i < n :: Displaces(states[i], labels[i]) ==> !Exclusive(states[i]) {
      var (ss, ls) := (states[..n + 1], labels[..n]);
      assert IsRun(ss, ls) by {
        forall i | 0 <= i < |ls| ensures Enabled(ss[i], ls[i]) && ss[i + 1] == Apply(ss[i], ls[i]) {
          assert states[i + 1] == Apply(states[i], labels[i]);
        }
      }
      RunWithoutDisplacement(ss, ls);
    }
  }

  // ---- the documented state machine

  predicate DocumentedEdge(a: EpState, b: EpState) {
    match a
    case Suspended => b == Starting
    case Starting => b == Running || b == Failed
    case Running => b == Suspending
    case Suspending => b == Suspended
    case Failed => b == Starting
  }

  /** How a step may change an endpoint's state: along the machine, or as a waker's repair; new ones are suspended. */
  predicate Documented(s: Sys, l: Label, e: Id)
    requires Enabled(s, l)
  {
    var (before, after) := (CellOf(s, e).row, CellOf(Apply(s, l), e).row);
    if before.None? then after.Some? ==> after.value.state == Suspended
    else after.Some? ==>
      var (a, b) := (before.value.state, after.value.state);
      a == b || DocumentedEdge(a, b) || (a == Running && b == Suspended && l.Act? && s.threads[l.t].pc.Repair?)
  }

  /** SetEndpointRunning takes effect on an existing row. */
  predicate SetsRunning(s: Sys, l: Label) {
    l.Act? && l.t in s.threads && Applied(l.out) && s.threads[l.t].pc.Own? && s.threads[l.t].pc.job.SetRunning? &&
    CellOf(s, s.threads[l.t].ep).row.Some?
  }

  predicate MeetsStarting(s: Sys, l: Label) {
    SetsRunning(s, l) ==> InState(CellOf(s, s.threads[l.t].ep).row, Starting)
  }

  lemma StepIsDocumented(s: Sys, l: Label, e: Id)
    requires Exclusive(s) && Enabled(s, l) && !Hazard(s, l)
    ensures Documented(s, l, e)
  {
    if l.Act? {
      ActShape(s, l.t, l.out);
    } else {
      OtherStepsKeepRows(s, l, e);
    }
  }

  lemma RunningMeetsStarting(s: Sys, l: Label)
    requires Exclusive(s)
    ensures MeetsStarting(s, l)
  {
  }

  /**
   * In every run of any number of threads, under every interleaving, crash and failed call,
   * without takeover, overwriting write and lost SetEndpointRunning reply: every state change
   * of every endpoint is an edge of the documented machine or a waker's repair of a running
   * row, and the unconditional SetEndpointRunning only ever fires on a row in `starting`.
   */
  lemma RunsFollowTheMachine(states: seq<Sys>, labels: seq<Label>)
    requires IsRun(states, labels) && NobodyOwns(states[0]) && KnowsEndpoints(states[0])
    requires forall i | 0 <= i < |labels| :: !Hazard(states[i], labels[i])
    ensures forall i, e: Id | 0 <= i < |labels| :: Documented(states[i], labels[i], e)
    ensures forall i | 0 <= i < |labels| :: MeetsStarting(states[i], labels[i])
  {
    SingleFlightTheorem(states, labels);
    forall i, e: Id | 0 <= i < |labels| ensures Documented(states[i], labels[i], e) {
      StepIsDocumented(states[i], labels[i], e);
    }
    forall i | 0 <= i < |labels| ensures MeetsStarting(states[i], labels[i]) {
      RunningMeetsStarting(states[i], labels[i]);
    }
  }

  /** In any run whatsoever, a change off the machine is made by a hazardous write or comes after a displacing one. */
  lemma ChangesOffTheMachineHaveCauses(states: seq<Sys>, labels: seq<Label>, n: nat, e: Id)
    requires IsRun(states, labels) && NobodyOwns(states[0]) && KnowsEndpoints(states[0]) && n < |labels|
    ensures Documented(states[n], labels[n], e) || Hazard(states[n], labels[n])
            || exists i | 0 <= i < n :: Displaces(states[i], labels[i])
  {
    if Exclusive(states[n]) {
      if !Hazard(states[n], labels[n]) {
        StepIsDocumented(states[n], labels[n], e);
      }
    } else {
      FirstOverlapIsADisplacement(states, labels, n);
    }
  }
}
