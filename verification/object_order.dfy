/**
 * The cluster objects under exclusive ownership: Start and Stop never overlap on an
 * endpoint, so at every step and every crash point a pod exists only with its configmap.
 */
module ObjectOrder {
  import opened Base
  import opened Cluster
  import opened Lifecycle
  import opened SingleFlight

  /** Positions inside Runtime.Start or Runtime.Stop of a waker or a sweep. */
  predicate InStart(pc: Pc) {
    pc.Own? && (pc.job.PutNewConfig? || pc.job.GetOldConfig? || pc.job.PutOldConfig? || pc.job.MakePod?)
  }

  predicate InStop(pc: Pc) {
    || (pc.Own? && (pc.job.ClearPod? || pc.job.ClearConfig? || pc.job.FailPod? || pc.job.FailConfig?))
    || (pc.Susp? && (pc.task.StopPod? || pc.task.StopConfig?))
  }

  /** Neither debugStop nor a delete handler is stopping a compute. */
  ghost predicate NoForeignStop(s: Sys) { forall t :: t in s.threads ==> !IsHandler(s.threads[t].pc) }

  /** No two threads are inside runtime calls on the same endpoint. */
  lemma RuntimeCallsAreExclusive(s: Sys, t: Tid, u: Tid)
    requires Exclusive(s) && t in s.threads && u in s.threads && s.threads[t].ep == s.threads[u].ep
    requires (InStart(s.threads[t].pc) || InStop(s.threads[t].pc))
        && (InStart(s.threads[u].pc) || InStop(s.threads[u].pc))
    ensures t == u
  {
    assert Owns(s, t, s.threads[t].ep) && Owns(s, u, s.threads[t].ep);
  }

  predicate ConfigDeletion(pc: Pc) {
    (pc.Own? && (pc.job.ClearConfig? || pc.job.FailConfig?)) || (pc.Susp? && pc.task.StopConfig?)
  }

  predicate ConfigInPlace(pc: Pc) { pc.Own? && pc.job.MakePod? }

  /** The order of the two objects, per endpoint and per position. */
  ghost predicate PodsHaveConfigs(s: Sys) {
    forall e: Id :: CellOf(s, e).pod.Some? ==> CellOf(s, e).cm.Some?
  }

  ghost predicate PositionsAgree(s: Sys) {
    forall t :: t in s.threads ==> Agrees(s.threads[t].pc, CellOf(s, s.threads[t].ep))
  }

  predicate Agrees(pc: Pc, c: Cell) {
    && (ConfigDeletion(pc) ==> c.pod.None?)
    && (ConfigInPlace(pc) ==> c.cm.Some?)
  }

  predicate InOrder(pc: Pc, c: Cell) { Agrees(pc, c) && (c.pod.Some? ==> c.cm.Some?) }

  /** Without ownership a move leaves the objects alone. */
  lemma MoveKeepsOrder(s: Sys, th: Thread, out: Out)
    requires !th.pc.Done? && !IsHandler(th.pc) && InOrder(th.pc, CellOf(s, th.ep))
    ensures var m := Move(s, th, out);
            InOrder(m.pc, m.cell)
            && (Claim(th.pc).None? ==> m.cell.pod == CellOf(s, th.ep).pod && m.cell.cm == CellOf(s, th.ep).cm)
  {
    var c := CellOf(s, th.ep);
    if th.pc.Own? {
      OwnerKeepsOrder(th.pc.since, th.pc.job, c, th.ep, s, out);
    } else if th.pc.Susp? {
      assert Move(s, th, out) == SuspendMove(th.pc.since, th.pc.task, c, s.now, out);
    }
  }

  lemma OwnerKeepsOrder(since: Time, job: Job, c: Cell, e: Id, s: Sys, out: Out)
    requires InOrder(Own(since, job), c)
    ensures var m := OwnerMove(since, job, c, e, s, out);
            InOrder(m.pc, m.cell)
  {
  }

  lemma StepKeepsOrder(s: Sys, l: Label)
    requires Exclusive(s) && NoForeignStop(s) && PodsHaveConfigs(s) && PositionsAgree(s) && Enabled(s, l)
    ensures PodsHaveConfigs(Apply(s, l)) && PositionsAgree(Apply(s, l))
  {
    var s' := Apply(s, l);
    if l.Act? {
      var (t, e) := (l.t, s.threads[l.t].ep);
      ActedCells(s, t, l.out);
      MoveKeepsOrder(s, s.threads[t], l.out);
      forall u | u in s'.threads ensures Agrees(s'.threads[u].pc, CellOf(s', s'.threads[u].ep)) {
        if u != t && s.threads[u].ep == e && Claim(s.threads[t].pc).Some? {
          assert Owns(s, t, e) && !Owns(s, u, e);
        }
      }
    } else {
      ObjectsChangeLittle(s, l);
      forall u | u in s'.threads ensures Agrees(s'.threads[u].pc, CellOf(s', s'.threads[u].ep)) {
        assert (u in s.threads && s.threads[u] == s'.threads[u])
            || (!ConfigDeletion(s'.threads[u].pc) && !ConfigInPlace(s'.threads[u].pc));
      }
    }
  }

  /** What the cluster does by itself: pods change or vanish, never appear, and configmaps stay. */
  lemma ObjectsChangeLittle(s: Sys, l: Label)
    requires Enabled(s, l) && !l.Act?
    ensures forall d: Id :: var (a, b) := (CellOf(s, d), CellOf(Apply(s, l), d));
      b.cm == a.cm && (b.pod.Some? ==> a.pod.Some?)
  {
    if IsPodStep(l) {
      PodStepCells(s, l);
    } else {
      assert Apply(s, l).k8s == s.k8s;
    }
  }

  /**
   * In every run with exclusive ownership and no foreign stops, at every instant (hence
   * wherever threads crash): a pod exists only if its configmap does.
   */
  lemma {:induction false} PodsAlwaysHaveConfigs(states: seq<Sys>, labels: seq<Label>)
    requires IsRun(states, labels) && NobodyOwns(states[0]) && PodsHaveConfigs(states[0])
    requires forall i | 0 <= i < |states| :: Exclusive(states[i]) && NoForeignStop(states[i])
    ensures forall i | 0 <= i < |states| :: PodsHaveConfigs(states[i])
  {
    for n := 0 to |labels|
      invariant forall i | 0 <= i <= n :: PodsHaveConfigs(states[i])
      invariant PositionsAgree(states[n])
    {
      assert states[n + 1] == Apply(states[n], labels[n]);
      StepKeepsOrder(states[n], labels[n]);
    }
  }

  /** The same from the single-flight hypotheses alone. */
  lemma SingleFlightOrdersObjects(states: seq<Sys>, labels: seq<Label>)
    requires IsRun(states, labels) && NobodyOwns(states[0]) && KnowsEndpoints(states[0]) && PodsHaveConfigs(states[0])
    requires forall i | 0 <= i < |labels| :: !Hazard(states[i], labels[i])
    requires forall i | 0 <= i < |states| :: NoForeignStop(states[i])
    ensures forall i | 0 <= i < |states| :: PodsHaveConfigs(states[i])
  {
    SingleFlightTheorem(states, labels);
    PodsAlwaysHaveConfigs(states, labels);
  }
}
