/** What a compute that serves has been told: in every run, a running pod has read its own endpoint's spec. */
module Told {
  import opened Base
  import opened Database
  import opened Cluster
  import opened Lifecycle
  import opened EveryRun

  /** A pod runs only with an address, and has one only with a configuration. */
  predicate Configured(pod: Option<Pod>) {
    pod.Some? ==>
      (pod.value.phase == PodRunning ==> pod.value.ip != "") && (pod.value.ip != "" ==> pod.value.spec.Some?)
  }

  lemma MovesConfigure(s: Sys, th: Thread, out: Out)
    requires !th.pc.Done? && Configured(CellOf(s, th.ep).pod)
    ensures Configured(Move(s, th, out).cell.pod)
  {
    var c := CellOf(s, th.ep);
    if th.pc.Own? {
      assert Move(s, th, out) == OwnerMove(th.pc.since, th.pc.job, c, th.ep, s, out);
    } else if th.pc.Susp? {
      assert Move(s, th, out) == SuspendMove(th.pc.since, th.pc.task, c, s.now, out);
    } else if IsWake(th.pc) {
      assert Move(s, th, out) == WakeMove(th.pc, c, s.now, th.begun, s.cfg, out);
    }
  }

  ghost predicate ToldOk(s: Sys, e: Id) { SpecsOk(s) && Configured(CellOf(s, e).pod) }

  ghost predicate ToldStays(s: Sys, s': Sys, e: Id) { ToldOk(s, e) ==> ToldOk(s', e) }

  lemma StepConfigures(s: Sys, l: Label, e: Id)
    requires Enabled(s, l) && Configured(CellOf(s, e).pod)
    ensures Configured(CellOf(Apply(s, l), e).pod)
  {
    if l.Act? {
      ActedCells(s, l.t, l.out);
      if s.threads[l.t].ep == e {
        MovesConfigure(s, s.threads[l.t], l.out);
      }
    } else if IsPodStep(l) {
      PodStepCells(s, l);
    }
  }

  lemma RunsStayTold(states: seq<Sys>, labels: seq<Label>, k: nat, e: Id)
    requires IsRun(states, labels) && k < |labels|
    ensures ToldStays(states[k], states[k + 1], e)
  {
    if ToldOk(states[k], e) {
      StepKeepsSpecs(states[k], labels[k]);
      StepConfigures(states[k], labels[k], e);
    }
  }

  lemma {:induction false} StaysTold(states: seq<Sys>, e: Id, n: nat)
    requires forall k | 0 <= k < |states| - 1 :: ToldStays(states[k], states[k + 1], e)
    requires n < |states| && ToldOk(states[0], e)
    ensures ToldOk(states[n], e)
    decreases n
  {
    if n > 0 {
      StaysTold(states, e, n - 1);
      assert ToldStays(states[n - 1], states[n - 1 + 1], e);
    }
  }

  /**
   * In every run: a pod that runs has been told the tenant of its endpoint's project, the
   * timeline of its branch, and the project's role and verifier, as they were first created.
   */
  lemma RunningPodsAreTold(states: seq<Sys>, labels: seq<Label>, n: nat, e: Id)
    requires IsRun(states, labels) && SpecsOk(states[0]) && Configured(CellOf(states[0], e).pod) && n < |states|
    requires CellOf(states[n], e).pod.Some? && CellOf(states[n], e).pod.value.phase == PodRunning
    ensures var h := states[n].hist;
      e in h.endpoints && h.endpoints[e].branch in h.branches
          && h.branches[h.endpoints[e].branch].project in h.projects
    ensures var (h, spec) := (states[n].hist, CellOf(states[n], e).pod.value.spec);
      var b := h.branches[h.endpoints[e].branch];
      && spec.Some? && spec.value.timeline == b.timeline && spec.value.tenant == h.projects[b.project].tenant
      && spec.value.role == h.projects[b.project].role && spec.value.verifier == h.projects[b.project].verifier
  {
    forall k | 0 <= k < |states| - 1 ensures ToldStays(states[k], states[k + 1], e) {
      RunsStayTold(states, labels, k, e);
    }
    StaysTold(states, e, n);
    assert ObjectsTold(states[n].hist, e, CellOf(states[n], e));
  }
}
