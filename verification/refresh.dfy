/**
 * Runtime.Start over a configmap that exists: it is read and then updated at the version
 * read. No write of anybody else between the two is ever lost.
 */
module Refresh {
  import opened Base
  import opened Database
  import opened Cluster
  import opened Lifecycle

  /** What a step does to a configmap: nothing, removal, or a version never handed out before. */
  predicate NewVersion(a: Option<ConfigMap>, b: Option<ConfigMap>, last: nat, next: nat) {
    b == a || b.None? || last < b.value.version <= next
  }

  lemma MovesVersion(s: Sys, th: Thread, out: Out)
    requires !th.pc.Done?
    ensures NewVersion(CellOf(s, th.ep).cm, Move(s, th, out).cell.cm, s.k8s.version, s.k8s.version + 1)
  {
    var c := CellOf(s, th.ep);
    if th.pc.Own? {
      assert Move(s, th, out) == OwnerMove(th.pc.since, th.pc.job, c, th.ep, s, out);
    } else if th.pc.Susp? {
      assert Move(s, th, out) == SuspendMove(th.pc.since, th.pc.task, c, s.now, out);
    } else if IsWake(th.pc) {
      assert Move(s, th, out) == WakeMove(th.pc, c, s.now, th.begun, s.cfg, out);
    }
  }

  lemma StepVersions(s: Sys, l: Label, e: Id)
    requires Enabled(s, l)
    ensures var s' := Apply(s, l);
      NewVersion(CellOf(s, e).cm, CellOf(s', e).cm, s.k8s.version, s'.k8s.version) && s'.k8s.version >= s.k8s.version
  {
    if l.Act? {
      ActedCells(s, l.t, l.out);
      MovesVersion(s, s.threads[l.t], l.out);
    } else if IsPodStep(l) {
      PodStepCells(s, l);
    }
  }

  /** No configmap of the endpoint has a version from the future. */
  ghost predicate PastVersion(s: Sys, e: Id) {
    CellOf(s, e).cm.Some? ==> CellOf(s, e).cm.value.version <= s.k8s.version
  }

  /** The configmap as it was read: another object never has its version. */
  ghost predicate SameIfCurrent(s: Sys, e: Id, read: ConfigMap) {
    && read.version <= s.k8s.version && PastVersion(s, e)
    && (Current(CellOf(s, e).cm, read.version) ==> CellOf(s, e).cm == Some(read))
  }

  lemma StepKeepsSame(s: Sys, l: Label, s': Sys, e: Id, read: ConfigMap)
    requires Enabled(s, l) && s' == Apply(s, l)
    ensures PastVersion(s, e) ==> PastVersion(s', e)
    ensures SameIfCurrent(s, e, read) ==> SameIfCurrent(s', e, read)
  {
    StepVersions(s, l, e);
  }

  lemma {:induction false} VersionsArePast(states: seq<Sys>, labels: seq<Label>, e: Id, n: nat)
    requires IsRun(states, labels) && PastVersion(states[0], e) && n < |states|
    ensures PastVersion(states[n], e)
    decreases n
  {
    if n > 0 {
      VersionsArePast(states, labels, e, n - 1);
      StepKeepsSame(states[n - 1], labels[n - 1], states[n], e, ConfigMap(Spec("", "", "", ""), 0));
    }
  }

  ghost predicate SameStays(s: Sys, s': Sys, e: Id, read: ConfigMap) {
    SameIfCurrent(s, e, read) ==> SameIfCurrent(s', e, read)
  }

  lemma RunsKeepSame(states: seq<Sys>, labels: seq<Label>, e: Id, read: ConfigMap)
    requires IsRun(states, labels)
    ensures forall k | 0 <= k < |states| - 1 :: SameStays(states[k], states[k + 1], e, read)
  {
    forall k | 0 <= k < |states| - 1 ensures SameStays(states[k], states[k + 1], e, read) {
      StepKeepsSame(states[k], labels[k], states[k + 1], e, read);
    }
  }

  lemma {:induction false} StaysSame(states: seq<Sys>, e: Id, read: ConfigMap, j: nat, n: nat)
    requires forall k | 0 <= k < |states| - 1 :: SameStays(states[k], states[k + 1], e, read)
    requires j <= n < |states| && SameIfCurrent(states[j], e, read)
    ensures SameIfCurrent(states[n], e, read)
    decreases n
  {
    if n > j {
      StaysSame(states, e, read, j, n - 1);
      assert SameStays(states[n - 1], states[n - 1 + 1], e, read);
    }
  }

  /** An update is refused unless the object is the one read; otherwise it stores the spec. */
  lemma UpdateMoves(s: Sys, th: Thread, out: Out)
    requires th.pc.Own? && th.pc.job.PutOldConfig?
    ensures var (c, m, job) := (CellOf(s, th.ep), Move(s, th, out), th.pc.job);
      && (m.cell.cm != c.cm || (m.pc.Own? && m.pc.job.MakePod?) ==>
            Current(c.cm, job.seen) && m.cell.cm.Some? && m.cell.cm.value.spec == job.spec
                && m.cell.cm.value.version > s.k8s.version)
      && (out == Fine && Current(c.cm, job.seen) ==> m.pc == Own(th.pc.since, MakePod))
  {
    assert Move(s, th, out) == OwnerMove(th.pc.since, th.pc.job, CellOf(s, th.ep), th.ep, s, out);
  }

  /** A read remembers the version of the object it has met. */
  lemma ReadMoves(s: Sys, th: Thread, out: Out)
    requires th.pc.Own? && th.pc.job.GetOldConfig?
    ensures var (c, m) := (CellOf(s, th.ep), Move(s, th, out));
      m.cell == c && (m.pc.Own? && m.pc.job.PutOldConfig? ==>
                        c.cm.Some? && m.pc.job == PutOldConfig(th.pc.job.spec, c.cm.value.version))
  {
    assert Move(s, th, out) == OwnerMove(th.pc.since, th.pc.job, CellOf(s, th.ep), th.ep, s, out);
  }

  /**
   * In every run: a waker reads the configmap at step j and calls the update at step n. If the
   * update changes anything, or the waker takes it for done, then the object is still the very
   * one read, whatever the others have done meanwhile; and then it carries the waker's spec.
   */
  lemma NoWriteIsLost(states: seq<Sys>, labels: seq<Label>, j: nat, n: nat, t: Tid, e: Id, since: Time, spec: Spec,
      seen: nat)
    requires IsRun(states, labels) && PastVersion(states[0], e) && j < n < |labels|
    requires t in states[j].threads && states[j].threads[t].ep == e
    requires states[j].threads[t].pc == Own(since, GetOldConfig(spec)) && labels[j].Act? && labels[j].t == t
    requires t in states[j + 1].threads && states[j + 1].threads[t].pc == Own(since, PutOldConfig(spec, seen))
    requires t in states[n].threads && states[n].threads[t].ep == e
    requires states[n].threads[t].pc == Own(since, PutOldConfig(spec, seen)) && labels[n].Act? && labels[n].t == t
    ensures t in states[n + 1].threads
    ensures var (was, now) := (CellOf(states[n], e).cm, CellOf(states[n + 1], e).cm);
      now != was || states[n + 1].threads[t].pc == Own(since, MakePod) ==>
        was.Some? && was == CellOf(states[j], e).cm && now.Some? && now.value.spec == spec && now != was
  {
    VersionsArePast(states, labels, e, j);
    var read := ReadAt(states, labels, j, t, e, since, spec, seen);
    RunsKeepSame(states, labels, e, read);
    StaysSame(states, e, read, j + 1, n);
    WritesAt(states[n], labels[n], states[n + 1], t, e, read);
  }

  lemma ReadAt(states: seq<Sys>, labels: seq<Label>, j: nat, t: Tid, e: Id, since: Time, spec: Spec, seen: nat)
    returns (read: ConfigMap)
    requires IsRun(states, labels) && j < |labels| && PastVersion(states[j], e)
    requires t in states[j].threads && states[j].threads[t].ep == e
    requires states[j].threads[t].pc == Own(since, GetOldConfig(spec)) && labels[j].Act? && labels[j].t == t
    requires t in states[j + 1].threads && states[j + 1].threads[t].pc == Own(since, PutOldConfig(spec, seen))
    ensures CellOf(states[j], e).cm == Some(read) && read.version == seen && SameIfCurrent(states[j + 1], e, read)
  {
    var (s, out) := (states[j], labels[j].out);
    assert states[j + 1] == Apply(s, labels[j]);
    ActedCells(s, t, out);
    ReadMoves(s, s.threads[t], out);
    read := CellOf(s, e).cm.value;
  }

  lemma WritesAt(s: Sys, l: Label, s': Sys, t: Tid, e: Id, read: ConfigMap)
    requires Enabled(s, l) && s' == Apply(s, l) && l.Act? && l.t == t && s.threads[t].ep == e
    requires s.threads[t].pc.Own? && s.threads[t].pc.job.PutOldConfig? && s.threads[t].pc.job.seen == read.version
    requires SameIfCurrent(s, e, read)
    ensures t in s'.threads
    ensures var (was, now) := (CellOf(s, e).cm, CellOf(s', e).cm);
      now != was || (s'.threads[t].pc.Own? && s'.threads[t].pc.job.MakePod?) ==>
        was == Some(read) && now.Some? && now.value.spec == s.threads[t].pc.job.spec && now != was
  {
    ActedCells(s, t, l.out);
    UpdateMoves(s, s.threads[t], l.out);
  }
}
