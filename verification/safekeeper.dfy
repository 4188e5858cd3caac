/** The quorum-committed position of a timeline: the best of what the safekeepers report. */
module Safekeeper {
  import opened Base
  import Lsn

  /** What one safekeeper answered: nothing usable, or a commit_lsn string. */
  datatype Reply = Down | Reported(commit: string)

  function PositionOf(r: Reply): Option<nat> {
    if r.Reported? then Lsn.Parse(r.commit) else None
  }

  ghost function Positions(replies: seq<Reply>): set<nat> {
    set i | 0 <= i < |replies| && PositionOf(replies[i]).Some? :: PositionOf(replies[i]).value
  }

  /** `s` is the first report among those with the highest position. */
  ghost predicate IsFirstHighest(replies: seq<Reply>, s: string) {
    exists i | 0 <= i < |replies| :: FirstHighestAt(replies, s, i)
  }

  ghost predicate FirstHighestAt(replies: seq<Reply>, s: string, i: nat)
    requires i < |replies|
  {
    && replies[i] == Reported(s)
    && Lsn.Parse(s).Some?
    && (forall j | 0 <= j < |replies| && PositionOf(replies[j]).Some? ::
          PositionOf(replies[j]).value <= Lsn.Parse(s).value)
    && (forall j | 0 <= j < i && PositionOf(replies[j]).Some? :: PositionOf(replies[j]).value < Lsn.Parse(s).value)
  }

  /** MaxCommitLSN: one reply per configured safekeeper, in order. */
  method MaxCommitLsn(replies: seq<Reply>) returns (r: Result<string>)
    ensures r.Err? <==> Positions(replies) == {}
    ensures r.Ok? ==> IsFirstHighest(replies, r.value)
  {
    var best, bestVal, seen, lastErr := "", 0, false, Unavailable;
    ghost var at := 0;
    for n := 0 to |replies|
      invariant !seen ==> forall j | 0 <= j < n :: PositionOf(replies[j]).None?
      invariant seen ==> at < n && replies[at] == Reported(best) && Lsn.Parse(best) == Some(bestVal)
      invariant seen ==>
          forall j | 0 <= j < n && PositionOf(replies[j]).Some? :: PositionOf(replies[j]).value <= bestVal
      invariant seen ==>
          forall j | 0 <= j < at && PositionOf(replies[j]).Some? :: PositionOf(replies[j]).value < bestVal
    {
      if replies[n].Down? {
        lastErr := Unavailable;
        continue;
      }
      var v := Lsn.Parse(replies[n].commit);
      if v.None? {
        lastErr := Malformed;
        continue;
      }
      if !seen || v.value > bestVal {
        best, bestVal, seen, at := replies[n].commit, v.value, true, n;
      }
    }
    if !seen {
      return Err(lastErr);
    }
    assert FirstHighestAt(replies, best, at);
    assert bestVal in Positions(replies);
    return Ok(best);
  }

  /** The position found depends only on which positions were reported. */
  lemma HighestIsUnique(a: seq<Reply>, x: string, b: seq<Reply>, y: string)
    requires IsFirstHighest(a, x) && IsFirstHighest(b, y)
    requires Positions(a) == Positions(b)
    ensures Lsn.Parse(x) == Lsn.Parse(y)
    ensures Lsn.Parse(x).value in Positions(a) && forall p :: p in Positions(a) ==> p <= Lsn.Parse(x).value
  {
    var i: nat :| i < |a| && FirstHighestAt(a, x, i);
    var j: nat :| j < |b| && FirstHighestAt(b, y, j);
    assert PositionOf(a[i]).value in Positions(b);
    assert PositionOf(b[j]).value in Positions(a);
  }

  /** Asking the safekeepers in another order reports the same positions. */
  lemma OrderDoesNotMatter(a: seq<Reply>, b: seq<Reply>)
    requires multiset(a) == multiset(b)
    ensures Positions(a) == Positions(b)
  {
    forall r ensures r in a <==> r in b { assert r in multiset(a) <==> r in multiset(b); }
    forall p | p in Positions(a) ensures p in Positions(b) {
      var i :| 0 <= i < |a| && PositionOf(a[i]) == Some(p);
      assert a[i] in b;
    }
    forall p | p in Positions(b) ensures p in Positions(a) {
      var i :| 0 <= i < |b| && PositionOf(b[i]) == Some(p);
      assert b[i] in a;
    }
  }

  /** A member without a usable answer, wherever it stands, changes nothing. */
  lemma FailedMemberDoesNotMatter(a: seq<Reply>, r: Reply, b: seq<Reply>)
    requires PositionOf(r).None?
    ensures Positions(a + [r] + b) == Positions(a + b)
  {
    FailedAddsNothing(a, r, b);
    FailedHidesNothing(a, r, b);
  }

  lemma FailedAddsNothing(a: seq<Reply>, r: Reply, b: seq<Reply>)
    requires PositionOf(r).None?
    ensures Positions(a + [r] + b) <= Positions(a + b)
  {
    var all, rest := a + [r] + b, a + b;
    forall p | p in Positions(all) ensures p in Positions(rest) {
      var i :| 0 <= i < |all| && PositionOf(all[i]) == Some(p);
      assert all[i] == rest[if i < |a| then i else i - 1];
    }
  }

  lemma FailedHidesNothing(a: seq<Reply>, r: Reply, b: seq<Reply>)
    ensures Positions(a + b) <= Positions(a + [r] + b)
  {
    var all, rest := a + [r] + b, a + b;
    forall p | p in Positions(rest) ensures p in Positions(all) {
      var i :| 0 <= i < |rest| && PositionOf(rest[i]) == Some(p);
      assert rest[i] == all[if i < |a| then i else i + 1];
    }
  }
}
