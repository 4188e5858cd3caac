/** The position at which a branch is cut from its parent: how long to wait for it, and how it is compared. */
module BranchPoint {
  import opened Base
  import Lsn

  const INGEST_BUDGET: Time := 30_000
  const INGEST_POLL: nat := 200
  const TWO64 := Lsn.TWO64

  /** Comparing the two texts compares the pageserver's position with the commit position. */
  lemma CaughtUpExactly(record: nat, commit: string)
    requires record < TWO64 && Lsn.Parse(commit).Some?
    ensures Lsn.AtLeast(Lsn.Format(record), commit) == Ok(record >= Lsn.Parse(commit).value)
  {
    Lsn.FormatRoundTrip(record);
  }
}
