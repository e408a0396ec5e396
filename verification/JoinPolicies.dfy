/** When a round of branches closes, and with what verdict. */
module JoinPolicies {
  import opened Definitions

  datatype Tally = Tally(approved: nat, rejected: nat, cancelled: nat, expected: nat)

  datatype Ruling = Open | Closed(verdict: Outcome)

  /** What a tally means for its round. Branches that were cancelled count towards
      completeness and for nothing else. */
  function Closes(p: Policy, t: Tally): Ruling {
    var waiting := t.approved + t.rejected;
    var complete := waiting > 0 && waiting + t.cancelled == t.expected;
    match p
    case AllApprove =>
      if t.rejected > 0 then Closed(Rejected)
      else if complete then Closed(Approved)
      else Open
    case AnyApprove =>
      if t.approved > 0 then Closed(Approved)
      else if complete then Closed(Rejected)
      else Open
    case Collect => if complete then Closed(NoOutcome) else Open
    case NoPolicy => Open
  }
}
