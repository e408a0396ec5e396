/** A round's verdict does not depend on who answers first. */
module Verdicts {
  import opened Definitions
  import opened JoinPolicies

  /** What becomes of one branch of a round. */
  datatype Fate = Approves | Rejects | IsCancelled

  function Count(fates: seq<Fate>, f: Fate): nat {
    if fates == [] then 0 else Count(fates[..|fates| - 1], f) + (if fates[|fates| - 1] == f then 1 else 0)
  }

  /** The tally once `fates` happened in a round of `expected` branches. */
  function TallyOf(fates: seq<Fate>, expected: nat): Tally {
    Tally(Count(fates, Approves), Count(fates, Rejects), Count(fates, IsCancelled), expected)
  }

  /** The first ruling that closes the round as the fates happen one by one. */
  function Fed(p: Policy, fates: seq<Fate>, expected: nat): Ruling {
    if fates == [] then Open
    else
      var before := Fed(p, fates[..|fates| - 1], expected);
      if before.Closed? then before else Closes(p, TallyOf(fates, expected))
  }

  /** The verdict read off the fates alone. */
  function Verdict(p: Policy, fates: seq<Fate>): Outcome {
    match p
    case AllApprove => if Rejects in fates then Rejected else Approved
    case AnyApprove => if Approves in fates then Approved else Rejected
    case Collect => NoOutcome
    case NoPolicy => NoOutcome
  }

  lemma {:induction false} CountIn(fates: seq<Fate>, f: Fate)
    ensures Count(fates, f) > 0 <==> f in fates
  {
    if fates != [] {
      var n := |fates| - 1;
      CountIn(fates[..n], f);
      assert fates == fates[..n] + [fates[n]];
    }
  }

  lemma {:induction false} CountsAll(fates: seq<Fate>)
    ensures Count(fates, Approves) + Count(fates, Rejects) + Count(fates, IsCancelled) == |fates|
  {
    if fates != [] { CountsAll(fates[..|fates| - 1]); }
  }

  /** Before the last branch only a deciding answer closes the round, and with
      the verdict the whole round will have. */
  lemma {:induction false} FedBefore(p: Policy, fates: seq<Fate>, expected: nat)
    requires |fates| < expected
    ensures Fed(p, fates, expected) ==
      if p.AllApprove? && Rejects in fates then Closed(Rejected)
      else if p.AnyApprove? && Approves in fates then Closed(Approved)
      else Open
  {
    if fates != [] {
      var n := |fates| - 1;
      FedBefore(p, fates[..n], expected);
      assert fates == fates[..n] + [fates[n]];
      CountIn(fates, Rejects);
      CountIn(fates, Approves);
      CountsAll(fates);
    }
  }

  /** A round in which not every branch was cancelled closes, with the verdict
      its fates have in whatever order they happened: rejected under
      all_approve exactly when someone rejected, approved under any_approve
      exactly when someone approved. */
  lemma RoundCloses(p: Policy, fates: seq<Fate>)
    requires !p.NoPolicy? && (Approves in fates || Rejects in fates)
    ensures Fed(p, fates, |fates|) == Closed(Verdict(p, fates))
  {
    var n := |fates| - 1;
    FedBefore(p, fates[..n], |fates|);
    assert fates == fates[..n] + [fates[n]];
    CountIn(fates, Rejects);
    CountIn(fates, Approves);
    CountsAll(fates);
  }

  /** A round whose branches were all cancelled never closes. */
  lemma AllCancelledStaysOpen(p: Policy, fates: seq<Fate>)
    requires forall i :: 0 <= i < |fates| ==> fates[i] == IsCancelled
    ensures Fed(p, fates, |fates|) == Open
  {
    if fates != [] {
      var n := |fates| - 1;
      FedBefore(p, fates[..n], |fates|);
      CountIn(fates, Rejects);
      CountIn(fates, Approves);
    }
  }

  /** The same answers in any other order close the round with the same
      verdict. */
  lemma OrderDoesNotMatter(p: Policy, a: seq<Fate>, b: seq<Fate>)
    requires !p.NoPolicy? && multiset(a) == multiset(b) && (Approves in a || Rejects in a)
    ensures Fed(p, a, |a|) == Fed(p, b, |b|) == Closed(Verdict(p, a))
  {
    forall f ensures f in a <==> f in b { assert f in multiset(a) <==> f in multiset(b); }
    RoundCloses(p, a);
    RoundCloses(p, b);
  }
}
