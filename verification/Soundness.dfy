/** What the engine needs from a definition: every transition keeps its token in
    the branch its scope stands for, and every gateway can always be left. */
module Soundness {
  import opened Definitions

  /** One branch of one block; `ROOT_KEY` is the root scope. */
  datatype BranchKey = BranchKey(split: string, index: nat)

  const ROOT_KEY := BranchKey("", 0)

  /** A definition together with the innermost branch of each of its nodes and
      the split, if any, in whose block its cases start. */
  datatype Chart = Chart(d: Definition, home: map<string, BranchKey>, root: string)

  function Home(c: Chart, id: string): BranchKey { if id in c.home then c.home[id] else ROOT_KEY }

  /** `id` lies directly in a branch of the split naming `join`. */
  predicate DirectlyUnder(c: Chart, id: string, join: string) {
    var s := Home(c, id).split;
    s != "" && IsSplitNode(c.d, s) && NodeOf(c.d, s).join == join
  }

  /** Where transition `tr` may lead. */
  predicate EdgeSound(c: Chart, tr: Transition) {
    var f := NodeOf(c.d, tr.from);
    var t := NodeOf(c.d, tr.to);
    && Has(c.d, tr.from) && Has(c.d, tr.to)
    && (tr.back ==> f.kind.Task? && t.kind.Task? && !t.terminal)
    && (t.kind.Join? && f.kind.IsSplit() ==> tr.to == f.join)
    && (t.kind.Join? && !f.kind.IsSplit() ==> DirectlyUnder(c, tr.from, tr.to))
    && (!t.kind.Join? && f.kind.IsSplit() ==> Home(c, tr.to).split == tr.from)
    && (!t.kind.Join? && !f.kind.IsSplit() ==> Home(c, tr.to) == Home(c, tr.from))
    && (t.terminal ==> t.kind.Task? && Home(c, tr.to) == ROOT_KEY)
    && (t.kind.Join? && !t.policy.NoPolicy? ==> f.kind.Task? && (tr.outcome.Approved? || tr.outcome.Rejected?))
  }

  /** A decision or inclusive split has exactly one unguarded route, its last. */
  predicate DefaultLast(routes: seq<Transition>) {
    && routes != []
    && routes[|routes| - 1].guard == ""
    && forall i :: 0 <= i < |routes| - 1 ==> routes[i].guard != ""
  }

  predicate NodeSound(c: Chart, n: Node) {
    && (n.kind.IsAutomatic() ==> !n.terminal)
    && (n.kind.Join? ==> |Routes(c.d, n.id)| == 1)
    && (n.kind.Decision? || n.kind.Inclusive? ==> DefaultLast(Routes(c.d, n.id)))
    && (n.kind.Parallel? ==> Routes(c.d, n.id) != [])
    && (n.kind.IsSplit() ==> IsJoinNode(c.d, n.join) && Home(c, n.join) == Home(c, n.id))
  }

  predicate Sound(c: Chart) {
    && !Has(c.d, "")
    && (forall tr :: tr in c.d.transitions ==> EdgeSound(c, tr))
    && (forall n :: n in c.d.nodes ==> NodeSound(c, n))
  }

  /** Soundness does not depend on where cases start. */
  lemma SoundAnywhere(c: Chart, root: string)
    requires Sound(c)
    ensures Sound(c.(root := root))
  {
    var c2 := c.(root := root);
    forall tr | tr in c2.d.transitions ensures EdgeSound(c2, tr) { assert EdgeSound(c, tr); }
    forall n | n in c2.d.nodes ensures NodeSound(c2, n) { assert NodeSound(c, n); }
  }
}
