/** The hash chain over a case's events. */
module HashChain {
  import opened Definitions

  type Digest = nat

  /** One stored event: its content as it is now, and the digests stored with
      it. An event stored before chaining has neither. */
  datatype Link<C> = Link(content: C, prev: Option<Digest>, digest: Option<Digest>)

  /** The digest of an event over its predecessor's. */
  type Hash<!C> = (Option<Digest>, C) -> Digest

  datatype Reason = GapInChain | PrevWithoutDigest | WrongPrev | WrongContent

  ghost predicate Injective<C(!new)>(h: Hash<C>) {
    forall p, x, q, y :: h(p, x) == h(q, y) ==> p == q && x == y
  }

  predicate ChainedBefore<C>(links: seq<Link<C>>, i: nat)
    requires i <= |links|
  {
    exists j :: 0 <= j < i && links[j].digest.Some?
  }

  function Before<C>(links: seq<Link<C>>, i: nat): Option<Digest>
    requires i <= |links|
  {
    if i == 0 then None else links[i - 1].digest
  }

  /** What is wrong with link `i`, given that those before it are in order. */
  function Fault<C>(h: Hash<C>, links: seq<Link<C>>, i: nat): Option<Reason>
    requires i < |links|
  {
    var l := links[i];
    if l.digest.None? then
      if ChainedBefore(links, i) then Some(GapInChain) else if l.prev.Some? then Some(PrevWithoutDigest) else None
    else if l.prev != Before(links, i) then Some(WrongPrev)
    else if Some(h(l.prev, l.content)) != l.digest then Some(WrongContent)
    else None
  }

  predicate Intact<C>(h: Hash<C>, links: seq<Link<C>>) {
    forall i :: 0 <= i < |links| ==> Fault(h, links, i).None?
  }

  /** Walks the chain once and reports the first link that is out of order. */
  method VerifyChain<C>(h: Hash<C>, links: seq<Link<C>>) returns (broken: Option<(nat, Reason)>)
    ensures broken.None? <==> Intact(h, links)
    ensures broken.Some? ==>
      var (i, why) := broken.value;
      i < |links| && Fault(h, links, i) == Some(why) && forall k :: 0 <= k < i ==> Fault(h, links, k).None?
  {
    var prev: Option<Digest>, chained, i := None, false, 0;
    while i < |links|
      invariant 0 <= i <= |links| && chained == ChainedBefore(links, i) && prev == Before(links, i)
      invariant forall k :: 0 <= k < i ==> Fault(h, links, k).None?
    {
      var l := links[i];
      assert Intact(h, links) ==> Fault(h, links, i).None?;
      if l.digest.None? {
        if chained { return Some((i, GapInChain)); }
        if l.prev.Some? { return Some((i, PrevWithoutDigest)); }
      } else {
        if l.prev != prev { return Some((i, WrongPrev)); }
        if Some(h(l.prev, l.content)) != l.digest { return Some((i, WrongContent)); }
        chained, prev := true, l.digest;
      }
      i := i + 1;
    }
    return None;
  }

  /** Behind a chained event of an intact history every event is chained. */
  lemma {:induction false} ChainedToTheEnd<C>(h: Hash<C>, links: seq<Link<C>>, i: nat, j: nat)
    requires Intact(h, links) && i <= j < |links| && links[i].digest.Some?
    ensures links[j].digest.Some?
  {
    assert Fault(h, links, j).None?;
    if i < j { assert ChainedBefore(links, j); }
  }

  /** Clearing the digests of one chained event is reported, unless it was the
      only one. */
  lemma ClearedShows<C>(h: Hash<C>, links: seq<Link<C>>, i: nat)
    requires Intact(h, links) && i < |links| && links[i].digest.Some?
    ensures Intact(h, links[i := Link(links[i].content, None, None)]) <==>
      forall j :: 0 <= j < |links| && links[j].digest.Some? ==> j == i
  {
    var cleared := links[i := Link(links[i].content, None, None)];
    if j :| 0 <= j < |links| && links[j].digest.Some? && j != i {
      if j < i {
        assert cleared[j].digest.Some? && ChainedBefore(cleared, i);
        assert Fault(h, cleared, i) == Some(GapInChain);
      } else {
        ChainedToTheEnd(h, links, i, i + 1);
        assert Fault(h, links, i + 1).None? && links[i + 1].prev == links[i].digest;
        assert Fault(h, cleared, i + 1) == Some(WrongPrev);
      }
    } else {
      forall j | 0 <= j < |cleared| ensures Fault(h, cleared, j).None? {
        assert !ChainedBefore(cleared, j);
        assert Fault(h, links, j).None?;
      }
    }
  }

  /** Changing the content of a chained event is reported as that, at that event;
      changing what it says of its predecessor likewise. */
  lemma EditShows<C(!new)>(h: Hash<C>, links: seq<Link<C>>, i: nat, content: C, prev: Option<Digest>)
    requires Injective(h) && Intact(h, links) && i < |links| && links[i].digest.Some?
    ensures content != links[i].content ==>
      var edited := links[i := links[i].(content := content)];
      Fault(h, edited, i) == Some(WrongContent) && forall k :: 0 <= k < i ==> Fault(h, edited, k).None?
    ensures prev != links[i].prev ==>
      var edited := links[i := links[i].(prev := prev)];
      Fault(h, edited, i) == Some(WrongPrev) && forall k :: 0 <= k < i ==> Fault(h, edited, k).None?
  {
    assert Fault(h, links, i).None?;
    var a, b := links[i := links[i].(content := content)], links[i := links[i].(prev := prev)];
    forall k | 0 <= k < i ensures Fault(h, a, k).None? && Fault(h, b, k).None? {
      assert Fault(h, links, k).None?;
      assert a[..i] == links[..i] && b[..i] == links[..i];
      FaultPrefix(h, a, i, k);
      FaultPrefix(h, b, i, k);
      FaultPrefix(h, links, i, k);
    }
  }

  /** What a repository stores for a new event. */
  function Appended<C>(h: Hash<C>, links: seq<Link<C>>, content: C): seq<Link<C>> {
    var prev := Before(links, |links|);
    links + [Link(content, prev, Some(h(prev, content)))]
  }

  lemma FaultPrefix<C>(h: Hash<C>, links: seq<Link<C>>, n: nat, i: nat)
    requires i < n <= |links|
    ensures Fault(h, links[..n], i) == Fault(h, links, i)
  {
    var a := links[..n];
    if ChainedBefore(links, i) {
      var j :| 0 <= j < i && links[j].digest.Some?;
      assert a[j].digest.Some?;
    }
    if ChainedBefore(a, i) {
      var j :| 0 <= j < i && a[j].digest.Some?;
      assert links[j].digest.Some?;
    }
  }

  /** Appending keeps an intact chain intact. */
  lemma AppendKeeps<C>(h: Hash<C>, links: seq<Link<C>>, content: C)
    requires Intact(h, links)
    ensures Intact(h, Appended(h, links, content))
  {
    var more := Appended(h, links, content);
    forall i | 0 <= i < |more| ensures Fault(h, more, i).None? {
      if i < |links| {
        assert more[..|links|] == links;
        FaultPrefix(h, more, |links|, i);
      }
    }
  }

  lemma PrefixIntact<C>(h: Hash<C>, links: seq<Link<C>>, n: nat)
    requires Intact(h, links) && n <= |links|
    ensures Intact(h, links[..n])
  {
    forall i | 0 <= i < n ensures Fault(h, links[..n], i).None? { FaultPrefix(h, links, n, i); }
  }

  /** The chained events, which are the last ones. */
  function Chained<C>(links: seq<Link<C>>): seq<Link<C>> {
    if links == [] || links[|links| - 1].digest.None? then []
    else Chained(links[..|links| - 1]) + [links[|links| - 1]]
  }

  /** Two histories that verify and end in the same digest have the same chained
      events: nothing was changed, removed, inserted or moved among them. */
  lemma {:induction false} SameEndSameChain<C(!new)>(h: Hash<C>, a: seq<Link<C>>, b: seq<Link<C>>)
    requires Injective(h) && Intact(h, a) && Intact(h, b)
    requires a != [] && b != [] && a[|a| - 1].digest == b[|b| - 1].digest
    ensures Chained(a) == Chained(b)
    decreases |a|
  {
    var n, m := |a| - 1, |b| - 1;
    if a[n].digest.Some? {
      assert Fault(h, a, n).None? && Fault(h, b, m).None?;
      assert h(a[n].prev, a[n].content) == h(b[m].prev, b[m].content);
      assert a[n] == b[m];
      if a[n].prev.Some? {
        PrefixIntact(h, a, n);
        PrefixIntact(h, b, m);
        SameEndSameChain(h, a[..n], b[..m]);
      }
    }
  }

  /** So a history rewritten anywhere among its chained events, up to a digest
      kept elsewhere, is reported. */
  lemma TamperingShows<C(!new)>(h: Hash<C>, kept: seq<Link<C>>, stored: seq<Link<C>>)
    requires Injective(h) && Intact(h, kept) && kept != [] && stored != []
    requires stored[|stored| - 1].digest == kept[|kept| - 1].digest && Chained(stored) != Chained(kept)
    ensures !Intact(h, stored)
  {
    if Intact(h, stored) { SameEndSameChain(h, kept, stored); }
  }

  /** `links` with events of `contents` chained behind them. */
  function Rehashed<C>(h: Hash<C>, links: seq<Link<C>>, contents: seq<C>): seq<Link<C>> {
    if contents == [] then links else Appended(h, Rehashed(h, links, contents[..|contents| - 1]),
                                               contents[|contents| - 1])
  }

  lemma {:induction false} RehashedIsIntact<C>(h: Hash<C>, links: seq<Link<C>>, contents: seq<C>)
    requires Intact(h, links)
    ensures var l := Rehashed(h, links, contents);
      Intact(h, l) && |l| == |links| + |contents| && l[..|links|] == links && forall i :: 0 <= i < |contents| ==>
        l[|links| + i].content == contents[i]
  {
    if contents != [] {
      var n := |contents| - 1;
      RehashedIsIntact(h, links, contents[..n]);
      AppendKeeps(h, Rehashed(h, links, contents[..n]), contents[n]);
    }
  }

  /** The three rewrites no chain shows: dropping the last events, clearing every
      digest, and putting other events behind the first `n` with every later
      digest recomputed. */
  lemma Undetected<C>(h: Hash<C>, links: seq<Link<C>>, n: nat, contents: seq<C>)
    requires Intact(h, links) && n <= |links|
    ensures Intact(h, links[..n])
    ensures Intact(h, seq(|links|, i requires 0 <= i < |links| => Link(links[i].content, None, None)))
    ensures var l := Rehashed(h, links[..n], contents);
      Intact(h, l) && |l| == n + |contents| && l[..n] == links[..n] && forall i :: 0 <= i < |contents| ==>
        l[n + i].content == contents[i]
  {
    PrefixIntact(h, links, n);
    RehashedIsIntact(h, links[..n], contents);
  }
}
