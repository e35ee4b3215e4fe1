/** Predecessor chains over the record of every checkpoint ever saved. The record only grows, so a
    chain, once formed, never changes, whatever is later deleted from the store. */
module Chains {
  import opened Wrappers
  import opened RunMachine
  import opened Checkpoints
  import opened CheckpointStore
  import Coordinator

  type Links = map<CheckpointRef, Checkpoint>

  /** Every recorded predecessor is recorded, belongs to the same Run and has a smaller sequence. */
  ghost predicate LinksOk(links: Links)
  {
    forall r :: r in links ==> LinkOk(links, r)
  }

  ghost predicate LinkOk(links: Links, r: CheckpointRef)
    requires r in links
  {
    var b := links[r].body;
    && b.ref == r && b.sequence >= 1 && (b.previous.None? <==> b.sequence == 1)
    && (b.previous.Some? ==>
         && b.previous.value in links
         && links[b.previous.value].body.run == b.run
         && links[b.previous.value].body.sequence < b.sequence)
  }

  function Prev(links: Links, r: CheckpointRef): Option<CheckpointRef>
  {
    if r in links && links[r].body.previous.Some? && links[r].body.previous.value in links
       && links[links[r].body.previous.value].body.sequence < links[r].body.sequence
    then links[r].body.previous else None
  }

  function Rank(links: Links, r: CheckpointRef): nat { if r in links then links[r].body.sequence else 0 }

  /** t is r or one of its ancestors. */
  predicate InChain(links: Links, r: CheckpointRef, t: CheckpointRef)
    decreases Rank(links, r)
  {
    t == r || (Prev(links, r).Some? && InChain(links, Prev(links, r).value, t))
  }

  /** The chain of r falls by exactly one to sequence 1 within one Run and scope. */
  predicate Unbroken(links: Links, r: CheckpointRef)
    decreases Rank(links, r)
  {
    && r in links
    && match Prev(links, r)
       case None => links[r].body.sequence == 1 && links[r].body.previous.None?
       case Some(p) =>
         && links[r].body.sequence == links[p].body.sequence + 1
         && links[r].body.run == links[p].body.run && links[r].body.scope == links[p].body.scope
         && Unbroken(links, p)
  }

  ghost predicate Extends(links: Links, more: Links)
  {
    forall r :: r in links ==> r in more && more[r] == links[r]
  }

  lemma {:induction false} ChainStable(links: Links, more: Links, r: CheckpointRef, t: CheckpointRef)
    requires LinksOk(links) && Extends(links, more) && r in links
    ensures InChain(more, r, t) <==> InChain(links, r, t)
    ensures Unbroken(more, r) <==> Unbroken(links, r)
    decreases Rank(links, r)
  {
    assert LinkOk(links, r);
    assert Prev(more, r) == Prev(links, r);
    if Prev(links, r).Some? { ChainStable(links, more, Prev(links, r).value, t); }
  }

  lemma {:induction false} ChainTransitive(links: Links, r: CheckpointRef, q: CheckpointRef, t: CheckpointRef)
    requires InChain(links, r, q) && InChain(links, q, t)
    ensures InChain(links, r, t)
    decreases Rank(links, r)
  {
    if q != r { ChainTransitive(links, Prev(links, r).value, q, t); }
  }

  lemma {:induction false} UnbrokenBelow(links: Links, r: CheckpointRef, q: CheckpointRef)
    requires Unbroken(links, r) && InChain(links, r, q)
    ensures Unbroken(links, q) && links[q].body.run == links[r].body.run
    decreases Rank(links, r)
  {
    if q != r { UnbrokenBelow(links, Prev(links, r).value, q); }
  }

  lemma {:induction false} ChainRank(links: Links, r: CheckpointRef, t: CheckpointRef)
    requires LinksOk(links) && r in links && InChain(links, r, t)
    ensures t in links && links[t].body.run == links[r].body.run
    ensures t != r ==> links[t].body.sequence < links[r].body.sequence
    decreases Rank(links, r)
  {
    assert LinkOk(links, r);
    if t != r { ChainRank(links, Prev(links, r).value, t); }
  }

  lemma PrevIsPrevious(links: Links, r: CheckpointRef)
    requires LinksOk(links) && r in links
    ensures Prev(links, r) == links[r].body.previous
  {
    assert LinkOk(links, r);
  }

  /** The chain as a list, latest first. */
  function ChainList(links: Links, r: CheckpointRef): seq<CheckpointRef>
    decreases Rank(links, r)
  {
    [r] + if Prev(links, r).Some? then ChainList(links, Prev(links, r).value) else []
  }

  /** Stored values may be corrupted, but never relinked. */
  ghost predicate StoredAgrees(store: Store, links: Links)
  {
    forall r :: r in store.checkpoints ==> r in links && SameLinks(store.checkpoints[r], links[r])
  }

  /** An unbroken chain whose members are all stored is a whole chain of the store. */
  lemma {:induction false} UnbrokenIsWhole(store: Store, links: Links, r: CheckpointRef)
    requires LinksOk(links) && StoredAgrees(store, links) && Unbroken(links, r)
    requires forall t :: InChain(links, r, t) ==> t in store.checkpoints
    ensures Coordinator.WholeChain(store, links[r].body.run, links[r].body.scope, r, ChainList(links, r))
    ensures |ChainList(links, r)| == links[r].body.sequence
    decreases Rank(links, r)
  {
    PrevIsPrevious(links, r);
    assert InChain(links, r, r);
    assert SameLinks(store.checkpoints[r], links[r]);
    if Prev(links, r).Some? {
      var p := Prev(links, r).value;
      forall t | InChain(links, p, t) ensures t in store.checkpoints { assert InChain(links, r, t); }
      UnbrokenIsWhole(store, links, p);
      var tail, refs := ChainList(links, p), ChainList(links, r);
      forall i | 0 <= i < |refs| ensures refs[i] in store.checkpoints
        && store.checkpoints[refs[i]].body.run == links[r].body.run && store.checkpoints[refs[i]].body.scope == links[r].body.scope
        && store.checkpoints[refs[i]].body.sequence == |refs| - i
        && (i < |refs| - 1 ==> store.checkpoints[refs[i]].body.previous == Some(refs[i + 1]))
      {
        if i > 0 { assert refs[i] == tail[i - 1]; }
      }
      assert refs[|refs| - 1] == tail[|tail| - 1];
    }
  }
}
