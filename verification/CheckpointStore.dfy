/** The in-memory checkpoint store: two maps that index each other, the next-sequence rule,
    and cursor paging. */
module CheckpointStore {
  import opened Wrappers
  import opened Order
  import opened RunMachine
  import opened Checkpoints

  datatype StoreError =
    | IntegrityFailure | IdentityConflict | SequenceConflict | StaleSequence | InvalidPredecessor
    | EffectConflict | NotFound | CursorDrift | ProviderMismatch | OwnershipMismatch

  datatype Key = Key(run: RunId, sequence: nat)

  datatype Store = Store(checkpoints: map<CheckpointRef, Checkpoint>, sequences: map<Key, CheckpointRef>)

  function KeyOf(c: Checkpoint): Key { Key(c.body.run, c.body.sequence) }

  /** Each map is the exact inverse index of the other. */
  ghost predicate Indexed(s: Store)
  {
    && (forall r :: r in s.checkpoints ==>
         && s.checkpoints[r].body.ref == r && s.checkpoints[r].body.sequence >= 1
         && KeyOf(s.checkpoints[r]) in s.sequences && s.sequences[KeyOf(s.checkpoints[r])] == r)
    && (forall k :: k in s.sequences ==>
         s.sequences[k] in s.checkpoints && KeyOf(s.checkpoints[s.sequences[k]]) == k)
  }

  // ---------------------------------------------------------------- the next sequence

  /** top is the highest sequence in use for the Run, or 0. */
  ghost predicate IsTop(sequences: map<Key, CheckpointRef>, run: RunId, top: nat)
  {
    && (forall k :: k in sequences && k.run == run ==> k.sequence <= top)
    && (top == 0 || Key(run, top) in sequences)
  }

  lemma {:induction false} TopExists(sequences: map<Key, CheckpointRef>, run: RunId) returns (top: nat)
    ensures IsTop(sequences, run, top)
    decreases |sequences|
  {
    if k :| k in sequences {
      var rest := sequences - {k};
      assert |rest| < |sequences| by {
        assert rest.Keys == sequences.Keys - {k};
        assert |rest.Keys| < |sequences.Keys|;
      }
      top := TopExists(rest, run);
      if k.run == run && k.sequence > top { top := k.sequence; }
    } else {
      top := 0;
    }
  }

  ghost function Top(sequences: map<Key, CheckpointRef>, run: RunId): (top: nat)
    ensures IsTop(sequences, run, top)
  {
    TopWitness(sequences, run);
    var top :| IsTop(sequences, run, top);
    top
  }

  lemma TopWitness(sequences: map<Key, CheckpointRef>, run: RunId)
    ensures exists top: nat :: IsTop(sequences, run, top)
  {
    var top := TopExists(sequences, run);
  }

  lemma TopUnique(sequences: map<Key, CheckpointRef>, run: RunId, top: nat)
    requires IsTop(sequences, run, top)
    ensures Top(sequences, run) == top
  {
  }

  // ---------------------------------------------------------------- save, load, delete

  datatype SaveResult = Saved(store: Store) | SaveRefused(error: StoreError)

  predicate KeepsEffects(previous: Checkpoint, next: Checkpoint)
  {
    forall k :: k in previous.body.effects ==> k in next.body.effects && next.body.effects[k] == previous.body.effects[k]
  }

  /** The store's save, as a decision on its two maps. */
  ghost function Save(s: Store, c: Checkpoint): SaveResult
  {
    if !Intact(c) then SaveRefused(IntegrityFailure)
    else if c.body.ref in s.checkpoints then
      if s.checkpoints[c.body.ref].digest == c.digest then Saved(s) else SaveRefused(IdentityConflict)
    else if KeyOf(c) in s.sequences then SaveRefused(SequenceConflict)
    else if c.body.sequence != Top(s.sequences, c.body.run) + 1 then SaveRefused(StaleSequence)
    else if c.body.previous.Some? && (c.body.previous.value !in s.checkpoints
                                      || s.checkpoints[c.body.previous.value].body.run != c.body.run)
    then SaveRefused(InvalidPredecessor)
    else if c.body.previous.Some? && !KeepsEffects(s.checkpoints[c.body.previous.value], c)
    then SaveRefused(EffectConflict)
    else Saved(Insert(s, c))
  }

  function Insert(s: Store, c: Checkpoint): Store
  {
    Store(s.checkpoints[c.body.ref := c], s.sequences[KeyOf(c) := c.body.ref])
  }

  /** Loading verifies integrity; the caller's scope is checked above this layer. */
  datatype LoadResult = Loaded(checkpoint: Checkpoint) | LoadRefused(error: StoreError)

  function Load(s: Store, ref: CheckpointRef): LoadResult
  {
    if ref !in s.checkpoints then LoadRefused(NotFound)
    else if !Intact(s.checkpoints[ref]) then LoadRefused(IntegrityFailure)
    else Loaded(s.checkpoints[ref])
  }

  function Remove(s: Store, ref: CheckpointRef): Store
  {
    if ref !in s.checkpoints then s
    else Store(s.checkpoints - {ref}, s.sequences - {KeyOf(s.checkpoints[ref])})
  }

  lemma InsertKeepsIndex(s: Store, c: Checkpoint)
    requires Indexed(s) && c.body.ref !in s.checkpoints && KeyOf(c) !in s.sequences && c.body.sequence >= 1
    ensures Indexed(Insert(s, c))
  {
  }

  lemma RemoveKeepsIndex(s: Store, ref: CheckpointRef)
    requires Indexed(s)
    ensures Indexed(Remove(s, ref))
  {
  }

  /** A save that succeeds either changes nothing or adds exactly its checkpoint at the top. */
  lemma SaveKeepsIndex(s: Store, c: Checkpoint)
    requires Indexed(s) && Save(s, c).Saved?
    ensures Indexed(Save(s, c).store)
    ensures Save(s, c).store == s || Save(s, c).store == Insert(s, c)
  {
    if c.body.ref !in s.checkpoints { InsertKeepsIndex(s, c); }
  }

  // ---------------------------------------------------------------- the save, over the fields

  /** Some checkpoint of the Run is stored at this sequence. */
  ghost predicate Occupied(s: Store, run: RunId, sequence: int)
  {
    exists r :: r in s.checkpoints && s.checkpoints[r].body.run == run && s.checkpoints[r].body.sequence == sequence
  }

  /** One above the highest sequence stored for the Run, or 1 when there is none. */
  ghost predicate IsNext(s: Store, run: RunId, sequence: nat)
  {
    && sequence >= 1 && (sequence == 1 || Occupied(s, run, sequence - 1))
    && forall r :: r in s.checkpoints && s.checkpoints[r].body.run == run ==> s.checkpoints[r].body.sequence < sequence
  }

  ghost predicate Linked(s: Store, b: Body)
  {
    b.previous.Some? ==> b.previous.value in s.checkpoints && s.checkpoints[b.previous.value].body.run == b.run
  }

  /** Every side effect of the predecessor is there, unchanged. */
  ghost predicate CarriesEffects(s: Store, b: Body)
    requires Linked(s, b)
  {
    b.previous.Some? ==>
      var kept := s.checkpoints[b.previous.value].body.effects;
      forall k :: k in kept ==> k in b.effects && b.effects[k] == kept[k]
  }

  lemma OccupiedIsIndexed(s: Store, run: RunId, sequence: nat)
    requires Indexed(s)
    ensures Occupied(s, run, sequence) <==> Key(run, sequence) in s.sequences
  {
    if Key(run, sequence) in s.sequences {
      var r := s.sequences[Key(run, sequence)];
      assert KeyOf(s.checkpoints[r]) == Key(run, sequence);
    }
  }

  lemma NextIsAboveTop(s: Store, run: RunId, sequence: nat)
    requires Indexed(s)
    ensures IsNext(s, run, sequence) <==> sequence == Top(s.sequences, run) + 1
  {
    var top := Top(s.sequences, run);
    forall r | r in s.checkpoints && s.checkpoints[r].body.run == run ensures s.checkpoints[r].body.sequence <= top {
      assert KeyOf(s.checkpoints[r]) in s.sequences;
    }
    if top > 0 { OccupiedIsIndexed(s, run, top); }
    if IsNext(s, run, sequence) && sequence > 1 {
      OccupiedIsIndexed(s, run, sequence - 1);
    }
  }

  /** A fresh checkpoint is stored if and only if it is intact, its sequence is the Run's next, its
      predecessor, if any, is stored for the same Run, and it carries the predecessor's side effects;
      and then nothing else changes. The first of these to fail, with an occupied sequence told apart
      from a stale one, decides the refusal. */
  lemma SaveExactly(s: Store, c: Checkpoint)
    requires Indexed(s) && c.body.ref !in s.checkpoints
    ensures var b, done := c.body, Save(s, c);
            && (done.Saved? <==> c.digest == Sha256(b) && IsNext(s, b.run, b.sequence) && Linked(s, b) && CarriesEffects(s, b))
            && (done.Saved? ==>
                 && done.store.checkpoints == s.checkpoints[b.ref := c]
                 && done.store.sequences == s.sequences[Key(b.run, b.sequence) := b.ref])
            && (done.SaveRefused? ==>
                 done.error == if c.digest != Sha256(b) then IntegrityFailure
                               else if Occupied(s, b.run, b.sequence) then SequenceConflict
                               else if !IsNext(s, b.run, b.sequence) then StaleSequence
                               else if !Linked(s, b) then InvalidPredecessor
                               else EffectConflict)
  {
    OccupiedIsIndexed(s, c.body.run, c.body.sequence);
    NextIsAboveTop(s, c.body.run, c.body.sequence);
    hide Indexed, Top, Occupied, IsNext;
  }

  /** A reference that is stored already: the same digest changes nothing, any other is refused. */
  lemma SaveAgainExactly(s: Store, c: Checkpoint)
    requires c.body.ref in s.checkpoints
    ensures Save(s, c) == if c.digest != Sha256(c.body) then SaveRefused(IntegrityFailure)
                          else if s.checkpoints[c.body.ref].digest == Sha256(c.body) then Saved(s) else SaveRefused(IdentityConflict)
  {
  }

  /** Exactly when a fresh, correctly linked checkpoint that keeps every side effect is accepted:
      nothing of its Run is stored above its predecessor. */
  lemma SaveAcceptedExactly(s: Store, c: Checkpoint, previous: Checkpoint)
    requires Indexed(s) && Intact(c) && c.body.ref !in s.checkpoints
    requires c.body.previous == Some(previous.body.ref) && previous.body.ref in s.checkpoints
    requires s.checkpoints[previous.body.ref] == previous && previous.body.run == c.body.run
    requires c.body.sequence == previous.body.sequence + 1 && KeepsEffects(previous, c)
    ensures Save(s, c).Saved? <==>
      forall r :: r in s.checkpoints && s.checkpoints[r].body.run == c.body.run
                  ==> s.checkpoints[r].body.sequence <= previous.body.sequence
  {
    var run, top := c.body.run, Top(s.sequences, c.body.run);
    assert KeyOf(previous) in s.sequences;
    if forall r :: r in s.checkpoints && s.checkpoints[r].body.run == run ==> s.checkpoints[r].body.sequence <= previous.body.sequence {
      forall k | k in s.sequences && k.run == run ensures k.sequence <= previous.body.sequence {
        assert s.checkpoints[s.sequences[k]].body.sequence == k.sequence;
      }
      TopUnique(s.sequences, run, previous.body.sequence);
    } else {
      var r :| r in s.checkpoints && s.checkpoints[r].body.run == run && s.checkpoints[r].body.sequence > previous.body.sequence;
      assert KeyOf(s.checkpoints[r]) in s.sequences;
    }
  }

  /** A fresh first checkpoint is accepted exactly when nothing of its Run is stored. */
  lemma FirstStoredExactly(s: Store, c: Checkpoint)
    requires Indexed(s) && Intact(c) && c.body.ref !in s.checkpoints && c.body.previous.None? && c.body.sequence == 1
    ensures Save(s, c).Saved? <==> forall r :: r in s.checkpoints ==> s.checkpoints[r].body.run != c.body.run
  {
    if r :| r in s.checkpoints && s.checkpoints[r].body.run == c.body.run {
      assert KeyOf(s.checkpoints[r]) in s.sequences;
    } else {
      TopUnique(s.sequences, c.body.run, 0);
    }
  }

  /** What was saved is what loads, saving it again changes nothing, other content under the same
      reference is refused, and every other reference loads as before. */
  lemma SaveThenLoad(s: Store, c: Checkpoint, other: Checkpoint, r: CheckpointRef)
    requires Indexed(s) && c.body.ref !in s.checkpoints && Save(s, c).Saved?
    ensures var after := Save(s, c).store;
            && Load(after, c.body.ref) == Loaded(c)
            && Save(after, c) == Saved(after)
            && (other.body.ref == c.body.ref && Intact(other) && other != c ==> Save(after, other) == SaveRefused(IdentityConflict))
            && (r != c.body.ref ==> Load(after, r) == Load(s, r))
  {
  }

  /** Deleting a checkpoint right after it was saved undoes the save. */
  lemma SaveThenRemove(s: Store, c: Checkpoint)
    requires Indexed(s) && c.body.ref !in s.checkpoints && Save(s, c).Saved?
    ensures Remove(Save(s, c).store, c.body.ref) == s
  {
    var after := Remove(Save(s, c).store, c.body.ref);
    assert after.checkpoints == s.checkpoints;
    assert after.sequences == s.sequences;
  }

  // ---------------------------------------------------------------- listing

  /** A query without its cursor; equal fingerprints mean equal queries. */
  datatype Fingerprint = Fingerprint(provider: nat, run: RunId, scope: nat, graphVersion: Option<nat>, limit: nat)

  datatype Cursor = Cursor(of: Fingerprint, nextSequence: nat)

  datatype Query = Query(of: Fingerprint, cursor: Option<Cursor>)

  datatype Page = Page(items: seq<Checkpoint>, next: Option<Cursor>)

  /** Latest first. */
  predicate Newer(a: Checkpoint, b: Checkpoint) { a.body.sequence > b.body.sequence }

  predicate Selects(q: Query, c: Checkpoint)
  {
    && c.body.run == q.of.run && c.body.scope == q.of.scope
    && (q.of.graphVersion.Some? ==> c.body.graphVersion == q.of.graphVersion.value)
    && (q.cursor.Some? ==> c.body.sequence < q.cursor.value.nextSequence)
  }

  ghost function Matching(s: Store, q: Query): set<Checkpoint>
  {
    set r | r in s.checkpoints && Selects(q, s.checkpoints[r]) :: s.checkpoints[r]
  }

  /** The strictly descending listing of a set of checkpoints. */
  ghost predicate Lists(xs: seq<Checkpoint>, all: set<Checkpoint>)
  {
    Ascending(Newer, xs) && Elements(xs) == all
  }

  lemma ListsUnique(a: seq<Checkpoint>, b: seq<Checkpoint>, all: set<Checkpoint>)
    requires Lists(a, all) && Lists(b, all)
    ensures a == b
  {
    AscendingUnique(Newer, a, b);
  }

  lemma MatchingDistinct(s: Store, q: Query, a: Checkpoint, b: Checkpoint)
    requires Indexed(s) && a in Matching(s, q) && b in Matching(s, q) && a.body.sequence == b.body.sequence
    ensures a == b
  {
    assert KeyOf(a) == KeyOf(b);
  }

  /** A page: the newest items below the cursor, and a cursor when items remain. */
  ghost predicate IsPage(s: Store, q: Query, page: Page)
  {
    exists all :: Lists(all, Matching(s, q)) && PageOf(q, all, page)
  }

  ghost predicate PageOf(q: Query, all: seq<Checkpoint>, page: Page)
  {
    if |all| <= q.of.limit then page == Page(all, None)
    else q.of.limit >= 1 && page == Page(all[..q.of.limit], Some(Cursor(q.of, all[q.of.limit - 1].body.sequence)))
  }

  class InMemoryCheckpointStore {
    const provider: nat
    var checkpoints: map<CheckpointRef, Checkpoint>
    var sequences: map<Key, CheckpointRef>

    ghost function View(): Store
      reads this
    {
      Store(checkpoints, sequences)
    }

    ghost predicate Valid()
      reads this
    {
      Indexed(View())
    }

    constructor (provider: nat)
      ensures Valid() && View() == Store(map[], map[]) && this.provider == provider
    {
      this.provider := provider;
      checkpoints := map[];
      sequences := map[];
    }

    /** max(run_sequences, default=0) */
    method HighestSequence(run: RunId) returns (top: nat)
      ensures top == Top(sequences, run)
    {
      top := 0;
      var rest := sequences.Keys;
      while rest != {}
        invariant rest <= sequences.Keys
        invariant forall k :: k in sequences && k !in rest && k.run == run ==> k.sequence <= top
        invariant top == 0 || Key(run, top) in sequences
        decreases |rest|
      {
        var k :| k in rest;
        if k.run == run && k.sequence > top { top := k.sequence; }
        rest := rest - {k};
      }
      TopUnique(sequences, run, top);
    }

    method SaveCheckpoint(c: Checkpoint) returns (result: Option<StoreError>)
      requires Valid() && c.body.sequence >= 1
      modifies this
      ensures Valid()
      ensures result == if Save(old(View()), c).Saved? then None else Some(Save(old(View()), c).error)
      ensures View() == if Save(old(View()), c).Saved? then Save(old(View()), c).store else old(View())
    {
      if !Intact(c) { return Some(IntegrityFailure); }
      if c.body.ref in checkpoints {
        if checkpoints[c.body.ref].digest == c.digest { return None; }
        return Some(IdentityConflict);
      }
      if KeyOf(c) in sequences { return Some(SequenceConflict); }
      var top := HighestSequence(c.body.run);
      if c.body.sequence != top + 1 { return Some(StaleSequence); }
      if c.body.previous.Some? {
        if c.body.previous.value !in checkpoints || checkpoints[c.body.previous.value].body.run != c.body.run {
          return Some(InvalidPredecessor);
        }
        if !KeepsEffects(checkpoints[c.body.previous.value], c) { return Some(EffectConflict); }
      }
      InsertKeepsIndex(View(), c);
      checkpoints := checkpoints[c.body.ref := c];
      sequences := sequences[KeyOf(c) := c.body.ref];
      result := None;
    }

    method LoadCheckpoint(ref: CheckpointRef) returns (result: LoadResult)
      ensures result == Load(View(), ref)
    {
      if ref !in checkpoints { return LoadRefused(NotFound); }
      if !Intact(checkpoints[ref]) { return LoadRefused(IntegrityFailure); }
      result := Loaded(checkpoints[ref]);
    }

    /** Deleting a missing checkpoint reports it was not there; ownership must match otherwise. */
    method DeleteCheckpoint(run: RunId, scope: nat, ref: CheckpointRef) returns (result: Option<StoreError>, deleted: bool)
      requires Valid()
      modifies this
      ensures Valid()
      ensures deleted <==> ref in old(checkpoints) && old(checkpoints)[ref].body.run == run && old(checkpoints)[ref].body.scope == scope
      ensures View() == if deleted then Remove(old(View()), ref) else old(View())
      ensures result == if ref in old(checkpoints) && !deleted then Some(OwnershipMismatch) else None
    {
      if ref !in checkpoints { return None, false; }
      var c := checkpoints[ref];
      if c.body.run != run || c.body.scope != scope { return Some(OwnershipMismatch), false; }
      RemoveKeepsIndex(View(), ref);
      checkpoints := checkpoints - {ref};
      sequences := sequences - {KeyOf(c)};
      result, deleted := None, true;
    }

    /** The selected values, in whatever order the table yields them. */
    method Collect(q: Query) returns (items: seq<Checkpoint>)
      requires Valid()
      ensures Elements(items) == Matching(View(), q) && Comparable(Newer, items)
    {
      items := [];
      var rest := checkpoints.Keys;
      while rest != {}
        invariant rest <= checkpoints.Keys
        invariant Elements(items) == Visited(View(), q, rest)
        invariant Comparable(Newer, items)
        decreases |rest|
      {
        var r :| r in rest;
        if Selects(q, checkpoints[r]) {
          CollectStep(View(), q, rest, r, items);
          items := items + [checkpoints[r]];
        } else {
          CollectSkip(View(), q, rest, r);
        }
        rest := rest - {r};
      }
    }

    method ListCheckpoints(q: Query) returns (error: Option<StoreError>, page: Page)
      requires Valid() && q.of.limit >= 1
      ensures error == if q.of.provider != provider then Some(ProviderMismatch)
                       else if q.cursor.Some? && q.cursor.value.of != q.of then Some(CursorDrift) else None
      ensures error.None? ==> IsPage(View(), q, page)
    {
      page := Page([], None);
      if q.of.provider != provider { return Some(ProviderMismatch), page; }
      if q.cursor.Some? && q.cursor.value.of != q.of { return Some(CursorDrift), page; }
      hide Matching, Lists, SortBy, Comparable, Elements;
      var items := Collect(q);
      SortedLists(items, Matching(View(), q));
      items := SortBy(Newer, items);
      var selected := if |items| <= q.of.limit then items else items[..q.of.limit];
      var next := if |items| > q.of.limit then Some(Cursor(q.of, selected[|selected| - 1].body.sequence)) else None;
      page := Page(selected, next);
      error := None;
      assert Lists(items, Matching(View(), q)) && PageOf(q, items, page);
    }
  }

  lemma NewerOrder()
    ensures StrictOrder(Newer)
  {
  }

  lemma SortedLists(items: seq<Checkpoint>, all: set<Checkpoint>)
    requires Elements(items) == all && Comparable(Newer, items)
    ensures Lists(SortBy(Newer, items), all)
  {
    NewerOrder();
    SortIsAscending(Newer, items);
  }

  ghost function Visited(s: Store, q: Query, rest: set<CheckpointRef>): set<Checkpoint>
  {
    set r | r in s.checkpoints && r !in rest && Selects(q, s.checkpoints[r]) :: s.checkpoints[r]
  }

  lemma CollectStep(s: Store, q: Query, rest: set<CheckpointRef>, r: CheckpointRef, items: seq<Checkpoint>)
    requires Indexed(s) && r in rest && r in s.checkpoints && Selects(q, s.checkpoints[r])
    requires Elements(items) == Visited(s, q, rest) && Comparable(Newer, items)
    ensures Elements(items + [s.checkpoints[r]]) == Visited(s, q, rest - {r})
    ensures Comparable(Newer, items + [s.checkpoints[r]])
  {
    var c := s.checkpoints[r];
    forall i | 0 <= i < |items| ensures items[i].body.sequence != c.body.sequence {
      assert items[i] in Elements(items);
      var o :| o in s.checkpoints && o !in rest && Selects(q, s.checkpoints[o]) && s.checkpoints[o] == items[i];
      assert s.checkpoints[o].body.ref == o && c.body.ref == r;
      assert KeyOf(items[i]) in s.sequences && s.sequences[KeyOf(items[i])] == o;
      assert KeyOf(c) in s.sequences && s.sequences[KeyOf(c)] == r;
    }
    forall x ensures x in Visited(s, q, rest - {r}) <==> x in Visited(s, q, rest) || x == c {
      if x == c { assert r !in rest - {r} && s.checkpoints[r] == x; }
      if x in Visited(s, q, rest - {r}) && x != c {
        var o :| o in s.checkpoints && o !in rest - {r} && Selects(q, s.checkpoints[o]) && s.checkpoints[o] == x;
        assert o !in rest;
      }
    }
  }

  lemma CollectSkip(s: Store, q: Query, rest: set<CheckpointRef>, r: CheckpointRef)
    requires r in s.checkpoints && !Selects(q, s.checkpoints[r])
    ensures Visited(s, q, rest) == Visited(s, q, rest - {r})
  {
  }
}
