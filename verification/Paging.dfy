/** Following list cursors through the authorized gateway. */
module Paging {
  import opened Wrappers
  import opened Order
  import opened RunMachine
  import opened Checkpoints
  import opened CheckpointStore

  // ---------------------------------------------------------------- gateway checks

  datatype GatewayError = InvalidGrant | PageLimitExceeded | PageIdentityMismatch | PageOrderInvalid | CursorIdentityMismatch

  /** A list grant may lower the limit of a first page, and must repeat it on later pages. */
  function ConstrainList(q: Query, grantedLimit: nat): Option<Query>
  {
    if grantedLimit < 1 || grantedLimit > q.of.limit then None
    else if q.cursor.Some? && grantedLimit != q.of.limit then None
    else Some(q.(of := q.of.(limit := grantedLimit)))
  }

  predicate Fits(q: Query, c: Checkpoint)
  {
    && c.body.run == q.of.run && c.body.scope == q.of.scope
    && (q.of.graphVersion.Some? ==> c.body.graphVersion == q.of.graphVersion.value)
  }

  /** The first i items are the query's, latest first. */
  ghost predicate SoundUpTo(items: seq<Checkpoint>, q: Query, i: nat)
    requires i <= |items|
  {
    && (forall j :: 0 <= j < i ==> Fits(q, items[j]))
    && (forall j :: 0 < j < i ==> items[j].body.sequence < items[j - 1].body.sequence)
  }

  /** Item i is the first faulty one, and it is not the query's. */
  ghost predicate Escapes(items: seq<Checkpoint>, q: Query, i: nat)
  {
    i < |items| && SoundUpTo(items, q, i) && !Fits(q, items[i])
  }

  /** Item i is the first faulty one: it is the query's, and not older than the item before. */
  ghost predicate Disorders(items: seq<Checkpoint>, q: Query, i: nat)
  {
    0 < i < |items| && SoundUpTo(items, q, i) && Fits(q, items[i]) && items[i].body.sequence >= items[i - 1].body.sequence
  }

  ghost predicate CursorDrifts(page: Page, q: Query) { page.next.Some? && page.next.value.of != q.of }

  /** Of another Run, another scope, or another graph version than the one asked for. */
  predicate Foreign(c: Checkpoint, q: Query)
  {
    c.body.run != q.of.run || c.body.scope != q.of.scope || (q.of.graphVersion.Some? && Some(c.body.graphVersion) != q.of.graphVersion)
  }

  /** The page checks. The first fault decides the error: too many items, then item by item identity
      before order, then the cursor. */
  method ValidatePage(page: Page, q: Query) returns (error: Option<GatewayError>)
    ensures error == Some(PageLimitExceeded) <==> |page.items| > q.of.limit
    ensures error == Some(PageIdentityMismatch) <==> |page.items| <= q.of.limit && exists i: nat :: Escapes(page.items, q, i)
    ensures error == Some(PageOrderInvalid) <==> |page.items| <= q.of.limit && exists i: nat :: Disorders(page.items, q, i)
    ensures error == Some(CursorIdentityMismatch) <==>
      |page.items| <= q.of.limit && SoundUpTo(page.items, q, |page.items|) && CursorDrifts(page, q)
    ensures error.None? <==> |page.items| <= q.of.limit && SoundUpTo(page.items, q, |page.items|) && !CursorDrifts(page, q)
    ensures error.None? ==> forall i :: 0 <= i < |page.items| ==> !Foreign(page.items[i], q)
    ensures error == Some(PageIdentityMismatch) ==> exists i :: 0 <= i < |page.items| && Foreign(page.items[i], q)
  {
    if |page.items| > q.of.limit { return Some(PageLimitExceeded); }
    var previous: Option<nat> := None;
    for i := 0 to |page.items|
      invariant previous == if i == 0 then None else Some(page.items[i - 1].body.sequence)
      invariant SoundUpTo(page.items, q, i)
    {
      var c := page.items[i];
      if !Fits(q, c) {
        assert Escapes(page.items, q, i);
        return Some(PageIdentityMismatch);
      }
      if previous.Some? && c.body.sequence >= previous.value {
        assert Disorders(page.items, q, i);
        return Some(PageOrderInvalid);
      }
      previous := Some(c.body.sequence);
    }
    if page.next.Some? && page.next.value.of != q.of { return Some(CursorIdentityMismatch); }
    error := None;
  }

  // ---------------------------------------------------------------- following cursors

  /** The store's own pages pass every gateway check. */
  lemma StorePagesAreValid(s: Store, q: Query, page: Page)
    requires IsPage(s, q, page)
    ensures |page.items| <= q.of.limit && Ascending(Newer, page.items)
    ensures forall i :: 0 <= i < |page.items| ==> Selects(q, page.items[i])
    ensures page.next.Some? ==>
      && page.next.value.of == q.of && page.items != []
      && page.next.value.nextSequence == page.items[|page.items| - 1].body.sequence
      && (q.cursor.Some? ==> page.next.value.nextSequence < q.cursor.value.nextSequence)
  {
    var all :| Lists(all, Matching(s, q)) && PageOf(q, all, page);
    forall i | 0 <= i < |page.items| ensures Selects(q, page.items[i]) {
      assert page.items[i] == all[i] && all[i] in Elements(all);
    }
  }

  lemma OlderIsLater(all: seq<Checkpoint>, i: nat, j: nat)
    requires Ascending(Newer, all) && i < |all| && j < |all| && all[i].body.sequence < all[j].body.sequence
    ensures i > j
  {
  }

  /** What remains below a page's cursor is the rest of the listing. */
  lemma RestBelowCursor(s: Store, q: Query, all: seq<Checkpoint>, k: nat)
    requires Lists(all, Matching(s, q)) && 1 <= k <= |all|
    ensures Lists(all[k..], Matching(s, q.(cursor := Some(Cursor(q.of, all[k - 1].body.sequence)))))
  {
    var next := q.(cursor := Some(Cursor(q.of, all[k - 1].body.sequence)));
    var rest := all[k..];
    assert all[k - 1] in Elements(all);
    assert Selects(q, all[k - 1]);
    forall c ensures c in rest <==> c in Matching(s, next) {
      if c in rest {
        var i :| 0 <= i < |rest| && rest[i] == c;
        assert all[k + i] == c && c in Elements(all);
        assert Newer(all[k - 1], all[k + i]);
      }
      if c in Matching(s, next) {
        assert c in Matching(s, q);
        assert c in Elements(all);
        var i :| 0 <= i < |all| && all[i] == c;
        OlderIsLater(all, i, k - 1);
        assert rest[i - k] == c;
      }
    }
    assert Elements(rest) == Matching(s, next);
  }

  lemma AscendingIsSound(items: seq<Checkpoint>, q: Query)
    requires Ascending(Newer, items) && forall i :: 0 <= i < |items| ==> Selects(q, items[i])
    ensures SoundUpTo(items, q, |items|)
  {
    forall j | 0 < j < |items| ensures items[j].body.sequence < items[j - 1].body.sequence { assert Newer(items[j - 1], items[j]); }
  }

  datatype Listed<+T> = Got(value: T) | NotListed(error: ListError)

  datatype ListError = AtGateway(gateway: GatewayError) | AtStore(store: StoreError)

  /** One authorized list call: narrow the query to its grant, ask the store, check the page. The
      store's own pages always pass. */
  method GatewayList(store: InMemoryCheckpointStore, q: Query, grantedLimit: nat) returns (result: Listed<Page>)
    requires store.Valid() && q.of.provider == store.provider
    ensures result.Got? <==>
      && 1 <= grantedLimit <= q.of.limit && (q.cursor.Some? ==> grantedLimit == q.of.limit && q.cursor.value.of == q.of)
    ensures result.Got? ==> IsPage(store.View(), q.(of := q.of.(limit := grantedLimit)), result.value)
  {
    var constrained := ConstrainList(q, grantedLimit);
    if constrained.None? { return NotListed(AtGateway(InvalidGrant)); }
    var effective := constrained.value;
    hide Indexed, IsPage;
    var error, page := store.ListCheckpoints(effective);
    if error.Some? { return NotListed(AtStore(error.value)); }
    var fault := ValidatePage(page, effective);
    match fault {
      case Some(e) => result := NotListed(AtGateway(e));
      case None => result := Got(page);
    }
    StorePagesAreValid(store.View(), effective, page);
    AscendingIsSound(page.items, effective);
  }

  /** A page is the front of what is still to be listed, and its cursor leads to the rest. */
  lemma PageIsFront(s: Store, q: Query, rest: seq<Checkpoint>, page: Page)
    requires Lists(rest, Matching(s, q)) && IsPage(s, q, page)
    ensures page.next.None? ==> page.items == rest && |rest| <= q.of.limit
    ensures page.next.Some? ==>
      && 1 <= q.of.limit < |rest| && page.items == rest[..q.of.limit] && page.next.value.of == q.of
      && Lists(rest[q.of.limit..], Matching(s, Query(q.of, page.next)))
  {
    var all :| Lists(all, Matching(s, q)) && PageOf(q, all, page);
    ListsUnique(all, rest, Matching(s, q));
    if page.next.Some? { RestBelowCursor(s, q, rest, q.of.limit); }
  }

  lemma LimitSelectsNothing(s: Store, q: Query, limit: nat)
    ensures Matching(s, q.(of := q.of.(limit := limit))) == Matching(s, q)
  {
  }

  /** One turn of the loop: the page is the front of the rest, and the next query leads on. */
  lemma PageAdvances(s: Store, q: Query, grantedLimit: nat, rest: seq<Checkpoint>, page: Page)
    requires Lists(rest, Matching(s, q)) && IsPage(s, q.(of := q.of.(limit := grantedLimit)), page)
    ensures page.next.None? ==> page.items == rest && |rest| <= grantedLimit
    ensures page.next.Some? ==>
      && 1 <= grantedLimit < |rest| && page.items == rest[..grantedLimit] && page.next.value.of == q.of.(limit := grantedLimit)
      && Lists(rest[grantedLimit..], Matching(s, Query(q.of, page.next)))
  {
    LimitSelectsNothing(s, q, grantedLimit);
    PageIsFront(s, q.(of := q.of.(limit := grantedLimit)), rest, page);
    LimitSelectsNothing(s, Query(q.of, page.next), grantedLimit);
  }

  /** The whole listing has every stored checkpoint that is not foreign, and no other. */
  lemma ListedExactly(s: Store, of: Fingerprint, all: seq<Checkpoint>)
    requires Lists(all, Matching(s, Query(of, None)))
    ensures forall r :: r in s.checkpoints ==> (s.checkpoints[r] in all <==> !Foreign(s.checkpoints[r], Query(of, None)))
  {
    forall r | r in s.checkpoints ensures s.checkpoints[r] in all <==> !Foreign(s.checkpoints[r], Query(of, None)) {
      assert s.checkpoints[r] in all <==> s.checkpoints[r] in Elements(all);
    }
  }

  /** The recovery loop's listing through the gateway; grants(k) is the limit granted to the k-th
      request. If it ends well, it has collected every matching checkpoint, each once, latest first,
      and a narrowed first grant left nothing over; with exact grants it always ends well. */
  method ListAll(store: InMemoryCheckpointStore, run: RunId, scope: nat, graphVersion: Option<nat>, limit: nat, grants: nat -> nat)
    returns (result: Listed<seq<Checkpoint>>)
    requires store.Valid() && limit >= 1
    ensures result.Got? ==>
      && Lists(result.value, Matching(store.View(), Query(Fingerprint(store.provider, run, scope, graphVersion, limit), None)))
      && (grants(0) == limit || |result.value| <= grants(0) < limit)
    ensures result.Got? ==>
      var q := Query(Fingerprint(store.provider, run, scope, graphVersion, limit), None);
      forall r :: r in store.checkpoints ==> (store.checkpoints[r] in result.value <==> !Foreign(store.checkpoints[r], q))
    ensures (forall k :: grants(k) == limit) ==> result.Got?
  {
    hide Indexed, Lists, Matching, IsPage;
    var of := Fingerprint(store.provider, run, scope, graphVersion, limit);
    var query := Query(of, None);
    var items: seq<Checkpoint> := [];
    ghost var s := store.View();
    ghost var all := Listing(s, query);
    ghost var rest := all;
    var k := 0;
    while true
      invariant query.of == of && items + rest == all && Lists(rest, Matching(s, query))
      invariant k == 0 ==> query.cursor.None? && items == []
      invariant k > 0 ==> query.cursor.Some? && query.cursor.value.of == of.(limit := if k == 1 then grants(0) else limit)
      invariant k > 1 ==> grants(0) == limit
      decreases |rest|
    {
      var listed := GatewayList(store, query, grants(k));
      if listed.NotListed? { return NotListed(listed.error); }
      var page := listed.value;
      PageAdvances(s, query, grants(k), rest, page);
      items := items + page.items;
      if page.next.None? {
        assert items == all;
        ListedExactly(s, of, items);
        return Got(items);
      }
      assert rest == rest[..grants(k)] + rest[grants(k)..];
      query := Query(of, page.next);
      rest := rest[grants(k)..];
      k := k + 1;
    }
  }

  /** The listing of a query exists: sort the matching values. */
  ghost function Listing(s: Store, q: Query): (all: seq<Checkpoint>)
    requires Indexed(s)
    ensures Lists(all, Matching(s, q))
  {
    ListingExists(s, q);
    var all :| Lists(all, Matching(s, q));
    all
  }

  lemma ListingExists(s: Store, q: Query)
    requires Indexed(s)
    ensures exists all :: Lists(all, Matching(s, q))
  {
    var all := SortSet(s, q, Matching(s, q));
  }

  lemma {:induction false} SortSet(s: Store, q: Query, part: set<Checkpoint>) returns (all: seq<Checkpoint>)
    requires Indexed(s) && part <= Matching(s, q)
    ensures Lists(all, part)
  {
    if c :| c in part {
      var rest := SortSet(s, q, part - {c});
      forall y | y in rest ensures Newer(c, y) || Newer(y, c) {
        assert y in Elements(rest);
        if c.body.sequence == y.body.sequence { MatchingDistinct(s, q, c, y); }
      }
      NewerOrder();
      InsertKeepsAscending(Newer, c, rest);
      all := Order.Insert(Newer, c, rest);
      InsertElements(c, rest);
    } else {
      all := [];
      assert Elements(all) == part;
    }
  }

  lemma InsertElements(c: Checkpoint, rest: seq<Checkpoint>)
    ensures Elements(Order.Insert(Newer, c, rest)) == Elements(rest) + {c}
  {
    var all := Order.Insert(Newer, c, rest);
    assert multiset(rest + [c]) == multiset(rest) + multiset{c};
    forall x ensures x in all <==> x in rest + [c] { MultisetMember(all, rest + [c], x); }
  }

  // ---------------------------------------------------------------- narrowed grants

  /** What the loop can ask for after a first page that a grant narrowed to grantedLimit: its own
      limit again, with the cursor it received. None when no second page is due. */
  function SecondQuery(of: Fingerprint, first: Page): Option<Query>
  {
    if first.next.None? then None else Some(Query(of, first.next))
  }

  /** The second request is answerable under some grant for the original limit. */
  predicate Answerable(q: Query, grantedLimit: nat)
  {
    match ConstrainList(q, grantedLimit)
    case None => false
    case Some(effective) => effective.cursor.None? || effective.cursor.value.of == effective.of
  }

  /** Exactly when a narrowed first page still lets the loop go on: the grant was exact, or
      everything fitted on the first page. */
  lemma NarrowedGrantExactly(s: Store, of: Fingerprint, grantedLimit: nat, all: seq<Checkpoint>, first: Page)
    requires Indexed(s) && 1 <= grantedLimit <= of.limit
    requires Lists(all, Matching(s, Query(of.(limit := grantedLimit), None)))
    requires PageOf(Query(of.(limit := grantedLimit), None), all, first)
    ensures (SecondQuery(of, first).None? || exists g :: Answerable(SecondQuery(of, first).value, g))
       <==> grantedLimit == of.limit || |all| <= grantedLimit
  {
    if |all| > grantedLimit {
      var second := SecondQuery(of, first).value;
      assert second.cursor.value.of == of.(limit := grantedLimit);
      if grantedLimit == of.limit {
        assert Answerable(second, of.limit);
      } else {
        forall g ensures !Answerable(second, g) {}
      }
    }
  }
}
