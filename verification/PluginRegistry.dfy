/** Ownership-aware publication of plugin capabilities: one versioned snapshot, and receipts that
    take back exactly what they published. */
module PluginRegistry {
  import opened Order

  type PluginId = nat
  type CapKey = nat

  /** A declaration with its implementation, under its (type, identity, version) key. */
  datatype Capability = Capability(key: CapKey, content: nat)

  /** The identity digest is injective in what it covers. */
  datatype RegId = RegId(owner: PluginId, keys: seq<CapKey>, version: nat)

  datatype Registration = Registration(id: RegId, owner: PluginId, capability: Capability)

  datatype Receipt = Receipt(id: RegId, owner: PluginId, version: nat, keys: seq<CapKey>)

  datatype Registry = Registry(version: nat, table: map<CapKey, Registration>, retired: set<RegId>)

  datatype Refusal = StaleVersion | AlreadyRegistered | NotOwned

  datatype CommitResult = Committed(registry: Registry, receipt: Receipt) | CommitRefused(reason: Refusal)

  datatype UnregisterResult = Withdrew(registry: Registry) | UnregisterRefused(reason: Refusal)

  function KeysOf(caps: seq<Capability>): seq<CapKey>
  {
    if caps == [] then [] else [caps[0].key] + KeysOf(caps[1..])
  }

  /** A registration plan has no duplicate capability. */
  ghost predicate IsPlan(caps: seq<Capability>) { Distinct(KeysOf(caps)) }

  function IdFor(r: Registry, owner: PluginId, caps: seq<Capability>): RegId
  {
    RegId(owner, SortBy(IntLess, KeysOf(caps)), r.version + 1)
  }

  /** The table with the capabilities published under id. */
  function Publish(table: map<CapKey, Registration>, id: RegId, owner: PluginId, caps: seq<Capability>): map<CapKey, Registration>
    decreases |caps|
  {
    if caps == [] then table
    else Publish(table, id, owner, caps[..|caps| - 1])[caps[|caps| - 1].key := Registration(id, owner, caps[|caps| - 1])]
  }

  function Commit(r: Registry, owner: PluginId, caps: seq<Capability>, expected: nat): CommitResult
  {
    if r.version != expected then CommitRefused(StaleVersion)
    else if exists k :: k in KeysOf(caps) && k in r.table then CommitRefused(AlreadyRegistered)
    else
      var id := IdFor(r, owner, caps);
      Committed(Registry(r.version + 1, Publish(r.table, id, owner, caps), r.retired),
                Receipt(id, owner, r.version + 1, id.keys))
  }

  predicate Owns(r: Registry, receipt: Receipt, k: CapKey)
  {
    k in r.table && r.table[k].owner == receipt.owner && r.table[k].id == receipt.id
  }

  function Unregister(r: Registry, receipt: Receipt): UnregisterResult
  {
    if receipt.id in r.retired then Withdrew(r)
    else if exists k :: k in receipt.keys && !Owns(r, receipt, k) then UnregisterRefused(NotOwned)
    else Withdrew(Registry(r.version + 1, r.table - Elements(receipt.keys), r.retired + {receipt.id}))
  }

  class CapabilityRegistry {
    var version: nat
    var table: map<CapKey, Registration>
    var retired: set<RegId>

    function View(): Registry
      reads this
    {
      Registry(version, table, retired)
    }

    constructor ()
      ensures View() == Registry(0, map[], {})
    {
      version, table, retired := 0, map[], {};
    }

    /** Check the whole plan, edit a private copy, publish it in one assignment. The source sorts
        the capabilities first; the order of the two loops shows only in which conflict is named. */
    method CommitPlan(owner: PluginId, caps: seq<Capability>, expected: nat) returns (result: CommitResult)
      requires IsPlan(caps)
      modifies this
      ensures result == Commit(old(View()), owner, caps, expected)
      ensures View() == if result.Committed? then result.registry else old(View())
    {
      if version != expected { return CommitRefused(StaleVersion); }
      var registrations := table;
      var i := 0;
      while i < |caps|
        invariant 0 <= i <= |caps|
        invariant forall j :: 0 <= j < i ==> caps[j].key !in table
      {
        if caps[i].key in registrations {
          KeyListed(caps, i);
          return CommitRefused(AlreadyRegistered);
        }
        i := i + 1;
      }
      NoneTaken(table, caps);
      assert Commit(View(), owner, caps, expected).Committed?;
      var id := IdFor(View(), owner, caps);
      ghost var done := Commit(View(), owner, caps, expected);
      assert done == Committed(Registry(version + 1, Publish(table, id, owner, caps), retired), Receipt(id, owner, version + 1, id.keys));
      hide Commit, IdFor, KeysOf, SortBy;
      i := 0;
      while i < |caps|
        invariant 0 <= i <= |caps|
        invariant registrations == Publish(table, id, owner, caps[..i])
      {
        assert caps[..i + 1][..i] == caps[..i];
        registrations := registrations[caps[i].key := Registration(id, owner, caps[i])];
        i := i + 1;
      }
      assert caps[..|caps|] == caps;
      version := version + 1;
      table := registrations;
      result := Committed(View(), Receipt(id, owner, version, id.keys));
    }

    /** Deleting a key twice would raise, so a receipt's keys are distinct; issued ones are. */
    method UnregisterReceipt(receipt: Receipt) returns (result: UnregisterResult)
      requires Distinct(receipt.keys)
      modifies this
      ensures result == Unregister(old(View()), receipt)
      ensures View() == if result.Withdrew? then result.registry else old(View())
    {
      if receipt.id in retired { return Withdrew(View()); }
      var registrations := table;
      var i := 0;
      while i < |receipt.keys|
        invariant 0 <= i <= |receipt.keys|
        invariant forall j :: 0 <= j < i ==> Owns(View(), receipt, receipt.keys[j])
      {
        var key := receipt.keys[i];
        if key !in registrations || registrations[key].owner != receipt.owner || registrations[key].id != receipt.id {
          assert key in receipt.keys && !Owns(View(), receipt, key);
          return UnregisterRefused(NotOwned);
        }
        i := i + 1;
      }
      i := 0;
      while i < |receipt.keys|
        invariant 0 <= i <= |receipt.keys|
        invariant registrations == table - Elements(receipt.keys[..i])
      {
        assert Elements(receipt.keys[..i + 1]) == Elements(receipt.keys[..i]) + {receipt.keys[i]};
        registrations := registrations - {receipt.keys[i]};
        i := i + 1;
      }
      assert receipt.keys[..|receipt.keys|] == receipt.keys;
      retired := retired + {receipt.id};
      version := version + 1;
      table := registrations;
      result := Withdrew(View());
    }
  }

  lemma {:induction false} KeyListed(caps: seq<Capability>, i: nat)
    requires i < |caps|
    ensures caps[i].key in KeysOf(caps)
  {
    if i > 0 { KeyListed(caps[1..], i - 1); }
  }

  lemma {:induction false} KeyComesFrom(caps: seq<Capability>, k: CapKey)
    requires k in KeysOf(caps)
    ensures exists i :: 0 <= i < |caps| && caps[i].key == k
  {
    if caps[0].key != k {
      KeyComesFrom(caps[1..], k);
      var i :| 0 <= i < |caps[1..]| && caps[1..][i].key == k;
      assert caps[i + 1].key == k;
    }
  }

  lemma NoneTaken(table: map<CapKey, Registration>, caps: seq<Capability>)
    requires forall j :: 0 <= j < |caps| ==> caps[j].key !in table
    ensures !exists k :: k in KeysOf(caps) && k in table
  {
    forall k | k in KeysOf(caps) ensures k !in table { KeyComesFrom(caps, k); }
  }

  /** Publishing adds exactly the plan's keys, each under the new identity, and changes nothing else. */
  lemma {:induction false} PublishMeaning(table: map<CapKey, Registration>, id: RegId, owner: PluginId, caps: seq<Capability>, k: CapKey)
    ensures var published := Publish(table, id, owner, caps);
            && (k in published <==> k in table || exists i :: 0 <= i < |caps| && caps[i].key == k)
            && (k in published && (exists i :: 0 <= i < |caps| && caps[i].key == k) ==>
                 published[k].id == id && published[k].owner == owner && published[k].capability in caps && published[k].capability.key == k)
            && (k in table && (forall i :: 0 <= i < |caps| ==> caps[i].key != k) ==> published[k] == table[k])
    decreases |caps|
  {
    if caps != [] {
      var last := |caps| - 1;
      var front := caps[..last];
      PublishMeaning(table, id, owner, front, k);
      assert forall i :: 0 <= i < last ==> front[i] == caps[i];
      if i :| 0 <= i < |caps| && caps[i].key == k && k != caps[last].key { assert front[i].key == k; }
    }
  }

  // ---------------------------------------------------------------- histories

  /** live: receipts committed and not yet taken back; issued: every receipt ever committed. */
  datatype Ledger = Ledger(reg: Registry, live: set<Receipt>, issued: set<Receipt>, changes: nat)

  datatype Call = CallCommit(owner: PluginId, caps: seq<Capability>, expected: nat) | CallUnregister(receipt: Receipt)

  function After(l: Ledger, call: Call): Ledger
  {
    match call
    case CallCommit(owner, caps, expected) =>
      (match Commit(l.reg, owner, caps, expected)
       case Committed(reg, receipt) => Ledger(reg, l.live + {receipt}, l.issued + {receipt}, l.changes + 1)
       case CommitRefused(_) => l)
    case CallUnregister(receipt) =>
      if receipt.id in l.reg.retired || Unregister(l.reg, receipt).UnregisterRefused? then l
      else Ledger(Unregister(l.reg, receipt).registry, l.live - {receipt}, l.issued, l.changes + 1)
  }

  /** Plans are well formed, and only issued receipts are presented. */
  ghost predicate Legal(l: Ledger, call: Call)
  {
    match call
    case CallCommit(_, caps, _) => IsPlan(caps)
    case CallUnregister(receipt) => receipt in l.issued
  }

  ghost predicate AllLegal(l: Ledger, calls: seq<Call>)
    decreases |calls|
  {
    calls != [] ==> Legal(l, calls[0]) && AllLegal(After(l, calls[0]), calls[1..])
  }

  function Execute(l: Ledger, calls: seq<Call>): Ledger
    decreases |calls|
  {
    if calls == [] then l else Execute(After(l, calls[0]), calls[1..])
  }

  ghost predicate Issue(rc: Receipt, version: nat)
  {
    rc.id == RegId(rc.owner, rc.keys, rc.version) && rc.version <= version && Distinct(rc.keys)
  }

  ghost predicate Backed(l: Ledger, k: CapKey) { exists rc :: rc in l.live && k in rc.keys && Owns(l.reg, rc, k) }

  /** The table is the disjoint union of the live receipts' keys, and the version counts changes. */
  ghost predicate Conserved(l: Ledger)
  {
    && l.reg.version == l.changes
    && l.live <= l.issued
    && (forall rc :: rc in l.issued ==> Issue(rc, l.reg.version) && (rc in l.live <==> rc.id !in l.reg.retired))
    && (forall id :: id in l.reg.retired ==> id.version <= l.reg.version)
    && (forall k :: k in l.reg.table ==> Backed(l, k))
    && (forall rc, k :: rc in l.live && k in rc.keys ==> Owns(l.reg, rc, k))
  }

  lemma LiveReceiptsAreDisjoint(l: Ledger, a: Receipt, b: Receipt)
    requires Conserved(l) && a in l.live && b in l.live && a != b
    ensures a.id != b.id && forall k :: k in a.keys ==> k !in b.keys
  {
    assert Issue(a, l.reg.version) && Issue(b, l.reg.version);
    forall k | k in a.keys ensures k !in b.keys { assert Owns(l.reg, a, k); }
  }

  /** A commit adds exactly the keys its receipt lists, all owned by it, and keeps the rest. */
  lemma CommitMeaning(r: Registry, owner: PluginId, caps: seq<Capability>, expected: nat)
    requires IsPlan(caps) && Commit(r, owner, caps, expected).Committed?
    ensures var done := Commit(r, owner, caps, expected);
            && Distinct(done.receipt.keys) && Elements(done.receipt.keys) == Elements(KeysOf(caps))
            && (forall k :: k in done.registry.table <==> k in r.table || k in done.receipt.keys)
            && (forall k :: k in done.receipt.keys ==> k !in r.table && Owns(done.registry, done.receipt, k))
            && (forall k :: k in r.table ==> done.registry.table[k] == r.table[k])
  {
    var done := Commit(r, owner, caps, expected);
    SortNats(KeysOf(caps));
    AscendingDistinct(IntLess, done.receipt.keys);
    hide SortBy, Distinct, Ascending;
    forall k ensures k in done.receipt.keys <==> k in KeysOf(caps) {
      assert k in done.receipt.keys <==> k in Elements(done.receipt.keys);
    }
    forall k
      ensures k in done.registry.table <==> k in r.table || k in KeysOf(caps)
      ensures k in KeysOf(caps) ==> k !in r.table && Owns(done.registry, done.receipt, k)
      ensures k in r.table ==> done.registry.table[k] == r.table[k]
    {
      CommitAt(r, owner, caps, expected, k);
    }
  }

  lemma CommitAt(r: Registry, owner: PluginId, caps: seq<Capability>, expected: nat, k: CapKey)
    requires Commit(r, owner, caps, expected).Committed?
    ensures var done := Commit(r, owner, caps, expected);
            && (k in done.registry.table <==> k in r.table || k in KeysOf(caps))
            && (k in KeysOf(caps) ==> k !in r.table && Owns(done.registry, done.receipt, k))
            && (k in r.table ==> done.registry.table[k] == r.table[k])
  {
    PublishMeaning(r.table, IdFor(r, owner, caps), owner, caps, k);
    if k in KeysOf(caps) { KeyComesFrom(caps, k); }
    if i :| 0 <= i < |caps| && caps[i].key == k { KeyListed(caps, i); }
  }

  lemma CommitKeeps(l: Ledger, owner: PluginId, caps: seq<Capability>, expected: nat)
    requires Conserved(l) && IsPlan(caps)
    ensures Conserved(After(l, CallCommit(owner, caps, expected)))
  {
    var done := Commit(l.reg, owner, caps, expected);
    if done.Committed? {
      CommitMeaning(l.reg, owner, caps, expected);
      var t := After(l, CallCommit(owner, caps, expected));
      NewIssue(l, t, done.receipt);
      hide Commit, Distinct, IsPlan;
      forall k | k in t.reg.table ensures Backed(t, k) {
        if k in l.reg.table {
          assert Backed(l, k);
          var rc :| rc in l.live && k in rc.keys && Owns(l.reg, rc, k);
          assert rc in t.live && Owns(t.reg, rc, k);
        } else {
          assert done.receipt in t.live && Owns(t.reg, done.receipt, k);
        }
      }
    }
  }

  lemma NewIssue(l: Ledger, t: Ledger, rc: Receipt)
    requires Conserved(l) && t.issued == l.issued + {rc} && t.live == l.live + {rc} && t.reg.retired == l.reg.retired
    requires t.reg.version == l.reg.version + 1 && rc.version == t.reg.version && Issue(rc, t.reg.version)
    ensures forall x :: x in t.issued ==> Issue(x, t.reg.version) && (x in t.live <==> x.id !in t.reg.retired)
    ensures rc !in l.issued
  {
    hide Distinct;
  }

  lemma UnregisterKeeps(l: Ledger, receipt: Receipt)
    requires Conserved(l) && receipt in l.issued
    ensures Conserved(After(l, CallUnregister(receipt)))
  {
    var t := After(l, CallUnregister(receipt));
    if t != l {
      assert receipt in l.live;
      LiveReceiptTakesItsKeys(l, receipt);
      hide Distinct, Unregister;
      forall rc | rc in t.issued ensures Issue(rc, t.reg.version) && (rc in t.live <==> rc.id !in t.reg.retired) {
        assert Issue(rc, l.reg.version);
        if rc.id == receipt.id { assert rc == receipt; }
      }
      forall k | k in t.reg.table ensures Backed(t, k) {
        assert Backed(l, k);
        var rc :| rc in l.live && k in rc.keys && Owns(l.reg, rc, k);
        assert rc in t.live && Owns(t.reg, rc, k);
      }
    }
  }

  /** Whatever was committed in between, a live receipt is accepted, takes back exactly its own
      keys, and leaves every other live receipt's keys as they were. */
  lemma LiveReceiptTakesItsKeys(l: Ledger, receipt: Receipt)
    requires Conserved(l) && receipt in l.live
    ensures var done := Unregister(l.reg, receipt);
            && done.Withdrew? && done.registry.version == l.reg.version + 1 && done.registry.retired == l.reg.retired + {receipt.id}
            && done.registry.table == l.reg.table - Elements(receipt.keys)
            && (forall k :: k in receipt.keys ==> k in l.reg.table && k !in done.registry.table)
            && (forall rc, k :: rc in l.live && rc != receipt && k in rc.keys ==> Owns(done.registry, rc, k))
  {
    forall rc, k | rc in l.live && rc != receipt && k in rc.keys
      ensures Owns(l.reg, rc, k) && k !in receipt.keys
    {
      LiveReceiptsAreDisjoint(l, rc, receipt);
    }
    hide Distinct;
  }

  lemma {:induction false} HistoryConserves(l: Ledger, calls: seq<Call>)
    requires Conserved(l) && AllLegal(l, calls)
    ensures Conserved(Execute(l, calls))
    decreases |calls|
  {
    if calls != [] {
      var call := calls[0];
      match call {
        case CallCommit(owner, caps, expected) => CommitKeeps(l, owner, caps, expected);
        case CallUnregister(receipt) => UnregisterKeeps(l, receipt);
      }
      hide Conserved, Legal;
      HistoryConserves(After(l, call), calls[1..]);
    }
  }

  const EMPTY := Ledger(Registry(0, map[], {}), {}, {}, 0)

  /** After every history of a new registry the registrations are the disjoint union of the live
      receipts' keys, and the version is the number of changes. */
  lemma Conservation(calls: seq<Call>, a: Receipt, b: Receipt, k: CapKey)
    requires AllLegal(EMPTY, calls)
    ensures var l := Execute(EMPTY, calls);
            && l.reg.version == l.changes
            && (k in l.reg.table <==> exists rc :: rc in l.live && k in rc.keys)
            && (a in l.live && k in a.keys ==> k in l.reg.table && l.reg.table[k].id == a.id && l.reg.table[k].owner == a.owner)
            && (a in l.live && b in l.live && k in a.keys && k in b.keys ==> a == b)
  {
    HistoryConserves(EMPTY, calls);
    var l := Execute(EMPTY, calls);
    if k in l.reg.table { assert Backed(l, k); }
    forall rc | rc in l.live && k in rc.keys ensures k in l.reg.table { assert Owns(l.reg, rc, k); }
    if a in l.live && b in l.live && a != b { LiveReceiptsAreDisjoint(l, a, b); }
  }

  /** A commit is accepted if and only if the registry is at the expected version and none of the
      plan's keys is registered; a stale version is the reason given first. */
  lemma CommitAcceptedExactly(r: Registry, owner: PluginId, caps: seq<Capability>, expected: nat)
    ensures var done := Commit(r, owner, caps, expected);
            && (done.Committed? <==> r.version == expected && forall i :: 0 <= i < |caps| ==> caps[i].key !in r.table)
            && (done.CommitRefused? ==> done.reason == if r.version != expected then StaleVersion else AlreadyRegistered)
            && (done.Committed? ==>
                 && done.registry.version == expected + 1 && done.registry.retired == r.retired
                 && done.receipt.owner == owner && done.receipt.version == expected + 1)
  {
    if forall i :: 0 <= i < |caps| ==> caps[i].key !in r.table { NoneTaken(r.table, caps); }
    forall i | 0 <= i < |caps| ensures caps[i].key in KeysOf(caps) { KeyListed(caps, i); }
    hide KeysOf, Publish, IdFor;
  }

  /** Any receipt, issued here or not: it is refused if and only if it is not retired and one of its
      keys is not registered to it, and what is not registered to it stays as it is. */
  lemma ForeignKeysAreSafe(r: Registry, receipt: Receipt)
    ensures var done := Unregister(r, receipt);
            && (done.UnregisterRefused? <==> receipt.id !in r.retired && exists k :: k in receipt.keys && !Owns(r, receipt, k))
            && (done.Withdrew? ==>
                 forall k :: k in r.table && (r.table[k].owner != receipt.owner || r.table[k].id != receipt.id) ==>
                   k in done.registry.table && done.registry.table[k] == r.table[k])
            && (done.Withdrew? && receipt.id !in r.retired ==>
                 && (forall k :: k in receipt.keys ==> k !in done.registry.table)
                 && done.registry.version == r.version + 1 && receipt.id in done.registry.retired)
            && (receipt.id in r.retired ==> done == Withdrew(r))
  {
    if Unregister(r, receipt).Withdrew? && receipt.id !in r.retired {
      assert forall k :: k in receipt.keys ==> Owns(r, receipt, k);
    }
  }

  lemma {:induction false} VersionGrows(l: Ledger, calls: seq<Call>)
    ensures Execute(l, calls).reg.version >= l.reg.version
    decreases |calls|
  {
    if calls != [] {
      assert After(l, calls[0]).reg.version >= l.reg.version;
      hide After;
      VersionGrows(After(l, calls[0]), calls[1..]);
    }
  }

  lemma {:induction false} ExecuteSplit(l: Ledger, calls: seq<Call>, i: nat)
    requires i <= |calls|
    ensures Execute(l, calls) == Execute(Execute(l, calls[..i]), calls[i..])
    decreases i
  {
    if i == 0 {
      assert calls[0..] == calls && calls[..0] == [];
    } else {
      assert calls[..i][0] == calls[0] && calls[..i][1..] == calls[1..][..i - 1] && calls[1..][i - 1..] == calls[i..];
      hide After;
      ExecuteSplit(After(l, calls[0]), calls[1..], i - 1);
    }
  }

  /** The call at position i is a commit from this version, and is accepted. */
  ghost predicate Wins(l: Ledger, calls: seq<Call>, i: nat, expected: nat)
    requires i < |calls|
  {
    && calls[i].CallCommit? && calls[i].expected == expected
    && Commit(Execute(l, calls[..i]).reg, calls[i].owner, calls[i].caps, expected).Committed?
  }

  lemma WinnerMovesOn(l: Ledger, calls: seq<Call>, i: nat, expected: nat)
    requires i < |calls| && Wins(l, calls, i, expected)
    ensures Execute(l, calls[..i + 1]).reg.version == expected + 1
  {
    var before := Execute(l, calls[..i]);
    ExecuteSplit(l, calls[..i + 1], i);
    assert calls[..i + 1][..i] == calls[..i] && calls[..i + 1][i..] == [calls[i]];
    assert Execute(before, [calls[i]]) == After(before, calls[i]);
    CommitAcceptedExactly(before.reg, calls[i].owner, calls[i].caps, expected);
    hide Execute, Commit;
  }

  /** Of all commits computed from one version of the registry, in any history, at most one is accepted. */
  lemma OneCommitPerVersion(l: Ledger, calls: seq<Call>, i: nat, j: nat, expected: nat)
    requires i < |calls| && j < |calls| && Wins(l, calls, i, expected) && Wins(l, calls, j, expected)
    ensures i == j
  {
    if i != j {
      var a, b := if i < j then i else j, if i < j then j else i;
      WinnerMovesOn(l, calls, a, expected);
      ExecuteSplit(l, calls[..b], a + 1);
      assert calls[..b][..a + 1] == calls[..a + 1];
      VersionGrows(Execute(l, calls[..a + 1]), calls[..b][a + 1..]);
    }
  }

  /** A receipt that names only some of its registration's keys strands the others: the identity is
      retired, so exactly a receipt that names all of them leaves nothing behind. */
  lemma ReceiptMustNameAllKeys(r: Registry, receipt: Receipt)
    requires receipt.id !in r.retired && Unregister(r, receipt).Withdrew?
    ensures var after := Unregister(r, receipt).registry;
            && (forall again: Receipt :: again.id == receipt.id ==> Unregister(after, again) == Withdrew(after))
            && ((forall k :: k in after.table ==> after.table[k].id != receipt.id) <==>
                (forall k :: k in r.table && r.table[k].id == receipt.id ==> k in receipt.keys))
  {
    var after := Unregister(r, receipt).registry;
    assert forall k :: k in after.table <==> k in r.table && k !in receipt.keys;
  }

  const PAIR := [Capability(0, 0), Capability(1, 0)]
  const PAIRID := RegId(0, [0, 1], 1)

  lemma PairCommits()
    ensures Commit(EMPTY.reg, 0, PAIR, 0) ==
      Committed(Registry(1, map[0 := Registration(PAIRID, 0, PAIR[0]), 1 := Registration(PAIRID, 0, PAIR[1])], {}),
                Receipt(PAIRID, 0, 1, [0, 1]))
  {
    assert KeysOf(PAIR[1..]) == [1];
    assert KeysOf(PAIR) == [0, 1];
    assert SortBy(IntLess, [0, 1][1..]) == [1];
    assert SortBy(IntLess, [0, 1]) == [0, 1];
    assert PAIR[..1] == [PAIR[0]];
    assert Publish(map[], PAIRID, 0, PAIR[..1]) == map[0 := Registration(PAIRID, 0, PAIR[0])];
  }

  /** Two capabilities are published; a receipt naming one of them is accepted, and from then on the
      complete receipt is accepted without taking the other one back. */
  lemma PartialReceiptStrands()
    ensures var done := Commit(EMPTY.reg, 0, PAIR, 0);
            && done.Committed?
            && var partly := Unregister(done.registry, done.receipt.(keys := [0]));
               && partly.Withdrew? && 0 !in partly.registry.table
               && 1 in partly.registry.table && partly.registry.table[1].id == done.receipt.id
               && Unregister(partly.registry, done.receipt) == Withdrew(partly.registry)
  {
    PairCommits();
    hide Commit, Publish, SortBy, KeysOf;
  }
}
