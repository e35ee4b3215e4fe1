/** No audit entry is lost, a normal return means acknowledged, and deliveries are bounded. */
module AuditSafety {
  import opened Wrappers
  import opened Outbox
  import opened AuditDispatch

  // ---------------------------------------------------------------- nothing is lost

  /** Entries stay, keep their digests, and acknowledgements stay. */
  ghost predicate Grows(a: Entries, b: Entries)
  {
    forall k :: k in a ==> k in b && b[k].digest == a[k].digest && (a[k].Acknowledged? ==> b[k] == a[k])
  }

  lemma GrowsOn(a: Entries, b: Entries, d: Entries)
    requires Grows(a, b) && Grows(b, d)
    ensures Grows(a, d)
  {
  }

  lemma TryGrows(w: World, c: Setup, k: Key)
    ensures Grows(w.entries, Try(w, c, k).world.entries) && Try(w, c, k).world.entries.Keys == w.entries.Keys
  {
  }

  lemma MarkGrows(o: Entries, k: Key, error: Option<nat>, strict: bool)
    requires Mark(o, k, error, strict).Made?
    ensures Grows(o, Mark(o, k, error, strict).entries) && Mark(o, k, error, strict).entries.Keys == o.Keys
  {
  }

  lemma {:induction false} DeliverGrows(w: World, c: Setup, k: Key, attempt: nat, last: Option<nat>)
    ensures Grows(w.entries, Deliver(w, c, k, attempt, last).world.entries)
    ensures Deliver(w, c, k, attempt, last).world.entries.Keys == w.entries.Keys
    decreases c.maxAttempts - attempt
  {
    if attempt < c.maxAttempts {
      var tried := Try(w, c, k);
      TryGrows(w, c, k);
      if tried.raised.Some? {
        var code := tried.raised.value.0;
        var noted := Mark(tried.world.entries, k, Some(code), c.strict);
        if noted.Made? {
          MarkGrows(tried.world.entries, k, Some(code), c.strict);
          GrowsOn(w.entries, tried.world.entries, noted.entries);
          if tried.raised.value.1 {
            var next := tried.world.(entries := noted.entries);
            hide Try, Mark, Grows;
            DeliverGrows(next, c, k, attempt + 1, Some(code));
            GrowsOn(w.entries, next.entries, Deliver(next, c, k, attempt + 1, Some(code)).world.entries);
          }
        }
      }
    }
  }

  lemma PublishToGrows(w: World, c: Setup, event: nat, s: Sink)
    ensures Grows(w.entries, PublishTo(w, c, event, s).world.entries)
  {
    if s.prepared.Ready? {
      var enqueued := Enqueue(w.entries, Key(event, s.id), s.prepared.digest);
      if enqueued.Made? { DeliverGrows(w.(entries := enqueued.entries), c, Key(event, s.id), 0, None); }
    }
  }

  lemma {:induction false} RequiredGrows(w: World, c: Setup, event: nat, sinks: seq<Sink>)
    ensures Grows(w.entries, PublishRequired(w, c, event, sinks).world.entries)
    decreases |sinks|
  {
    if sinks != [] {
      if sinks[0].required {
        PublishToGrows(w, c, event, sinks[0]);
        var first := PublishTo(w, c, event, sinks[0]);
        if first.failure.None? { RequiredGrows(first.world, c, event, sinks[1..]); }
      } else {
        RequiredGrows(w, c, event, sinks[1..]);
      }
    }
  }

  lemma {:induction false} OptionalGrows(w: World, c: Setup, event: nat, sinks: seq<Sink>)
    ensures Grows(w.entries, PublishOptional(w, c, event, sinks).entries)
    decreases |sinks|
  {
    if sinks != [] {
      if sinks[0].required || !sinks[0].audit {
        OptionalGrows(w, c, event, sinks[1..]);
      } else {
        PublishToGrows(w, c, event, sinks[0]);
        OptionalGrows(PublishTo(w, c, event, sinks[0]).world, c, event, sinks[1..]);
      }
    }
  }

  /** Whatever a publication does, and however it ends, it loses no entry. */
  lemma PublishLosesNothing(w: World, c: Setup, event: nat, sinks: seq<Sink>)
    ensures Grows(w.entries, Publish(w, c, event, sinks).world.entries)
  {
    RequiredGrows(w, c, event, sinks);
    OptionalGrows(PublishRequired(w, c, event, sinks).world, c, event, sinks);
  }

  // ---------------------------------------------------------------- a normal return

  /** The contract of a sink: its acknowledgement names the entry it was given. */
  ghost predicate Honest(c: Setup)
  {
    forall k, n :: c.sink(k, n).Acked? ==> c.sink(k, n).ack.key == k
  }

  /** The last of n hand-overs was answered, and the answer names the entry. */
  predicate Answered(c: Setup, k: Key, n: nat) { n > 0 && c.sink(k, n - 1).Acked? }

  predicate Names(c: Setup, k: Key, n: nat) { Answered(c, k, n) && c.sink(k, n - 1).ack.key == k }

  lemma TryExactly(w: World, c: Setup, k: Key)
    requires k in w.entries
    ensures var tried := Try(w, c, k);
            && Count(tried.world, k) == Count(w, k) + 1 && k in tried.world.entries
            && (tried.raised.Some? ==> tried.world.entries[k].Acknowledged? == w.entries[k].Acknowledged?)
            && (tried.raised.None? ==> Answered(c, k, Count(w, k) + 1))
            && (tried.raised.None? ==>
                 (tried.world.entries[k].Acknowledged? <==> w.entries[k].Acknowledged? || Names(c, k, Count(w, k) + 1)))
  {
  }

  lemma {:induction false} DeliverAcknowledgesExactly(w: World, c: Setup, k: Key, attempt: nat, last: Option<nat>)
    requires k in w.entries && Deliver(w, c, k, attempt, last).failure.None?
    ensures var after := Deliver(w, c, k, attempt, last).world;
            && k in after.entries && Answered(c, k, Count(after, k))
            && (after.entries[k].Acknowledged? <==> w.entries[k].Acknowledged? || Names(c, k, Count(after, k)))
    decreases c.maxAttempts - attempt
  {
    TryExactly(w, c, k);
    var tried := Try(w, c, k);
    if tried.raised.Some? {
      var code := tried.raised.value.0;
      var noted := Mark(tried.world.entries, k, Some(code), c.strict);
      var next := tried.world.(entries := noted.entries);
      assert k in next.entries && next.entries[k].Acknowledged? == w.entries[k].Acknowledged?;
      assert Deliver(w, c, k, attempt, last) == Deliver(next, c, k, attempt + 1, Some(code));
      hide Try, Mark, Deliver, Names, Answered;
      DeliverAcknowledgesExactly(next, c, k, attempt + 1, Some(code));
    }
  }

  /** For any sink: after a publication to it that ends normally, the event's own entry is
      acknowledged if and only if it was before, or the sink's last answer names it. */
  lemma PublicationAcknowledgesExactly(w: World, c: Setup, event: nat, s: Sink)
    requires PublishTo(w, c, event, s).failure.None?
    ensures var k, after := Key(event, s.id), PublishTo(w, c, event, s).world;
            && k in after.entries
            && (after.entries[k].Acknowledged? <==>
                 (k in w.entries && w.entries[k].Acknowledged?) || Names(c, k, Count(after, k)))
  {
    var enqueued := Enqueue(w.entries, Key(event, s.id), s.prepared.digest);
    hide Deliver, Names;
    DeliverAcknowledgesExactly(w.(entries := enqueued.entries), c, Key(event, s.id), 0, None);
  }

  lemma DeliverAcknowledges(w: World, c: Setup, k: Key, attempt: nat, last: Option<nat>)
    requires Honest(c) && k in w.entries && Deliver(w, c, k, attempt, last).failure.None?
    ensures var after := Deliver(w, c, k, attempt, last).world.entries;
            k in after && after[k].Acknowledged? && after[k].digest == w.entries[k].digest
  {
    hide Deliver;
    DeliverGrows(w, c, k, attempt, last);
    DeliverAcknowledgesExactly(w, c, k, attempt, last);
  }

  ghost predicate HasAcknowledged(entries: Entries, k: Key, digest: nat)
  {
    k in entries && entries[k].Acknowledged? && entries[k].digest == digest
  }

  lemma PublishToAcknowledges(w: World, c: Setup, event: nat, s: Sink)
    requires Honest(c) && PublishTo(w, c, event, s).failure.None?
    ensures s.prepared.Ready? && HasAcknowledged(PublishTo(w, c, event, s).world.entries, Key(event, s.id), s.prepared.digest)
  {
    var enqueued := Enqueue(w.entries, Key(event, s.id), s.prepared.digest);
    DeliverAcknowledges(w.(entries := enqueued.entries), c, Key(event, s.id), 0, None);
  }

  lemma {:induction false} RequiredAcknowledges(w: World, c: Setup, event: nat, sinks: seq<Sink>, i: nat)
    requires Honest(c) && PublishRequired(w, c, event, sinks).failure.None?
    requires i < |sinks| && sinks[i].required
    ensures sinks[i].prepared.Ready?
    ensures HasAcknowledged(PublishRequired(w, c, event, sinks).world.entries, Key(event, sinks[i].id), sinks[i].prepared.digest)
    decreases |sinks|
  {
    if !sinks[0].required {
      RequiredAcknowledges(w, c, event, sinks[1..], i - 1);
    } else {
      var first := PublishTo(w, c, event, sinks[0]);
      if i == 0 {
        PublishToAcknowledges(w, c, event, sinks[0]);
        RequiredGrows(first.world, c, event, sinks[1..]);
      } else {
        RequiredAcknowledges(first.world, c, event, sinks[1..], i - 1);
      }
    }
  }

  /** A publication that returns normally has every required sink's entry acknowledged with the
      digest of what that sink was given. */
  lemma NormalReturnMeansAcknowledged(w: World, c: Setup, event: nat, sinks: seq<Sink>, i: nat)
    requires Honest(c) && Publish(w, c, event, sinks).failure.None?
    requires i < |sinks| && sinks[i].required
    ensures sinks[i].prepared.Ready?
    ensures HasAcknowledged(Publish(w, c, event, sinks).world.entries, Key(event, sinks[i].id), sinks[i].prepared.digest)
  {
    assert sinks[i] in sinks;
    RequiredAcknowledges(w, c, event, sinks, i);
    OptionalGrows(PublishRequired(w, c, event, sinks).world, c, event, sinks);
  }

  /** A sink that answers with another entry's acknowledgement makes publication return normally
      with its own entry still pending. */
  lemma MisnamedAcknowledgement()
    ensures var other := Key(8, 0);
            var c := Setup(false, 3, (k, n) => Acked(Ack(other, 5, 1)));
            var w := World(map[other := Pending(5, 0, None)], map[]);
            var done := Publish(w, c, 9, [Sink(0, true, true, Ready(5))]);
            && done.failure.None? && Key(9, 0) in done.world.entries && done.world.entries[Key(9, 0)].Pending?
  {
    var other, mine := Key(8, 0), Key(9, 0);
    var c := Setup(false, 3, (k, n) => Acked(Ack(other, 5, 1)));
    var w := World(map[other := Pending(5, 0, None)], map[]);
    var s := Sink(0, true, true, Ready(5));
    assert s in [s];
    var done := PublishTo(w, c, 9, s);
    assert done.failure.None? && done.world.entries[mine].Pending?;
    assert PublishRequired(w, c, 9, [s]) == PublishRequired(done.world, c, 9, []);
    assert PublishOptional(done.world, c, 9, [s]) == PublishOptional(done.world, c, 9, []);
  }

  /** Publishing an acknowledged event again succeeds over the in-memory ledger and raises over the
      rows, where marking an acknowledged entry fails. */
  lemma RepublishDiffers(w: World, c: Setup, event: nat, s: Sink)
    requires Honest(c) && c.maxAttempts > 0 && s.prepared.Ready?
    requires HasAcknowledged(w.entries, Key(event, s.id), s.prepared.digest)
    requires var r := c.sink(Key(event, s.id), Count(w, Key(event, s.id))); r.Acked? && r.ack.digest == s.prepared.digest
    ensures PublishTo(w, c, event, s).failure == if c.strict then Some(MarkRaised) else None
  {
    var k := Key(event, s.id);
    assert Deliver(w, c, k, 0, None).failure == if c.strict then Some(MarkRaised) else None;
  }

  // ---------------------------------------------------------------- bounded deliveries

  /** What has been handed over is within the limit and, while pending, within the marks. */
  ghost predicate Within(w: World, max: nat, k: Key)
  {
    Count(w, k) <= max && (k in w.entries && w.entries[k].Pending? ==> Count(w, k) <= w.entries[k].attempts)
  }

  predicate Untouched(w: World, k: Key) { k !in w.entries && Count(w, k) == 0 }

  lemma {:induction false} DeliverWithin(w: World, c: Setup, k: Key, attempt: nat, last: Option<nat>)
    requires Within(w, c.maxAttempts, k) && Count(w, k) <= attempt
    ensures Within(Deliver(w, c, k, attempt, last).world, c.maxAttempts, k)
    decreases c.maxAttempts - attempt
  {
    if attempt < c.maxAttempts {
      var tried := Try(w, c, k);
      if tried.raised.Some? {
        var code := tried.raised.value.0;
        var noted := Mark(tried.world.entries, k, Some(code), c.strict);
        if noted.Made? && tried.raised.value.1 {
          DeliverWithin(tried.world.(entries := noted.entries), c, k, attempt + 1, Some(code));
        }
      }
    }
  }

  /** Delivering one entry hands no other over, and at most acknowledges it. */
  lemma {:induction false} DeliverSparesOthers(w: World, c: Setup, k: Key, attempt: nat, last: Option<nat>, other: Key)
    requires other != k
    ensures var after := Deliver(w, c, k, attempt, last).world;
            && Count(after, other) == Count(w, other)
            && (Within(w, c.maxAttempts, other) ==> Within(after, c.maxAttempts, other))
            && (Untouched(w, other) ==> Untouched(after, other))
    decreases c.maxAttempts - attempt
  {
    DeliverGrows(w, c, k, attempt, last);
    if attempt < c.maxAttempts {
      var tried := Try(w, c, k);
      if tried.raised.Some? {
        var code := tried.raised.value.0;
        var noted := Mark(tried.world.entries, k, Some(code), c.strict);
        if noted.Made? && tried.raised.value.1 {
          DeliverSparesOthers(tried.world.(entries := noted.entries), c, k, attempt + 1, Some(code), other);
        }
      }
    }
  }

  lemma PublishToWithin(w: World, c: Setup, event: nat, s: Sink, k: Key)
    requires Within(w, c.maxAttempts, k) && (k == Key(event, s.id) ==> Untouched(w, k))
    ensures Within(PublishTo(w, c, event, s).world, c.maxAttempts, k)
    ensures k != Key(event, s.id) && Untouched(w, k) ==> Untouched(PublishTo(w, c, event, s).world, k)
  {
    var own := Key(event, s.id);
    if s.prepared.Ready? {
      var enqueued := Enqueue(w.entries, own, s.prepared.digest);
      if enqueued.Made? {
        var next := w.(entries := enqueued.entries);
        if k == own { DeliverWithin(next, c, own, 0, None); } else { DeliverSparesOthers(next, c, own, 0, None, k); }
      }
    }
  }

  /** No two registered sinks share an identity. */
  ghost predicate OneSinkEach(sinks: seq<Sink>)
  {
    forall i, j :: 0 <= i < j < |sinks| ==> sinks[i].id != sinks[j].id
  }

  /** A sink still to be served by this pass carries the entry. */
  predicate Serves(sinks: seq<Sink>, required: bool, event: nat, k: Key)
  {
    exists i :: 0 <= i < |sinks| && sinks[i].required == required && k == Key(event, sinks[i].id)
  }

  lemma ServesNoMore(sinks: seq<Sink>, required: bool, event: nat, k: Key)
    requires sinks != [] && OneSinkEach(sinks)
    ensures OneSinkEach(sinks[1..])
    ensures Serves(sinks[1..], required, event, k) ==> Serves(sinks, required, event, k) && k != Key(event, sinks[0].id)
  {
    if i :| 0 <= i < |sinks[1..]| && sinks[1..][i].required == required && k == Key(event, sinks[1..][i].id) {
      assert sinks[i + 1].required == required;
    }
  }

  lemma {:induction false} RequiredWithin(w: World, c: Setup, event: nat, sinks: seq<Sink>, k: Key)
    requires OneSinkEach(sinks) && Within(w, c.maxAttempts, k) && (Serves(sinks, true, event, k) ==> Untouched(w, k))
    ensures Within(PublishRequired(w, c, event, sinks).world, c.maxAttempts, k)
    ensures !Serves(sinks, true, event, k) && Untouched(w, k) ==> Untouched(PublishRequired(w, c, event, sinks).world, k)
    decreases |sinks|
  {
    if sinks != [] {
      ServesNoMore(sinks, true, event, k);
      if !sinks[0].required {
        assert !Serves(sinks, true, event, k) ==> !Serves(sinks[1..], true, event, k);
        RequiredWithin(w, c, event, sinks[1..], k);
      } else {
        if k == Key(event, sinks[0].id) { assert Serves(sinks, true, event, k); }
        PublishToWithin(w, c, event, sinks[0], k);
        var first := PublishTo(w, c, event, sinks[0]);
        if first.failure.None? { RequiredWithin(first.world, c, event, sinks[1..], k); }
      }
    }
  }

  lemma {:induction false} OptionalWithin(w: World, c: Setup, event: nat, sinks: seq<Sink>, k: Key)
    requires OneSinkEach(sinks) && Within(w, c.maxAttempts, k) && (Serves(sinks, false, event, k) ==> Untouched(w, k))
    ensures Within(PublishOptional(w, c, event, sinks), c.maxAttempts, k)
    decreases |sinks|
  {
    if sinks != [] {
      ServesNoMore(sinks, false, event, k);
      if sinks[0].required || !sinks[0].audit {
        OptionalWithin(w, c, event, sinks[1..], k);
      } else {
        if k == Key(event, sinks[0].id) { assert Serves(sinks, false, event, k); }
        PublishToWithin(w, c, event, sinks[0], k);
        OptionalWithin(PublishTo(w, c, event, sinks[0]).world, c, event, sinks[1..], k);
      }
    }
  }

  lemma PublishWithin(w: World, c: Setup, event: nat, sinks: seq<Sink>, k: Key)
    requires OneSinkEach(sinks) && Untouched(w, k)
    ensures Within(Publish(w, c, event, sinks).world, c.maxAttempts, k)
  {
    RequiredWithin(w, c, event, sinks, k);
    if Serves(sinks, false, event, k) {
      assert !Serves(sinks, true, event, k);
    }
    var required := PublishRequired(w, c, event, sinks);
    if required.failure.None? { OptionalWithin(required.world, c, event, sinks, k); }
  }

  /** What the outbox lists: pending entries, each once, with the marks they have. */
  ghost predicate Lists(w: World, listed: seq<Listed>)
  {
    && (forall i :: 0 <= i < |listed| ==>
         listed[i].key in w.entries && w.entries[listed[i].key].Pending? && w.entries[listed[i].key].attempts == listed[i].attempts)
    && (forall i, j :: 0 <= i < j < |listed| ==> listed[i].key != listed[j].key)
  }

  lemma {:induction false} RecoverWithin(w: World, c: Setup, listed: seq<Listed>, k: Key)
    requires Within(w, c.maxAttempts, k)
    requires forall i :: 0 <= i < |listed| && listed[i].key == k ==> Count(w, k) <= listed[i].attempts
    requires forall i, j :: 0 <= i < j < |listed| ==> listed[i].key != listed[j].key
    ensures Within(Recover(w, c, listed), c.maxAttempts, k)
    decreases |listed|
  {
    if listed != [] {
      var first := listed[0];
      assert forall i :: 0 <= i < |listed[1..]| ==> listed[1..][i] == listed[i + 1];
      if first.barred {
        RecoverWithin(w, c, listed[1..], k);
      } else {
        if first.key == k {
          DeliverWithin(w, c, k, first.attempts, None);
        } else {
          DeliverSparesOthers(w, c, first.key, first.attempts, None, k);
        }
        RecoverWithin(Deliver(w, c, first.key, first.attempts, None).world, c, listed[1..], k);
      }
    }
  }

  /** Later recoveries, each over what the outbox lists at that time. */
  ghost predicate Recoveries(w: World, c: Setup, batches: seq<seq<Listed>>)
    decreases |batches|
  {
    batches != [] ==> Lists(w, batches[0]) && Recoveries(Recover(w, c, batches[0]), c, batches[1..])
  }

  function RecoverAll(w: World, c: Setup, batches: seq<seq<Listed>>): World
    decreases |batches|
  {
    if batches == [] then w else RecoverAll(Recover(w, c, batches[0]), c, batches[1..])
  }

  lemma {:induction false} RecoveriesWithin(w: World, c: Setup, batches: seq<seq<Listed>>, k: Key)
    requires Within(w, c.maxAttempts, k) && Recoveries(w, c, batches)
    ensures Within(RecoverAll(w, c, batches), c.maxAttempts, k)
    decreases |batches|
  {
    if batches != [] {
      RecoverWithin(w, c, batches[0], k);
      RecoveriesWithin(Recover(w, c, batches[0]), c, batches[1..], k);
    }
  }

  /** One publication and any later recoveries together hand an entry to its sink at most
      maxAttempts times, whatever the sinks answer. */
  lemma DeliveriesBounded(w: World, c: Setup, event: nat, sinks: seq<Sink>, batches: seq<seq<Listed>>, k: Key)
    requires OneSinkEach(sinks) && Untouched(w, k)
    requires Recoveries(Publish(w, c, event, sinks).world, c, batches)
    ensures Count(RecoverAll(Publish(w, c, event, sinks).world, c, batches), k) <= c.maxAttempts
  {
    PublishWithin(w, c, event, sinks, k);
    RecoveriesWithin(Publish(w, c, event, sinks).world, c, batches, k);
  }
}
