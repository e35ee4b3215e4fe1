/** What a publication and a recovery do, from the sinks' answers alone: how often each entry is handed
    over, how it ends, and what the outbox then says. */
module AuditDelivery {
  import opened Wrappers
  import opened Outbox
  import opened AuditDispatch
  import opened AuditSafety

  // ---------------------------------------------------------------- one entry

  /** The n-th hand-over of k raises an error that may be tried again. */
  predicate Retries(c: Setup, k: Key, n: nat) { c.sink(k, n).Raises? && c.sink(k, n).retryable }

  /** From the n-th hand-over on, m in a row may be tried again, and then either the attempts are used
      up or the next answer is final. */
  ghost predicate Streak(c: Setup, k: Key, n: nat, attempt: nat, m: nat)
  {
    && (m == 0 || attempt + m <= c.maxAttempts)
    && (forall j :: n <= j < n + m ==> Retries(c, k, j))
    && (attempt + m >= c.maxAttempts || !Retries(c, k, n + m))
  }

  lemma {:induction false} StreakExists(c: Setup, k: Key, n: nat, attempt: nat) returns (m: nat)
    ensures Streak(c, k, n, attempt, m)
    decreases c.maxAttempts - attempt
  {
    if attempt >= c.maxAttempts || !Retries(c, k, n) {
      m := 0;
    } else {
      var rest := StreakExists(c, k, n + 1, attempt + 1);
      m := rest + 1;
    }
  }

  lemma StreakStep(c: Setup, k: Key, n: nat, attempt: nat, m: nat)
    requires Streak(c, k, n, attempt, m) && m > 0
    ensures attempt + m <= c.maxAttempts && Retries(c, k, n) && Streak(c, k, n + 1, attempt + 1, m - 1)
  {
    hide Retries;
  }

  /** k's own share of the world after its last answer: hand-overs, entry, and how the loop ended. */
  datatype Share = Share(handed: nat, entry: Entry, failure: Option<Failure>)

  function Given(w: World, k: Key, failure: Option<Failure>): Share
    requires k in w.entries
  {
    Share(Count(w, k), w.entries[k], failure)
  }

  /** The attempts are used up: the last error is reported. */
  ghost predicate UsedUp(c: Setup, k: Key, before: Share, m: nat, last: Option<nat>, after: Share)
    requires before.entry.Pending?
  {
    && after.handed == before.handed + m
    && (m == 0 ==> after.entry == before.entry && after.failure == Some(DeliveryFailed(last)))
    && (m > 0 ==>
         var answer := c.sink(k, before.handed + m - 1);
         && answer.Raises? && after.failure == Some(DeliveryFailed(Some(answer.code)))
         && after.entry == Pending(before.entry.digest, before.entry.attempts + m, Some(answer.code)))
  }

  /** A final answer to hand-over number m: an error, none, an acknowledgement of this entry, or of
      something else. others are the entries an acknowledgement may name. */
  ghost predicate Decided(c: Setup, k: Key, before: Share, m: nat, others: Entries, after: Share)
    requires before.entry.Pending?
  {
    var digest, marks := before.entry.digest, before.entry.attempts + m;
    && after.handed == before.handed + m + 1
    && match c.sink(k, before.handed + m)
       case Raises(code, _) =>
         after.failure == Some(DeliveryFailed(Some(code))) && after.entry == Pending(digest, marks + 1, Some(code))
       case NoAck =>
         after.failure == Some(DeliveryFailed(Some(ACK_MISSING))) && after.entry == Pending(digest, marks + 1, Some(ACK_MISSING))
       case Acked(ack) =>
         if ack.key == k && ack.digest == digest then after.failure == None && after.entry == Acknowledged(digest, ack.id)
         else if ack.key != k && ack.key in others && others[ack.key].digest == ack.digest then
           after.failure == None && after.entry == Pending(digest, marks + 1, None)
         else
           && after.failure == Some(DeliveryFailed(Some(ACK_CONFLICT)))
           && after.entry == Pending(digest, marks + 2, Some(ACK_CONFLICT))
  }

  /** How the loop ends after m answers that may be tried again. */
  ghost predicate Ends(c: Setup, k: Key, before: Share, attempt: nat, m: nat, last: Option<nat>, others: Entries, after: Share)
    requires before.entry.Pending?
  {
    if attempt + m >= c.maxAttempts then UsedUp(c, k, before, m, last, after) else Decided(c, k, before, m, others, after)
  }

  /** One more answer that may be tried again, in front. */
  lemma EndsLater(c: Setup, k: Key, before: Share, attempt: nat, m: nat, last: Option<nat>, others: Entries, next: Entries,
                  code: nat, after: Share)
    requires before.entry.Pending? && attempt + m < c.maxAttempts
    requires forall o :: o != k ==> (o in others <==> o in next) && (o in others ==> others[o] == next[o])
    requires c.sink(k, before.handed) == Raises(code, true)
    requires Ends(c, k, Share(before.handed + 1, Pending(before.entry.digest, before.entry.attempts + 1, Some(code)), None),
                  attempt + 1, m, Some(code), next, after)
    ensures Ends(c, k, before, attempt, m + 1, last, others, after)
  {
  }

  /** The whole loop, for every sink: m answers that may be tried again, then the end they lead to. */
  lemma {:induction false} DeliverExactly(w: World, c: Setup, k: Key, attempt: nat, last: Option<nat>, m: nat)
    requires k in w.entries && w.entries[k].Pending? && Streak(c, k, Count(w, k), attempt, m)
    ensures var done := Deliver(w, c, k, attempt, last);
            && k in done.world.entries
            && Ends(c, k, Given(w, k, None), attempt, m, last, w.entries, Given(done.world, k, done.failure))
    decreases m
  {
    hide Ends, Decided, UsedUp, Streak, Retries;
    if m > 0 {
      StreakStep(c, k, Count(w, k), attempt, m);
      var next, code := RetryStep(w, c, k, attempt, last);
      hide Deliver;
      DeliverExactly(next, c, k, attempt + 1, Some(code), m - 1);
      var done := Deliver(w, c, k, attempt, last);
      EndsLater(c, k, Given(w, k, None), attempt, m - 1, last, w.entries, next.entries, code, Given(done.world, k, done.failure));
    } else {
      NoRetry(w, c, k, attempt, last);
    }
  }

  lemma NoRetry(w: World, c: Setup, k: Key, attempt: nat, last: Option<nat>)
    requires k in w.entries && w.entries[k].Pending? && Streak(c, k, Count(w, k), attempt, 0)
    ensures var done := Deliver(w, c, k, attempt, last);
            && k in done.world.entries
            && Ends(c, k, Given(w, k, None), attempt, 0, last, w.entries, Given(done.world, k, done.failure))
  {
    if attempt < c.maxAttempts {
      FinalAnswer(w, c, k, attempt, last);
      hide Deliver, Decided;
    }
  }

  lemma RetryStep(w: World, c: Setup, k: Key, attempt: nat, last: Option<nat>) returns (next: World, code: nat)
    requires k in w.entries && w.entries[k].Pending? && attempt < c.maxAttempts && Retries(c, k, Count(w, k))
    ensures && c.sink(k, Count(w, k)) == Raises(code, true)
            && Deliver(w, c, k, attempt, last) == Deliver(next, c, k, attempt + 1, Some(code))
            && next.entries == w.entries[k := Pending(w.entries[k].digest, w.entries[k].attempts + 1, Some(code))]
            && Count(next, k) == Count(w, k) + 1
  {
    code := c.sink(k, Count(w, k)).code;
    next := Try(w, c, k).world.(entries := Mark(w.entries, k, Some(code), c.strict).entries);
  }

  lemma FinalAnswer(w: World, c: Setup, k: Key, attempt: nat, last: Option<nat>)
    requires k in w.entries && w.entries[k].Pending? && attempt < c.maxAttempts && !Retries(c, k, Count(w, k))
    ensures var done := Deliver(w, c, k, attempt, last);
            k in done.world.entries && Decided(c, k, Given(w, k, None), 0, w.entries, Given(done.world, k, done.failure))
  {
  }

  /** How the loop ends over an entry that is acknowledged already. Rows raise at the first mark. */
  ghost predicate EndsAgain(c: Setup, k: Key, n: nat, attempt: nat, m: nat, last: Option<nat>, entries: Entries, handed: nat,
                            failure: Option<Failure>)
  {
    if attempt >= c.maxAttempts then handed == n && failure == Some(DeliveryFailed(last))
    else if c.strict then handed == n + 1 && failure == Some(MarkRaised)
    else if attempt + m >= c.maxAttempts then
      handed == n + m && m > 0 && c.sink(k, n + m - 1).Raises? && failure == Some(DeliveryFailed(Some(c.sink(k, n + m - 1).code)))
    else
      && handed == n + m + 1
      && match c.sink(k, n + m)
         case Raises(code, _) => failure == Some(DeliveryFailed(Some(code)))
         case NoAck => failure == Some(DeliveryFailed(Some(ACK_MISSING)))
         case Acked(ack) =>
           if ack.key in entries && entries[ack.key].digest == ack.digest then failure == None
           else failure == Some(DeliveryFailed(Some(ACK_CONFLICT)))
  }

  lemma LastAnswer(w: World, c: Setup, k: Key, attempt: nat, last: Option<nat>)
    requires k in w.entries && w.entries[k].Acknowledged? && Streak(c, k, Count(w, k), attempt, 0)
    ensures var done := Deliver(w, c, k, attempt, last);
            && k in done.world.entries && done.world.entries[k] == w.entries[k]
            && EndsAgain(c, k, Count(w, k), attempt, 0, last, w.entries, Count(done.world, k), done.failure)
  {
  }

  lemma RetryAgain(w: World, c: Setup, k: Key, attempt: nat, last: Option<nat>) returns (next: World, code: nat)
    requires k in w.entries && w.entries[k].Acknowledged? && attempt < c.maxAttempts && Retries(c, k, Count(w, k))
    ensures && c.sink(k, Count(w, k)) == Raises(code, true) && next.entries == w.entries && Count(next, k) == Count(w, k) + 1
            && Deliver(w, c, k, attempt, last) ==
                 if c.strict then Run(next, Some(MarkRaised)) else Deliver(next, c, k, attempt + 1, Some(code))
  {
    code := c.sink(k, Count(w, k)).code;
    next := Try(w, c, k).world;
  }

  /** The whole loop over an acknowledged entry: the entry stays as it is, and the two ledgers differ. */
  lemma {:induction false} DeliverAgainExactly(w: World, c: Setup, k: Key, attempt: nat, last: Option<nat>, m: nat)
    requires k in w.entries && w.entries[k].Acknowledged? && Streak(c, k, Count(w, k), attempt, m)
    ensures var done := Deliver(w, c, k, attempt, last);
            && k in done.world.entries && done.world.entries[k] == w.entries[k]
            && EndsAgain(c, k, Count(w, k), attempt, m, last, w.entries, Count(done.world, k), done.failure)
    decreases m
  {
    if m == 0 {
      LastAnswer(w, c, k, attempt, last);
    } else {
      StreakStep(c, k, Count(w, k), attempt, m);
      var next, code := RetryAgain(w, c, k, attempt, last);
      hide Deliver, Streak, Retries, EndsAgain;
      if !c.strict { DeliverAgainExactly(next, c, k, attempt + 1, Some(code), m - 1); }
      var done := Deliver(w, c, k, attempt, last);
      EndsAgainLater(c, k, Count(w, k), attempt, m - 1, last, w.entries, Count(done.world, k), done.failure, code);
    }
  }

  lemma EndsAgainLater(c: Setup, k: Key, n: nat, attempt: nat, m: nat, last: Option<nat>, entries: Entries, handed: nat, failure: Option<Failure>,
                       code: nat)
    requires attempt + m < c.maxAttempts && c.sink(k, n) == Raises(code, true)
    requires if c.strict then handed == n + 1 && failure == Some(MarkRaised)
             else EndsAgain(c, k, n + 1, attempt + 1, m, Some(code), entries, handed, failure)
    ensures EndsAgain(c, k, n, attempt, m + 1, last, entries, handed, failure)
  {
  }

  // ---------------------------------------------------------------- honest sinks

  /** The sink acknowledges the entry while attempts remain. */
  ghost predicate Accepts(c: Setup, k: Key, n: nat, attempt: nat, digest: nat)
  {
    exists m: nat :: Streak(c, k, n, attempt, m) && attempt + m < c.maxAttempts && Confirms(c, k, n + m, digest)
  }

  predicate Confirms(c: Setup, k: Key, n: nat, digest: nat) { c.sink(k, n).Acked? && c.sink(k, n).ack.digest == digest }

  /** The loop hands the entry over t times. */
  ghost predicate Turns(c: Setup, k: Key, n: nat, attempt: nat, t: nat)
  {
    exists m: nat :: Streak(c, k, n, attempt, m) && t == if attempt + m >= c.maxAttempts then m else m + 1
  }

  lemma StreakUnique(c: Setup, k: Key, n: nat, attempt: nat, a: nat, b: nat)
    requires Streak(c, k, n, attempt, a) && Streak(c, k, n, attempt, b)
    ensures a == b
  {
    hide Retries;
  }

  /** Entry o and its hand-overs are as before. */
  ghost predicate Spares(w: World, after: World, o: Key)
  {
    Count(after, o) == Count(w, o) && (o in after.entries <==> o in w.entries) && (o in w.entries ==> after.entries[o] == w.entries[o])
  }

  lemma TrySpares(w: World, c: Setup, k: Key, o: Key)
    requires Honest(c) && o != k
    ensures Spares(w, Try(w, c, k).world, o)
  {
  }

  lemma MarkSpares(w: World, k: Key, error: Option<nat>, strict: bool, o: Key)
    requires o != k && Mark(w.entries, k, error, strict).Made?
    ensures Spares(w, w.(entries := Mark(w.entries, k, error, strict).entries), o)
  {
  }

  lemma {:induction false} DeliverSpares(w: World, c: Setup, k: Key, attempt: nat, last: Option<nat>, o: Key)
    requires Honest(c) && o != k
    ensures Spares(w, Deliver(w, c, k, attempt, last).world, o)
    decreases c.maxAttempts - attempt
  {
    if attempt < c.maxAttempts {
      var tried := Try(w, c, k);
      TrySpares(w, c, k, o);
      if tried.raised.Some? {
        var code := tried.raised.value.0;
        var noted := Mark(tried.world.entries, k, Some(code), c.strict);
        if noted.Made? {
          MarkSpares(tried.world, k, Some(code), c.strict, o);
          if tried.raised.value.1 { DeliverSpares(tried.world.(entries := noted.entries), c, k, attempt + 1, Some(code), o); }
        }
      }
    }
  }

  /** What the outbox and the sink show for an entry that was pending with digest at hand-over n. */
  ghost predicate Handled(c: Setup, k: Key, n: nat, attempt: nat, digest: nat, w: World)
  {
    && k in w.entries && w.entries[k].digest == digest && Count(w, k) >= n && Turns(c, k, n, attempt, Count(w, k) - n)
    && (w.entries[k].Acknowledged? <==> Accepts(c, k, n, attempt, digest))
  }

  lemma DeliverHandles(w: World, c: Setup, k: Key, attempt: nat, last: Option<nat>)
    requires Honest(c) && k in w.entries && w.entries[k].Pending?
    ensures var done := Deliver(w, c, k, attempt, last);
            && Handled(c, k, Count(w, k), attempt, w.entries[k].digest, done.world)
            && (done.failure.None? <==> Accepts(c, k, Count(w, k), attempt, w.entries[k].digest))
            && (done.failure.Some? ==> done.failure.value.DeliveryFailed?)
  {
    var m := StreakExists(c, k, Count(w, k), attempt);
    DeliverExactly(w, c, k, attempt, last, m);
    hide Deliver, Streak;
    forall x: nat | Streak(c, k, Count(w, k), attempt, x) ensures x == m { StreakUnique(c, k, Count(w, k), attempt, x, m); }
  }

  // ---------------------------------------------------------------- one publication

  /** The sink may be given the event, and acknowledges it in time. */
  ghost predicate Takes(c: Setup, event: nat, s: Sink)
  {
    s.prepared.Ready? && Accepts(c, Key(event, s.id), 0, 0, s.prepared.digest)
  }

  /** The sink was given the event, if it may be given it at all. */
  ghost predicate Served(c: Setup, event: nat, s: Sink, w: World)
  {
    var k := Key(event, s.id);
    if s.prepared.Ready? then Handled(c, k, 0, 0, s.prepared.digest, w) else Untouched(w, k)
  }

  /** How a publication to this sink fails. */
  predicate FailsWith(s: Sink, failure: Option<Failure>)
  {
    failure.Some? && if s.prepared.Ready? then failure.value.DeliveryFailed? else failure.value == Unprepared(s.prepared.code)
  }

  lemma PublishToServes(w: World, c: Setup, event: nat, s: Sink)
    requires Honest(c) && Untouched(w, Key(event, s.id))
    ensures var done := PublishTo(w, c, event, s);
            && Served(c, event, s, done.world)
            && (done.failure.None? <==> Takes(c, event, s)) && (done.failure.Some? ==> FailsWith(s, done.failure))
    ensures forall o :: o != Key(event, s.id) ==> Spares(w, PublishTo(w, c, event, s).world, o)
  {
    var k := Key(event, s.id);
    hide Deliver, Honest, Handled, Accepts;
    if s.prepared.Ready? {
      var next := w.(entries := w.entries[k := Pending(s.prepared.digest, 0, None)]);
      assert Enqueue(w.entries, k, s.prepared.digest) == Made(next.entries);
      DeliverHandles(next, c, k, 0, None);
      forall o | o != k ensures Spares(w, PublishTo(w, c, event, s).world, o) { DeliverSpares(next, c, k, 0, None, o); }
    }
  }

  /** Every required sink before position i takes the event. */
  ghost predicate Reached(c: Setup, event: nat, sinks: seq<Sink>, i: nat)
  {
    forall j :: 0 <= j < i && j < |sinks| && sinks[j].required ==> Takes(c, event, sinks[j])
  }

  ghost predicate Fresh(w: World, event: nat, sinks: seq<Sink>)
  {
    forall i :: 0 <= i < |sinks| ==> Untouched(w, Key(event, sinks[i].id))
  }

  lemma SparedIsServed(c: Setup, event: nat, s: Sink, w: World, after: World)
    requires Spares(w, after, Key(event, s.id)) && Served(c, event, s, w)
    ensures Served(c, event, s, after)
  {
    hide Accepts, Turns;
  }

  lemma SparedIsUntouched(w: World, after: World, k: Key)
    requires Spares(w, after, k)
    ensures Untouched(w, k) <==> Untouched(after, k)
  {
  }

  predicate IsFor(event: nat, sinks: seq<Sink>, required: bool, k: Key)
  {
    exists i :: 0 <= i < |sinks| && sinks[i].required == required && k == Key(event, sinks[i].id)
  }

  lemma PublishToSpares(w: World, c: Setup, event: nat, s: Sink, o: Key)
    requires Honest(c) && o != Key(event, s.id)
    ensures Spares(w, PublishTo(w, c, event, s).world, o)
  {
    var k := Key(event, s.id);
    if s.prepared.Ready? {
      var enqueued := Enqueue(w.entries, k, s.prepared.digest);
      if enqueued.Made? { DeliverSpares(w.(entries := enqueued.entries), c, k, 0, None, o); }
    }
  }

  lemma IsForTail(event: nat, sinks: seq<Sink>, required: bool, o: Key)
    requires sinks != []
    ensures IsFor(event, sinks, required, o) <==>
      (sinks[0].required == required && o == Key(event, sinks[0].id)) || IsFor(event, sinks[1..], required, o)
  {
    if i :| 0 <= i < |sinks| && sinks[i].required == required && o == Key(event, sinks[i].id) && i > 0 {
      assert sinks[1..][i - 1] == sinks[i];
    }
    if i :| 0 <= i < |sinks[1..]| && sinks[1..][i].required == required && o == Key(event, sinks[1..][i].id) {
      assert sinks[i + 1] == sinks[1..][i];
    }
  }

  lemma {:induction false} RequiredSpares(w: World, c: Setup, event: nat, sinks: seq<Sink>, o: Key)
    requires Honest(c) && !IsFor(event, sinks, true, o)
    ensures Spares(w, PublishRequired(w, c, event, sinks).world, o)
    decreases |sinks|
  {
    if sinks != [] {
      IsForTail(event, sinks, true, o);
      hide PublishTo, IsFor, Honest;
      if sinks[0].required {
        PublishToSpares(w, c, event, sinks[0], o);
        var first := PublishTo(w, c, event, sinks[0]);
        if first.failure.None? { RequiredSpares(first.world, c, event, sinks[1..], o); }
      } else {
        RequiredSpares(w, c, event, sinks[1..], o);
      }
    }
  }

  lemma {:induction false} OptionalSpares(w: World, c: Setup, event: nat, sinks: seq<Sink>, o: Key)
    requires Honest(c) && !IsFor(event, sinks, false, o)
    ensures Spares(w, PublishOptional(w, c, event, sinks), o)
    decreases |sinks|
  {
    if sinks != [] {
      IsForTail(event, sinks, false, o);
      hide PublishTo, IsFor, Honest;
      if sinks[0].required || !sinks[0].audit {
        OptionalSpares(w, c, event, sinks[1..], o);
      } else {
        PublishToSpares(w, c, event, sinks[0], o);
        OptionalSpares(PublishTo(w, c, event, sinks[0]).world, c, event, sinks[1..], o);
      }
    }
  }

  lemma OthersDiffer(event: nat, sinks: seq<Sink>, required: bool)
    requires sinks != [] && OneSinkEach(sinks)
    ensures OneSinkEach(sinks[1..]) && !IsFor(event, sinks[1..], required, Key(event, sinks[0].id))
  {
    forall j | 0 <= j < |sinks[1..]| ensures sinks[1..][j].id != sinks[0].id { assert sinks[j + 1] == sinks[1..][j]; }
  }

  lemma FreshTail(w: World, after: World, event: nat, sinks: seq<Sink>)
    requires sinks != [] && OneSinkEach(sinks) && Fresh(w, event, sinks)
    requires forall o :: o != Key(event, sinks[0].id) ==> Spares(w, after, o)
    ensures Fresh(after, event, sinks[1..])
  {
    hide Untouched, Spares;
    forall i | 0 <= i < |sinks[1..]| ensures Untouched(after, Key(event, sinks[1..][i].id)) {
      assert sinks[1..][i] == sinks[i + 1];
      assert Untouched(w, Key(event, sinks[i + 1].id));
      SparedIsUntouched(w, after, Key(event, sinks[i + 1].id));
    }
  }

  lemma ReachedTail(c: Setup, event: nat, sinks: seq<Sink>, i: nat)
    requires sinks != [] && i > 0
    ensures Reached(c, event, sinks, i) <==> (sinks[0].required ==> Takes(c, event, sinks[0])) && Reached(c, event, sinks[1..], i - 1)
  {
    hide Takes;
    if Reached(c, event, sinks, i) {
      forall j | 0 <= j < i - 1 && j < |sinks[1..]| && sinks[1..][j].required ensures Takes(c, event, sinks[1..][j]) {
        assert sinks[1..][j] == sinks[j + 1];
      }
    }
    if (sinks[0].required ==> Takes(c, event, sinks[0])) && Reached(c, event, sinks[1..], i - 1) {
      forall j | 0 <= j < i && j < |sinks| && sinks[j].required ensures Takes(c, event, sinks[j]) {
        if j > 0 { assert sinks[1..][j - 1] == sinks[j]; }
      }
    }
  }

  lemma SameIsSpared(w: World)
    ensures forall o :: Spares(w, w, o)
  {
  }

  /** The pass over the required sinks. */
  lemma {:induction false} RequiredServes(w: World, c: Setup, event: nat, sinks: seq<Sink>, i: nat)
    requires Honest(c) && OneSinkEach(sinks) && Fresh(w, event, sinks) && i < |sinks| && sinks[i].required
    ensures var after := PublishRequired(w, c, event, sinks).world;
            if Reached(c, event, sinks, i) then Served(c, event, sinks[i], after) else Untouched(after, Key(event, sinks[i].id))
    decreases |sinks|
  {
    var k, first := Key(event, sinks[i].id), PublishTo(w, c, event, sinks[0]);
    assert Untouched(w, Key(event, sinks[0].id)) && Untouched(w, k);
    OthersDiffer(event, sinks, true);
    assert i > 0 ==> sinks[1..][i - 1] == sinks[i] && sinks[0].id != sinks[i].id;
    hide Served, Takes, Untouched, Spares, PublishTo, Honest, OneSinkEach, IsFor, Fresh;
    if i > 0 { ReachedTail(c, event, sinks, i); }
    if !sinks[0].required {
      SameIsSpared(w);
      FreshTail(w, w, event, sinks);
      RequiredServes(w, c, event, sinks[1..], i - 1);
    } else {
      PublishToServes(w, c, event, sinks[0]);
      if i == 0 {
        RequiredSpares(first.world, c, event, sinks[1..], k);
        SparedIsServed(c, event, sinks[0], first.world, PublishRequired(first.world, c, event, sinks[1..]).world);
      } else {
        SparedIsUntouched(w, first.world, k);
        FreshTail(w, first.world, event, sinks);
        if first.failure.None? { RequiredServes(first.world, c, event, sinks[1..], i - 1); }
      }
    }
  }

  ghost predicate FreshOptional(w: World, event: nat, sinks: seq<Sink>)
  {
    forall i :: 0 <= i < |sinks| && !sinks[i].required ==> Untouched(w, Key(event, sinks[i].id))
  }

  lemma FreshOptionalTail(w: World, after: World, event: nat, sinks: seq<Sink>)
    requires sinks != [] && OneSinkEach(sinks) && FreshOptional(w, event, sinks)
    requires forall o :: o != Key(event, sinks[0].id) ==> Spares(w, after, o)
    ensures FreshOptional(after, event, sinks[1..])
  {
    hide Untouched, Spares;
    forall i | 0 <= i < |sinks[1..]| && !sinks[1..][i].required ensures Untouched(after, Key(event, sinks[1..][i].id)) {
      assert sinks[1..][i] == sinks[i + 1];
      assert Untouched(w, Key(event, sinks[i + 1].id));
      SparedIsUntouched(w, after, Key(event, sinks[i + 1].id));
    }
  }

  /** What an optional sink gets when its pass runs. */
  ghost predicate Offered(c: Setup, event: nat, s: Sink, after: World)
  {
    if s.audit then Served(c, event, s, after) else Untouched(after, Key(event, s.id))
  }

  lemma SparedIsOffered(c: Setup, event: nat, s: Sink, w: World, after: World)
    requires Spares(w, after, Key(event, s.id)) && Offered(c, event, s, w)
    ensures Offered(c, event, s, after)
  {
    if s.audit { SparedIsServed(c, event, s, w, after); }
    hide Served;
  }

  /** The pass over the other audit sinks serves each of them, whatever the others do. */
  lemma {:induction false} OptionalServes(w: World, c: Setup, event: nat, sinks: seq<Sink>, i: nat)
    requires Honest(c) && OneSinkEach(sinks) && FreshOptional(w, event, sinks) && i < |sinks| && !sinks[i].required
    ensures Offered(c, event, sinks[i], PublishOptional(w, c, event, sinks))
    decreases |sinks|
  {
    var k, s := Key(event, sinks[i].id), sinks[0];
    assert Untouched(w, k) && (!s.required ==> Untouched(w, Key(event, s.id)));
    OthersDiffer(event, sinks, false);
    assert i > 0 ==> sinks[1..][i - 1] == sinks[i] && s.id != sinks[i].id;
    hide Served, Takes, Untouched, Spares, PublishTo, Honest, OneSinkEach, IsFor, FreshOptional;
    var next := if s.required || !s.audit then w else PublishTo(w, c, event, s).world;
    SameIsSpared(w);
    if !s.required && s.audit { PublishToServes(w, c, event, s); }
    FreshOptionalTail(w, next, event, sinks);
    var after := PublishOptional(next, c, event, sinks[1..]);
    assert PublishOptional(w, c, event, sinks) == after;
    if i == 0 {
      OptionalSpares(next, c, event, sinks[1..], k);
      assert Offered(c, event, s, next);
      SparedIsOffered(c, event, s, next, after);
    } else {
      OptionalServes(next, c, event, sinks[1..], i - 1);
    }
  }

  /** The first required sink that does not take the event. */
  ghost predicate StopsAt(c: Setup, event: nat, sinks: seq<Sink>, f: int)
  {
    0 <= f < |sinks| && sinks[f].required && !Takes(c, event, sinks[f]) && Reached(c, event, sinks, f)
  }

  lemma StopsLater(c: Setup, event: nat, sinks: seq<Sink>, f: nat)
    requires sinks != [] && StopsAt(c, event, sinks[1..], f) && (sinks[0].required ==> Takes(c, event, sinks[0]))
    ensures StopsAt(c, event, sinks, f + 1)
  {
    hide Takes;
    ReachedTail(c, event, sinks, f + 1);
  }

  ghost predicate StopsWith(c: Setup, event: nat, sinks: seq<Sink>, failure: Option<Failure>)
  {
    exists f :: StopsAt(c, event, sinks, f) && FailsWith(sinks[f], failure)
  }

  lemma {:induction false} RequiredEnds(w: World, c: Setup, event: nat, sinks: seq<Sink>)
    requires Honest(c) && OneSinkEach(sinks) && Fresh(w, event, sinks)
    ensures var failure := PublishRequired(w, c, event, sinks).failure;
            && (failure.None? <==> Reached(c, event, sinks, |sinks|))
            && (failure.Some? ==> StopsWith(c, event, sinks, failure))
    decreases |sinks|
  {
    if sinks != [] {
      var s := sinks[0];
      assert Untouched(w, Key(event, s.id));
      OthersDiffer(event, sinks, true);
      ReachedTail(c, event, sinks, |sinks|);
      hide Takes, Untouched, Spares, PublishTo, Honest, OneSinkEach, Fresh, Served, Reached, FailsWith;
      SameIsSpared(w);
      var next := if s.required then PublishTo(w, c, event, s).world else w;
      if s.required { PublishToServes(w, c, event, s); }
      FreshTail(w, next, event, sinks);
      var failure := PublishRequired(w, c, event, sinks).failure;
      if s.required && PublishTo(w, c, event, s).failure.Some? {
        NothingBefore(c, event, sinks);
        assert StopsAt(c, event, sinks, 0);
      } else {
        RequiredEnds(next, c, event, sinks[1..]);
        if failure.Some? {
          var f :| StopsAt(c, event, sinks[1..], f) && FailsWith(sinks[1..][f], failure);
          StopsLater(c, event, sinks, f);
          assert sinks[f + 1] == sinks[1..][f];
        }
      }
    }
  }

  lemma NothingBefore(c: Setup, event: nat, sinks: seq<Sink>)
    ensures Reached(c, event, sinks, 0)
  {
  }

  /** The sink's turn comes: no required sink before it refuses, and for an optional sink none at all. */
  ghost predicate HasTurn(c: Setup, event: nat, sinks: seq<Sink>, i: nat)
    requires i < |sinks|
  {
    && (exists s :: s in sinks && s.required)
    && if sinks[i].required then Reached(c, event, sinks, i) else sinks[i].audit && Reached(c, event, sinks, |sinks|)
  }

  /** A publication of a new event, from the sinks' answers alone: it ends normally if and only if there
      is a required sink and all of them take the event, else with the error of the first that does not;
      every sink whose turn comes is handed the event as often as its answers ask for, and its entry is
      acknowledged if and only if it confirms in time; no other sink sees anything. */
  lemma PublishExactly(w: World, c: Setup, event: nat, sinks: seq<Sink>, i: nat)
    requires Honest(c) && OneSinkEach(sinks) && Fresh(w, event, sinks) && i < |sinks|
    ensures var done := Publish(w, c, event, sinks);
            && (done.failure.None? <==> (exists s :: s in sinks && s.required) && Reached(c, event, sinks, |sinks|))
            && (done.failure.Some? ==>
                 if exists s :: s in sinks && s.required then StopsWith(c, event, sinks, done.failure)
                 else done.failure == Some(RequiredSinkMissing))
            && if HasTurn(c, event, sinks, i) then Served(c, event, sinks[i], done.world)
               else Untouched(done.world, Key(event, sinks[i].id))
  {
    var k, s := Key(event, sinks[i].id), sinks[i];
    assert Untouched(w, k);
    hide Takes, Untouched, Spares, Honest, Served, Reached, FailsWith, StopsWith, PublishRequired, PublishOptional;
    RequiredEnds(w, c, event, sinks);
    var required := PublishRequired(w, c, event, sinks).world;
    NotForBoth(event, sinks, i);
    if s.required {
      RequiredServes(w, c, event, sinks, i);
      OptionalSpares(required, c, event, sinks, k);
      var after := PublishOptional(required, c, event, sinks);
      SparedIsUntouched(required, after, k);
      if Served(c, event, s, required) { SparedIsServed(c, event, s, required, after); }
    } else {
      RequiredSpares(w, c, event, sinks, k);
      SparedIsUntouched(w, required, k);
      StillFresh(w, c, event, sinks);
      OptionalServes(required, c, event, sinks, i);
    }
  }

  lemma NotForBoth(event: nat, sinks: seq<Sink>, i: nat)
    requires OneSinkEach(sinks) && i < |sinks|
    ensures !IsFor(event, sinks, !sinks[i].required, Key(event, sinks[i].id))
  {
  }

  /** The pass over the required sinks leaves the others fresh. */
  lemma StillFresh(w: World, c: Setup, event: nat, sinks: seq<Sink>)
    requires Honest(c) && OneSinkEach(sinks) && Fresh(w, event, sinks)
    ensures FreshOptional(PublishRequired(w, c, event, sinks).world, event, sinks)
  {
    var required := PublishRequired(w, c, event, sinks).world;
    hide Untouched, Spares, Honest, OneSinkEach, PublishRequired;
    forall j | 0 <= j < |sinks| && !sinks[j].required ensures Untouched(required, Key(event, sinks[j].id)) {
      assert Untouched(w, Key(event, sinks[j].id));
      NotForBoth(event, sinks, j);
      RequiredSpares(w, c, event, sinks, Key(event, sinks[j].id));
      SparedIsUntouched(w, required, Key(event, sinks[j].id));
    }
  }

  // ---------------------------------------------------------------- recovery

  /** Recovery brings the entry to an acknowledgement. */
  ghost predicate Brings(w: World, c: Setup, e: Listed)
    requires e.key in w.entries
  {
    !e.barred && Accepts(c, e.key, Count(w, e.key), e.attempts, w.entries[e.key].digest)
  }

  /** What recovery does to a listed entry. */
  ghost predicate Recovers(w: World, c: Setup, e: Listed, after: World)
    requires e.key in w.entries
  {
    if e.barred then Spares(w, after, e.key)
    else Handled(c, e.key, Count(w, e.key), e.attempts, w.entries[e.key].digest, after)
  }

  function FirstDone(w: World, c: Setup, listed: seq<Listed>): World
    requires listed != []
  {
    if listed[0].barred then w else Deliver(w, c, listed[0].key, listed[0].attempts, None).world
  }

  lemma FirstSpares(w: World, c: Setup, listed: seq<Listed>, o: Key)
    requires Honest(c) && listed != [] && o != listed[0].key
    ensures Spares(w, FirstDone(w, c, listed), o)
  {
    if !listed[0].barred { DeliverSpares(w, c, listed[0].key, listed[0].attempts, None, o); }
  }

  lemma ListsTail(w: World, c: Setup, listed: seq<Listed>)
    requires Honest(c) && Lists(w, listed) && listed != []
    ensures Lists(FirstDone(w, c, listed), listed[1..])
    ensures forall i :: 0 < i < |listed| ==> listed[i].key != listed[0].key && Spares(w, FirstDone(w, c, listed), listed[i].key)
  {
    hide FirstDone, Honest;
    forall i | 0 < i < |listed| ensures listed[i].key != listed[0].key && Spares(w, FirstDone(w, c, listed), listed[i].key) {
      FirstSpares(w, c, listed, listed[i].key);
    }
    forall i | 0 <= i < |listed[1..]|
      ensures var after := FirstDone(w, c, listed);
              listed[1..][i].key in after.entries && after.entries[listed[1..][i].key].Pending?
              && after.entries[listed[1..][i].key].attempts == listed[1..][i].attempts
    {
      assert listed[1..][i] == listed[i + 1];
      assert Spares(w, FirstDone(w, c, listed), listed[i + 1].key);
    }
  }

  lemma {:induction false} RecoverSpares(w: World, c: Setup, listed: seq<Listed>, o: Key)
    requires Honest(c) && forall i :: 0 <= i < |listed| ==> listed[i].key != o
    ensures Spares(w, Recover(w, c, listed), o)
    decreases |listed|
  {
    if listed != [] {
      FirstSpares(w, c, listed, o);
      var next := FirstDone(w, c, listed);
      forall i | 0 <= i < |listed[1..]| ensures listed[1..][i].key != o { assert listed[1..][i] == listed[i + 1]; }
      assert Recover(w, c, listed) == Recover(next, c, listed[1..]);
      hide FirstDone, Recover, Honest;
      RecoverSpares(next, c, listed[1..], o);
    }
  }

  lemma FirstRecovers(w: World, c: Setup, listed: seq<Listed>)
    requires Honest(c) && Lists(w, listed) && listed != []
    ensures Recovers(w, c, listed[0], FirstDone(w, c, listed))
  {
    hide Deliver, Honest, Handled;
    if !listed[0].barred { DeliverHandles(w, c, listed[0].key, listed[0].attempts, None); }
  }

  lemma SparedRecovers(w: World, c: Setup, e: Listed, mid: World, after: World)
    requires e.key in w.entries && Recovers(w, c, e, mid) && Spares(mid, after, e.key)
    ensures Recovers(w, c, e, after)
  {
    hide Accepts, Turns;
  }

  lemma RecoversLater(w: World, c: Setup, e: Listed, mid: World, after: World)
    requires e.key in w.entries && Spares(w, mid, e.key) && Recovers(mid, c, e, after)
    ensures Recovers(w, c, e, after)
  {
    hide Accepts, Turns;
  }

  /** Recovery hands every listed entry that is not barred to its sink, exactly as often as the sink's
      answers ask for from the attempts it has had, and leaves the barred ones alone. */
  lemma {:induction false} RecoverExactly(w: World, c: Setup, listed: seq<Listed>, i: nat)
    requires Honest(c) && Lists(w, listed) && i < |listed|
    ensures Recovers(w, c, listed[i], Recover(w, c, listed))
    decreases |listed|
  {
    var next := FirstDone(w, c, listed);
    ListsTail(w, c, listed);
    assert Recover(w, c, listed) == Recover(next, c, listed[1..]);
    hide FirstDone, Recover, Honest, Recovers, Spares;
    if i == 0 {
      FirstRecovers(w, c, listed);
      forall j | 0 <= j < |listed[1..]| ensures listed[1..][j].key != listed[0].key { assert listed[1..][j] == listed[j + 1]; }
      RecoverSpares(next, c, listed[1..], listed[0].key);
      SparedRecovers(w, c, listed[0], next, Recover(w, c, listed));
    } else {
      RecoverExactly(next, c, listed[1..], i - 1);
      RecoversLater(w, c, listed[i], next, Recover(w, c, listed));
    }
  }

  ghost function Brought(w: World, c: Setup, listed: seq<Listed>): set<nat>
    requires forall i :: 0 <= i < |listed| ==> listed[i].key in w.entries
  {
    set i: nat | i < |listed| && Brings(w, c, listed[i])
  }

  /** Its result is the number of listed entries whose sinks acknowledge them in time. */
  lemma {:induction false} RecoveredExactly(w: World, c: Setup, listed: seq<Listed>)
    requires Honest(c) && Lists(w, listed)
    ensures Recovered(w, c, listed) == |Brought(w, c, listed)|
    decreases |listed|
  {
    if listed == [] {
      assert Brought(w, c, listed) == {};
    } else {
      var next := FirstDone(w, c, listed);
      ListsTail(w, c, listed);
      BroughtTail(w, c, listed);
      RecoveredStep(w, c, listed);
      hide FirstDone, Recovered, Honest, Lists, Brings, Brought;
      RecoveredExactly(next, c, listed[1..]);
    }
  }

  lemma RecoveredStep(w: World, c: Setup, listed: seq<Listed>)
    requires Honest(c) && Lists(w, listed) && listed != []
    ensures Recovered(w, c, listed) == (if Brings(w, c, listed[0]) then 1 else 0) + Recovered(FirstDone(w, c, listed), c, listed[1..])
  {
    hide Deliver, Honest, Handled, Accepts;
    if !listed[0].barred { DeliverHandles(w, c, listed[0].key, listed[0].attempts, None); }
  }

  lemma BringsLater(w: World, c: Setup, e: Listed, next: World)
    requires e.key in w.entries && e.key in next.entries && Spares(w, next, e.key)
    ensures Brings(w, c, e) <==> Brings(next, c, e)
  {
    hide Accepts;
  }

  lemma BroughtTail(w: World, c: Setup, listed: seq<Listed>)
    requires Honest(c) && Lists(w, listed) && listed != []
    ensures Lists(FirstDone(w, c, listed), listed[1..])
    ensures |Brought(w, c, listed)| == (if Brings(w, c, listed[0]) then 1 else 0) + |Brought(FirstDone(w, c, listed), c, listed[1..])|
  {
    ListsTail(w, c, listed);
    var next := FirstDone(w, c, listed);
    hide FirstDone, Honest, Brings, Spares;
    forall i: nat | i < |listed[1..]| ensures Brings(w, c, listed[i + 1]) <==> Brings(next, c, listed[1..][i]) {
      assert listed[1..][i] == listed[i + 1];
      BringsLater(w, c, listed[i + 1], next);
    }
    CountShifted(Brought(w, c, listed), Brought(next, c, listed[1..]), Brings(w, c, listed[0]));
  }

  /** A set whose positive members are those of rest, one higher. */
  lemma CountShifted(all: set<nat>, rest: set<nat>, zero: bool)
    requires 0 in all <==> zero
    requires forall i: nat :: i + 1 in all <==> i in rest
    ensures |all| == (if zero then 1 else 0) + |rest|
  {
    var shifted := Shifted(rest);
    forall i: nat ensures i in all <==> i in shifted || (i == 0 && zero) {
      if i > 0 { assert i - 1 + 1 in all <==> i - 1 in rest; }
    }
    assert all == shifted + if zero then {0} else {};
  }

  /** Every number one higher. */
  ghost function Shifted(s: set<nat>): (t: set<nat>)
    ensures |t| == |s| && 0 !in t
    ensures forall i: nat :: i > 0 ==> (i in t <==> i - 1 in s)
  {
    if s == {} then {}
    else
      var x :| x in s;
      Shifted(s - {x}) + {x + 1}
  }
}
