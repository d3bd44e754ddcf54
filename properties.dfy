/**
 * Promises about sequences of requests: enqueues followed by a drain
 * deliver the concatenation of the batches, a drain delivers at most once,
 * and a queue no enqueue has refreshed for longer than the retention window
 * drains empty.
 */
module FlashProperties {
  import opened Wrappers
  import opened Codec
  import opened Auth
  import opened Store
  import opened Http
  import opened Handlers
  import opened Pipeline

  function Flatten(batches: seq<seq<Flash>>): seq<Flash> {
    if batches == [] then [] else Flatten(batches[..|batches| - 1]) + batches[|batches| - 1]
  }

  /** The keyspace after one successful `addMessages` per batch, in order, with no time passing. */
  function EnqueueAll(ks: Keyspace, sub: string, batches: seq<seq<Flash>>): Keyspace
    decreases |batches|
  {
    if batches == [] then ks
    else AddStep(EnqueueAll(ks, sub, batches[..|batches| - 1]), sub, Some(batches[|batches| - 1]), false).ks
  }

  /** N enqueues extend the caller's queue by the serialized concatenation of the batches. */
  lemma {:induction false} EnqueueAllQueue(ks: Keyspace, sub: string, batches: seq<seq<Flash>>)
    ensures Range(EnqueueAll(ks, sub, batches), QueueKey(sub)) == Range(ks, QueueKey(sub)) + EncodeAll(Flatten(batches))
    decreases |batches|
  {
    var key := QueueKey(sub);
    if batches == [] {
      assert Range(ks, key) + [] == Range(ks, key);
    } else {
      var init, last := batches[..|batches| - 1], batches[|batches| - 1];
      var prev := EnqueueAll(ks, sub, init);
      EnqueueAllQueue(ks, sub, init);
      AddQueueTail(prev, sub, last);
      EncodeAllConcat(Flatten(init), last);
    }
  }

  lemma {:induction false} EnqueueAllWf(ks: Keyspace, sub: string, batches: seq<seq<Flash>>)
    requires Wf(ks)
    ensures Wf(EnqueueAll(ks, sub, batches))
    decreases |batches|
  {
    if batches != [] {
      var init := batches[..|batches| - 1];
      EnqueueAllWf(ks, sub, init);
      AddPreservesWf(EnqueueAll(ks, sub, init), sub, Some(batches[|batches| - 1]), false);
    }
  }

  /**
   * N enqueues and then one drain, with no expiry in between, deliver what
   * was pending followed by every batch in call order, and leave the queue
   * absent.
   */
  lemma {:induction false} EnqueueAllThenDrain(ks: Keyspace, sub: string, batches: seq<seq<Flash>>, pending: seq<Flash>)
    requires DecodeAll(Range(ks, QueueKey(sub))) == Some(pending)
    ensures DrainStep(EnqueueAll(ks, sub, batches), sub, false, false).response == FlashList(StatusOK, pending + Flatten(batches))
    ensures QueueKey(sub) !in DrainStep(EnqueueAll(ks, sub, batches), sub, false, false).ks.lists
  {
    var key := QueueKey(sub);
    var full := EnqueueAll(ks, sub, batches);
    EnqueueAllQueue(ks, sub, batches);
    DecodeAllEncodeAll(Flatten(batches));
    DecodeAllConcat(Range(ks, key), EncodeAll(Flatten(batches)));
    DrainDelivers(full, sub, pending + Flatten(batches));
  }

  /** A queue holding exactly the encodings of `flashes` drains as `flashes`. */
  lemma {:induction false} DrainEncoded(ks: Keyspace, sub: string, flashes: seq<Flash>)
    requires Range(ks, QueueKey(sub)) == EncodeAll(flashes)
    ensures DrainStep(ks, sub, false, false).response == FlashList(StatusOK, flashes)
    ensures QueueKey(sub) !in DrainStep(ks, sub, false, false).ks.lists
  {
    DecodeAllEncodeAll(flashes);
    DrainDelivers(ks, sub, flashes);
  }

  lemma {:induction false} TwoEnqueuesQueue(ks: Keyspace, sub: string, a: seq<Flash>, b: seq<Flash>)
    requires QueueKey(sub) !in ks.lists
    ensures Range(AddStep(AddStep(ks, sub, Some(a), false).ks, sub, Some(b), false).ks, QueueKey(sub)) == EncodeAll(a + b)
  {
    var afterA := AddStep(ks, sub, Some(a), false).ks;
    AddQueueTail(ks, sub, a);
    AddQueueTail(afterA, sub, b);
    EncodeAllConcat(a, b);
  }

  /** Enqueue A, enqueue B, drain: the drain answers A ++ B and the queue is gone afterwards. */
  lemma {:induction false} TwoEnqueuesThenDrain(ks: Keyspace, sub: string, a: seq<Flash>, b: seq<Flash>)
    requires QueueKey(sub) !in ks.lists
    ensures
      var afterB := AddStep(AddStep(ks, sub, Some(a), false).ks, sub, Some(b), false).ks;
      && DrainStep(afterB, sub, false, false).response == FlashList(StatusOK, a + b)
      && QueueKey(sub) !in DrainStep(afterB, sub, false, false).ks.lists
  {
    TwoEnqueuesQueue(ks, sub, a, b);
    DrainEncoded(AddStep(AddStep(ks, sub, Some(a), false).ks, sub, Some(b), false).ks, sub, a + b);
  }

  /** A second drain right after a first one answers 200 with `[]`: messages are delivered at most once. */
  lemma {:induction false} DrainAtMostOnce(ks: Keyspace, sub: string)
    requires Wf(ks)
    ensures DrainStep(DrainStep(ks, sub, false, false).ks, sub, false, false).response == FlashList(StatusOK, [])
  {
    var first := DrainStep(ks, sub, false, false).ks;
    DrainClears(ks, sub);
    DrainPreservesWf(ks, sub, false, false);
    DrainAbsent(first, sub);
  }

  /** A queue whose deadline has passed is discarded by the store and drains as `[]`, never as an error. */
  lemma {:induction false} ExpiredQueueDrainsEmpty(ks: Keyspace, sub: string, dt: nat)
    requires Wf(ks) && QueueKey(sub) in ks.expiry && ks.clock + dt > ks.expiry[QueueKey(sub)]
    ensures DrainStep(Advanced(ks, dt), sub, false, false) == Step(Advanced(ks, dt), FlashList(StatusOK, []))
  {
    assert !Alive(ks, QueueKey(sub), ks.clock + dt);
    DrainAbsent(Advanced(ks, dt), sub);
  }

  /** More than 60 seconds after the last enqueue, the queue drains empty. */
  lemma {:induction false} EnqueuedQueueExpires(ks: Keyspace, sub: string, flashes: seq<Flash>, dt: nat)
    requires Wf(ks) && flashes != [] && dt > TtlSeconds
    ensures
      var later := Advanced(AddStep(ks, sub, Some(flashes), false).ks, dt);
      DrainStep(later, sub, false, false).response == FlashList(StatusOK, [])
  {
    var stored := AddStep(ks, sub, Some(flashes), false).ks;
    AddAppends(ks, sub, flashes);
    AddPreservesWf(ks, sub, Some(flashes), false);
    ExpiredQueueDrainsEmpty(stored, sub, dt);
  }

  /** Within 60 seconds of the last enqueue, the drain still delivers everything pending. */
  lemma {:induction false} EnqueuedQueueRetained(ks: Keyspace, sub: string, flashes: seq<Flash>, dt: nat, pending: seq<Flash>)
    requires flashes != [] && dt <= TtlSeconds
    requires DecodeAll(Range(ks, QueueKey(sub))) == Some(pending)
    ensures
      var later := Advanced(AddStep(ks, sub, Some(flashes), false).ks, dt);
      DrainStep(later, sub, false, false).response == FlashList(StatusOK, pending + flashes)
  {
    var key := QueueKey(sub);
    var stored := AddStep(ks, sub, Some(flashes), false).ks;
    AddAppends(ks, sub, flashes);
    assert Alive(stored, key, stored.clock + dt);
    DecodeAllEncodeAll(flashes);
    DecodeAllConcat(Range(ks, key), EncodeAll(flashes));
    DrainDelivers(Advanced(stored, dt), sub, pending + flashes);
  }

  /**
   * End to end through the middleware: two POSTs and a GET carrying a bearer
   * token whose `sub` is `sub`, on an identity with nothing pending, answer
   * 204, 204 and then 200 with both batches in order.
   */
  lemma {:induction false} BearerPostPostGet(ks: Keyspace, token: seq<Byte>, decode: ClaimsDecoder, sub: string, a: seq<Flash>, b: seq<Flash>)
    requires decode(token).Some? && SubClaim in decode(token).value && decode(token).value[SubClaim] == Text(sub)
    requires QueueKey(sub) !in ks.lists && a != [] && b != []
    ensures
      var post1 := ServeStep(ks, PostFlash, Request(BearerHeader(token), Some(a)), decode, NoFaults);
      var post2 := ServeStep(post1.ks, PostFlash, Request(BearerHeader(token), Some(b)), decode, NoFaults);
      var get := ServeStep(post2.ks, GetFlash, Request(BearerHeader(token), None), decode, NoFaults);
      && post1.response == NoContent(StatusNoContent)
      && post2.response == NoContent(StatusNoContent)
      && get.response == FlashList(StatusOK, a + b)
  {
    BearerIdentity(token, decode, sub);
    var post1 := AddStep(ks, sub, Some(a), false);
    AddAppends(ks, sub, a);
    AddAppends(post1.ks, sub, b);
    TwoEnqueuesThenDrain(ks, sub, a, b);
  }

  /** The same scenario on the `Store` object: the handler methods compose as the step functions do. */
  method PostPostGet(store: Store, ctx: Context, header: seq<Byte>, decode: ClaimsDecoder, a: seq<Flash>, b: seq<Flash>)
    returns (first: Response, second: Response, drained: Response)
    requires store.Valid() && ExtractSub(header, decode).Identity?
    requires QueueKey(ExtractSub(header, decode).sub) !in store.lists
    modifies store, ctx
    ensures store.Valid()
    ensures drained == FlashList(StatusOK, a + b)
    ensures QueueKey(ExtractSub(header, decode).sub) !in store.lists
    ensures ctx.currentUser == Some(ExtractSub(header, decode).sub)
  {
    var sub := ExtractSub(header, decode).sub;
    ghost var start := store.State();
    first := Authenticate(store, ctx, PostFlash, Request(header, Some(a)), decode, NoFaults);
    second := Authenticate(store, ctx, PostFlash, Request(header, Some(b)), decode, NoFaults);
    drained := Authenticate(store, ctx, GetFlash, Request(header, None), decode, NoFaults);
    TwoEnqueuesThenDrain(start, sub, a, b);
  }
}
