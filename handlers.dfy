/**
 * The two flash handlers, `addMessages` and `getMessages`.
 *
 * `AddStep` and `DrainStep` give, as functions of the keyspace, what one
 * request does to the store and what it answers; the methods `AddMessages`
 * and `GetMessages` drive the `Store` object command by command and are
 * proved to do exactly that. The lemmas below state the service's promises
 * about a single request.
 */
module Handlers {
  import opened Wrappers
  import opened Codec
  import opened Store
  import opened Http

  /** Retention window refreshed on every enqueue, in seconds. */
  const TtlSeconds: nat := 60

  const KeyPrefix: string := "message::"

  const InvalidRequest: string := "Invalid request"
  const SaveFailed: string := "Failed to save messages to Redis"
  const DrainFailed: string := "Failed to read and delete messages from Redis"

  /** The Redis key of an identity's queue. */
  function QueueKey(sub: string): (r: string)
    ensures KeyPrefix <= r && r[|KeyPrefix|..] == sub
  {
    KeyPrefix + sub
  }

  /** Distinct identities never share a queue. */
  lemma QueueKeyInjective(a: string, b: string)
    ensures QueueKey(a) == QueueKey(b) <==> a == b
  {
    if QueueKey(a) == QueueKey(b) {
      assert a == QueueKey(a)[|KeyPrefix|..];
      assert b == QueueKey(b)[|KeyPrefix|..];
    }
  }

  /** A request's effect on the keyspace and its response. */
  datatype Step = Step(ks: Keyspace, response: Response)

  /** Every message serialized, in order. */
  function EncodeAll(fs: seq<Flash>): (r: seq<string>)
    ensures |r| == |fs|
  {
    if fs == [] then [] else [Encode(fs[0])] + EncodeAll(fs[1..])
  }

  /** Entry `i` of a serialized batch is the encoding of message `i`. */
  lemma {:induction false} EncodeAllAt(fs: seq<Flash>, i: nat)
    requires i < |fs|
    ensures EncodeAll(fs)[i] == Encode(fs[i])
  {
    if i > 0 {
      EncodeAllAt(fs[1..], i - 1);
    }
  }

  /** `EncodeAll` is determined by the per-message encodings. */
  lemma {:induction false} EncodeAllIs(fs: seq<Flash>, out: seq<string>)
    requires |out| == |fs| && forall i :: 0 <= i < |fs| ==> out[i] == Encode(fs[i])
    ensures EncodeAll(fs) == out
  {
    forall i | 0 <= i < |fs| ensures EncodeAll(fs)[i] == out[i] {
      EncodeAllAt(fs, i);
    }
  }

  /** Every entry deserialized, in order; `None` as soon as one entry fails. */
  function DecodeAll(raw: seq<string>): (r: Option<seq<Flash>>)
    ensures r.Some? ==> |r.value| == |raw|
  {
    if raw == [] then Some([])
    else
      match (Decode(raw[0]), DecodeAll(raw[1..]))
      case (Some(f), Some(rest)) => Some([f] + rest)
      case _ => None
  }

  /** A drain's entries decode as a whole iff each one decodes, and then entry by entry. */
  lemma {:induction false} DecodeAllSpec(raw: seq<string>)
    ensures DecodeAll(raw).Some? <==> forall i :: 0 <= i < |raw| ==> Decode(raw[i]).Some?
    ensures DecodeAll(raw).Some? ==> forall i :: 0 <= i < |raw| ==> Decode(raw[i]) == Some(DecodeAll(raw).value[i])
  {
    if raw != [] {
      DecodeAllSpec(raw[1..]);
      assert forall i :: 1 <= i < |raw| ==> raw[i] == raw[1..][i - 1];
    }
  }

  /** `DecodeAll` is determined by the per-entry decodings. */
  lemma {:induction false} DecodeAllIs(raw: seq<string>, fs: seq<Flash>)
    requires |fs| == |raw| && forall i :: 0 <= i < |raw| ==> Decode(raw[i]) == Some(fs[i])
    ensures DecodeAll(raw) == Some(fs)
  {
    DecodeAllSpec(raw);
    var r := DecodeAll(raw);
    assert r.Some?;
    forall i | 0 <= i < |raw| ensures r.value[i] == fs[i] {
      assert Decode(raw[i]) == Some(r.value[i]);
    }
    assert r.value == fs;
  }

  /** A stored batch reads back as the batch that was stored. */
  lemma {:induction false} DecodeAllEncodeAll(fs: seq<Flash>)
    ensures DecodeAll(EncodeAll(fs)) == Some(fs)
  {
    var e := EncodeAll(fs);
    forall i | 0 <= i < |fs| ensures Decode(e[i]) == Some(fs[i]) {
      EncodeAllAt(fs, i);
      DecodeEncode(fs[i]);
    }
    DecodeAllIs(e, fs);
  }

  /** Decoding a concatenation succeeds iff both halves decode, and yields their concatenation. */
  lemma {:induction false} DecodeAllConcat(a: seq<string>, b: seq<string>)
    ensures DecodeAll(a + b) ==
      if DecodeAll(a).Some? && DecodeAll(b).Some? then Some(DecodeAll(a).value + DecodeAll(b).value) else None
  {
    var ab := a + b;
    DecodeAllSpec(a);
    DecodeAllSpec(b);
    DecodeAllSpec(ab);
    if DecodeAll(a).Some? && DecodeAll(b).Some? {
      var x, y := DecodeAll(a).value, DecodeAll(b).value;
      forall i | 0 <= i < |ab| ensures Decode(ab[i]) == Some((x + y)[i]) {
        if i < |a| {
          assert ab[i] == a[i] && (x + y)[i] == x[i];
        } else {
          assert ab[i] == b[i - |a|] && (x + y)[i] == y[i - |a|];
        }
      }
      DecodeAllIs(ab, x + y);
    } else if DecodeAll(a).None? {
      var i :| 0 <= i < |a| && Decode(a[i]).None?;
      assert ab[i] == a[i];
    } else {
      var i :| 0 <= i < |b| && Decode(b[i]).None?;
      assert ab[|a| + i] == b[i];
    }
  }

  /**
   * `addMessages`: bind the body, serialize each message, then one pipeline
   * round trip with `RPUSH` and `EXPIRE 60`; any failed command makes it 500.
   */
  function AddStep(ks: Keyspace, sub: string, body: Option<seq<Flash>>, fault: bool): (r: Step)
    ensures r.response == ErrorJson(StatusBadRequest, InvalidRequest) <==> body.None?
    ensures r.response == NoContent(StatusNoContent) <==> body.Some? && body.value != [] && !fault
    ensures r.response == ErrorJson(StatusInternalServerError, SaveFailed) <==> body.Some? && (body.value == [] || fault)
  {
    match body
    case None => Step(ks, ErrorJson(StatusBadRequest, InvalidRequest))
    case Some(flashes) =>
      var key := QueueKey(sub);
      var pushed := RPushCmd(ks, key, EncodeAll(flashes), fault);
      var expired := ExpireCmd(pushed.ks, key, TtlSeconds, fault);
      if pushed.reply.Err? || expired.reply.Err?
      then Step(expired.ks, ErrorJson(StatusInternalServerError, SaveFailed))
      else Step(expired.ks, NoContent(StatusNoContent))
  }

  /**
   * `getMessages`: `LRANGE 0 -1`, then `DEL`, then deserialize every entry;
   * any error makes it 500 and no list is delivered.
   */
  function DrainStep(ks: Keyspace, sub: string, rangeFault: bool, delFault: bool): (r: Step)
    ensures r.response.FlashList? <==>
      !rangeFault && !delFault && DecodeAll(Range(ks, QueueKey(sub))).Some?
    ensures r.response.FlashList? ==>
      r.response.code == StatusOK && DecodeAll(Range(ks, QueueKey(sub))) == Some(r.response.flashes)
    ensures !r.response.FlashList? ==> r.response == ErrorJson(StatusInternalServerError, DrainFailed)
  {
    var key := QueueKey(sub);
    if rangeFault then Step(ks, ErrorJson(StatusInternalServerError, DrainFailed))
    else
      var deleted := DelCmd(ks, key, delFault);
      if deleted.reply.Err? then Step(ks, ErrorJson(StatusInternalServerError, DrainFailed))
      else
        match DecodeAll(Range(ks, key))
        case None => Step(deleted.ks, ErrorJson(StatusInternalServerError, DrainFailed))
        case Some(flashes) => Step(deleted.ks, FlashList(StatusOK, flashes))
  }

  /** The serialization loop of `addMessages`. */
  method SerializeFlashes(flashes: seq<Flash>) returns (serialized: seq<string>)
    ensures |serialized| == |flashes|
    ensures forall i :: 0 <= i < |flashes| ==> serialized[i] == Encode(flashes[i])
  {
    serialized := [];
    for i := 0 to |flashes|
      invariant |serialized| == i
      invariant forall j :: 0 <= j < i ==> serialized[j] == Encode(flashes[j])
    {
      serialized := serialized + [Encode(flashes[i])];
    }
  }

  /** The deserialization loop of `getMessages`: stops at the first entry that does not decode. */
  method DeserializeEntries(raw: seq<string>) returns (ok: bool, flashes: seq<Flash>)
    ensures ok <==> forall i :: 0 <= i < |raw| ==> Decode(raw[i]).Some?
    ensures ok ==> |flashes| == |raw| && forall i :: 0 <= i < |raw| ==> Decode(raw[i]) == Some(flashes[i])
  {
    flashes := [];
    for i := 0 to |raw|
      invariant |flashes| == i
      invariant forall j :: 0 <= j < i ==> Decode(raw[j]) == Some(flashes[j])
    {
      var msg := Decode(raw[i]);
      if msg.None? {
        return false, [];
      }
      flashes := flashes + [msg.value];
    }
    ok := true;
  }

  method AddMessages(store: Store, ctx: Context, body: Option<seq<Flash>>, fault: bool) returns (resp: Response)
    requires store.Valid() && ctx.currentUser.Some?
    modifies store
    ensures store.Valid()
    ensures Step(store.State(), resp) == AddStep(old(store.State()), ctx.currentUser.value, body, fault)
  {
    if body.None? {
      return ErrorJson(StatusBadRequest, InvalidRequest);
    }
    var key := QueueKey(ctx.currentUser.value);
    var serialized := SerializeFlashes(body.value);
    EncodeAllIs(body.value, serialized);
    // One pipeline round trip: both commands are sent, the first error is reported.
    var pushed := store.RPush(key, serialized, fault);
    var expired := store.Expire(key, TtlSeconds, fault);
    if pushed.Err? || expired.Err? {
      return ErrorJson(StatusInternalServerError, SaveFailed);
    }
    resp := NoContent(StatusNoContent);
  }

  method GetMessages(store: Store, ctx: Context, rangeFault: bool, delFault: bool) returns (resp: Response)
    requires store.Valid() && ctx.currentUser.Some?
    modifies store
    ensures store.Valid()
    ensures Step(store.State(), resp) == DrainStep(old(store.State()), ctx.currentUser.value, rangeFault, delFault)
  {
    var key := QueueKey(ctx.currentUser.value);
    var raw := store.LRange(key, rangeFault);
    if raw.Err? {
      return ErrorJson(StatusInternalServerError, DrainFailed);
    }
    var deleted := store.Del(key, delFault);
    if deleted.Err? {
      return ErrorJson(StatusInternalServerError, DrainFailed);
    }
    var ok, flashes := DeserializeEntries(raw.value);
    DecodeAllSpec(raw.value);
    if !ok {
      return ErrorJson(StatusInternalServerError, DrainFailed);
    }
    DecodeAllIs(raw.value, flashes);
    resp := FlashList(StatusOK, flashes);
  }

  lemma {:induction false} EncodeAllConcat(a: seq<Flash>, b: seq<Flash>)
    ensures EncodeAll(a + b) == EncodeAll(a) + EncodeAll(b)
  {
    var r := EncodeAll(a) + EncodeAll(b);
    forall i | 0 <= i < |a + b| ensures r[i] == Encode((a + b)[i]) {
      if i < |a| {
        EncodeAllAt(a, i);
      } else {
        EncodeAllAt(b, i - |a|);
      }
    }
    EncodeAllIs(a + b, r);
  }

  /** Neither the list nor the deadline of `key` differs between the two keyspaces. */
  predicate Untouched(before: Keyspace, after: Keyspace, key: string) {
    && Range(after, key) == Range(before, key)
    && (key in after.expiry <==> key in before.expiry)
    && (key in before.expiry ==> after.expiry[key] == before.expiry[key])
  }

  /** An unbindable body answers 400 and leaves every queue and every deadline as it was. */
  lemma AddBindFailure(ks: Keyspace, sub: string, fault: bool)
    ensures AddStep(ks, sub, None, fault) == Step(ks, ErrorJson(StatusBadRequest, InvalidRequest))
  {
  }

  /**
   * A stored batch is appended, in input order, at the tail of the caller's
   * queue, whose deadline becomes now + 60 whatever it was; nothing else
   * changes and the answer is 204.
   */
  lemma AddAppends(ks: Keyspace, sub: string, flashes: seq<Flash>)
    requires flashes != []
    ensures AddStep(ks, sub, Some(flashes), false) ==
      Step(ks.(lists := ks.lists[QueueKey(sub) := Range(ks, QueueKey(sub)) + EncodeAll(flashes)],
               expiry := ks.expiry[QueueKey(sub) := ks.clock + TtlSeconds]),
           NoContent(StatusNoContent))
  {
  }

  /**
   * An empty batch makes `RPUSH` fail, so the answer is 500; the pipeline
   * still runs `EXPIRE`, which refreshes the deadline of an existing queue.
   */
  lemma AddEmptyBatch(ks: Keyspace, sub: string)
    ensures AddStep(ks, sub, Some([]), false).response == ErrorJson(StatusInternalServerError, SaveFailed)
    ensures AddStep(ks, sub, Some([]), false).ks ==
      if QueueKey(sub) in ks.lists then ks.(expiry := ks.expiry[QueueKey(sub) := ks.clock + TtlSeconds]) else ks
  {
  }

  /** A failed round trip to the store answers 500 and changes nothing. */
  lemma AddStoreFailure(ks: Keyspace, sub: string, flashes: seq<Flash>)
    ensures AddStep(ks, sub, Some(flashes), true) == Step(ks, ErrorJson(StatusInternalServerError, SaveFailed))
  {
  }

  /** Without a store failure the caller's queue grows by exactly the serialized batch, empty or not. */
  lemma AddQueueTail(ks: Keyspace, sub: string, flashes: seq<Flash>)
    ensures Range(AddStep(ks, sub, Some(flashes), false).ks, QueueKey(sub)) == Range(ks, QueueKey(sub)) + EncodeAll(flashes)
    ensures AddStep(ks, sub, Some(flashes), false).ks.clock == ks.clock
  {
    if flashes == [] {
      assert Range(ks, QueueKey(sub)) + [] == Range(ks, QueueKey(sub));
    }
  }

  lemma AddPreservesWf(ks: Keyspace, sub: string, body: Option<seq<Flash>>, fault: bool)
    requires Wf(ks)
    ensures Wf(AddStep(ks, sub, body, fault).ks)
  {
    if body.Some? {
      var key := QueueKey(sub);
      var pushed := RPushCmd(ks, key, EncodeAll(body.value), fault);
      CommandsPreserveWf(ks, key, EncodeAll(body.value), TtlSeconds, fault);
      CommandsPreserveWf(pushed.ks, key, [], TtlSeconds, fault);
    }
  }

  /**
   * A drain whose entries all decode answers 200 with them, in queue order,
   * and removes the queue with its deadline.
   */
  lemma DrainDelivers(ks: Keyspace, sub: string, flashes: seq<Flash>)
    requires DecodeAll(Range(ks, QueueKey(sub))) == Some(flashes)
    ensures DrainStep(ks, sub, false, false) ==
      Step(ks.(lists := ks.lists - {QueueKey(sub)}, expiry := ks.expiry - {QueueKey(sub)}), FlashList(StatusOK, flashes))
  {
  }

  /** Draining an absent (never filled, already drained or expired) queue answers 200 with `[]` and changes nothing. */
  lemma DrainAbsent(ks: Keyspace, sub: string)
    requires Wf(ks) && QueueKey(sub) !in ks.lists
    ensures DrainStep(ks, sub, false, false) == Step(ks, FlashList(StatusOK, []))
  {
    var key := QueueKey(sub);
    assert ks.lists - {key} == ks.lists;
    assert ks.expiry - {key} == ks.expiry;
  }

  /**
   * One entry that does not decode fails the whole drain with 500 and no
   * list; the `DEL` has already run, so the queue is gone.
   */
  lemma DrainCorrupt(ks: Keyspace, sub: string, i: nat)
    requires i < |Range(ks, QueueKey(sub))| && Decode(Range(ks, QueueKey(sub))[i]).None?
    ensures DrainStep(ks, sub, false, false) ==
      Step(ks.(lists := ks.lists - {QueueKey(sub)}, expiry := ks.expiry - {QueueKey(sub)}),
           ErrorJson(StatusInternalServerError, DrainFailed))
  {
    DecodeAllSpec(Range(ks, QueueKey(sub)));
  }

  /** A failed `LRANGE` or `DEL` answers 500 and leaves the queue in place. */
  lemma DrainStoreFailure(ks: Keyspace, sub: string, rangeFault: bool, delFault: bool)
    requires rangeFault || delFault
    ensures DrainStep(ks, sub, rangeFault, delFault) == Step(ks, ErrorJson(StatusInternalServerError, DrainFailed))
  {
  }

  /** A drain that reaches the store, whatever the entries hold, leaves the caller's queue absent. */
  lemma DrainClears(ks: Keyspace, sub: string)
    ensures QueueKey(sub) !in DrainStep(ks, sub, false, false).ks.lists
    ensures QueueKey(sub) !in DrainStep(ks, sub, false, false).ks.expiry
  {
  }

  lemma DrainPreservesWf(ks: Keyspace, sub: string, rangeFault: bool, delFault: bool)
    requires Wf(ks)
    ensures Wf(DrainStep(ks, sub, rangeFault, delFault).ks)
  {
    CommandsPreserveWf(ks, QueueKey(sub), [], 1, delFault);
  }

  /** A request of one identity leaves every other identity's queue and deadline untouched. */
  lemma IdentitiesIsolated(ks: Keyspace, sub: string, other: string, body: Option<seq<Flash>>,
                            pushFault: bool, rangeFault: bool, delFault: bool)
    requires other != sub
    ensures Untouched(ks, AddStep(ks, sub, body, pushFault).ks, QueueKey(other))
    ensures Untouched(ks, DrainStep(ks, sub, rangeFault, delFault).ks, QueueKey(other))
  {
    var key, otherKey := QueueKey(sub), QueueKey(other);
    QueueKeyInjective(sub, other);
    if body.Some? {
      var pushed := RPushCmd(ks, key, EncodeAll(body.value), pushFault);
      RPushFrame(ks, key, EncodeAll(body.value), pushFault, otherKey);
      ExpireFrame(pushed.ks, key, TtlSeconds, pushFault, otherKey);
    }
    DelFrame(ks, key, delFault, otherKey);
  }
}
