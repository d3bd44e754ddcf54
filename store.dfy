/**
 * The Redis keyspace the relay uses: list values with an optional expiry
 * deadline over an abstract clock (seconds). The pure functions give the
 * meaning of the four commands the service issues (RPUSH, EXPIRE, LRANGE 0 -1,
 * DEL) and of time passing; the `Store` class holds the keyspace as mutable
 * state and its methods are proved to perform exactly those transitions.
 *
 * A network failure of a command is an explicit `fault` parameter: the
 * command then answers with an error and changes nothing.
 */
module Store {

  datatype Keyspace = Keyspace(lists: map<string, seq<string>>, expiry: map<string, nat>, clock: nat)

  /** A command's reply. */
  datatype Reply<+T> = Ok(value: T) | Err

  /** The keyspace after a command, with the command's reply. */
  datatype Outcome<+T> = Outcome(ks: Keyspace, reply: Reply<T>)

  /**
   * Redis's own invariants: a list key never holds an empty list (an empty
   * list is an absent key), only existing keys carry a deadline, and no key
   * outlives its deadline.
   */
  predicate Wf(ks: Keyspace) {
    && (forall k :: k in ks.lists ==> ks.lists[k] != [])
    && (forall k :: k in ks.expiry ==> k in ks.lists && ks.clock <= ks.expiry[k])
  }

  /** `LRANGE key 0 -1`: the whole list, or the empty list when the key is absent. */
  function Range(ks: Keyspace, key: string): seq<string> {
    if key in ks.lists then ks.lists[key] else []
  }

  /** `RPUSH key v1 ... vn`: appends at the tail, creating the key; fails with no values. */
  function RPushCmd(ks: Keyspace, key: string, values: seq<string>, fault: bool): (r: Outcome<nat>)
    ensures r.reply.Ok? <==> !fault && values != []
    ensures r.reply.Err? ==> r.ks == ks
    ensures r.reply.Ok? ==> Range(r.ks, key) == Range(ks, key) + values
    ensures r.reply.Ok? ==> r.reply.value == |Range(ks, key)| + |values|
    ensures r.ks.expiry == ks.expiry && r.ks.clock == ks.clock
  {
    if fault || values == [] then Outcome(ks, Err)
    else
      var list := Range(ks, key) + values;
      Outcome(ks.(lists := ks.lists[key := list]), Ok(|list|))
  }

  /** `EXPIRE key secs`: sets the deadline of an existing key to now + secs; replies whether it did. */
  function ExpireCmd(ks: Keyspace, key: string, secs: nat, fault: bool): (r: Outcome<bool>)
    requires secs > 0
    ensures r.reply == if fault then Err else Ok(key in ks.lists)
    ensures r.reply == Ok(true) ==> r.ks.expiry == ks.expiry[key := ks.clock + secs]
    ensures r.reply != Ok(true) ==> r.ks == ks
    ensures r.ks.lists == ks.lists && r.ks.clock == ks.clock
  {
    if fault then Outcome(ks, Err)
    else if key in ks.lists then Outcome(ks.(expiry := ks.expiry[key := ks.clock + secs]), Ok(true))
    else Outcome(ks, Ok(false))
  }

  /** `DEL key`: removes the key and its deadline; replies with the number of keys removed. */
  function DelCmd(ks: Keyspace, key: string, fault: bool): (r: Outcome<nat>)
    ensures r.reply == if fault then Err else Ok(if key in ks.lists then 1 else 0)
    ensures r.reply.Err? ==> r.ks == ks
    ensures r.reply.Ok? ==> key !in r.ks.lists && key !in r.ks.expiry && Range(r.ks, key) == []
    ensures r.ks.clock == ks.clock
  {
    if fault then Outcome(ks, Err)
    else Outcome(ks.(lists := ks.lists - {key}, expiry := ks.expiry - {key}),
                 Ok(if key in ks.lists then 1 else 0))
  }

  /** The three commands keep Redis's invariants. */
  lemma CommandsPreserveWf(ks: Keyspace, key: string, values: seq<string>, secs: nat, fault: bool)
    requires Wf(ks) && secs > 0
    ensures Wf(RPushCmd(ks, key, values, fault).ks)
    ensures Wf(ExpireCmd(ks, key, secs, fault).ks)
    ensures Wf(DelCmd(ks, key, fault).ks)
  {
  }

  /** `RPUSH` on one key leaves the list of every other key as it was. */
  lemma RPushFrame(ks: Keyspace, key: string, values: seq<string>, fault: bool, other: string)
    requires other != key
    ensures Range(RPushCmd(ks, key, values, fault).ks, other) == Range(ks, other)
  {
  }

  /** `EXPIRE` on one key leaves the deadline of every other key as it was. */
  lemma ExpireFrame(ks: Keyspace, key: string, secs: nat, fault: bool, other: string)
    requires secs > 0 && other != key
    ensures var after := ExpireCmd(ks, key, secs, fault).ks;
      (other in after.expiry <==> other in ks.expiry) && (other in ks.expiry ==> after.expiry[other] == ks.expiry[other])
  {
  }

  /** `DEL` on one key leaves the list and the deadline of every other key as they were. */
  lemma DelFrame(ks: Keyspace, key: string, fault: bool, other: string)
    requires other != key
    ensures var after := DelCmd(ks, key, fault).ks;
      && Range(after, other) == Range(ks, other)
      && (other in after.expiry <==> other in ks.expiry)
      && (other in ks.expiry ==> after.expiry[other] == ks.expiry[other])
  {
  }

  /** Whether `key` is still alive at time `now`: Redis expires a key once now passes its deadline. */
  predicate Alive(ks: Keyspace, key: string, now: nat) {
    key in ks.lists && (key !in ks.expiry || now <= ks.expiry[key])
  }

  /** The keyspace `dt` seconds later: every key whose deadline has passed is gone. */
  function Advanced(ks: Keyspace, dt: nat): (r: Keyspace)
    ensures r.clock == ks.clock + dt
    ensures forall k :: k in r.lists <==> Alive(ks, k, ks.clock + dt)
    ensures forall k :: Alive(ks, k, ks.clock + dt) ==> Range(r, k) == Range(ks, k)
    ensures Wf(ks) ==> Wf(r)
  {
    var now := ks.clock + dt;
    Keyspace(map k | k in ks.lists && Alive(ks, k, now) :: ks.lists[k],
             map k | k in ks.expiry && now <= ks.expiry[k] :: ks.expiry[k],
             now)
  }

  /** The Redis server as seen through the service's client connection. */
  class Store {
    var lists: map<string, seq<string>>
    var expiry: map<string, nat>
    var clock: nat

    function State(): Keyspace
      reads this
    {
      Keyspace(lists, expiry, clock)
    }

    predicate Valid()
      reads this
    {
      Wf(State())
    }

    /** An empty server whose clock reads `now`. */
    constructor (now: nat)
      ensures Valid() && State() == Keyspace(map[], map[], now)
    {
      lists, expiry, clock := map[], map[], now;
    }

    method RPush(key: string, values: seq<string>, fault: bool) returns (r: Reply<nat>)
      requires Valid()
      modifies this
      ensures Valid()
      ensures Outcome(State(), r) == RPushCmd(old(State()), key, values, fault)
    {
      CommandsPreserveWf(State(), key, values, 1, fault);
      if fault || values == [] {
        return Err;
      }
      var list := (if key in lists then lists[key] else []) + values;
      lists := lists[key := list];
      r := Ok(|list|);
    }

    method Expire(key: string, secs: nat, fault: bool) returns (r: Reply<bool>)
      requires Valid() && secs > 0
      modifies this
      ensures Valid()
      ensures Outcome(State(), r) == ExpireCmd(old(State()), key, secs, fault)
    {
      CommandsPreserveWf(State(), key, [], secs, fault);
      if fault {
        return Err;
      }
      if key in lists {
        expiry := expiry[key := clock + secs];
        r := Ok(true);
      } else {
        r := Ok(false);
      }
    }

    /** `LRANGE key 0 -1` reads and changes nothing. */
    method LRange(key: string, fault: bool) returns (r: Reply<seq<string>>)
      requires Valid()
      ensures r == if fault then Err else Ok(Range(State(), key))
    {
      if fault {
        return Err;
      }
      r := Ok(if key in lists then lists[key] else []);
    }

    method Del(key: string, fault: bool) returns (r: Reply<nat>)
      requires Valid()
      modifies this
      ensures Valid()
      ensures Outcome(State(), r) == DelCmd(old(State()), key, fault)
    {
      CommandsPreserveWf(State(), key, [], 1, fault);
      if fault {
        return Err;
      }
      r := Ok(if key in lists then 1 else 0);
      lists := lists - {key};
      expiry := expiry - {key};
    }

    /** Time passes on the server; expired keys are discarded. */
    method Advance(dt: nat)
      requires Valid()
      modifies this
      ensures Valid()
      ensures State() == Advanced(old(State()), dt)
    {
      var now := clock + dt;
      lists := map k | k in lists && (k !in expiry || now <= expiry[k]) :: lists[k];
      expiry := map k | k in expiry && now <= expiry[k] :: expiry[k];
      clock := now;
    }
  }
}
