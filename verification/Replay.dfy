/**
 Replay of idempotent requests: the stores of the HTTP middleware (src/idempotency.rs), the MCP server
 (src/mcp.rs) and the A2A agent (src/a2a.rs). They evict differently and mean the same.

 Time is a natural number that never decreases from one operation to the next and is sampled once per operation.
 `R` is a response.
 */
module Replay {
  import opened Wrappers

  datatype Record<R> = Record(hash: string, response: R, createdAt: nat)

  /**
   HTTP purges when it inserts, MCP whenever it is used, A2A not at all; HTTP and A2A also evict what a lookup finds
   expired.
   */
  datatype Policy = Http | Mcp | A2a

  predicate Live<R>(r: Record<R>, now: nat, ttl: nat) { now - r.createdAt <= ttl }

  function Purge<R>(m: map<string, Record<R>>, now: nat, ttl: nat): map<string, Record<R>> {
    map k | k in m && Live(m[k], now, ttl) :: m[k]
  }

  function Found<R>(m: map<string, Record<R>>, key: string, now: nat, ttl: nat): Option<Record<R>> {
    if key in m && Live(m[key], now, ttl) then Some(m[key]) else None
  }

  function AfterLookup<R>(p: Policy, m: map<string, Record<R>>, key: string, now: nat, ttl: nat)
    : map<string, Record<R>>
  {
    if p == Mcp then Purge(m, now, ttl)
    else if key in m && !Live(m[key], now, ttl) then m - {key}
    else m
  }

  function AfterInsert<R>(p: Policy, m: map<string, Record<R>>, key: string, r: Record<R>, now: nat, ttl: nat)
    : map<string, Record<R>>
  {
    if p == A2a then m[key := r] else Purge(m, now, ttl)[key := r]
  }

  // ---------- The stores

  class IdempotencyStore<R> {
    var entries: map<string, Record<R>>
    const ttl: nat

    constructor (ttl: nat)
      ensures entries == map[] && this.ttl == ttl
    {
      entries := map[];
      this.ttl := ttl;
    }

    method Get(key: string, now: nat) returns (r: Option<Record<R>>)
      modifies this
      ensures entries == AfterLookup(Http, old(entries), key, now, ttl)
      ensures r == Found(old(entries), key, now, ttl)
    {
      if key !in entries { return None; }
      var record := entries[key];
      if Live(record, now, ttl) { return Some(record); }
      entries := entries - {key};
      r := None;
    }

    method Insert(key: string, record: Record<R>, now: nat)
      modifies this
      ensures entries == AfterInsert(Http, old(entries), key, record, now, ttl)
    {
      entries := Purge(entries, now, ttl);
      entries := entries[key := record];
    }
  }

  class McpStore<R> {
    var entries: map<string, Record<R>>
    const ttl: nat

    constructor (ttl: nat)
      ensures entries == map[] && this.ttl == ttl
    {
      entries := map[];
      this.ttl := ttl;
    }

    method IdempotencyReplay(key: string, hash: string, now: nat) returns (reply: Option<Reply<R>>)
      modifies this
      ensures entries == AfterLookup(Mcp, old(entries), key, now, ttl)
      ensures reply == ReplayOf(Found(old(entries), key, now, ttl), hash)
    {
      entries := Purge(entries, now, ttl);
      if key in entries {
        return Some(if entries[key].hash != hash then Conflict else Replayed(entries[key].response));
      }
      reply := None;
    }

    method StoreIdempotency(key: string, hash: string, response: R, now: nat)
      modifies this
      ensures entries == AfterInsert(Mcp, old(entries), key, Record(hash, response, now), now, ttl)
    {
      entries := Purge(entries, now, ttl);
      entries := entries[key := Record(hash, response, now)];
    }
  }

  class A2aStore<R> {
    var messageCache: map<string, Record<R>>
    const ttl: nat

    constructor (ttl: nat)
      ensures messageCache == map[] && this.ttl == ttl
    {
      messageCache := map[];
      this.ttl := ttl;
    }

    method IdempotencyReplay(messageId: string, hash: string, now: nat) returns (reply: Option<Reply<R>>)
      modifies this
      ensures messageCache == AfterLookup(A2a, old(messageCache), messageId, now, ttl)
      ensures reply == ReplayOf(Found(old(messageCache), messageId, now, ttl), hash)
    {
      if messageId in messageCache {
        var record := messageCache[messageId];
        if !Live(record, now, ttl) {
          messageCache := messageCache - {messageId};
          return None;
        }
        return Some(if record.hash != hash then Conflict else Replayed(record.response));
      }
      reply := None;
    }

    method StoreIdempotency(messageId: string, hash: string, response: R, now: nat)
      modifies this
      ensures messageCache == AfterInsert(A2a, old(messageCache), messageId, Record(hash, response, now), now, ttl)
    {
      messageCache := messageCache[messageId := Record(hash, response, now)];
    }
  }

  // ---------- One meaning

  /** An insertion of a record under a key. */
  datatype Insertion<R> = Insertion(key: string, record: Record<R>)

  /** The record inserted last under a key. */
  function Latest<R>(history: seq<Insertion<R>>, key: string): Option<Record<R>> {
    if history == [] then None
    else if history[|history| - 1].key == key then Some(history[|history| - 1].record)
    else Latest(history[..|history| - 1], key)
  }

  /** The one meaning of a lookup: the latest insertion, when its age is at most the time to live. */
  function TimedLookup<R>(history: seq<Insertion<R>>, key: string, now: nat, ttl: nat): Option<Record<R>> {
    var r := Latest(history, key);
    if r.Some? && Live(r.value, now, ttl) then r else None
  }

  /** At time `clock` the entries are the latest insertions, except that expired ones may be missing. */
  ghost predicate Represents<R>(m: map<string, Record<R>>, history: seq<Insertion<R>>, clock: nat, ttl: nat) {
    (forall k :: k in m ==> Latest(history, k) == Some(m[k])) &&
    (forall k :: k !in m && Latest(history, k).Some? ==> !Live(Latest(history, k).value, clock, ttl))
  }

  datatype Op<R> = Lookup(key: string, now: nat) | Insert(key: string, hash: string, response: R, now: nat)

  /** The operations happen at or after `clock`, in order of time. */
  ghost predicate InTime<R>(ops: seq<Op<R>>, clock: nat) {
    forall i :: 0 <= i < |ops| ==> clock <= ops[i].now && forall j :: i < j < |ops| ==> ops[i].now <= ops[j].now
  }

  /** Answers of a store to a sequence of operations; an insertion answers nothing. */
  function StoreAnswers<R>(p: Policy, ttl: nat, m: map<string, Record<R>>, ops: seq<Op<R>>): seq<Option<Record<R>>>
    decreases ops
  {
    if ops == [] then [] else
    match ops[0]
    case Lookup(key, now) =>
      [Found(m, key, now, ttl)] + StoreAnswers(p, ttl, AfterLookup(p, m, key, now, ttl), ops[1..])
    case Insert(key, hash, response, now) =>
      [None] + StoreAnswers(p, ttl, AfterInsert(p, m, key, Record(hash, response, now), now, ttl), ops[1..])
  }

  function TimedAnswers<R>(ttl: nat, history: seq<Insertion<R>>, ops: seq<Op<R>>): seq<Option<Record<R>>>
    decreases ops
  {
    if ops == [] then [] else
    match ops[0]
    case Lookup(key, now) => [TimedLookup(history, key, now, ttl)] + TimedAnswers(ttl, history, ops[1..])
    case Insert(key, hash, response, now) =>
      [None] + TimedAnswers(ttl, history + [Insertion(key, Record(hash, response, now))], ops[1..])
  }

  lemma FoundIsTimedLookup<R>(m: map<string, Record<R>>, history: seq<Insertion<R>>, clock: nat, ttl: nat,
      key: string, now: nat)
    requires Represents(m, history, clock, ttl) && clock <= now
    ensures Found(m, key, now, ttl) == TimedLookup(history, key, now, ttl)
  {
    hide Latest;
  }

  lemma LookupRepresents<R>(
    p: Policy, m: map<string, Record<R>>, history: seq<Insertion<R>>, clock: nat, ttl: nat, key: string, now: nat)
    requires Represents(m, history, clock, ttl) && clock <= now
    ensures Represents(AfterLookup(p, m, key, now, ttl), history, now, ttl)
  {
    hide Latest;
  }

  lemma InsertRepresents<R>(
    p: Policy, m: map<string, Record<R>>, history: seq<Insertion<R>>, clock: nat, ttl: nat, key: string,
      r: Record<R>, now: nat)
    requires Represents(m, history, clock, ttl) && clock <= now
    ensures Represents(AfterInsert(p, m, key, r, now, ttl), history + [Insertion(key, r)], now, ttl)
  {
    forall k ensures Latest(history + [Insertion(key, r)], k) == if k == key then Some(r) else Latest(history, k) {
      LatestAppend(history, key, r, k);
    }
    InsertRepresentsStep(p, m, history, clock, ttl, key, r, now);
  }

  lemma LatestAppend<R>(history: seq<Insertion<R>>, key: string, r: Record<R>, k: string)
    ensures Latest(history + [Insertion(key, r)], k) == if k == key then Some(r) else Latest(history, k)
  {
    var h := history + [Insertion(key, r)];
    assert h[..|h| - 1] == history;
  }

  lemma InsertRepresentsStep<R>(
    p: Policy, m: map<string, Record<R>>, history: seq<Insertion<R>>, clock: nat, ttl: nat, key: string,
      r: Record<R>, now: nat)
    requires Represents(m, history, clock, ttl) && clock <= now
    requires forall k :: Latest(history + [Insertion(key, r)], k) == if k == key then Some(r) else Latest(history, k)
    ensures Represents(AfterInsert(p, m, key, r, now, ttl), history + [Insertion(key, r)], now, ttl)
  {
    hide Latest;
  }

  lemma {:induction false} AnswersAgree<R>(
    p: Policy, ttl: nat, m: map<string, Record<R>>, history: seq<Insertion<R>>, clock: nat, ops: seq<Op<R>>)
    requires Represents(m, history, clock, ttl) && InTime(ops, clock)
    ensures StoreAnswers(p, ttl, m, ops) == TimedAnswers(ttl, history, ops)
    decreases ops
  {
    hide Represents, Latest, AfterLookup, AfterInsert, Found, TimedLookup;
    if ops != [] {
      assert InTime(ops[1..], ops[0].now);
      match ops[0]
      case Lookup(key, now) =>
        FoundIsTimedLookup(m, history, clock, ttl, key, now);
        LookupRepresents(p, m, history, clock, ttl, key, now);
        AnswersAgree(p, ttl, AfterLookup(p, m, key, now, ttl), history, now, ops[1..]);
      case Insert(key, hash, response, now) =>
        var r := Record(hash, response, now);
        InsertRepresents(p, m, history, clock, ttl, key, r, now);
        AnswersAgree(p, ttl, AfterInsert(p, m, key, r, now, ttl), history + [Insertion(key, r)], now, ops[1..]);
    }
  }

  /**
   Whichever way a store evicts, in every history with a non-decreasing clock it answers a lookup with the
   latest insertion under the key exactly when that is at most `ttl` old.
   */
  lemma PoliciesMeanTheSame<R>(p: Policy, ttl: nat, ops: seq<Op<R>>)
    requires InTime(ops, 0)
    ensures StoreAnswers(p, ttl, map[], ops) == TimedAnswers(ttl, [], ops)
  {
    AnswersAgree(p, ttl, map[], [], 0, ops);
  }

  // ---------- Answers

  /**
   An answer is given afresh or repeated; a key that comes with another payload, or cannot be used, is turned down.
   */
  datatype Reply<R> = Served(response: R) | Replayed(response: R) | Conflict | Refused(error: string)

  function ReplayOf<R>(found: Option<Record<R>>, hash: string): Option<Reply<R>> {
    if found.None? then None
    else if found.value.hash != hash then Some(Conflict)
    else Some(Replayed(found.value.response))
  }

  /** What lives under a key is kept by lookups of any key and by inserts under other keys. */
  lemma LiveIsKept<R>(p: Policy, m: map<string, Record<R>>, used: string, r: Record<R>, now: nat, ttl: nat, key: string)
    requires key in m && Live(m[key], now, ttl)
    ensures var m' := AfterLookup(p, m, used, now, ttl);
      key in m' && m'[key] == m[key] &&
      (used != key ==> var n := AfterInsert(p, m', used, r, now, ttl); key in n && n[key] == m[key])
  {
  }

  /** A store holds what was inserted, and otherwise only what it held before. */
  lemma StoredFrom<R>(p: Policy, m: map<string, Record<R>>, used: string, r: Record<R>, now: nat, ttl: nat, key: string)
    ensures var m' := AfterLookup(p, m, used, now, ttl);
      var n := AfterInsert(p, m', used, r, now, ttl);
      (key in m' ==> key in m && m'[key] == m[key]) && used in n && n[used] == r &&
      (key in n && key != used ==> key in m && n[key] == m[key])
  {
  }
}
