/**
 The in-memory session store (src/store.rs): a cache of sessions with deadlines, and beside it what was negotiated
 for each session.
 */
module Store {
  import opened Wrappers
  import opened Models
  import opened UcpMeta

  datatype Cached = Cached(checkout: Checkout, deadline: Option<int>)

  predicate Expired(c: Cached, now: int) { c.deadline.Some? && now > c.deadline.value }

  // ---------- The store as a value

  datatype Contents = Contents(cache: map<string, Cached>, overlays: map<string, Option<Negotiated>>)

  const EMPTY := Contents(map[], map[])

  function Deadline(ttl: Option<nat>, now: int): Option<int> { if ttl.Some? then Some(now + ttl.value) else None }

  /** The session replaces the one with its id; what was negotiated for that id is kept. */
  function Inserted(s: Contents, c: Checkout, ttl: Option<nat>, now: int): Contents {
    Contents(s.cache[c.id := Cached(c, Deadline(ttl, now))],
             s.overlays[c.id := if c.id in s.overlays then s.overlays[c.id] else None])
  }

  /** The session a lookup at `now` finds. */
  function Live(s: Contents, id: string, now: int): Option<Checkout> {
    if id in s.cache && !Expired(s.cache[id], now) then Some(s.cache[id].checkout) else None
  }

  function Removed(s: Contents, id: string): Contents { Contents(s.cache - {id}, s.overlays - {id}) }

  /** A lookup drops the session when it has expired. */
  function LookedUp(s: Contents, id: string, now: int): Contents {
    if id in s.cache && Expired(s.cache[id], now) then Removed(s, id) else s
  }

  function Recorded(s: Contents, id: string, n: Negotiated): Contents {
    if id in s.overlays then s.(overlays := s.overlays[id := Some(n)]) else s
  }

  function NegotiatedFor(s: Contents, id: string): Option<Negotiated> {
    if id in s.overlays then s.overlays[id] else None
  }

  // ---------- The store as an object

  class CheckoutStore {
    var cache: map<string, Cached>
    var overlays: map<string, Option<Negotiated>>

    ghost function Value(): Contents
      reads this
    {
      Contents(cache, overlays)
    }

    constructor ()
      ensures Value() == EMPTY
    {
      cache, overlays := map[], map[];
    }

    method Insert(checkout: Checkout, ttl: Option<nat>, now: int)
      modifies this
      ensures Value() == Inserted(old(Value()), checkout, ttl, now)
    {
      var id := checkout.id;
      cache := cache[id := Cached(checkout, Deadline(ttl, now))];
      var existing := if id in overlays then overlays[id] else None;
      overlays := overlays[id := existing];
    }

    /** Looks in the cache first; an expired session is dropped from both maps. */
    method Get(id: string, now: int) returns (r: Option<Checkout>)
      modifies this
      ensures r == Live(old(Value()), id, now) && Value() == LookedUp(old(Value()), id, now)
    {
      if id in cache && !Expired(cache[id], now) { return Some(cache[id].checkout); }
      var expired := false;
      if id in cache {
        cache := cache - {id};
        expired := true;
      }
      if expired { overlays := overlays - {id}; }
      r := None;
    }

    method SetNegotiated(id: string, n: Negotiated)
      modifies this`overlays
      ensures Value() == Recorded(old(Value()), id, n)
    {
      if id in overlays { overlays := overlays[id := Some(n)]; }
    }

    method GetNegotiated(id: string) returns (r: Option<Negotiated>)
      ensures r == NegotiatedFor(Value(), id)
    {
      r := if id in overlays then overlays[id] else None;
    }

    method Remove(id: string)
      modifies this
      ensures Value() == Removed(old(Value()), id)
    {
      cache := cache - {id};
      overlays := overlays - {id};
    }
  }

  // ---------- What a history of operations leaves

  datatype StoreOp =
    | DoInsert(checkout: Checkout, ttl: Option<nat>)
    | DoGet(id: string)
    | DoNegotiate(id: string, negotiated: Negotiated)
    | DoRemove(id: string)

  datatype Timed = Timed(op: StoreOp, now: int)

  function After(s: Contents, t: Timed): Contents {
    match t.op
    case DoInsert(c, ttl) => Inserted(s, c, ttl, t.now)
    case DoGet(id) => LookedUp(s, id, t.now)
    case DoNegotiate(id, n) => Recorded(s, id, n)
    case DoRemove(id) => Removed(s, id)
  }

  /** The store after the first `n` operations on an empty one. */
  function StoreAfter(h: seq<Timed>, n: nat): Contents
    requires n <= |h|
  {
    if n == 0 then EMPTY else After(StoreAfter(h, n - 1), h[n - 1])
  }

  ghost predicate Ordered(h: seq<Timed>) { forall i, j :: 0 <= i < j < |h| ==> h[i].now <= h[j].now }

  /** What a session table without any eviction remembers: the last insert for an id, unless it was removed since. */
  function LastInsert(h: seq<Timed>, n: nat, id: string): Option<Cached>
    requires n <= |h|
  {
    if n == 0 then None else
    var t := h[n - 1];
    if t.op.DoInsert? && t.op.checkout.id == id then Some(Cached(t.op.checkout, Deadline(t.op.ttl, t.now)))
    else if t.op.DoRemove? && t.op.id == id then None
    else LastInsert(h, n - 1, id)
  }

  /** A negotiated set always belongs to a cached session. */
  lemma {:induction false} OverlaysFollowTheCache(h: seq<Timed>, n: nat)
    requires n <= |h|
    ensures StoreAfter(h, n).overlays.Keys == StoreAfter(h, n).cache.Keys
  {
    if n > 0 { OverlaysFollowTheCache(h, n - 1); }
  }

  /** The cache holds the last insert, or has dropped it after its deadline. */
  lemma {:induction false} CacheHoldsLastInsert(h: seq<Timed>, n: nat, id: string)
    requires n <= |h| && Ordered(h)
    ensures var s, last := StoreAfter(h, n), LastInsert(h, n, id);
      if id in s.cache then last == Some(s.cache[id])
      else last.Some? ==> n > 0 && Expired(last.value, h[n - 1].now)
  {
    if n > 0 {
      CacheHoldsLastInsert(h, n - 1, id);
    }
  }

  /**
   Dropping on lookup is invisible: a lookup finds exactly the last insert, as long as its deadline has not passed.
   */
  lemma LookupFindsLastInsert(h: seq<Timed>, id: string, now: int)
    requires Ordered(h) && (h != [] ==> h[|h| - 1].now <= now)
    ensures var last := LastInsert(h, |h|, id);
      Live(StoreAfter(h, |h|), id, now) ==
        if last.Some? && !Expired(last.value, now) then Some(last.value.checkout) else None
  {
    CacheHoldsLastInsert(h, |h|, id);
  }
}
