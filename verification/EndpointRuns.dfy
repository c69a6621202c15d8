/**
 Whole runs of the three protocols over one service (src/idempotency.rs, src/mcp.rs, src/a2a.rs): requests of all
 kinds in any order, with a clock that does not run backwards. A key reaches the service at most once while its answer
 lives.
 */
module EndpointRuns {
  import opened Wrappers
  import opened Models
  import opened UcpMeta
  import opened Cart
  import opened Checkouts
  import opened Runs
  import opened RunFacts
  import opened RequestHash
  import opened Endpoints
  import Json
  import Canonical
  import R = Replay

  datatype Ttls = Ttls(http: nat, mcp: nat, a2a: nat)

  /** Everything a run depends on. */
  datatype Setup = Setup(cfg: Config, catalog: Catalog, ttls: Ttls)

  function Ttl(u: Setup, p: R.Policy): nat {
    match p
    case Http => u.ttls.http
    case Mcp => u.ttls.mcp
    case A2a => u.ttls.a2a
  }

  // ---------- One request to one protocol

  /** The live record under a key. */
  function FoundFor(u: Setup, p: R.Policy, m: Entries, key: string, q: Incoming): Option<R.Record<Answer>> {
    R.Found(m, key, q.t.now, Ttl(u, p))
  }

  function Once(u: Setup, p: R.Policy, m: Entries, w: World, q: Incoming): Effect {
    Received(p, Ttl(u, p), u.cfg, u.catalog, m, w, q)
  }

  lemma NoFault(p: R.Policy, q: Incoming)
    ensures KeyOf(p, q).Some? ==> KeyFault(p, q).None?
  {
  }

  /** An answer given afresh under a key, and kept, is stored. */
  lemma OnceStores(u: Setup, p: R.Policy, m: Entries, w: World, q: Incoming)
    requires KeyOf(p, q).Some?
    ensures var e, key := Once(u, p, m, w, q), KeyOf(p, q).value;
      e.reply.Served? && Kept(p, q.body, e.reply.response) ==>
        key in e.entries && e.entries[key] == RecordFor(q, e.reply.response)
  {
    hide Answered, Kept, KeyOf, KeyFault, R.AfterLookup, R.Found, HashOf;
    NoFault(p, q);
    var e, key := Once(u, p, m, w, q), KeyOf(p, q).value;
    if e.reply.Served? { R.StoredFrom(p, m, key, RecordFor(q, e.reply.response), q.t.now, Ttl(u, p), key); }
  }

  /** A live record is left alone by requests under other keys, and by those that find it. */
  lemma OnceKeeps(u: Setup, p: R.Policy, m: Entries, w: World, q: Incoming, key: string)
    requires key in m && R.Live(m[key], q.t.now, Ttl(u, p))
    ensures var n := Once(u, p, m, w, q).entries; key in n && n[key] == m[key]
  {
    hide Answered, Kept, KeyOf, KeyFault, R.AfterLookup, R.AfterInsert, R.Live, HashOf;
    if KeyFault(p, q).None? && KeyOf(p, q).Some? {
      R.LiveIsKept(p, m, KeyOf(p, q).value, RecordFor(q, Answered(u.cfg, u.catalog, w, q).0), q.t.now, Ttl(u, p), key);
    }
  }

  /** What is in the store afterwards was there before, or is the answer kept. */
  lemma OnceOrigin(u: Setup, p: R.Policy, m: Entries, w: World, q: Incoming, key: string)
    requires key in Once(u, p, m, w, q).entries
    ensures var e := Once(u, p, m, w, q);
      (key in m && e.entries[key] == m[key]) ||
      (KeyOf(p, q) == Some(key) && e.reply.Served? && Kept(p, q.body, e.reply.response) &&
       e.entries[key] == RecordFor(q, e.reply.response))
  {
    hide Answered, Kept, KeyOf, KeyFault, R.AfterLookup, R.AfterInsert, R.Live, HashOf;
    if KeyFault(p, q).None? && KeyOf(p, q).Some? {
      R.StoredFrom(p, m, KeyOf(p, q).value, RecordFor(q, Answered(u.cfg, u.catalog, w, q).0), q.t.now, Ttl(u, p), key);
    }
  }

  /** A request reaches the service when it is answered afresh and could be read. */
  predicate Reaches(q: Incoming, e: Effect) { e.reply.Served? && q.body.Readable? }

  /** Only a request that reaches the service changes it. */
  lemma OnlyReachingChanges(u: Setup, p: R.Policy, m: Entries, w: World, q: Incoming)
    ensures !Reaches(q, Once(u, p, m, w, q)) ==> Once(u, p, m, w, q).world == w
  {
    hide Acted, KeyOf, KeyFault, R.AfterLookup, R.AfterInsert, R.Found, HashOf, Kept;
  }

  /**
   Whatever reaches the service under a key is kept, errors included: MCP keeps what it could read, A2A everything, and
   HTTP all answers of the service, none of which has a status of 500 or above.
   */
  lemma ReachingIsKept(u: Setup, p: R.Policy, m: Entries, w: World, q: Incoming)
    requires Reaches(q, Once(u, p, m, w, q))
    ensures Kept(p, q.body, Once(u, p, m, w, q).reply.response)
  {
    hide Acted, KeyOf, KeyFault, R.AfterLookup, R.AfterInsert, R.Found, HashOf;
  }

  /** A live record decides the answer; without one the service is asked. */
  lemma OnceAnswers(u: Setup, p: R.Policy, m: Entries, w: World, q: Incoming)
    requires KeyOf(p, q).Some?
    ensures var e, found := Once(u, p, m, w, q), FoundFor(u, p, m, KeyOf(p, q).value, q);
      (found.None? ==> e.reply.Served?) && (found.Some? ==> e.world == w) &&
      (found.Some? ==> e.reply == AnswerOf(found.value, q.payload))
  {
    hide Answered, Kept, KeyOf, KeyFault, R.AfterLookup, R.AfterInsert, HashOf;
    NoFault(p, q);
  }

  /** How a record answers a request: with what it holds, or with a conflict when the payload is another one. */
  function AnswerOf(r: R.Record<Answer>, x: Payload): R.Reply<Answer> {
    if r.hash == HashOf(x) then R.Replayed(r.response) else R.Conflict
  }

  // ---------- Runs of all protocols

  /** The stores of the three protocols, what the contexts of A2A are about, and the service they share. */
  datatype System = System(http: Entries, mcp: Entries, a2a: Entries, contexts: Contexts, world: World)

  datatype Arrival = ByHttp(q: Incoming) | ByMcp(q: Incoming) | ByA2a(m: A2aMessage)

  function ProtocolOf(a: Arrival): R.Policy {
    match a
    case ByHttp(_) => R.Http
    case ByMcp(_) => R.Mcp
    case ByA2a(_) => R.A2a
  }

  function PayloadOf(a: Arrival): Payload { if a.ByA2a? then a.m.payload else a.q.payload }

  function TimeOf(a: Arrival): nat { if a.ByA2a? then a.m.t.now else a.q.t.now }

  function EntriesOf(s: System, p: R.Policy): Entries {
    match p
    case Http => s.http
    case Mcp => s.mcp
    case A2a => s.a2a
  }

  /** What a request asks for; messages are read in their context. */
  function AskedIn(s: System, a: Arrival): Incoming { if a.ByA2a? then Asked(s.contexts, a.m) else a.q }

  function EffectOf(u: Setup, s: System, a: Arrival): Effect {
    Once(u, ProtocolOf(a), EntriesOf(s, ProtocolOf(a)), s.world, AskedIn(s, a))
  }

  function SystemNext(u: Setup, s: System, a: Arrival): System {
    var e := EffectOf(u, s, a);
    match a
    case ByHttp(_) => s.(http := e.entries, world := e.world)
    case ByMcp(_) => s.(mcp := e.entries, world := e.world)
    case ByA2a(m) => s.(a2a := e.entries, contexts := ContextsAfter(s.contexts, m, e.reply), world := e.world)
  }

  const IDLE := System(map[], map[], map[], map[], START)

  /** The system after the first `n` requests. */
  function SystemAfter(u: Setup, run: seq<Arrival>, n: nat): System
    requires n <= |run|
  {
    if n == 0 then IDLE else SystemNext(u, SystemAfter(u, run, n - 1), run[n - 1])
  }

  function EffectAt(u: Setup, run: seq<Arrival>, n: nat): Effect
    requires n < |run|
  {
    EffectOf(u, SystemAfter(u, run, n), run[n])
  }

  ghost predicate InOrder(run: seq<Arrival>) {
    forall i, j :: 0 <= i < j < |run| ==> TimeOf(run[i]) <= TimeOf(run[j])
  }

  /** The protocol and the key a request is guarded by. */
  function Guard(a: Arrival): Option<(R.Policy, string)> {
    if a.ByA2a? then
      if a.m.parts.Some? && a.m.id.Some? then Some((R.A2a, a.m.id.value)) else None
    else
      var key := KeyOf(ProtocolOf(a), a.q);
      if key.Some? then Some((ProtocolOf(a), key.value)) else None
  }

  /** The guard does not depend on the context a message is read in. */
  lemma GuardIsKey(s: System, a: Arrival)
    ensures var key, q := KeyOf(ProtocolOf(a), AskedIn(s, a)), AskedIn(s, a);
      q.payload == PayloadOf(a) && q.t.now == TimeOf(a) && Guard(a).Some? == key.Some? &&
      (key.Some? ==> Guard(a).value == (ProtocolOf(a), key.value))
  {
    hide Dispatched, Merged, HttpKeyFault;
    if a.ByA2a? && a.m.parts.Some? {
      NeverAbsent(Merged(a.m.parts.value, |a.m.parts.value|), CurrentIn(s.contexts, a.m.context));
    }
  }

  /** Request `n` was answered afresh under a key, and the answer kept. */
  ghost predicate Keeps(u: Setup, run: seq<Arrival>, n: nat)
    requires n < |run|
  {
    var e := EffectAt(u, run, n);
    Guard(run[n]).Some? && e.reply.Served? &&
    Kept(ProtocolOf(run[n]), AskedIn(SystemAfter(u, run, n), run[n]).body, e.reply.response)
  }

  /** Request `n` reached the service. */
  predicate ReachesAt(u: Setup, run: seq<Arrival>, n: nat)
    requires n < |run|
  {
    Reaches(AskedIn(SystemAfter(u, run, n), run[n]), EffectAt(u, run, n))
  }

  /** What is stored of request `n` when its answer is kept. */
  function RecordAt(u: Setup, run: seq<Arrival>, n: nat): R.Record<Answer>
    requires n < |run|
  {
    var e := EffectAt(u, run, n);
    R.Record(HashOf(PayloadOf(run[n])), if e.reply.Served? then e.reply.response else Unreadable(""), TimeOf(run[n]))
  }

  /** The request comes within the time to live of its protocol after an earlier one. */
  predicate Within(u: Setup, earlier: Arrival, later: Arrival) {
    TimeOf(later) - TimeOf(earlier) <= Ttl(u, ProtocolOf(earlier))
  }

  lemma StepParts(u: Setup, s: System, a: Arrival)
    ensures EntriesOf(SystemNext(u, s, a), ProtocolOf(a)) == EffectOf(u, s, a).entries
    ensures forall p :: p != ProtocolOf(a) ==> EntriesOf(SystemNext(u, s, a), p) == EntriesOf(s, p)
    ensures SystemNext(u, s, a).world == EffectOf(u, s, a).world
  {
    hide EffectOf, ContextsAfter;
  }

  /** A kept answer stays in its store for as long as it lives, whatever else arrives. */
  lemma {:induction false} KeptWhileLive(u: Setup, run: seq<Arrival>, i: nat, n: nat)
    requires InOrder(run) && i < n <= |run| && Keeps(u, run, i) && Within(u, run[i], run[n - 1])
    ensures var (p, key) := Guard(run[i]).value;
      var m := EntriesOf(SystemAfter(u, run, n), p);
      key in m && m[key] == RecordAt(u, run, i)
    decreases n
  {
    hide Once, Kept, KeyOf, Guard, EntriesOf, Ttl, SystemNext, AskedIn, HashOf;
    var s, a := SystemAfter(u, run, n - 1), run[n - 1];
    var (p, key) := Guard(run[i]).value;
    GuardIsKey(SystemAfter(u, run, i), run[i]);
    GuardIsKey(s, a);
    StepParts(u, s, a);
    if i == n - 1 {
      OnceStores(u, p, EntriesOf(s, p), s.world, AskedIn(s, a));
    } else {
      KeptWhileLive(u, run, i, n - 1);
      if ProtocolOf(a) == p { OnceKeeps(u, p, EntriesOf(s, p), s.world, AskedIn(s, a), key); }
    }
  }

  /** Every record in a store is an answer kept earlier under its key. */
  lemma {:induction false} Origin(u: Setup, run: seq<Arrival>, n: nat, p: R.Policy, key: string) returns (i: nat)
    requires n <= |run| && key in EntriesOf(SystemAfter(u, run, n), p)
    ensures i < n && Guard(run[i]) == Some((p, key)) && Keeps(u, run, i)
    ensures EntriesOf(SystemAfter(u, run, n), p)[key] == RecordAt(u, run, i)
  {
    hide Once, Kept, KeyOf, Guard, SystemNext, Ttl, AskedIn, HashOf;
    var s, a := SystemAfter(u, run, n - 1), run[n - 1];
    GuardIsKey(s, a);
    StepParts(u, s, a);
    if ProtocolOf(a) == p { OnceOrigin(u, p, EntriesOf(s, p), s.world, AskedIn(s, a), key); }
    if key in EntriesOf(s, p) && EntriesOf(SystemAfter(u, run, n), p)[key] == EntriesOf(s, p)[key] {
      i := Origin(u, run, n - 1, p, key);
    } else {
      i := n - 1;
    }
  }

  /**
   Within the time to live after a kept answer, a request under the same key does not reach the service and leaves it as
   it is: the same payload gets the kept answer, a different one a conflict.
   */
  lemma ReplayWithinWindow(u: Setup, run: seq<Arrival>, i: nat, j: nat)
    requires InOrder(run) && i < j < |run| && Keeps(u, run, i)
    requires Guard(run[j]) == Guard(run[i]) && Within(u, run[i], run[j])
    ensures !ReachesAt(u, run, j) && SystemAfter(u, run, j + 1).world == SystemAfter(u, run, j).world
    ensures EffectAt(u, run, j).reply == AnswerOf(RecordAt(u, run, i), PayloadOf(run[j]))
  {
    hide Once, Kept, KeyOf, Guard, SystemNext, EntriesOf, AskedIn, HashOf;
    KeptWhileLive(u, run, i, j);
    var s, a := SystemAfter(u, run, j), run[j];
    GuardIsKey(SystemAfter(u, run, i), run[i]);
    GuardIsKey(s, a);
    StepParts(u, s, a);
    OnceAnswers(u, ProtocolOf(a), EntriesOf(s, ProtocolOf(a)), s.world, AskedIn(s, a));
  }

  /** A guarded request is answered afresh exactly when no answer kept under its key is alive. */
  lemma ServedExactlyWhen(u: Setup, run: seq<Arrival>, j: nat)
    requires InOrder(run) && j < |run| && Guard(run[j]).Some?
    ensures EffectAt(u, run, j).reply.Served? <==>
      !exists i :: 0 <= i < j && Guard(run[i]) == Guard(run[j]) && Keeps(u, run, i) && Within(u, run[i], run[j])
  {
    hide Once, Keeps, KeyOf, Guard, EntriesOf, SystemAfter, AskedIn, HashOf;
    forall i | 0 <= i < j && Guard(run[i]) == Guard(run[j]) && Keeps(u, run, i) && Within(u, run[i], run[j])
      ensures !EffectAt(u, run, j).reply.Served?
    {
      ReplayWithinWindow(u, run, i, j);
    }
    var s, a := SystemAfter(u, run, j), run[j];
    GuardIsKey(s, a);
    OnceAnswers(u, ProtocolOf(a), EntriesOf(s, ProtocolOf(a)), s.world, AskedIn(s, a));
    if !EffectAt(u, run, j).reply.Served? {
      var (p, key) := Guard(a).value;
      var i := Origin(u, run, j, p, key);
      GuardIsKey(SystemAfter(u, run, i), run[i]);
    }
  }

  /** What reached the service under a key is kept. */
  lemma ReachedIsKept(u: Setup, run: seq<Arrival>, i: nat)
    requires i < |run| && Guard(run[i]).Some? && ReachesAt(u, run, i)
    ensures Keeps(u, run, i)
  {
    hide Once, Kept, KeyOf, Guard, SystemAfter, EntriesOf, AskedIn, Reaches;
    var s, a := SystemAfter(u, run, i), run[i];
    ReachingIsKept(u, ProtocolOf(a), EntriesOf(s, ProtocolOf(a)), s.world, AskedIn(s, a));
    assert EffectAt(u, run, i).reply.Served? by { ReachingIsServed(AskedIn(s, a), EffectAt(u, run, i)); }
  }

  lemma ReachingIsServed(q: Incoming, e: Effect)
    ensures Reaches(q, e) ==> e.reply.Served?
  {
  }

  /**
   At most once: after a request under a key reached the service, successfully or not, no request under that key reaches
   it within the time to live; each gets the answer of the first, or a conflict if it carries something else.
   */
  lemma AtMostOncePerWindow(u: Setup, run: seq<Arrival>, i: nat, j: nat)
    requires InOrder(run) && i < j < |run| && Guard(run[i]).Some? && Guard(run[j]) == Guard(run[i])
    requires Within(u, run[i], run[j]) && ReachesAt(u, run, i)
    ensures !ReachesAt(u, run, j) && SystemAfter(u, run, j + 1).world == SystemAfter(u, run, j).world
    ensures EffectAt(u, run, i).reply.Served?
    ensures EffectAt(u, run, j).reply == AnswerOf(RecordAt(u, run, i), PayloadOf(run[j]))
  {
    hide EffectOf, Kept, KeyOf, Guard, SystemNext, EntriesOf, Within, ReachesAt, HashOf;
    ReachedIsKept(u, run, i);
    ReplayWithinWindow(u, run, i, j);
  }

  /** Nothing else changes the service. */
  lemma ChangedIsReached(u: Setup, run: seq<Arrival>, i: nat)
    requires i < |run| && SystemAfter(u, run, i + 1).world != SystemAfter(u, run, i).world
    ensures ReachesAt(u, run, i)
  {
    hide Once, KeyOf, SystemNext, EntriesOf, AskedIn, Reaches;
    var s, a := SystemAfter(u, run, i), run[i];
    StepParts(u, s, a);
    OnlyReachingChanges(u, ProtocolOf(a), EntriesOf(s, ProtocolOf(a)), s.world, AskedIn(s, a));
  }

  // ---------- What counts as the same request

  /** The payload a protocol hashes, as it can arrive there. */
  ghost predicate IsPayloadOf(p: R.Policy, x: Payload) {
    match p
    case Http => x.HttpPayload? && NoNewline(x.path) && forall k :: 0 <= k < |x.verb| ==> x.verb[k] != ' '
    case Mcp => x.McpPayload? && Json.Valid(x.params)
    case A2a => x.A2aPayload? && Json.Valid(x.message)
  }

  /** The same request: up to member order and the way numbers are written, and if `exact` up to member order only. */
  ghost predicate SameRequest(x: Payload, y: Payload, exact: bool) {
    match (x, y)
    case (HttpPayload(_, _, _), _) => x == y
    case (McpPayload(v, params), McpPayload(w, others)) => v == w && Canonical.Equivalent(params, others, exact)
    case (A2aPayload(message), A2aPayload(other)) => Canonical.Equivalent(message, other, exact)
    case _ => false
  }

  lemma HashIdentifies(p: R.Policy, x: Payload, y: Payload)
    requires IsPayloadOf(p, x) && IsPayloadOf(p, y)
    ensures HashOf(x) == HashOf(y) ==> SameRequest(x, y, false)
    ensures SameRequest(x, y, true) ==> HashOf(x) == HashOf(y)
  {
    hide McpPreimage, A2aPreimage, HttpPreimage, Json.Valid, Canonical.Equivalent;
    match p
    case Http =>
      if HashOf(x) == HashOf(y) { HttpHashIdentifies(x.verb, x.path, x.text, y.verb, y.path, y.text); }
    case Mcp =>
      if HashOf(x) == HashOf(y) { McpHashIdentifies(x.verb, x.params, y.verb, y.params); }
      if Canonical.Equivalent(x.params, y.params, true) { McpHashIgnoresOrder(x.verb, x.params, y.params); }
    case A2a =>
      if HashOf(x) == HashOf(y) { A2aHashIdentifies(x.message, y.message); }
      if Canonical.Equivalent(x.message, y.message, true) { McpHashIgnoresOrder("", x.message, y.message); }
  }

  /**
   Within the time to live after a request that reached the service, the same request under its key, with members in any
   order, gets the answer again; and whatever gets it asked for the same.
   */
  lemma SameRequestIsReplayed(u: Setup, run: seq<Arrival>, i: nat, j: nat)
    requires InOrder(run) && i < j < |run| && Guard(run[i]).Some? && Guard(run[j]) == Guard(run[i])
    requires Within(u, run[i], run[j]) && ReachesAt(u, run, i)
    requires IsPayloadOf(ProtocolOf(run[i]), PayloadOf(run[i])) && IsPayloadOf(ProtocolOf(run[j]), PayloadOf(run[j]))
    ensures var x, y, reply := PayloadOf(run[i]), PayloadOf(run[j]), EffectAt(u, run, j).reply;
      (SameRequest(x, y, true) ==> reply == R.Replayed(EffectAt(u, run, i).reply.response)) &&
      (reply.Replayed? ==> SameRequest(x, y, false)) && (reply.Replayed? || reply.Conflict?)
  {
    hide EffectOf, ReachesAt, KeyOf, Guard, SystemAfter, IsPayloadOf, SameRequest, HashOf, Within;
    AtMostOncePerWindow(u, run, i, j);
    SameGuard(run[i], run[j]);
    HashIdentifies(ProtocolOf(run[i]), PayloadOf(run[i]), PayloadOf(run[j]));
  }

  lemma SameGuard(a: Arrival, b: Arrival)
    requires Guard(a).Some? && Guard(b) == Guard(a)
    ensures ProtocolOf(a) == ProtocolOf(b)
  {
  }

  // ---------- Contexts

  /** The checkout last shown in a context by the first `n` requests. */
  function LastShown(u: Setup, run: seq<Arrival>, n: nat, context: string): Option<string>
    requires n <= |run|
  {
    if n == 0 then None else
    var a, reply := run[n - 1], EffectAt(u, run, n - 1).reply;
    if a.ByA2a? && a.m.context == context && reply.Served? && reply.response.Shown? then
      Some(reply.response.checkout.id)
    else LastShown(u, run, n - 1, context)
  }

  lemma {:induction false} ContextIsLastShown(u: Setup, run: seq<Arrival>, n: nat, context: string)
    requires n <= |run|
    ensures CurrentIn(SystemAfter(u, run, n).contexts, context) == LastShown(u, run, n, context)
  {
    hide EffectOf;
    if n > 0 { ContextIsLastShown(u, run, n - 1, context); }
  }

  /** The checkout an action is about. */
  function AboutOf(r: Action): Option<string> {
    match r
    case Get(id) => Some(id)
    case Update(id, _, _) => Some(id)
    case Complete(id, _) => Some(id)
    case Cancel(id) => Some(id)
    case _ => None
  }

  /** A message that can be read and names no checkout acts on the one its context is about. */
  lemma DispatchedInContext(p: Part, current: Option<string>)
    requires OwnId(p).None? && Dispatched(p, current).Readable? && !Dispatched(p, current).action.Create?
    ensures AboutOf(Dispatched(p, current).action) == current
  {
  }

  /** A message that names no checkout continues with the one last shown in its context. */
  lemma MessageContinues(u: Setup, run: seq<Arrival>, n: nat)
    requires n < |run| && run[n].ByA2a? && run[n].m.parts.Some?
    requires OwnId(Merged(run[n].m.parts.value, |run[n].m.parts.value|)).None?
    requires var b := AskedIn(SystemAfter(u, run, n), run[n]).body; b.Readable? && !b.action.Create?
    ensures AboutOf(AskedIn(SystemAfter(u, run, n), run[n]).body.action) == LastShown(u, run, n, run[n].m.context)
  {
    hide EffectAt, Dispatched, Merged, SystemAfter, LastShown;
    var m := run[n].m;
    ContextIsLastShown(u, run, n, m.context);
    DispatchedInContext(Merged(m.parts.value, |m.parts.value|), CurrentIn(SystemAfter(u, run, n).contexts, m.context));
  }

  // ---------- Orders

  /** How many orders the service announces on request `n`. */
  function OrdersAt(u: Setup, run: seq<Arrival>, n: nat): int
    requires n < |run|
  {
    |SystemAfter(u, run, n + 1).world.orders| - |SystemAfter(u, run, n).world.orders|
  }

  /** How many orders requests `from` up to `upto` announce under a key. */
  function OrdersUnder(u: Setup, run: seq<Arrival>, guard: (R.Policy, string), from: nat, upto: nat): int
    requires from <= upto <= |run|
  {
    if from == upto then 0 else
    OrdersUnder(u, run, guard, from, upto - 1) +
    if Guard(run[upto - 1]) == Some(guard) then OrdersAt(u, run, upto - 1) else 0
  }

  lemma OnceAnnounces(u: Setup, p: R.Policy, m: Entries, w: World, q: Incoming)
    ensures w.orders <= Once(u, p, m, w, q).world.orders && |Once(u, p, m, w, q).world.orders| <= |w.orders| + 1
  {
    hide Handle, KeyOf, KeyFault, R.AfterLookup, R.AfterInsert, R.Found, Projected, Kept, Prepared, HashOf;
    if q.body.Readable? { StepOrders(u.cfg, u.catalog, w, Call(Prepared(u.cfg, q.body.action, q.negotiated), q.t)); }
  }

  lemma StepAnnounces(u: Setup, s: System, a: Arrival)
    ensures s.world.orders <= SystemNext(u, s, a).world.orders
    ensures |SystemNext(u, s, a).world.orders| <= |s.world.orders| + 1
  {
    hide Once, EntriesOf, AskedIn;
    StepParts(u, s, a);
    OnceAnnounces(u, ProtocolOf(a), EntriesOf(s, ProtocolOf(a)), s.world, AskedIn(s, a));
  }

  lemma NoOrderAgain(u: Setup, run: seq<Arrival>, i: nat, j: nat)
    requires InOrder(run) && i < j < |run| && Guard(run[i]).Some? && Guard(run[j]) == Guard(run[i])
    requires ReachesAt(u, run, i) && Within(u, run[i], run[j])
    ensures OrdersAt(u, run, j) == 0
  {
    hide EffectAt, KeyOf, Guard, SystemAfter, Within, ReachesAt, InOrder;
    AtMostOncePerWindow(u, run, i, j);
  }

  lemma {:induction false} NoMoreOrders(u: Setup, run: seq<Arrival>, guard: (R.Policy, string), i: nat, upto: nat)
    requires InOrder(run) && i < upto <= |run| && Guard(run[i]) == Some(guard)
    requires ReachesAt(u, run, i) && Within(u, run[i], run[upto - 1])
    ensures OrdersUnder(u, run, guard, i + 1, upto) == 0
    decreases upto
  {
    hide EffectAt, KeyOf, Guard, SystemAfter, Ttl, ReachesAt, OrdersAt;
    if i + 1 < upto {
      NoMoreOrders(u, run, guard, i, upto - 1);
      if Guard(run[upto - 1]) == Some(guard) { NoOrderAgain(u, run, i, upto - 1); }
    }
  }

  lemma {:induction false} OrdersSplit(
    u: Setup, run: seq<Arrival>, guard: (R.Policy, string), from: nat, i: nat, upto: nat)
    requires from <= i <= upto <= |run|
    ensures OrdersUnder(u, run, guard, from, upto) ==
      OrdersUnder(u, run, guard, from, i) + OrdersUnder(u, run, guard, i, upto)
    decreases upto
  {
    hide OrdersAt, Guard;
    if i < upto { OrdersSplit(u, run, guard, from, i, upto - 1); }
  }

  /** Under one key the service announces at most one order within the time to live. */
  lemma {:induction false} OneOrderPerKey(
    u: Setup, run: seq<Arrival>, guard: (R.Policy, string), from: nat, upto: nat)
    requires InOrder(run) && from <= upto <= |run|
    requires from < upto ==> TimeOf(run[upto - 1]) - TimeOf(run[from]) <= Ttl(u, guard.0)
    ensures 0 <= OrdersUnder(u, run, guard, from, upto) <= 1
    decreases upto - from
  {
    hide EffectAt, KeyOf, Guard, SystemNext, Ttl, ReachesAt, AskedIn;
    if from < upto {
      OneOrderPerKey(u, run, guard, from + 1, upto);
      OrdersSplit(u, run, guard, from, from + 1, upto);
      assert OrdersUnder(u, run, guard, from, from + 1) ==
        (if Guard(run[from]) == Some(guard) then OrdersAt(u, run, from) else 0);
      StepAnnounces(u, SystemAfter(u, run, from), run[from]);
      if Guard(run[from]) == Some(guard) && OrdersAt(u, run, from) > 0 {
        GuardIsKey(SystemAfter(u, run, from), run[from]);
        ChangedIsReached(u, run, from);
        NoMoreOrders(u, run, guard, from, upto);
      }
    }
  }

  // ---------- The service behind the protocols

  lemma ActKeepsSane(u: Setup, w: World, q: Incoming)
    requires Sane(u.cfg, u.catalog, w)
    ensures Sane(u.cfg, u.catalog, Answered(u.cfg, u.catalog, w, q).1)
  {
    hide Sane, Handle, Projected, Prepared, Recording;
    if q.body.Readable? {
      var call := Call(Prepared(u.cfg, q.body.action, q.negotiated), q.t);
      StepKeepsSane(u.cfg, u.catalog, w, call);
      var s := Handle(u.cfg, u.catalog, w, call);
      if s.reply.Ok? && q.negotiated.Some? {
        RecordingKeepsSane(u.cfg, u.catalog, s.world, s.reply.value.id, q.negotiated.value);
      }
    }
  }

  lemma OnceKeepsSane(u: Setup, p: R.Policy, m: Entries, w: World, q: Incoming)
    requires Sane(u.cfg, u.catalog, w)
    ensures Sane(u.cfg, u.catalog, Once(u, p, m, w, q).world)
  {
    hide Sane, Answered, KeyOf, KeyFault, R.AfterLookup, R.AfterInsert, R.Found, Kept, HashOf;
    ActKeepsSane(u, w, q);
  }

  /** Whatever arrives over whichever protocol, the service keeps its invariant: consistent sessions, one order each. */
  lemma {:induction false} SystemIsSane(u: Setup, run: seq<Arrival>, n: nat)
    requires n <= |run|
    ensures Sane(u.cfg, u.catalog, SystemAfter(u, run, n).world)
  {
    hide Sane, Once, EntriesOf, AskedIn, SystemNext;
    if n > 0 {
      var s, a := SystemAfter(u, run, n - 1), run[n - 1];
      SystemIsSane(u, run, n - 1);
      StepParts(u, s, a);
      OnceKeepsSane(u, ProtocolOf(a), EntriesOf(s, ProtocolOf(a)), s.world, AskedIn(s, a));
    } else {
      RunIsSane(u.cfg, u.catalog, [], 0);
    }
  }
}
