/**
 * The server logger's transport list and the named-logger registry.
 *
 * The Server logger starts with a console and a file transport; a MongoDB
 * transport is appended or replaced as the database connection reports its
 * state. Winston transports are abstracted to their kind, so the logger's
 * state is a sequence of `Transport` tags in the order winston holds them.
 */
module Logger {

  datatype Transport = Console | File | Mongo

  /** The connection events `init` subscribes to. */
  datatype ConnectionEvent = Connected | Reconnected | Disconnected | Error

  /** Number of MongoDB transports attached. */
  function MongoCount(ts: seq<Transport>): nat {
    multiset(ts)[Mongo]
  }

  /** `addMongoDBTransport`: one new MongoDB transport goes after the existing ones. */
  function AddMongo(ts: seq<Transport>): (r: seq<Transport>)
    ensures |r| == |ts| + 1
    ensures r[..|ts|] == ts
    ensures r[|ts|] == Mongo
    ensures MongoCount(r) == MongoCount(ts) + 1
  {
    ts + [Mongo]
  }

  /** The `filter` that drops every transport that is a MongoDB transport. */
  function WithoutMongo(ts: seq<Transport>): (r: seq<Transport>)
    ensures Mongo !in r
    ensures forall t :: t != Mongo ==> multiset(r)[t] == multiset(ts)[t]
    decreases |ts|
  {
    if ts == [] then []
    else
      var init, last := ts[..|ts| - 1], ts[|ts| - 1];
      assert ts == init + [last];
      WithoutMongo(init) + (if last == Mongo then [] else [last])
  }

  /** Indices of the non-MongoDB transports of `ts`, ascending. */
  function Kept(ts: seq<Transport>): (idx: seq<nat>)
    ensures forall k :: 0 <= k < |idx| ==> idx[k] < |ts| && ts[idx[k]] != Mongo
    ensures forall k, l :: 0 <= k < l < |idx| ==> idx[k] < idx[l]
    ensures forall j :: 0 <= j < |ts| && ts[j] != Mongo ==> j in idx
    decreases |ts|
  {
    if ts == [] then []
    else
      var n := |ts| - 1;
      Kept(ts[..n]) + (if ts[n] == Mongo then [] else [n])
  }

  /**
   * The filter keeps exactly the non-MongoDB transports, in their original
   * relative order: its k-th element is the transport at the k-th kept index.
   */
  lemma {:induction false} WithoutMongoListsKept(ts: seq<Transport>)
    ensures |WithoutMongo(ts)| == |Kept(ts)|
    ensures forall k :: 0 <= k < |Kept(ts)| ==> WithoutMongo(ts)[k] == ts[Kept(ts)[k]]
    decreases |ts|
  {
    if ts != [] {
      var n := |ts| - 1;
      var init := ts[..n];
      WithoutMongoListsKept(init);
      forall k | 0 <= k < |Kept(init)|
        ensures WithoutMongo(ts)[k] == ts[Kept(ts)[k]]
      {
        assert Kept(ts)[k] == Kept(init)[k];
        assert WithoutMongo(ts)[k] == WithoutMongo(init)[k];
      }
    }
  }

  /** Filtering distributes over concatenation. */
  lemma {:induction false} WithoutMongoAppend(a: seq<Transport>, b: seq<Transport>)
    ensures WithoutMongo(a + b) == WithoutMongo(a) + WithoutMongo(b)
    decreases |b|
  {
    if b == [] {
      assert a + b == a;
    } else {
      var n := |b| - 1;
      WithoutMongoAppend(a, b[..n]);
      assert (a + b)[..|a + b| - 1] == a + b[..n];
    }
  }

  /** A list without MongoDB transports passes the filter unchanged. */
  lemma {:induction false} WithoutMongoKeepsClean(ts: seq<Transport>)
    requires Mongo !in ts
    ensures WithoutMongo(ts) == ts
    decreases |ts|
  {
    if ts != [] {
      var n := |ts| - 1;
      assert ts[n] in ts;
      assert forall j :: 0 <= j < n ==> ts[..n][j] == ts[j];
      WithoutMongoKeepsClean(ts[..n]);
      assert ts == ts[..n] + [ts[n]];
    }
  }

  /**
   * The `reconnected` handler: every MongoDB transport is filtered out and
   * one fresh one is appended.
   */
  function OnReconnected(ts: seq<Transport>): (r: seq<Transport>)
    ensures |r| > 0 && r[|r| - 1] == Mongo
    ensures MongoCount(r) == 1
    ensures WithoutMongo(r) == WithoutMongo(ts)
  {
    var kept := WithoutMongo(ts);
    WithoutMongoAppend(kept, [Mongo]);
    WithoutMongoKeepsClean(kept);
    AddMongo(kept)
  }

  /** Reconnecting twice leaves the same list as reconnecting once. */
  lemma ReconnectIdempotent(ts: seq<Transport>)
    ensures OnReconnected(OnReconnected(ts)) == OnReconnected(ts)
  {
  }

  /**
   * The effect of one connection event on the Server logger's transports.
   * `disconnected` and `error` only log: their filtering is commented out.
   */
  function Step(ts: seq<Transport>, ev: ConnectionEvent): (r: seq<Transport>)
    ensures WithoutMongo(r) == WithoutMongo(ts)
    ensures ev.Connected? ==> |r| == |ts| + 1 && r[..|ts|] == ts && MongoCount(r) == MongoCount(ts) + 1
    ensures ev.Reconnected? ==> |r| > 0 && r[|r| - 1] == Mongo && MongoCount(r) == 1
    ensures ev.Disconnected? || ev.Error? ==> r == ts
  {
    match ev
    case Connected =>
      assert AddMongo(ts)[..|ts|] == ts;
      AddMongo(ts)
    case Reconnected => OnReconnected(ts)
    case Disconnected => ts
    case Error => ts
  }

  /** The transports after a sequence of connection events, in delivery order. */
  function Run(ts: seq<Transport>, evs: seq<ConnectionEvent>): seq<Transport>
    decreases |evs|
  {
    if evs == [] then ts else Run(Step(ts, evs[0]), evs[1..])
  }

  /**
   * `init`: the Server logger starts with console and file transports, and
   * gets a MongoDB transport at once when the connection is already open.
   */
  function Init(alreadyConnected: bool): (ts: seq<Transport>)
    ensures !alreadyConnected ==> ts == [Console, File]
    ensures alreadyConnected ==> ts == [Console, File, Mongo]
    ensures Shaped(ts)
  {
    var base := [Console, File];
    if alreadyConnected then AddMongo(base) else base
  }

  /** Console, then file, then nothing but MongoDB transports. */
  predicate Shaped(ts: seq<Transport>) {
    && |ts| >= 2
    && ts[0] == Console
    && ts[1] == File
    && forall i :: 2 <= i < |ts| ==> ts[i] == Mongo
  }

  /** The non-MongoDB part of a shaped list is exactly console then file. */
  lemma {:induction false} ShapedWithoutMongo(ts: seq<Transport>)
    requires Shaped(ts)
    ensures WithoutMongo(ts) == [Console, File]
    decreases |ts|
  {
    if |ts| == 2 {
      assert ts == [Console, File];
      assert ts[..1] == [Console];
      assert WithoutMongo(ts[..1]) == [Console] by {
        assert ts[..1][..0] == [];
      }
    } else {
      ShapedWithoutMongo(ts[..|ts| - 1]);
    }
  }

  /** No connection event changes the list's shape. */
  lemma StepKeepsShape(ts: seq<Transport>, ev: ConnectionEvent)
    requires Shaped(ts)
    ensures Shaped(Step(ts, ev))
  {
    if ev.Reconnected? {
      ShapedWithoutMongo(ts);
    }
  }

  /**
   * Starting from `init`, any history of connection events keeps the console
   * and file transports first and in place, followed only by MongoDB ones.
   */
  lemma {:induction false} RunKeepsShape(ts: seq<Transport>, evs: seq<ConnectionEvent>)
    requires Shaped(ts)
    ensures Shaped(Run(ts, evs))
    decreases |evs|
  {
    if evs != [] {
      StepKeepsShape(ts, evs[0]);
      RunKeepsShape(Step(ts, evs[0]), evs[1..]);
    }
  }

  /** The non-MongoDB transports survive any history of events unchanged and in order. */
  lemma {:induction false} RunKeepsOthers(ts: seq<Transport>, evs: seq<ConnectionEvent>)
    ensures WithoutMongo(Run(ts, evs)) == WithoutMongo(ts)
    decreases |evs|
  {
    if evs != [] {
      RunKeepsOthers(Step(ts, evs[0]), evs[1..]);
    }
  }

  /**
   * The number of MongoDB transports as a counter: `connected` adds one,
   * `reconnected` resets it to one, `disconnected` and `error` leave it.
   */
  function CountAfter(n: nat, evs: seq<ConnectionEvent>): nat
    decreases |evs|
  {
    if evs == [] then n
    else
      var next := match evs[0]
        case Connected => n + 1
        case Reconnected => 1
        case Disconnected => n
        case Error => n;
      CountAfter(next, evs[1..])
  }

  /** The transport list refines the counter: both agree after any history. */
  lemma {:induction false} RunMongoCount(ts: seq<Transport>, evs: seq<ConnectionEvent>)
    ensures MongoCount(Run(ts, evs)) == CountAfter(MongoCount(ts), evs)
    decreases |evs|
  {
    if evs != [] {
      RunMongoCount(Step(ts, evs[0]), evs[1..]);
    }
  }

  /** A `connected` event followed by `reconnected` leaves exactly one MongoDB transport. */
  lemma ConnectThenReconnect(alreadyConnected: bool)
    ensures MongoCount(Run(Init(alreadyConnected), [Connected, Reconnected])) == 1
  {
  }

  /**
   * `connected` does not deduplicate: when the connection was already open at
   * `init`, a later `connected` event leaves two MongoDB transports.
   */
  lemma ConnectedDuplicates()
    ensures MongoCount(Run(Init(true), [Connected])) == 2
  {
  }

  /** `disconnected` and `error` leave a stale MongoDB transport in place. */
  lemma DisconnectKeepsSink()
    ensures MongoCount(Run(Init(true), [Disconnected, Error])) == 1
  {
  }

  /** The registry keys; the service enumeration itself is not part of this model. */
  datatype Service = Server | Other(name: string)

  /**
   * `get(name)`: the logger registered under `name`, or else the Server
   * logger. Winston's container creates a logger on demand when asked for an
   * id it does not hold; `created` is the logger it would create, and the
   * returned registry records it.
   */
  function Get<L>(reg: map<Service, L>, name: Service, created: L): (r: (L, map<Service, L>))
    ensures name in reg ==> r.0 == reg[name] && r.1 == reg
    ensures name !in reg ==> Server in r.1 && r.0 == r.1[Server]
    ensures name !in reg && Server in reg ==> r.0 == reg[Server]
    ensures name !in reg && Server !in reg ==> r.0 == created
    ensures forall s :: s in reg ==> s in r.1 && r.1[s] == reg[s]
    ensures r.1.Keys <= reg.Keys + {Server}
    ensures Server in reg ==> r.1 == reg
  {
    if name !in reg then
      if Server in reg then (reg[Server], reg) else (created, reg[Server := created])
    else
      (reg[name], reg)
  }

  /**
   * Repeated lookups of the same name return the same logger and leave the
   * registry as the first lookup left it.
   */
  lemma GetIdempotent<L>(reg: map<Service, L>, name: Service, created: L, again: L)
    ensures Get(Get(reg, name, created).1, name, again) == Get(reg, name, created)
  {
  }
}
