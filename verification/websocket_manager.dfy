/** The subscription registry behind the real-time quote feed: which
    clients are connected, which symbols each client follows and the
    reverse index from a symbol to its subscribers, plus a bounded queue of
    messages kept for clients that are not connected. Clock readings are
    passed in as ISO text; what the socket is asked to send is recorded in
    an outbox. */
module WebSockets {
  import opened Values
  import opened Sockets

  /** The message dicts the manager sends or queues:
      `{'client_id', 'timestamp'}` on connect, `{'type':
      'subscription_confirmed', 'symbols', 'timestamp'}`, `{'type':
      'stock_update', 'symbol', 'data', 'timestamp'}`, `{'type':
      'system_message', 'data', 'timestamp'}` and `{'timestamp'}` for a
      pong. */
  datatype Message =
    | ConnectionEstablished(clientId: string, timestamp: string)
    | SubscriptionConfirmed(symbols: seq<string>, timestamp: string)
    | StockUpdate(symbol: string, data: Dict, timestamp: string)
    | SystemMessage(data: Dict, timestamp: string)
    | Pong(timestamp: string)

  /** A dict of sets: client -> symbols, or symbol -> clients. */
  type Index = map<string, set<string>>

  /** The two indexes agree (a client follows a symbol exactly when it is
      among the symbol's subscribers) and no symbol is left with an empty
      subscriber set. */
  ghost predicate Registry(subscriptions: Index, subscribers: Index)
  {
    && (forall c, s :: c in subscriptions && s in subscriptions[c] ==> s in subscribers && c in subscribers[s])
    && (forall s, c :: s in subscribers && c in subscribers[s] ==> c in subscriptions && s in subscriptions[c])
    && (forall s :: s in subscribers ==> subscribers[s] != {})
  }

  /** `set(symbols)`. */
  function Members(symbols: seq<string>): (r: set<string>)
    ensures forall s :: s in r <==> s in symbols
  {
    set s | s in symbols
  }

  /** `client_subscriptions.get(client, set())`. */
  function SymbolsOf(subscriptions: Index, client: string): set<string>
  {
    if client in subscriptions then subscriptions[client] else {}
  }

  /** The reverse index after `client` was added under each symbol of
      `symbols`, a missing entry starting empty. */
  function AddSubscriber(subscribers: Index, client: string, symbols: set<string>): (r: Index)
    ensures r.Keys == subscribers.Keys + symbols
    ensures forall s :: s in r ==> r[s] == (if s in subscribers then subscribers[s] else {}) + (if s in symbols then {client} else {})
  {
    map s | s in subscribers.Keys + symbols ::
      (if s in subscribers then subscribers[s] else {}) + (if s in symbols then {client} else {})
  }

  /** The reverse index after `client` was discarded under each symbol of
      `symbols`; a symbol left without subscribers is deleted. */
  function Detach(subscribers: Index, client: string, symbols: set<string>): (r: Index)
    ensures forall s :: s in r <==> s in subscribers && (s !in symbols || subscribers[s] - {client} != {})
    ensures forall s :: s in r ==> r[s] == if s in symbols then subscribers[s] - {client} else subscribers[s]
  {
    map s | s in subscribers && (s !in symbols || subscribers[s] - {client} != {}) ::
      if s in symbols then subscribers[s] - {client} else subscribers[s]
  }

  /** The reverse index with the clients of `gone` taken out of every
      entry, emptied entries deleted. */
  function WithoutClients(subscribers: Index, gone: set<string>): (r: Index)
    ensures forall s :: s in r <==> s in subscribers && subscribers[s] - gone != {}
    ensures forall s :: s in r ==> r[s] == subscribers[s] - gone
  {
    map s | s in subscribers && subscribers[s] - gone != {} :: subscribers[s] - gone
  }

  /** The subscriptions of all clients but those in `gone`. */
  function Restrict(subscriptions: Index, gone: set<string>): (r: Index)
    ensures forall c :: c in r <==> c in subscriptions && c !in gone
    ensures forall c :: c in r ==> r[c] == subscriptions[c]
  {
    map c | c in subscriptions && c !in gone :: subscriptions[c]
  }

  /** `handle_client_subscription` on the two indexes: the client follows
      `symbols` in addition to what it followed, and it is added as a
      subscriber of the symbols that are new to it. */
  function Subscribe(subscriptions: Index, subscribers: Index, client: string, symbols: set<string>): (Index, Index)
  {
    (subscriptions[client := SymbolsOf(subscriptions, client) + symbols],
     AddSubscriber(subscribers, client, symbols - SymbolsOf(subscriptions, client)))
  }

  /** `_unsubscribe_client_from_symbols` on the two indexes; nothing
      happens for a client without a subscription entry. */
  function Unsubscribe(subscriptions: Index, subscribers: Index, client: string, symbols: set<string>): (Index, Index)
  {
    if client in subscriptions then
      (subscriptions[client := subscriptions[client] - symbols], Detach(subscribers, client, symbols))
    else (subscriptions, subscribers)
  }

  /** `_cleanup_client` on the two indexes: the client is detached from
      each symbol it follows and its entry is deleted. */
  function Cleanup(subscriptions: Index, subscribers: Index, client: string): (Index, Index)
  {
    if client in subscriptions then
      (subscriptions - {client}, Detach(subscribers, client, subscriptions[client]))
    else (subscriptions, subscribers)
  }

  /** Subscribing keeps the registry; afterwards the client follows each
      requested symbol and is among its subscribers. */
  lemma SubscribeKeepsRegistry(subscriptions: Index, subscribers: Index, client: string, symbols: set<string>)
    requires Registry(subscriptions, subscribers)
    ensures var (cs, ss) := Subscribe(subscriptions, subscribers, client, symbols);
      && Registry(cs, ss)
      && (forall s :: s in symbols ==> s in cs[client] && s in ss && client in ss[s])
      && (forall c :: c in cs && c != client ==> c in subscriptions && cs[c] == subscriptions[c])
  {
    var (cs, ss) := Subscribe(subscriptions, subscribers, client, symbols);
    var mine := SymbolsOf(subscriptions, client);
    forall c, s | c in cs && s in cs[c]
      ensures s in ss && c in ss[s]
    {
      if c != client || s in mine {
        assert s in subscribers && c in subscribers[s];
      }
    }
    forall s, c | s in ss && c in ss[s]
      ensures c in cs && s in cs[c]
    {
      if c != client {
        assert c in subscribers[s];
      }
    }
  }

  /** Unsubscribing keeps the registry; afterwards the client follows none
      of the symbols and is a subscriber of none of them. */
  lemma UnsubscribeKeepsRegistry(subscriptions: Index, subscribers: Index, client: string, symbols: set<string>)
    requires Registry(subscriptions, subscribers)
    ensures var (cs, ss) := Unsubscribe(subscriptions, subscribers, client, symbols);
      && Registry(cs, ss)
      && (forall s :: s in symbols ==> s !in SymbolsOf(cs, client) && (s in ss ==> client !in ss[s]))
  {
    var (cs, ss) := Unsubscribe(subscriptions, subscribers, client, symbols);
    if client in subscriptions {
      forall c, s | c in cs && s in cs[c]
        ensures s in ss && c in ss[s]
      {
        assert s in subscribers && c in subscribers[s];
        if s in symbols {
          assert c in subscribers[s] - {client};
        }
      }
      forall s, c | s in ss && c in ss[s]
        ensures c in cs && s in cs[c]
      {
        assert c in subscribers[s];
      }
    }
  }

  /** Cleaning up keeps the registry and leaves the client in no index. */
  lemma CleanupKeepsRegistry(subscriptions: Index, subscribers: Index, client: string)
    requires Registry(subscriptions, subscribers)
    ensures var (cs, ss) := Cleanup(subscriptions, subscribers, client);
      && Registry(cs, ss)
      && client !in cs
      && (forall s :: s in ss ==> client !in ss[s])
  {
    var (cs, ss) := Cleanup(subscriptions, subscribers, client);
    if client in subscriptions {
      var mine := subscriptions[client];
      forall c, s | c in cs && s in cs[c]
        ensures s in ss && c in ss[s]
      {
        assert s in subscribers && c in subscribers[s];
        if s in mine {
          assert c in subscribers[s] - {client};
        }
      }
      forall s, c | s in ss && c in ss[s]
        ensures c in cs && s in cs[c]
      {
        assert c in subscribers[s];
      }
    }
  }

  /** Under the registry, detaching a client from the symbols it follows
      takes it out of the whole reverse index. */
  lemma CleanupRemovesEverywhere(subscriptions: Index, subscribers: Index, client: string)
    requires Registry(subscriptions, subscribers)
    ensures Cleanup(subscriptions, subscribers, client) ==
            (Restrict(subscriptions, {client}), WithoutClients(subscribers, {client}))
  {
    var (cs, ss) := Cleanup(subscriptions, subscribers, client);
    var cs', ss' := Restrict(subscriptions, {client}), WithoutClients(subscribers, {client});
    assert cs.Keys == cs'.Keys;
    forall c | c in cs ensures cs[c] == cs'[c] {
    }
    assert cs == cs';
    forall s ensures s in ss <==> s in ss' {
      if s in subscribers && client in subscribers[s] {
        assert client in subscriptions && s in subscriptions[client];
      }
    }
    forall s | s in ss ensures ss[s] == ss'[s] {
      if client in subscribers[s] {
        assert client in subscriptions && s in subscriptions[client];
      }
    }
    assert ss == ss';
  }

  /** `symbol_subscribers[symbol].discard(client)`, deleting the entry
      once it is empty. */
  function DiscardSubscriber(subscribers: Index, client: string, symbol: string): Index
  {
    if symbol !in subscribers then subscribers
    else if subscribers[symbol] - {client} == {} then subscribers - {symbol}
    else subscribers[symbol := subscribers[symbol] - {client}]
  }

  /** Detaching symbol by symbol is detaching from all of them. */
  lemma DetachStep(subscribers: Index, client: string, done: set<string>, symbol: string)
    ensures DiscardSubscriber(Detach(subscribers, client, done), client, symbol) == Detach(subscribers, client, done + {symbol})
  {
    var l := DiscardSubscriber(Detach(subscribers, client, done), client, symbol);
    var r := Detach(subscribers, client, done + {symbol});
    assert l.Keys == r.Keys;
    forall s | s in l ensures l[s] == r[s] {
    }
  }

  /** Removing clients one by one is removing them all. */
  lemma WithoutClientsStep(subscribers: Index, gone: set<string>, client: string)
    ensures WithoutClients(WithoutClients(subscribers, gone), {client}) == WithoutClients(subscribers, gone + {client})
  {
    var l := WithoutClients(WithoutClients(subscribers, gone), {client});
    var r := WithoutClients(subscribers, gone + {client});
    forall s ensures s in l <==> s in r {
      if s in subscribers {
        assert subscribers[s] - gone - {client} == subscribers[s] - (gone + {client});
      }
    }
    forall s | s in l ensures l[s] == r[s] {
      assert subscribers[s] - gone - {client} == subscribers[s] - (gone + {client});
    }
  }

  /** `symbol_subscribers[symbol].add(client)`, creating the entry. */
  function AddOneSubscriber(subscribers: Index, client: string, symbol: string): Index
  {
    subscribers[symbol := (if symbol in subscribers then subscribers[symbol] else {}) + {client}]
  }

  /** Adding under no symbol changes nothing. */
  lemma AddSubscriberNone(subscribers: Index, client: string)
    ensures AddSubscriber(subscribers, client, {}) == subscribers
  {
    var start := AddSubscriber(subscribers, client, {});
    assert start.Keys == subscribers.Keys;
    forall s | s in start ensures start[s] == subscribers[s] {
    }
  }

  /** Adding symbol by symbol is adding all of them. */
  lemma AddSubscriberStep(subscribers: Index, client: string, done: set<string>, symbol: string)
    ensures AddOneSubscriber(AddSubscriber(subscribers, client, done), client, symbol) ==
            AddSubscriber(subscribers, client, done + {symbol})
  {
    var l := AddOneSubscriber(AddSubscriber(subscribers, client, done), client, symbol);
    var r := AddSubscriber(subscribers, client, done + {symbol});
    assert l.Keys == r.Keys;
    forall s | s in l ensures l[s] == r[s] {
    }
  }

  /** A connect only keeps the registry when the client had no
      subscriptions, since it resets the client's set without touching the
      reverse index. */
  lemma ConnectKeepsRegistry(subscriptions: Index, subscribers: Index, client: string)
    requires Registry(subscriptions, subscribers)
    requires client !in subscriptions || subscriptions[client] == {}
    ensures Registry(subscriptions[client := {}], subscribers)
  {
  }

  /** A reconnect of a client that still has subscriptions breaks the
      registry: its symbols keep listing it as a subscriber. */
  lemma ReconnectBreaksRegistry()
    ensures Registry(map["c" := {"A"}], map["A" := {"c"}])
    ensures !Registry(map["c" := {"A"}][ "c" := {}], map["A" := {"c"}])
  {
    var cs := map["c" := {"A"}][ "c" := {}];
    assert "A" in map["A" := {"c"}] && "c" in map["A" := {"c"}]["A"] && "A" !in cs["c"];
  }

  // ---------------------------------------------------------------------
  // The per-client message queue
  // ---------------------------------------------------------------------

  const MaxQueueSize: nat := 100

  /** `message_queue.get(client, [])`. */
  function QueueOf(queues: map<string, seq<Message>>, client: string): seq<Message>
  {
    if client in queues then queues[client] else []
  }

  /** The queue after `message` was queued: when full, the oldest message
      is dropped first. */
  function Enqueue(queue: seq<Message>, message: Message): (r: seq<Message>)
    ensures |queue| <= MaxQueueSize ==> 0 < |r| <= MaxQueueSize
    ensures |r| == if |queue| < MaxQueueSize then |queue| + 1 else |queue|
  {
    (if |queue| >= MaxQueueSize then queue[1..] else queue) + [message]
  }

  /** The queue keeps the newest messages: it is a suffix of the old queue
      followed by the new message. */
  lemma EnqueueKeepsNewest(queue: seq<Message>, message: Message)
    requires |queue| <= MaxQueueSize
    ensures var r := Enqueue(queue, message);
      r == (queue + [message])[|queue| + 1 - |r|..] && r[|r| - 1] == message
  {
  }

  /** Every queue is non-empty and holds at most 100 messages. */
  ghost predicate QueuesBounded(queues: map<string, seq<Message>>)
  {
    forall c :: c in queues ==> 0 < |queues[c]| <= MaxQueueSize
  }

  /** The queues after `message` was queued for each client of `clients`. */
  function EnqueueAll(queues: map<string, seq<Message>>, clients: set<string>, message: Message)
    : (r: map<string, seq<Message>>)
    ensures r.Keys == queues.Keys + clients
    ensures forall c :: c in r ==> r[c] == if c in clients then Enqueue(QueueOf(queues, c), message) else queues[c]
  {
    map c | c in queues.Keys + clients :: if c in clients then Enqueue(QueueOf(queues, c), message) else queues[c]
  }

  /** Queueing keeps every queue within its bound. */
  lemma EnqueueAllBounded(queues: map<string, seq<Message>>, clients: set<string>, message: Message)
    requires QueuesBounded(queues)
    ensures QueuesBounded(EnqueueAll(queues, clients, message))
  {
  }

  /** Queueing for nobody changes nothing. */
  lemma EnqueueAllNone(queues: map<string, seq<Message>>, message: Message)
    ensures EnqueueAll(queues, {}, message) == queues
  {
    var r := EnqueueAll(queues, {}, message);
    assert r.Keys == queues.Keys;
  }

  /** Queueing client by client is queueing for all of them. */
  lemma EnqueueAllStep(queues: map<string, seq<Message>>, clients: set<string>, client: string, message: Message)
    requires client !in clients
    ensures var partial := EnqueueAll(queues, clients, message);
      partial[client := Enqueue(QueueOf(partial, client), message)] == EnqueueAll(queues, clients + {client}, message)
  {
    var partial := EnqueueAll(queues, clients, message);
    var l := partial[client := Enqueue(QueueOf(partial, client), message)];
    var r := EnqueueAll(queues, clients + {client}, message);
    assert l.Keys == r.Keys;
    forall c | c in l ensures l[c] == r[c] {
    }
  }

  /** Restricting client by client is restricting to all of them. */
  lemma RestrictStep(subscriptions: Index, gone: set<string>, client: string)
    ensures Restrict(subscriptions, gone) - {client} == Restrict(subscriptions, gone + {client})
  {
    var l := Restrict(subscriptions, gone) - {client};
    var r := Restrict(subscriptions, gone + {client});
    assert l.Keys == r.Keys;
  }

  /** Dropping nobody changes neither index: the registry has no empty
      subscriber sets. */
  lemma DropNobody(subscriptions: Index, subscribers: Index)
    requires Registry(subscriptions, subscribers)
    ensures Restrict(subscriptions, {}) == subscriptions
    ensures WithoutClients(subscribers, {}) == subscribers
  {
    var cs := Restrict(subscriptions, {});
    assert cs.Keys == subscriptions.Keys;
    var ss := WithoutClients(subscribers, {});
    forall s | s in subscribers ensures subscribers[s] - {} == subscribers[s] {
    }
    assert ss.Keys == subscribers.Keys;
  }

  // ---------------------------------------------------------------------
  // Sums for the statistics
  // ---------------------------------------------------------------------

  /** The sum of `f` over `keys`. */
  ghost function SumOf(keys: set<string>, f: string -> nat): nat
    decreases |keys|
  {
    if keys == {} then 0
    else
      var k :| k in keys;
      f(k) + SumOf(keys - {k}, f)
  }

  /** The sum may be taken out one key at a time, in any order. */
  lemma {:induction false} SumOfRemove(keys: set<string>, f: string -> nat, k: string)
    requires k in keys
    ensures SumOf(keys, f) == f(k) + SumOf(keys - {k}, f)
    decreases |keys|
  {
    var j :| j in keys && SumOf(keys, f) == f(j) + SumOf(keys - {j}, f);
    if j != k {
      SumOfRemove(keys - {j}, f, k);
      SumOfRemove(keys - {k}, f, j);
      assert keys - {j} - {k} == keys - {k} - {j};
    }
  }

  /** Only an all-zero sum is zero. */
  lemma {:induction false} SumOfZero(keys: set<string>, f: string -> nat)
    ensures SumOf(keys, f) == 0 <==> forall k :: k in keys ==> f(k) == 0
    decreases |keys|
  {
    if keys != {} {
      var k :| k in keys;
      SumOfRemove(keys, f, k);
      SumOfZero(keys - {k}, f);
    }
  }

  /** A sum of terms at most `bound` is at most `bound` times the number of
      terms. */
  lemma {:induction false} SumOfBound(keys: set<string>, f: string -> nat, bound: nat)
    requires forall k :: k in keys ==> f(k) <= bound
    ensures SumOf(keys, f) <= bound * |keys|
    decreases |keys|
  {
    if keys != {} {
      var k :| k in keys;
      SumOfRemove(keys, f, k);
      SumOfBound(keys - {k}, f, bound);
      var n := |keys - {k}|;
      assert |keys| == n + 1;
      assert bound * (n + 1) == bound * n + bound;
    }
  }

  /** `sum(f(k) for k in keys)`, adding one key at a time. */
  method Total(keys: set<string>, f: string -> nat) returns (total: nat)
    ensures total == SumOf(keys, f)
  {
    total := 0;
    var remaining := keys;
    ghost var done: set<string> := {};
    while remaining != {}
      invariant done == keys - remaining
      invariant total == SumOf(done, f)
      decreases remaining
    {
      var k :| k in remaining;
      SumOfRemove(done + {k}, f, k);
      assert done + {k} - {k} == done;
      total := total + f(k);
      remaining := remaining - {k};
      done := done + {k};
    }
    assert done == keys;
  }

  /** The number of symbols each client follows. */
  function SubscriptionCounts(subscriptions: Index): string -> nat
  {
    c => if c in subscriptions then |subscriptions[c]| else 0
  }

  /** The number of messages queued for each client. */
  function QueueLengths(queues: map<string, seq<Message>>): string -> nat
  {
    c => if c in queues then |queues[c]| else 0
  }

  /** `get_connection_stats()`. */
  datatype ConnectionStats = ConnectionStats(
    connectedClients: nat, totalSubscriptions: nat, activeSymbols: nat, queuedMessages: nat)

  /** `handle_client_subscription`'s updates of the indexes: the client
      follows `symbols` too and is added under each symbol new to it. */
  method SubscribeIndexes(subscriptions: Index, subscribers: Index, client: string, symbols: set<string>)
    returns (subscriptions': Index, subscribers': Index)
    ensures (subscriptions', subscribers') == Subscribe(subscriptions, subscribers, client, symbols)
  {
    var current := SymbolsOf(subscriptions, client);
    var newSymbols := symbols - current;
    subscriptions' := subscriptions[client := current + symbols];
    subscribers' := subscribers;
    var remaining := newSymbols;
    ghost var done: set<string> := {};
    AddSubscriberNone(subscribers, client);
    while remaining != {}
      invariant done == newSymbols - remaining
      invariant subscribers' == AddSubscriber(subscribers, client, done)
      decreases remaining
    {
      var symbol :| symbol in remaining;
      AddSubscriberStep(subscribers, client, done, symbol);
      subscribers' := AddOneSubscriber(subscribers', client, symbol);
      remaining := remaining - {symbol};
      done := done + {symbol};
    }
    assert done == newSymbols;
  }

  /** `_unsubscribe_client_from_symbols`'s updates of the indexes, symbol by
      symbol in the order given. */
  method UnsubscribeIndexes(subscriptions: Index, subscribers: Index, client: string, symbols: seq<string>)
    returns (subscriptions': Index, subscribers': Index)
    ensures (subscriptions', subscribers') == Unsubscribe(subscriptions, subscribers, client, Members(symbols))
  {
    subscriptions', subscribers' := subscriptions, subscribers;
    if client !in subscriptions {
      return;
    }
    var mine := subscriptions[client];
    var i := 0;
    while i < |symbols|
      invariant 0 <= i <= |symbols|
      invariant mine == subscriptions[client] - Members(symbols[..i])
      invariant subscribers' == Detach(subscribers, client, Members(symbols[..i]))
    {
      var symbol := symbols[i];
      DetachStep(subscribers, client, Members(symbols[..i]), symbol);
      assert Members(symbols[..i + 1]) == Members(symbols[..i]) + {symbol} by {
        assert symbols[..i + 1] == symbols[..i] + [symbol];
      }
      mine := mine - {symbol};
      subscribers' := DiscardSubscriber(subscribers', client, symbol);
      i := i + 1;
    }
    assert symbols[..i] == symbols;
    subscriptions' := subscriptions[client := mine];
  }

  /** `_cleanup_client`'s updates of the indexes: the client is discarded
      under each symbol it follows and its entry deleted. */
  method CleanupIndexes(subscriptions: Index, subscribers: Index, client: string)
    returns (subscriptions': Index, subscribers': Index)
    ensures (subscriptions', subscribers') == Cleanup(subscriptions, subscribers, client)
  {
    subscriptions', subscribers' := subscriptions, subscribers;
    if client in subscriptions {
      var symbols := subscriptions[client];
      var remaining := symbols;
      ghost var done: set<string> := {};
      while remaining != {}
        invariant done == symbols - remaining
        invariant subscribers' == Detach(subscribers, client, done)
        decreases remaining
      {
        var symbol :| symbol in remaining;
        DetachStep(subscribers, client, done, symbol);
        subscribers' := DiscardSubscriber(subscribers', client, symbol);
        remaining := remaining - {symbol};
        done := done + {symbol};
      }
      assert done == symbols;
      subscriptions' := subscriptions - {client};
    }
  }

  /** `broadcast_stock_update`'s delivery loop: a connected subscriber is
      sent the update (a failing send is only noted), one that is not
      connected has it queued; both kinds are noted for clean-up. */
  method DeliverUpdate(subscribers: set<string>, connected: set<string>, failing: set<string>,
                       outbox: seq<Emission<Message>>, queues: map<string, seq<Message>>, message: Message)
    returns (sent: seq<Emission<Message>>, queues': map<string, seq<Message>>, noted: seq<string>)
    ensures |sent| >= |outbox| && sent[..|outbox|] == outbox
    ensures OncePerRoom(sent[|outbox|..], subscribers * connected - failing, "stock_update", message)
    ensures queues' == EnqueueAll(queues, subscribers - connected, message)
    ensures forall c :: c in noted <==> c in subscribers && (c !in connected || c in failing)
  {
    var emitted: seq<Emission<Message>> := [];
    queues', noted := queues, [];
    var remaining := subscribers;
    ghost var done: set<string> := {};
    ghost var away: set<string> := {};
    ghost var reached: set<string> := {};
    EnqueueAllNone(queues, message);
    while remaining != {}
      invariant done == subscribers - remaining
      invariant away == done - connected
      invariant reached == done * connected - failing
      invariant OncePerRoom(emitted, reached, "stock_update", message)
      invariant queues' == EnqueueAll(queues, away, message)
      invariant forall c :: c in noted <==> c in done && (c !in connected || c in failing)
      decreases remaining
    {
      var client :| client in remaining;
      if client in connected && client !in failing {
        OncePerRoomStep(emitted, reached, "stock_update", message, client);
        emitted := emitted + [Emission("stock_update", client, message)];
        reached := reached + {client};
      } else {
        if client !in connected {
          EnqueueAllStep(queues, away, client, message);
          queues' := queues'[client := Enqueue(QueueOf(queues', client), message)];
          away := away + {client};
        }
        noted := noted + [client];
      }
      remaining := remaining - {client};
      done := done + {client};
    }
    sent := outbox + emitted;
    assert sent[|outbox|..] == emitted;
    assert done == subscribers;
    assert away == subscribers - connected;
    assert reached == subscribers * connected - failing;
  }

  /** `broadcast_stock_update`'s clean-up loop: every noted client that is
      not connected is cleaned up, in the order noted. */
  method DropClients(subscriptions: Index, subscribers: Index, connected: set<string>, noted: seq<string>)
    returns (subscriptions': Index, subscribers': Index)
    requires Registry(subscriptions, subscribers)
    ensures Registry(subscriptions', subscribers')
    ensures subscriptions' == Restrict(subscriptions, Members(noted) - connected)
    ensures subscribers' == WithoutClients(subscribers, Members(noted) - connected)
  {
    subscriptions', subscribers' := subscriptions, subscribers;
    DropNobody(subscriptions, subscribers);
    ghost var gone: set<string> := {};
    var i := 0;
    while i < |noted|
      invariant 0 <= i <= |noted|
      invariant gone == Members(noted[..i]) - connected
      invariant Registry(subscriptions', subscribers')
      invariant subscriptions' == Restrict(subscriptions, gone)
      invariant subscribers' == WithoutClients(subscribers, gone)
    {
      var client := noted[i];
      assert Members(noted[..i + 1]) == Members(noted[..i]) + {client} by {
        assert noted[..i + 1] == noted[..i] + [client];
      }
      if client !in connected {
        CleanupKeepsRegistry(subscriptions', subscribers', client);
        CleanupRemovesEverywhere(subscriptions', subscribers', client);
        RestrictStep(subscriptions, gone, client);
        WithoutClientsStep(subscribers, gone, client);
        subscriptions', subscribers' := CleanupIndexes(subscriptions', subscribers', client);
        gone := gone + {client};
      }
      i := i + 1;
    }
    assert noted[..i] == noted;
  }

  /** Under the registry the statistics agree: there are subscriptions
      exactly when some symbol is active. */
  lemma SubscriptionsIffActiveSymbols(subscriptions: Index, subscribers: Index)
    requires Registry(subscriptions, subscribers)
    ensures SumOf(subscriptions.Keys, SubscriptionCounts(subscriptions)) == 0 <==> |subscribers| == 0
  {
    var f := SubscriptionCounts(subscriptions);
    SumOfZero(subscriptions.Keys, f);
    assert forall c :: c in subscriptions ==> f(c) == |subscriptions[c]|;
    if |subscribers| != 0 {
      var s :| s in subscribers;
      var c :| c in subscribers[s];
      assert s in subscriptions[c];
    }
    if SumOf(subscriptions.Keys, f) != 0 {
      var c :| c in subscriptions && f(c) != 0;
      assert subscriptions[c] != {};
      var s :| s in subscriptions[c];
      assert s in subscribers && c in subscribers[s];
    }
  }

  /** With every queue bounded, at most 100 messages are queued per
      client. */
  lemma QueuedMessagesBound(queues: map<string, seq<Message>>)
    requires QueuesBounded(queues)
    ensures SumOf(queues.Keys, QueueLengths(queues)) <= MaxQueueSize * |queues|
  {
    SumOfBound(queues.Keys, QueueLengths(queues), MaxQueueSize);
  }

  class WebSocketManager {
    /** client -> the symbols it follows */
    var clientSubscriptions: Index
    /** symbol -> the clients following it */
    var symbolSubscribers: Index
    var connectedClients: set<string>
    /** client -> messages kept while it is not connected */
    var messageQueue: map<string, seq<Message>>
    /** What the socket was asked to send, in order. */
    var outbox: seq<Emission<Message>>

    ghost predicate Valid()
      reads this
    {
      Registry(clientSubscriptions, symbolSubscribers) && QueuesBounded(messageQueue)
    }

    constructor()
      ensures Valid()
      ensures clientSubscriptions == map[] && symbolSubscribers == map[] && connectedClients == {}
      ensures messageQueue == map[] && outbox == []
    {
      clientSubscriptions, symbolSubscribers, connectedClients := map[], map[], {};
      messageQueue, outbox := map[], [];
    }

    /** `_queue_message_for_client`. */
    method QueueMessageForClient(client: string, message: Message)
      requires QueuesBounded(messageQueue)
      modifies this
      ensures QueuesBounded(messageQueue)
      ensures messageQueue == old(messageQueue)[client := Enqueue(QueueOf(old(messageQueue), client), message)]
      ensures clientSubscriptions == old(clientSubscriptions) && symbolSubscribers == old(symbolSubscribers)
      ensures connectedClients == old(connectedClients) && outbox == old(outbox)
    {
      var queue := QueueOf(messageQueue, client);
      if |queue| >= MaxQueueSize {
        queue := queue[1..];
      }
      messageQueue := messageQueue[client := queue + [message]];
    }

    /** `send_to_client`: sent when the client is connected (a failing
        send is dropped), queued otherwise. */
    method SendToClient(client: string, message: Message, failing: set<string>)
      requires Valid()
      modifies this
      ensures Valid()
      ensures client in connectedClients ==>
        outbox == Emit(old(outbox), failing, "message", client, message) && messageQueue == old(messageQueue)
      ensures client !in connectedClients ==>
        && outbox == old(outbox)
        && messageQueue == old(messageQueue)[client := Enqueue(QueueOf(old(messageQueue), client), message)]
      ensures clientSubscriptions == old(clientSubscriptions) && symbolSubscribers == old(symbolSubscribers)
      ensures connectedClients == old(connectedClients)
    {
      if client in connectedClients {
        outbox := Emit(outbox, failing, "message", client, message);
      } else {
        QueueMessageForClient(client, message);
      }
    }

    /** `_send_queued_messages`: the client's queue is sent in order and
        deleted. */
    method SendQueuedMessages(client: string, failing: set<string>)
      requires Valid()
      modifies this
      ensures Valid()
      ensures messageQueue == old(messageQueue) - {client}
      ensures outbox == old(outbox) +
        (if client in failing then [] else EmitEach("queued_message", client, QueueOf(old(messageQueue), client)))
      ensures clientSubscriptions == old(clientSubscriptions) && symbolSubscribers == old(symbolSubscribers)
      ensures connectedClients == old(connectedClients)
    {
      if client in messageQueue {
        var messages := messageQueue[client];
        var sent := outbox;
        var i := 0;
        while i < |messages|
          invariant 0 <= i <= |messages|
          invariant sent == outbox + (if client in failing then [] else EmitEach("queued_message", client, messages[..i]))
        {
          sent := Emit(sent, failing, "queued_message", client, messages[i]);
          i := i + 1;
        }
        assert messages[..i] == messages;
        outbox := sent;
        messageQueue := messageQueue - {client};
      }
    }

    /** `_cleanup_client`: the client leaves the connected set and both
        indexes; its message queue is kept. */
    method CleanupClient(client: string)
      requires Valid()
      modifies this
      ensures Valid()
      ensures connectedClients == old(connectedClients) - {client}
      ensures (clientSubscriptions, symbolSubscribers) == Cleanup(old(clientSubscriptions), old(symbolSubscribers), client)
      ensures client !in clientSubscriptions && forall s :: s in symbolSubscribers ==> client !in symbolSubscribers[s]
      ensures messageQueue == old(messageQueue) && outbox == old(outbox)
    {
      CleanupKeepsRegistry(clientSubscriptions, symbolSubscribers, client);
      connectedClients := connectedClients - {client};
      clientSubscriptions, symbolSubscribers := CleanupIndexes(clientSubscriptions, symbolSubscribers, client);
    }

    /** The connect handler: the client becomes connected with an empty
        subscription set, its queued messages are delivered and the
        connection is confirmed. The registry survives only when the client
        had no subscriptions left. */
    method HandleConnect(client: string, nowIso: string, failing: set<string>)
      requires Valid()
      modifies this
      ensures QueuesBounded(messageQueue)
      ensures old(client !in clientSubscriptions || clientSubscriptions[client] == {}) ==> Valid()
      ensures connectedClients == old(connectedClients) + {client}
      ensures clientSubscriptions == old(clientSubscriptions)[client := {}]
      ensures symbolSubscribers == old(symbolSubscribers)
      ensures messageQueue == old(messageQueue) - {client}
      ensures outbox == old(outbox) +
        (if client in failing then []
         else EmitEach("queued_message", client, QueueOf(old(messageQueue), client))
              + [Emission("connection_established", client, ConnectionEstablished(client, nowIso))])
    {
      ghost var cleanBefore := client !in clientSubscriptions || clientSubscriptions[client] == {};
      if cleanBefore {
        ConnectKeepsRegistry(clientSubscriptions, symbolSubscribers, client);
      }
      connectedClients := connectedClients + {client};
      clientSubscriptions := clientSubscriptions[client := {}];
      var queued := QueueOf(messageQueue, client);
      var sent := outbox;
      if client in messageQueue {
        var i := 0;
        while i < |queued|
          invariant 0 <= i <= |queued|
          invariant sent == outbox + (if client in failing then [] else EmitEach("queued_message", client, queued[..i]))
        {
          sent := Emit(sent, failing, "queued_message", client, queued[i]);
          i := i + 1;
        }
        assert queued[..i] == queued;
        messageQueue := messageQueue - {client};
      }
      outbox := Emit(sent, failing, "connection_established", client, ConnectionEstablished(client, nowIso));
    }

    /** The disconnect handler. */
    method HandleDisconnect(client: string)
      requires Valid()
      modifies this
      ensures Valid()
      ensures connectedClients == old(connectedClients) - {client}
      ensures (clientSubscriptions, symbolSubscribers) == Cleanup(old(clientSubscriptions), old(symbolSubscribers), client)
      ensures messageQueue == old(messageQueue) && outbox == old(outbox)
    {
      CleanupClient(client);
    }

    /** The ping handler. */
    method HandlePing(client: string, nowIso: string, failing: set<string>)
      modifies this
      ensures outbox == Emit(old(outbox), failing, "pong", client, Pong(nowIso))
      ensures clientSubscriptions == old(clientSubscriptions) && symbolSubscribers == old(symbolSubscribers)
      ensures connectedClients == old(connectedClients) && messageQueue == old(messageQueue)
    {
      outbox := Emit(outbox, failing, "pong", client, Pong(nowIso));
    }

    /** `handle_client_subscription`: ignored for a client that is not
        connected; otherwise the client follows `symbols` too, becomes a
        subscriber of the symbols new to it, and the subscription is
        confirmed to it. */
    method HandleClientSubscription(client: string, symbols: seq<string>, nowIso: string, failing: set<string>)
      requires Valid()
      modifies this
      ensures Valid()
      ensures client !in old(connectedClients) ==>
        && clientSubscriptions == old(clientSubscriptions) && symbolSubscribers == old(symbolSubscribers)
        && outbox == old(outbox)
      ensures client in old(connectedClients) ==>
        && (clientSubscriptions, symbolSubscribers) ==
           Subscribe(old(clientSubscriptions), old(symbolSubscribers), client, Members(symbols))
        && outbox == Emit(old(outbox), failing, "message", client, SubscriptionConfirmed(symbols, nowIso))
      ensures connectedClients == old(connectedClients) && messageQueue == old(messageQueue)
    {
      if client !in connectedClients {
        return;
      }
      SubscribeKeepsRegistry(clientSubscriptions, symbolSubscribers, client, Members(symbols));
      clientSubscriptions, symbolSubscribers :=
        SubscribeIndexes(clientSubscriptions, symbolSubscribers, client, Members(symbols));
      outbox := Emit(outbox, failing, "message", client, SubscriptionConfirmed(symbols, nowIso));
    }

    /** `_unsubscribe_client_from_symbols`. */
    method UnsubscribeClientFromSymbols(client: string, symbols: seq<string>)
      requires Valid()
      modifies this
      ensures Valid()
      ensures (clientSubscriptions, symbolSubscribers) ==
        Unsubscribe(old(clientSubscriptions), old(symbolSubscribers), client, Members(symbols))
      ensures connectedClients == old(connectedClients) && messageQueue == old(messageQueue)
      ensures outbox == old(outbox)
    {
      UnsubscribeKeepsRegistry(clientSubscriptions, symbolSubscribers, client, Members(symbols));
      clientSubscriptions, symbolSubscribers :=
        UnsubscribeIndexes(clientSubscriptions, symbolSubscribers, client, symbols);
    }

    /** `broadcast_stock_update`: nothing happens for a symbol without
        subscribers. Otherwise each connected subscriber whose send does
        not fail is sent the update once; each subscriber that is not
        connected has it queued and is then cleaned up; connected clients
        whose send failed stay registered. */
    method BroadcastStockUpdate(symbol: string, data: Dict, nowIso: string, failing: set<string>)
      requires Valid()
      modifies this
      ensures Valid()
      ensures connectedClients == old(connectedClients)
      ensures symbol !in old(symbolSubscribers) ==>
        && outbox == old(outbox) && messageQueue == old(messageQueue)
        && clientSubscriptions == old(clientSubscriptions) && symbolSubscribers == old(symbolSubscribers)
      ensures symbol in old(symbolSubscribers) ==>
        var subscribers := old(symbolSubscribers)[symbol];
        var away := subscribers - old(connectedClients);
        var message := StockUpdate(symbol, data, nowIso);
        && |outbox| >= |old(outbox)| && outbox[..|old(outbox)|] == old(outbox)
        && OncePerRoom(outbox[|old(outbox)|..], subscribers * old(connectedClients) - failing, "stock_update", message)
        && messageQueue == EnqueueAll(old(messageQueue), away, message)
        && clientSubscriptions == Restrict(old(clientSubscriptions), away)
        && symbolSubscribers == WithoutClients(old(symbolSubscribers), away)
    {
      if symbol !in symbolSubscribers {
        return;
      }
      var message := StockUpdate(symbol, data, nowIso);
      var subscribers := symbolSubscribers[symbol];
      var sent, queues, noted := DeliverUpdate(subscribers, connectedClients, failing, outbox, messageQueue, message);
      EnqueueAllBounded(messageQueue, subscribers - connectedClients, message);
      var subscriptions', subscribers' := DropClients(clientSubscriptions, symbolSubscribers, connectedClients, noted);
      assert Members(noted) - connectedClients == subscribers - connectedClients;
      outbox, messageQueue := sent, queues;
      clientSubscriptions, symbolSubscribers := subscriptions', subscribers';
    }

    /** `broadcast_system_message`: every connected client whose send does
        not fail receives the message once. */
    method BroadcastSystemMessage(data: Dict, nowIso: string, failing: set<string>)
      modifies this
      ensures |outbox| >= |old(outbox)| && outbox[..|old(outbox)|] == old(outbox)
      ensures OncePerRoom(outbox[|old(outbox)|..], connectedClients - failing, "system_message", SystemMessage(data, nowIso))
      ensures clientSubscriptions == old(clientSubscriptions) && symbolSubscribers == old(symbolSubscribers)
      ensures connectedClients == old(connectedClients) && messageQueue == old(messageQueue)
    {
      outbox := EmitToRooms(outbox, connectedClients, failing, "system_message", SystemMessage(data, nowIso));
    }

    /** `get_connection_stats`. */
    method GetConnectionStats() returns (stats: ConnectionStats)
      ensures stats.connectedClients == |connectedClients|
      ensures stats.totalSubscriptions == SumOf(clientSubscriptions.Keys, SubscriptionCounts(clientSubscriptions))
      ensures stats.activeSymbols == |symbolSubscribers|
      ensures stats.queuedMessages == SumOf(messageQueue.Keys, QueueLengths(messageQueue))
    {
      var total := Total(clientSubscriptions.Keys, SubscriptionCounts(clientSubscriptions));
      var queued := Total(messageQueue.Keys, QueueLengths(messageQueue));
      stats := ConnectionStats(|connectedClients|, total, |symbolSubscribers|, queued);
    }
  }
}
