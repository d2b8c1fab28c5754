/** The observer as it runs: a queue of messages, two index maps and a cache, updated in place. */
module ObserverProgram {
  import opened SetMap
  import opened Observer
  import opened Subscriptions
  import opened Delivery

  /** Stands for a null client pointer. */
  const NO_CLIENT: Client := 0

  class SystemStatusOsObserver {
    var clientToItems: SetMap<Client, ItemId>
    var itemToClients: SetMap<ItemId, Client>
    var cache: map<ItemId, Value>
    var attached: bool
    var messages: seq<Msg>
    ghost var calls: seq<Call>
    ghost var heard: map<Client, seq<Bundle>>
    ghost var processed: seq<Msg>

    ghost function View(): State
      reads this
    {
      State(clientToItems, itemToClients, attached, calls, cache, heard)
    }

    /** The state is the one the messages processed so far lead to, and those waiting were posted. */
    ghost predicate Valid()
      reads this
    {
      View() == Run(EMPTY, processed) && forall m :: m in messages ==> Posted(m)
    }

    constructor ()
      ensures Valid() && View() == EMPTY && messages == [] && processed == []
    {
      clientToItems, itemToClients, cache, attached, messages := map[], map[], map[], false, [];
      calls, heard, processed := [], map[], [];
    }

    // ---------- what a caller may ask; nothing happens before the message is processed

    method SetSubscriptionObj(present: bool)
      requires Valid()
      modifies this`messages
      ensures Valid()
      ensures messages == old(messages) + if present then [Msg.SetSubscriptionObj] else []
    {
      if present { messages := messages + [Msg.SetSubscriptionObj]; }
    }

    method Subscribe(items: set<ItemId>, client: Client, toRequestData: bool)
      requires Valid()
      modifies this`messages
      ensures Valid()
      ensures messages == old(messages)
                          + if items == {} || client == NO_CLIENT then []
                            else [Msg.Subscribe(items, client, toRequestData)]
    {
      if !(items == {} || client == NO_CLIENT) { messages := messages + [Msg.Subscribe(items, client, toRequestData)]; }
    }

    method UpdateSubscription(items: set<ItemId>, client: Client)
      requires Valid()
      modifies this`messages
      ensures Valid()
      ensures messages == old(messages)
                          + if items == {} || client == NO_CLIENT then [] else [Msg.UpdateSubscription(items, client)]
    {
      if !(items == {} || client == NO_CLIENT) { messages := messages + [Msg.UpdateSubscription(items, client)]; }
    }

    method Unsubscribe(items: set<ItemId>, client: Client)
      requires Valid()
      modifies this`messages
      ensures Valid()
      ensures messages == old(messages)
                          + if items == {} || client == NO_CLIENT then [] else [Msg.Unsubscribe(items, client)]
    {
      if !(items == {} || client == NO_CLIENT) { messages := messages + [Msg.Unsubscribe(items, client)]; }
    }

    method UnsubscribeAll(client: Client)
      requires Valid()
      modifies this`messages
      ensures Valid()
      ensures messages == old(messages) + if client == NO_CLIENT then [] else [Msg.UnsubscribeAll(client)]
    {
      if client != NO_CLIENT { messages := messages + [Msg.UnsubscribeAll(client)]; }
    }

    /** Items the factory cannot copy are left out of the batch, and an empty batch is not sent. */
    method Notify(reports: seq<Offer>, known: ItemId -> bool)
      requires Valid()
      modifies this`messages
      ensures Valid()
      ensures messages == old(messages)
                          + var batch := Copied(reports, known); if batch == [] then [] else [Msg.Notify(batch)]
    {
      var batch := [];
      for n := 0 to |reports|
        invariant batch == Copied(reports[..n], known)
      {
        assert reports[..n + 1][..n] == reports[..n];
        if known(reports[n].id) { batch := batch + [reports[n]]; }
      }
      assert reports[..|reports|] == reports;
      if batch != [] { messages := messages + [Msg.Notify(batch)]; }
    }

    // ---------- processing

    /** The next message is taken from the queue and has the effect the message stands for; so what
        holds in every run holds here. */
    method Proc()
      requires Valid() && messages != []
      modifies this
      ensures Valid() && processed == old(processed) + [old(messages)[0]] && messages == old(messages)[1..]
      ensures View() == Process(old(View()), old(messages)[0])
      ensures Converse(View()) && Tracked(View()) && UpToDate(View())
    {
      var m := messages[0];
      assert Posted(m);
      messages := messages[1..];
      match m {
        case SetSubscriptionObj => AttachProc();
        case Subscribe(items, client, req) => SubscribeProc(items, client, req);
        case UpdateSubscription(items, client) => UpdateProc(items, client);
        case Unsubscribe(items, client) => UnsubscribeProc(items, client);
        case UnsubscribeAll(client) => UnsubscribeAllProc(client);
        case Notify(batch) => NotifyProc(batch);
      }
      processed := processed + [m];
      RunSnoc(old(processed), m);
      AlwaysConverse(processed);
      AlwaysUpToDate(processed);
    }

    method AttachProc()
      modifies this
      ensures View() == OnSetSubscriptionObj(old(View())) && messages == old(messages) && processed == old(processed)
    {
      attached, calls := true, [];
      if itemToClients != map[] {
        var ids := itemToClients.Keys;
        calls := calls + [SubscribeTo(ids)];
        calls := calls + [RequestData(ids)];
      }
    }

    method SubscribeProc(items: set<ItemId>, client: Client, toRequestData: bool)
      modifies this
      ensures View() == OnSubscribe(old(View()), items, client, toRequestData)
      ensures messages == old(messages) && processed == old(processed)
    {
      hide SendCached, Add, NewKeys;
      var toSubscribe := NewKeys(itemToClients, items);
      itemToClients := Add(itemToClients, items, {client});
      clientToItems := Add(clientToItems, {client}, items);
      SendCachedDataItems(items, client);
      if attached {
        if toRequestData {
          calls := calls + [RequestData(toSubscribe)];
        } else if toSubscribe != {} {
          calls := calls + [SubscribeTo(toSubscribe)];
        }
      }
    }

    method UpdateProc(items: set<ItemId>, client: Client)
      modifies this
      ensures View() == OnUpdate(old(View()), items, client)
      ensures messages == old(messages) && processed == old(processed)
    {
      hide SendCached, Add, Trim, NewKeys, GoneKeys, ValSet;
      var had := ValSet(clientToItems, client);
      clientToItems := clientToItems[client := items];
      var unused, added := had - items, items - had;
      var toUnsubscribe := GoneKeys(itemToClients, unused, {client});
      itemToClients := Trim(itemToClients, unused, {client});
      var toSubscribe := NewKeys(itemToClients, added);
      itemToClients := Add(itemToClients, added, {client});
      SendCachedDataItems(added, client);
      if attached {
        if toSubscribe != {} { calls := calls + [SubscribeTo(toSubscribe)]; }
        if toUnsubscribe != {} { calls := calls + [UnsubscribeFrom(toUnsubscribe)]; }
      }
    }

    method UnsubscribeProc(items: set<ItemId>, client: Client)
      modifies this
      ensures View() == OnUnsubscribe(old(View()), items, client)
      ensures messages == old(messages) && processed == old(processed)
    {
      hide Trim, GoneKeys, GoneVals;
      var unused := GoneVals(clientToItems, client, items);
      clientToItems := Trim(clientToItems, {client}, items);
      var toUnsubscribe := GoneKeys(itemToClients, unused, {client});
      itemToClients := Trim(itemToClients, unused, {client});
      if attached && toUnsubscribe != {} { calls := calls + [UnsubscribeFrom(toUnsubscribe)]; }
    }

    method UnsubscribeAllProc(client: Client)
      modifies this
      ensures View() == OnUnsubscribeAll(old(View()), client)
      ensures messages == old(messages) && processed == old(processed)
    {
      hide Trim, GoneKeys, ValSet;
      var byClient := ValSet(clientToItems, client);
      if byClient != {} {
        clientToItems := clientToItems - {client};
        var toUnsubscribe := GoneKeys(itemToClients, byClient, {client});
        itemToClients := Trim(itemToClients, byClient, {client});
        if toUnsubscribe != {} && attached { calls := calls + [UnsubscribeFrom(toUnsubscribe)]; }
      }
    }

    method NotifyProc(batch: seq<Offer>)
      modifies this
      ensures View() == OnNotify(old(View()), batch) && messages == old(messages) && processed == old(processed)
    {
      hide SendAll, ClientsOf, Changed, CacheAfter, DueTo;
      var toSend, clients := UpdateFromBatch(batch);
      SendToClients(toSend, clients);
    }

    /** The cache takes the batch; the ids that changed and the clients found under them are collected. */
    method UpdateFromBatch(batch: seq<Offer>) returns (toSend: set<ItemId>, clients: set<Client>)
      modifies this`cache
      ensures cache == CacheAfter(old(cache), batch)
      ensures toSend == Changed(batch) && clients == ClientsOf(itemToClients, toSend)
    {
      toSend := {};
      for n := 0 to |batch|
        invariant cache == CacheAfter(old(cache), batch[..n]) && toSend == Changed(batch[..n])
      {
        assert batch[..n + 1] == batch[..n] + [batch[n]];
        var updated := UpdateCache(batch[n]);
        if updated { toSend := toSend + {batch[n].id}; }
      }
      assert batch[..|batch|] == batch;
      clients := {};
      var rest := toSend;
      while rest != {}
        invariant cache == CacheAfter(old(cache), batch)
        invariant rest <= toSend && clients == ClientsOf(itemToClients, toSend - rest)
        decreases rest
      {
        var i :| i in rest;
        ClientsOfOneMore(itemToClients, toSend - rest, i);
        assert toSend - (rest - {i}) == toSend - rest + {i};
        if i in itemToClients { clients := clients + itemToClients[i]; }
        rest := rest - {i};
      }
      assert toSend - rest == toSend;
    }

    method UpdateCache(o: Offer) returns (updated: bool)
      modifies this`cache
      ensures updated == o.accepted && cache == Observer.UpdateCache(old(cache), o)
    {
      updated := o.accepted;
      if updated { cache := cache[o.id := o.value]; }
    }

    method SendToClients(toSend: set<ItemId>, clients: set<Client>)
      modifies this`heard
      ensures View() == SendAll(old(View()), toSend, clients)
    {
      ghost var s := View();
      var rest := clients;
      SendAllNone(s, toSend);
      while rest != {}
        invariant rest <= clients && View() == SendAll(s, toSend, clients - rest)
        decreases rest
      {
        hide SendAll, DueTo;
        var client :| client in rest;
        var items := ValSet(clientToItems, client);
        items := KeepOnly(items, toSend);
        SendAllOneMore(s, toSend, clients - rest, client);
        assert clients - (rest - {client}) == clients - rest + {client};
        SendCachedDataItems(items, client);
        rest := rest - {client};
      }
      assert clients - rest == clients;
    }

    /** A client is told the cached ones of the items, unless there are none. */
    method SendCachedDataItems(items: set<ItemId>, client: Client)
      modifies this`heard
      ensures View() == SendCached(old(View()), items, client)
    {
      var dataItems: Bundle := map[];
      var rest := items;
      while rest != {}
        invariant heard == old(heard)
        invariant rest <= items && dataItems == Cached(cache, items - rest)
        decreases rest
      {
        NotEmpty(rest);
        var i :| i in rest;
        if i in cache { dataItems := dataItems[i := cache[i]]; }
        rest := rest - {i};
      }
      assert items - rest == items;
      if dataItems != map[] { heard := heard[client := Log(heard, client) + [dataItems]]; }
    }
  }

  /** A message as a caller can have posted it. */
  predicate Posted(m: Msg) {
    match m
    case SetSubscriptionObj => true
    case Subscribe(items, client, _) => items != {} && client != NO_CLIENT
    case UpdateSubscription(items, client) => items != {} && client != NO_CLIENT
    case Unsubscribe(items, client) => items != {} && client != NO_CLIENT
    case UnsubscribeAll(client) => client != NO_CLIENT
    case Notify(batch) => batch != []
  }

  /** The reports whose items the factory can copy. */
  function Copied(reports: seq<Offer>, known: ItemId -> bool): seq<Offer> {
    if reports == [] then []
    else Copied(reports[..|reports| - 1], known)
         + if known(reports[|reports| - 1].id) then [reports[|reports| - 1]] else []
  }

  /** The erase loop: what is not in the other set is taken out. */
  method KeepOnly(items: set<ItemId>, keep: set<ItemId>) returns (r: set<ItemId>)
    ensures r == items * keep
  {
    r := items;
    var rest := items;
    while rest != {}
      invariant rest <= items && r == (items - rest) * keep + rest
      decreases rest
    {
      NotEmpty(rest);
      var i :| i in rest;
      if i !in keep { r := r - {i}; }
      rest := rest - {i};
    }
  }

  lemma RunSnoc(msgs: seq<Msg>, m: Msg)
    ensures Run(EMPTY, msgs + [m]) == Process(Run(EMPTY, msgs), m)
  {
    assert (msgs + [m])[..|msgs|] == msgs;
  }

  lemma ClientsOfOneMore(m: SetMap<ItemId, Client>, done: set<ItemId>, i: ItemId)
    ensures ClientsOf(m, done + {i}) == ClientsOf(m, done) + ValSet(m, i)
  {
    forall c | c in ValSet(m, i) ensures c in ClientsOf(m, done + {i}) {
      assert i in done + {i};
    }
    forall c | c in ClientsOf(m, done) ensures c in ClientsOf(m, done + {i}) {
      var j :| j in done && c in ValSet(m, j);
      assert j in done + {i};
    }
  }

  lemma SendAllNone(s: State, changed: set<ItemId>)
    ensures SendAll(s, changed, {}) == s
  {
    assert SendAll(s, changed, {}).heard == s.heard;
  }

  lemma SendAllOneMore(s: State, changed: set<ItemId>, done: set<Client>, c: Client)
    requires c !in done
    ensures SendAll(s, changed, done + {c})
         == SendCached(SendAll(s, changed, done), ValSet(s.clientToItems, c) * changed, c)
  {
    hide DueTo, Cached;
    var t := SendAll(s, changed, done);
    var items := ValSet(s.clientToItems, c) * changed;
    DueIsCached(s, changed, c);
    var told, told' := Told(s, changed, done), Told(s, changed, done + {c});
    if DueTo(s, changed, c) == map[] {
      assert told' == told;
    } else {
      assert told' == told + {c};
      SentOneMore(s, changed, told, c);
    }
  }

  /** Each report is copied as often as it comes if its kind is known, and otherwise not at all. */
  lemma {:induction false} CopiedAreKnown(reports: seq<Offer>, known: ItemId -> bool, o: Offer)
    ensures multiset(Copied(reports, known))[o] == if known(o.id) then multiset(reports)[o] else 0
  {
    if reports != [] {
      var front, last := reports[..|reports| - 1], reports[|reports| - 1];
      CopiedAreKnown(front, known, o);
      assert reports == front + [last];
    }
  }

  /** The copies keep the order of the reports. */
  lemma {:induction false} CopiedInOrder(a: seq<Offer>, b: seq<Offer>, known: ItemId -> bool)
    ensures Copied(a + b, known) == Copied(a, known) + Copied(b, known)
  {
    if b == [] {
      assert a + b == a;
    } else {
      CopiedInOrder(a, b[..|b| - 1], known);
      assert (a + b)[..|a + b| - 1] == a + b[..|b| - 1];
    }
  }

  lemma SentOneMore(s: State, changed: set<ItemId>, told: set<Client>, c: Client)
    requires c !in told
    ensures HeardBy(s, changed, told + {c})
         == HeardBy(s, changed, told)[c := Log(HeardBy(s, changed, told), c) + [DueTo(s, changed, c)]]
  {
    hide DueTo;
  }

  lemma DueIsCached(s: State, changed: set<ItemId>, c: Client)
    ensures DueTo(s, changed, c) == Cached(s.cache, ValSet(s.clientToItems, c) * changed)
  {
  }

  lemma NotEmpty(items: set<ItemId>)
    ensures items != {} <==> exists i :: i in items
  {
    if forall i :: i !in items { assert items == {}; }
  }
}
