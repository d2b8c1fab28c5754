/** The observer of the operating system's data items: who subscribes to what, what the framework has
    been asked for, the last value of each item, and what each client has been told. */
module Observer {
  import opened SetMap

  type Client = nat
  type ItemId = int
  type Value = seq<int>
  type Bundle = map<ItemId, Value>

  /** What the current subscription object has been told. */
  datatype Call =
    | SubscribeTo(items: set<ItemId>)
    | RequestData(items: set<ItemId>)
    | UnsubscribeFrom(items: set<ItemId>)

  /** A reported item, with the answer of the system status to it and the value the observer's copy of the
      item has if it was taken. */
  datatype Offer = Offer(id: ItemId, accepted: bool, value: Value)

  /** attached: a subscription object has been set; calls: what that object has been told, in order;
      heard: the notifications each client has had, in order. */
  datatype State = State(clientToItems: SetMap<Client, ItemId>, itemToClients: SetMap<ItemId, Client>,
                         attached: bool, calls: seq<Call>, cache: map<ItemId, Value>, heard: map<Client, seq<Bundle>>)

  datatype Msg =
    | SetSubscriptionObj
    | Subscribe(items: set<ItemId>, client: Client, toRequestData: bool)
    | UpdateSubscription(items: set<ItemId>, client: Client)
    | Unsubscribe(items: set<ItemId>, client: Client)
    | UnsubscribeAll(client: Client)
    | Notify(batch: seq<Offer>)

  const EMPTY := State(map[], map[], false, [], map[], map[])

  function Log(heard: map<Client, seq<Bundle>>, c: Client): seq<Bundle> {
    if c in heard then heard[c] else []
  }

  /** The cached items of a set, with their values. */
  function Cached(cache: map<ItemId, Value>, items: set<ItemId>): Bundle {
    map i | i in items && i in cache :: cache[i]
  }

  /** A client hears the cached items of a set, unless there are none. */
  function SendCached(s: State, items: set<ItemId>, c: Client): State {
    var b := Cached(s.cache, items);
    if b == map[] then s else s.(heard := s.heard[c := Log(s.heard, c) + [b]])
  }

  /** A call is made only if there is an object to call, and an empty one only where the code makes it. */
  function CallIf(s: State, wanted: bool, c: Call): State {
    if s.attached && wanted then s.(calls := s.calls + [c]) else s
  }

  function OnSubscribe(s: State, items: set<ItemId>, c: Client, toRequestData: bool): State {
    var fresh' := NewKeys(s.itemToClients, items);
    var t := s.(itemToClients := Add(s.itemToClients, items, {c}), clientToItems := Add(s.clientToItems, {c}, items));
    var u := SendCached(t, items, c);
    if toRequestData then CallIf(u, true, RequestData(fresh')) else CallIf(u, fresh' != {}, SubscribeTo(fresh'))
  }

  function OnUpdate(s: State, items: set<ItemId>, c: Client): State {
    var had := ValSet(s.clientToItems, c);
    var unused, added := had - items, items - had;
    var gone := GoneKeys(s.itemToClients, unused, {c});
    var trimmed := Trim(s.itemToClients, unused, {c});
    var fresh' := NewKeys(trimmed, added);
    var t := s.(clientToItems := s.clientToItems[c := items], itemToClients := Add(trimmed, added, {c}));
    var u := SendCached(t, added, c);
    CallIf(CallIf(u, fresh' != {}, SubscribeTo(fresh')), gone != {}, UnsubscribeFrom(gone))
  }

  function OnUnsubscribe(s: State, items: set<ItemId>, c: Client): State {
    var unused := GoneVals(s.clientToItems, c, items);
    var gone := GoneKeys(s.itemToClients, unused, {c});
    var t := s.(clientToItems := Trim(s.clientToItems, {c}, items),
                itemToClients := Trim(s.itemToClients, unused, {c}));
    CallIf(t, gone != {}, UnsubscribeFrom(gone))
  }

  function OnUnsubscribeAll(s: State, c: Client): State {
    var had := ValSet(s.clientToItems, c);
    if had == {} then s
    else
      var gone := GoneKeys(s.itemToClients, had, {c});
      var t := s.(clientToItems := s.clientToItems - {c}, itemToClients := Trim(s.itemToClients, had, {c}));
      CallIf(t, gone != {}, UnsubscribeFrom(gone))
  }

  function OnSetSubscriptionObj(s: State): State {
    var keys := s.itemToClients.Keys;
    s.(attached := true, calls := if keys == {} then [] else [SubscribeTo(keys), RequestData(keys)])
  }

  /** The cache after a batch: an accepted item replaces the value kept for its id. */
  function UpdateCache(cache: map<ItemId, Value>, o: Offer): map<ItemId, Value> {
    if o.accepted then cache[o.id := o.value] else cache
  }

  function CacheAfter(cache: map<ItemId, Value>, batch: seq<Offer>): map<ItemId, Value> {
    if batch == [] then cache else UpdateCache(CacheAfter(cache, batch[..|batch| - 1]), batch[|batch| - 1])
  }

  function Changed(batch: seq<Offer>): set<ItemId> {
    set o | o in batch && o.accepted :: o.id
  }

  /** The clients found under the changed items. */
  function ClientsOf(m: SetMap<ItemId, Client>, items: set<ItemId>): set<Client> {
    set i, c | i in items && c in ValSet(m, i) :: c
  }

  /** What a client found there is sent: the changed ones of its items. */
  function DueTo(s: State, changed: set<ItemId>, c: Client): Bundle {
    Cached(s.cache, ValSet(s.clientToItems, c) * changed)
  }

  /** The clients that have something due. */
  function Told(s: State, changed: set<ItemId>, clients: set<Client>): set<Client> {
    set c | c in clients && DueTo(s, changed, c) != map[]
  }

  function HeardBy(s: State, changed: set<ItemId>, told: set<Client>): map<Client, seq<Bundle>> {
    map c | c in s.heard.Keys + told ::
      if c in told then Log(s.heard, c) + [DueTo(s, changed, c)] else s.heard[c]
  }

  /** Each of the clients is sent its due, unless that is nothing. */
  function SendAll(s: State, changed: set<ItemId>, clients: set<Client>): State {
    s.(heard := HeardBy(s, changed, Told(s, changed, clients)))
  }

  function OnNotify(s: State, batch: seq<Offer>): State {
    var t := s.(cache := CacheAfter(s.cache, batch));
    SendAll(t, Changed(batch), ClientsOf(s.itemToClients, Changed(batch)))
  }

  /** An empty item set never becomes a message. */
  function Process(s: State, msg: Msg): State {
    match msg
    case SetSubscriptionObj => OnSetSubscriptionObj(s)
    case Subscribe(items, c, req) => if items == {} then s else OnSubscribe(s, items, c, req)
    case UpdateSubscription(items, c) => if items == {} then s else OnUpdate(s, items, c)
    case Unsubscribe(items, c) => if items == {} then s else OnUnsubscribe(s, items, c)
    case UnsubscribeAll(c) => OnUnsubscribeAll(s, c)
    case Notify(batch) => OnNotify(s, batch)
  }

  function Run(s: State, msgs: seq<Msg>): State {
    if msgs == [] then s else Process(Run(s, msgs[..|msgs| - 1]), msgs[|msgs| - 1])
  }
}
