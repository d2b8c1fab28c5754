/** What clients hear: every batch is handed out exactly, and over any run each client is up to date. */
module Delivery {
  import opened SetMap
  import opened Observer
  import opened Subscriptions

  datatype Option<T> = None | Some(value: T)

  /** Offer k is the last one of the batch that was accepted for its item. */
  predicate LastFor(batch: seq<Offer>, k: nat)
    requires k < |batch|
  {
    batch[k].accepted && forall j :: k < j < |batch| ==> !(batch[j].accepted && batch[j].id == batch[k].id)
  }

  /** The cache holds, for an item accepted in the batch, the value of the last acceptance, and is
      otherwise as before. */
  lemma {:induction false} CacheMeans(cache: map<ItemId, Value>, batch: seq<Offer>)
    ensures CacheAfter(cache, batch).Keys == cache.Keys + Changed(batch)
    ensures forall i :: i in cache && i !in Changed(batch) ==> CacheAfter(cache, batch)[i] == cache[i]
    ensures forall k :: 0 <= k < |batch| && LastFor(batch, k) ==>
              CacheAfter(cache, batch)[batch[k].id] == batch[k].value
  {
    if batch != [] {
      var n := |batch| - 1;
      var front := batch[..n];
      CacheMeans(cache, front);
      assert batch == front + [batch[n]];
      assert Changed(batch) == Changed(front) + if batch[n].accepted then {batch[n].id} else {};
      forall k | 0 <= k < |batch| && LastFor(batch, k) ensures CacheAfter(cache, batch)[batch[k].id] == batch[k].value {
        if k < n {
          assert LastFor(front, k);
          assert !(batch[n].accepted && batch[n].id == batch[k].id);
        }
      }
    }
  }

  /** The bundle holds exactly the changed items the client wants, each with the value last accepted. */
  ghost predicate ExactBundle(s: State, batch: seq<Offer>, c: Client, b: Bundle) {
    && (forall i :: i in b <==> i in Changed(batch) && Wants(s, c, i))
    && (forall k :: 0 <= k < |batch| && LastFor(batch, k) && Wants(s, c, batch[k].id) ==>
          batch[k].id in b && b[batch[k].id] == batch[k].value)
  }

  /** A batch gives every client that wants a changed item one notification, with exactly those of its
      items that changed; every other client hears nothing. */
  lemma ExactDelivery(s: State, batch: seq<Offer>, c: Client)
    requires Converse(s)
    ensures var before, after := Log(s.heard, c), Log(OnNotify(s, batch).heard, c);
            if exists i :: i in Changed(batch) && Wants(s, c, i)
            then |after| == |before| + 1 && after[..|before|] == before && ExactBundle(s, batch, c, after[|before|])
            else after == before
  {
    hide CacheAfter, Changed, Converse, OnNotify, DueTo, Log;
    NotifyTells(s, batch, c);
    BundleIsExact(s, batch, c);
    EmptyMap(DueTo(s.(cache := CacheAfter(s.cache, batch)), Changed(batch), c));
  }

  lemma BundleIsExact(s: State, batch: seq<Offer>, c: Client)
    ensures ExactBundle(s, batch, c, DueTo(s.(cache := CacheAfter(s.cache, batch)), Changed(batch), c))
  {
    hide CacheAfter, Changed;
    CacheMeans(s.cache, batch);
    forall k | 0 <= k < |batch| && LastFor(batch, k) ensures batch[k].id in Changed(batch) { ChangedHas(batch, k); }
  }

  lemma ChangedHas(batch: seq<Offer>, k: nat)
    requires k < |batch| && batch[k].accepted
    ensures batch[k].id in Changed(batch)
  {
  }

  lemma EmptyMap(b: Bundle)
    ensures b == map[] <==> forall i :: i !in b
  {
    if forall i :: i !in b { assert b.Keys == {}; }
  }

  /** Going through the clients found under the changed items reaches every client with something due,
      because the maps are converse. */
  lemma NotifyTells(s: State, batch: seq<Offer>, c: Client)
    requires Converse(s)
    ensures var t := s.(cache := CacheAfter(s.cache, batch));
            var b := DueTo(t, Changed(batch), c);
            Log(OnNotify(s, batch).heard, c) == if b == map[] then Log(s.heard, c) else Log(s.heard, c) + [b]
  {
    hide CacheAfter, Changed;
    var changed := Changed(batch);
    var t := s.(cache := CacheAfter(s.cache, batch));
    var b := DueTo(t, changed, c);
    EmptyMap(b);
    if i :| i in b {
      assert c in ValSet(s.itemToClients, i) by { assert Has(s.clientToItems, c, i) <==> Has(s.itemToClients, i, c); }
      assert c in ClientsOf(s.itemToClients, changed);
    }
  }

  // ---------- over runs

  /** The value a client was last told for an item. */
  function Latest(log: seq<Bundle>, i: ItemId): Option<Value> {
    if log == [] then None
    else if i in log[|log| - 1] then Some(log[|log| - 1][i])
    else Latest(log[..|log| - 1], i)
  }

  /** Every client was last told, for every cached item it wants, the value in the cache. */
  ghost predicate UpToDate(s: State) {
    forall c, i :: Has(s.clientToItems, c, i) && i in s.cache ==> Latest(Log(s.heard, c), i) == Some(s.cache[i])
  }

  /** Everything offered to the system status over a run, in order. */
  function Offered(msgs: seq<Msg>): seq<Offer> {
    if msgs == [] then []
    else Offered(msgs[..|msgs| - 1]) + if msgs[|msgs| - 1].Notify? then msgs[|msgs| - 1].batch else []
  }

  lemma LatestSnoc(log: seq<Bundle>, b: Bundle, i: ItemId)
    ensures Latest(log + [b], i) == if i in b then Some(b[i]) else Latest(log, i)
  {
    assert (log + [b])[..|log|] == log;
  }

  lemma {:induction false} CacheAfterConcat(cache: map<ItemId, Value>, a: seq<Offer>, b: seq<Offer>)
    ensures CacheAfter(cache, a + b) == CacheAfter(CacheAfter(cache, a), b)
  {
    if b == [] {
      assert a + b == a;
    } else {
      CacheAfterConcat(cache, a, b[..|b| - 1]);
      assert (a + b)[..|a + b| - 1] == a + b[..|b| - 1];
    }
  }

  /** The items a message makes due to a client, apart from those not in the cache. */
  function Due(s: State, msg: Msg, c: Client): set<ItemId> {
    match msg
    case Subscribe(items, d, _) => if c == d then items else {}
    case UpdateSubscription(items, d) => if c == d then items - ValSet(s.clientToItems, c) else {}
    case Notify(batch) => ValSet(s.clientToItems, c) * Changed(batch)
    case SetSubscriptionObj => {}
    case Unsubscribe(_, _) => {}
    case UnsubscribeAll(_) => {}
  }

  /** Every message sends a client at most one bundle: what it makes due, out of the cache as it leaves it. */
  lemma MessageTells(s: State, msg: Msg, c: Client)
    requires Converse(s)
    ensures var t := Process(s, msg);
            var b := Cached(t.cache, Due(s, msg, c));
            && t.cache == CacheAfter(s.cache, if msg.Notify? then msg.batch else [])
            && Log(t.heard, c) == if b == map[] then Log(s.heard, c) else Log(s.heard, c) + [b]
  {
    hide Add, Trim, Converse, CacheAfter, Changed, CallIf, SendCached, NewKeys, GoneKeys, GoneVals, Log, Cached;
    NothingChanged(s.cache);
    match msg
    case Notify(batch) => NotifyTells(s, batch, c);
    case Subscribe(items, d, req) =>
      var fresh' := NewKeys(s.itemToClients, items);
      var t := s.(itemToClients := Add(s.itemToClients, items, {d}), clientToItems := Add(s.clientToItems, {d}, items));
      SendTells(t, items, d, c);
      CallTells(SendCached(t, items, d), true, RequestData(fresh'));
      CallTells(SendCached(t, items, d), fresh' != {}, SubscribeTo(fresh'));
    case UpdateSubscription(items, d) =>
      UpdateTells(s, items, d, c);
      assert items == {} ==> items - ValSet(s.clientToItems, d) == {};
    case SetSubscriptionObj =>
    case Unsubscribe(items, d) =>
      var unused := GoneVals(s.clientToItems, d, items);
      var gone := GoneKeys(s.itemToClients, unused, {d});
      var t := s.(clientToItems := Trim(s.clientToItems, {d}, items),
                  itemToClients := Trim(s.itemToClients, unused, {d}));
      CallTells(t, gone != {}, UnsubscribeFrom(gone));
    case UnsubscribeAll(d) =>
      var had := ValSet(s.clientToItems, d);
      var gone := GoneKeys(s.itemToClients, had, {d});
      CallTells(s.(clientToItems := s.clientToItems - {d}, itemToClients := Trim(s.itemToClients, had, {d})),
                gone != {}, UnsubscribeFrom(gone));
  }

  lemma UpdateTells(s: State, items: set<ItemId>, d: Client, c: Client)
    ensures var t := OnUpdate(s, items, d);
            var b := Cached(t.cache, if c == d then items - ValSet(s.clientToItems, d) else {});
            t.cache == s.cache && Log(t.heard, c) == if b == map[] then Log(s.heard, c) else Log(s.heard, c) + [b]
  {
    hide Add, Trim, CallIf, SendCached, NewKeys, GoneKeys, Log, Cached;
    var had := ValSet(s.clientToItems, d);
    var unused, added := had - items, items - had;
    var gone := GoneKeys(s.itemToClients, unused, {d});
    var trimmed := Trim(s.itemToClients, unused, {d});
    var fresh' := NewKeys(trimmed, added);
    var t := s.(clientToItems := s.clientToItems[d := items], itemToClients := Add(trimmed, added, {d}));
    var u := SendCached(t, added, d);
    SendTells(t, added, d, c);
    CallTells(u, fresh' != {}, SubscribeTo(fresh'));
    CallTells(CallIf(u, fresh' != {}, SubscribeTo(fresh')), gone != {}, UnsubscribeFrom(gone));
  }

  lemma NothingChanged(cache: map<ItemId, Value>)
    ensures CacheAfter(cache, []) == cache && Changed([]) == {} && Cached(cache, {}) == map[]
  {
  }

  lemma CallTells(s: State, wanted: bool, call: Call)
    ensures CallIf(s, wanted, call).cache == s.cache && CallIf(s, wanted, call).heard == s.heard
  {
  }

  lemma SendTells(s: State, items: set<ItemId>, d: Client, c: Client)
    ensures var t := SendCached(s, items, d);
            var b := Cached(s.cache, if c == d then items else {});
            t.cache == s.cache && Log(t.heard, c) == if b == map[] then Log(s.heard, c) else Log(s.heard, c) + [b]
  {
    NothingChanged(s.cache);
  }

  /** A client that wants a cached item either just became entitled to it or was up to date before and
      the item did not change. */
  lemma DueOrKnown(s: State, msg: Msg, c: Client, i: ItemId)
    requires WantsAfter(s, msg, c, i) && i !in Due(s, msg, c)
    ensures Wants(s, c, i) && (msg.Notify? ==> i !in Changed(msg.batch))
  {
  }

  lemma StaysUpToDate(s: State, msg: Msg)
    requires Converse(s) && Tracked(s) && UpToDate(s)
    ensures UpToDate(Process(s, msg))
  {
    hide Process, Converse, Due, WantsAfter, CacheAfter, Changed, Latest, Log, Tracked;
    var t := Process(s, msg);
    ProcessKeeps(s, msg);
    forall c, i | Has(t.clientToItems, c, i) && i in t.cache ensures Latest(Log(t.heard, c), i) == Some(t.cache[i]) {
      assert Wants(t, c, i);
      MessageTells(s, msg, c);
      var b := Cached(t.cache, Due(s, msg, c));
      LatestSnoc(Log(s.heard, c), b, i);
      if i !in Due(s, msg, c) {
        DueOrKnown(s, msg, c, i);
        CacheMeans(s.cache, if msg.Notify? then msg.batch else []);
        NothingChanged(s.cache);
      } else {
        assert i in b;
      }
    }
  }

  /** In every run the cache holds for each item the value last accepted, and every client was last
      told exactly that for every item it subscribes to. */
  lemma {:induction false} AlwaysUpToDate(msgs: seq<Msg>)
    ensures var s := Run(EMPTY, msgs);
            UpToDate(s) && s.cache == CacheAfter(map[], Offered(msgs))
  {
    if msgs != [] {
      hide Process, Converse, Tracked, UpToDate, CacheAfter, Due, Cached;
      var front, msg := msgs[..|msgs| - 1], msgs[|msgs| - 1];
      AlwaysUpToDate(front);
      AlwaysConverse(front);
      StaysUpToDate(Run(EMPTY, front), msg);
      MessageTells(Run(EMPTY, front), msg, 0);
      CacheAfterConcat(map[], Offered(front), if msg.Notify? then msg.batch else []);
    }
  }
}
