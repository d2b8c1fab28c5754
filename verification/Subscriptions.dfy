/** Over every run the index maps stay converse and the framework's set stays in step with them. */
module Subscriptions {
  import opened SetMap
  import opened Observer

  predicate Wants(s: State, c: Client, i: ItemId) {
    Has(s.clientToItems, c, i)
  }

  /** The maps are converse to each other, and neither has an empty entry. */
  ghost predicate Converse(s: State) {
    && NoEmpty(s.clientToItems) && NoEmpty(s.itemToClients)
    && forall c, i :: Has(s.clientToItems, c, i) <==> Has(s.itemToClients, i, c)
  }

  /** Which pairs a message leaves in the relation. */
  predicate WantsAfter(s: State, msg: Msg, c: Client, i: ItemId) {
    match msg
    case SetSubscriptionObj => Wants(s, c, i)
    case Subscribe(items, d, _) => Wants(s, c, i) || (c == d && i in items)
    case UpdateSubscription(items, d) => if c == d && items != {} then i in items else Wants(s, c, i)
    case Unsubscribe(items, d) => Wants(s, c, i) && !(c == d && i in items)
    case UnsubscribeAll(d) => Wants(s, c, i) && c != d
    case Notify(_) => Wants(s, c, i)
  }

  /** The items the current object was asked for and not told to drop. */
  function Asked(calls: seq<Call>): set<ItemId> {
    if calls == [] then {} else Heeded(Asked(calls[..|calls| - 1]), calls[|calls| - 1])
  }

  function Heeded(before: set<ItemId>, c: Call): set<ItemId> {
    match c
    case SubscribeTo(items) => before + items
    case RequestData(items) => before + items
    case UnsubscribeFrom(items) => before - items
  }

  ghost predicate Tracked(s: State) {
    s.attached ==> Asked(s.calls) == s.itemToClients.Keys
  }

  lemma AskedSnoc(calls: seq<Call>, c: Call)
    ensures Asked(calls + [c]) == Heeded(Asked(calls), c)
  {
    assert (calls + [c])[..|calls|] == calls;
  }

  lemma CallIfTracked(s: State, wanted: bool, c: Call)
    ensures s.attached && wanted ==> Asked(CallIf(s, wanted, c).calls) == Heeded(Asked(s.calls), c)
  {
    AskedSnoc(s.calls, c);
  }

  /** Every message keeps the maps converse and without empty entries, changes the relation as it says,
      and keeps the framework's set in step with the keys. */
  lemma ProcessKeeps(s: State, msg: Msg)
    requires Converse(s) && Tracked(s)
    ensures Converse(Process(s, msg)) && Tracked(Process(s, msg))
    ensures forall c, i :: Wants(Process(s, msg), c, i) <==> WantsAfter(s, msg, c, i)
  {
    hide Converse, Tracked, OnSubscribe, OnUpdate, OnUnsubscribe, OnUnsubscribeAll, OnSetSubscriptionObj;
    match msg
    case SetSubscriptionObj => AttachKeeps(s);
    case Subscribe(items, c, req) => if items != {} { SubscribeKeeps(s, items, c, req); }
    case UpdateSubscription(items, c) => if items != {} { UpdateKeeps(s, items, c); }
    case Unsubscribe(items, c) => if items != {} { UnsubscribeKeeps(s, items, c); }
    case UnsubscribeAll(c) => UnsubscribeAllKeeps(s, c);
    case Notify(batch) => NotifyKeeps(s, batch);
  }

  lemma NotifyKeeps(s: State, batch: seq<Offer>)
    requires Converse(s) && Tracked(s)
    ensures var t := OnNotify(s, batch); Converse(t) && Tracked(t) && t.clientToItems == s.clientToItems
  {
  }

  lemma AttachKeeps(s: State)
    requires Converse(s)
    ensures var t := OnSetSubscriptionObj(s); Converse(t) && Tracked(t) && t.clientToItems == s.clientToItems
  {
    var keys := s.itemToClients.Keys;
    AskedSnoc([], SubscribeTo(keys));
    AskedSnoc([SubscribeTo(keys)], RequestData(keys));
    assert [] + [SubscribeTo(keys)] == [SubscribeTo(keys)];
    assert [SubscribeTo(keys)] + [RequestData(keys)] == [SubscribeTo(keys), RequestData(keys)];
  }

  lemma SubscribeKeeps(s: State, items: set<ItemId>, c: Client, req: bool)
    requires Converse(s) && Tracked(s) && items != {}
    ensures var t := OnSubscribe(s, items, c, req); Converse(t) && Tracked(t)
    ensures forall d, i :: Wants(OnSubscribe(s, items, c, req), d, i) == (Wants(s, d, i) || (d == c && i in items))
  {
    hide Add, Has, NoEmpty, Asked, CallIf, SendCached;
    var r := OnSubscribe(s, items, c, req);
    SubscribeParts(s, items, c, req);
    AddFacts(s.itemToClients, items, {c});
    AddFacts(s.clientToItems, {c}, items);
    forall d, i ensures Has(r.clientToItems, d, i) == Has(r.itemToClients, i, d)
                        && Has(r.clientToItems, d, i) == (Has(s.clientToItems, d, i) || (d == c && i in items)) {
      HasAdd(s.itemToClients, items, {c}, i, d);
      HasAdd(s.clientToItems, {c}, items, d, i);
    }
  }

  lemma SubscribeParts(s: State, items: set<ItemId>, c: Client, req: bool)
    requires Tracked(s)
    ensures var t := OnSubscribe(s, items, c, req);
            && t.itemToClients == Add(s.itemToClients, items, {c})
            && t.clientToItems == Add(s.clientToItems, {c}, items)
            && t.attached == s.attached
            && (s.attached ==> Asked(t.calls) == s.itemToClients.Keys + NewKeys(s.itemToClients, items))
  {
    hide Add, Asked;
    var fresh' := NewKeys(s.itemToClients, items);
    var r := s.(itemToClients := Add(s.itemToClients, items, {c}), clientToItems := Add(s.clientToItems, {c}, items));
    var u := SendCached(r, items, c);
    CallIfTracked(u, true, RequestData(fresh'));
    CallIfTracked(u, fresh' != {}, SubscribeTo(fresh'));
  }

  lemma UpdateKeeps(s: State, items: set<ItemId>, c: Client)
    requires Converse(s) && Tracked(s) && items != {}
    ensures var t := OnUpdate(s, items, c); Converse(t) && Tracked(t)
    ensures forall d, i :: Wants(OnUpdate(s, items, c), d, i) == if d == c then i in items else Wants(s, d, i)
  {
    hide Add, Trim, GoneKeys, NoEmpty, OnUpdate, Asked;
    var r := OnUpdate(s, items, c);
    var had := ValSet(s.clientToItems, c);
    var unused, added := had - items, items - had;
    var gone := GoneKeys(s.itemToClients, unused, {c});
    var trimmed := Trim(s.itemToClients, unused, {c});
    UpdateParts(s, items, c);
    TrimFacts(s.itemToClients, unused, {c});
    AddFacts(trimmed, added, {c});
    PutFacts(s.clientToItems, c, items);
    assert s.attached ==> Asked(r.calls) == r.itemToClients.Keys by { UpdatedKeys(s, items, c); }
    forall d, i ensures Has(r.clientToItems, d, i) == Has(r.itemToClients, i, d)
                        && Has(r.clientToItems, d, i) == if d == c then i in items else Has(s.clientToItems, d, i) {
      HasTrim(s.itemToClients, unused, {c}, i, d);
      HasAdd(trimmed, added, {c}, i, d);
      assert Has(s.clientToItems, d, i) == Has(s.itemToClients, i, d);
    }
  }

  lemma UpdateParts(s: State, items: set<ItemId>, c: Client)
    requires Tracked(s)
    ensures var t, had := OnUpdate(s, items, c), ValSet(s.clientToItems, c);
            var gone := GoneKeys(s.itemToClients, had - items, {c});
            var trimmed := Trim(s.itemToClients, had - items, {c});
            && t.clientToItems == s.clientToItems[c := items] && t.itemToClients == Add(trimmed, items - had, {c})
            && t.attached == s.attached
            && (s.attached ==> Asked(t.calls) == s.itemToClients.Keys + NewKeys(trimmed, items - had) - gone)
  {
    hide Add, Trim, GoneKeys, Asked, NewKeys;
    var had := ValSet(s.clientToItems, c);
    var gone := GoneKeys(s.itemToClients, had - items, {c});
    var trimmed := Trim(s.itemToClients, had - items, {c});
    var fresh' := NewKeys(trimmed, items - had);
    var t := s.(clientToItems := s.clientToItems[c := items], itemToClients := Add(trimmed, items - had, {c}));
    var u := SendCached(t, items - had, c);
    CallIfTracked(u, fresh' != {}, SubscribeTo(fresh'));
    CallIfTracked(CallIf(u, fresh' != {}, SubscribeTo(fresh')), gone != {}, UnsubscribeFrom(gone));
  }

  lemma PutFacts(m: SetMap<Client, ItemId>, c: Client, items: set<ItemId>)
    requires NoEmpty(m) && items != {}
    ensures NoEmpty(m[c := items])
  {
  }

  /** An item dropped by the client is not one of those it adds, so the two calls do not disturb each
      other. */
  lemma UpdatedKeys(s: State, items: set<ItemId>, c: Client)
    ensures var had := ValSet(s.clientToItems, c);
            var gone := GoneKeys(s.itemToClients, had - items, {c});
            gone !! items
  {
  }

  lemma UnsubscribeKeeps(s: State, items: set<ItemId>, c: Client)
    requires Converse(s) && Tracked(s)
    ensures var t := OnUnsubscribe(s, items, c); Converse(t) && Tracked(t)
    ensures forall d, i :: Wants(OnUnsubscribe(s, items, c), d, i) == (Wants(s, d, i) && !(d == c && i in items))
  {
    hide Trim, GoneKeys, NoEmpty;
    var r := OnUnsubscribe(s, items, c);
    var unused := GoneVals(s.clientToItems, c, items);
    var gone := GoneKeys(s.itemToClients, unused, {c});
    var t := s.(itemToClients := r.itemToClients, clientToItems := r.clientToItems);
    CallIfTracked(t, gone != {}, UnsubscribeFrom(gone));
    TrimFacts(s.clientToItems, {c}, items);
    TrimFacts(s.itemToClients, unused, {c});
    forall d, i ensures Has(r.clientToItems, d, i) == Has(r.itemToClients, i, d)
                        && Has(r.clientToItems, d, i) == (Has(s.clientToItems, d, i) && !(d == c && i in items)) {
      HasTrim(s.itemToClients, unused, {c}, i, d);
      HasTrim(s.clientToItems, {c}, items, d, i);
      assert Has(s.clientToItems, d, i) == Has(s.itemToClients, i, d);
    }
  }

  lemma UnsubscribeAllKeeps(s: State, c: Client)
    requires Converse(s) && Tracked(s)
    ensures var t := OnUnsubscribeAll(s, c); Converse(t) && Tracked(t)
    ensures forall d, i :: Wants(OnUnsubscribeAll(s, c), d, i) == (Wants(s, d, i) && d != c)
  {
    hide Trim, GoneKeys;
    var r := OnUnsubscribeAll(s, c);
    var had := ValSet(s.clientToItems, c);
    var gone := GoneKeys(s.itemToClients, had, {c});
    var t := s.(itemToClients := r.itemToClients, clientToItems := r.clientToItems);
    CallIfTracked(t, gone != {}, UnsubscribeFrom(gone));
    TrimFacts(s.itemToClients, had, {c});
    forall d, i ensures Has(r.clientToItems, d, i) == Has(r.itemToClients, i, d)
                        && Has(r.clientToItems, d, i) == (Has(s.clientToItems, d, i) && d != c) {
      HasTrim(s.itemToClients, had, {c}, i, d);
      assert Has(s.clientToItems, d, i) == Has(s.itemToClients, i, d);
    }
  }

  /** In every run of messages the maps are converse with no empty entries, and once an object is set
      the framework's set is exactly the keys of the item map. */
  lemma {:induction false} AlwaysConverse(msgs: seq<Msg>)
    ensures Converse(Run(EMPTY, msgs)) && Tracked(Run(EMPTY, msgs))
  {
    if msgs != [] {
      hide Process, Converse, Tracked;
      AlwaysConverse(msgs[..|msgs| - 1]);
      ProcessKeeps(Run(EMPTY, msgs[..|msgs| - 1]), msgs[|msgs| - 1]);
    }
  }
}
