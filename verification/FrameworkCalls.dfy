/** What the framework is told, call by call, in terms of what clients want: the items that somebody wants now
    and nobody did before, or the other way round. */
module FrameworkCalls {
  import opened SetMap
  import opened Observer
  import opened Subscriptions

  /** The items that some client wants. */
  function Wanted(s: State): set<ItemId> {
    set c, i | c in s.clientToItems && i in s.clientToItems[c] :: i
  }

  function Unless(items: set<ItemId>, call: Call): seq<Call> {
    if items == {} then [] else [call]
  }

  /** The calls of one message to the object that is set, from the items wanted before and after it. A new
      object is subscribed to and asked for whatever is wanted. A request for data is made even for nothing
      new; all other calls only for some items. */
  function CallsFor(msg: Msg, before: set<ItemId>, after: set<ItemId>): seq<Call> {
    match msg
    case SetSubscriptionObj => if after == {} then [] else [SubscribeTo(after), RequestData(after)]
    case Subscribe(items, _, toRequestData) =>
      if items == {} then []
      else if toRequestData then [RequestData(items - before)]
      else Unless(items - before, SubscribeTo(items - before))
    case UpdateSubscription(_, _) =>
      Unless(after - before, SubscribeTo(after - before)) + Unless(before - after, UnsubscribeFrom(before - after))
    case Unsubscribe(_, _) => Unless(before - after, UnsubscribeFrom(before - after))
    case UnsubscribeAll(_) => Unless(before - after, UnsubscribeFrom(before - after))
    case Notify(_) => []
  }

  lemma WantedAreKeys(s: State)
    requires Converse(s)
    ensures Wanted(s) == s.itemToClients.Keys
  {
    forall i | i in s.itemToClients ensures i in Wanted(s) {
      var c :| c in s.itemToClients[i];
      assert Has(s.itemToClients, i, c);
      assert Has(s.clientToItems, c, i);
    }
    forall i | i in Wanted(s) ensures i in s.itemToClients {
      var c :| c in s.clientToItems && i in s.clientToItems[c];
      assert Has(s.clientToItems, c, i);
      assert Has(s.itemToClients, i, c);
    }
  }

  /** Only if an object is set is anything called; setting one starts its calls afresh. */
  lemma CallsOfMessage(s: State, msg: Msg)
    requires Converse(s) && Tracked(s)
    ensures var t := Process(s, msg);
            && t.attached == (s.attached || msg.SetSubscriptionObj?)
            && t.calls == if msg.SetSubscriptionObj? then CallsFor(msg, Wanted(s), Wanted(t))
                          else s.calls + if s.attached then CallsFor(msg, Wanted(s), Wanted(t)) else []
  {
    ProcessKeeps(s, msg);
    WantedAreKeys(s);
    WantedAreKeys(Process(s, msg));
    KeysCalls(s, msg);
    hide Process, CallsFor, Converse, Wanted, Tracked;
  }

  lemma KeysCalls(s: State, msg: Msg)
    requires Converse(s)
    ensures var t := Process(s, msg);
            var before, after := s.itemToClients.Keys, t.itemToClients.Keys;
            && t.attached == (s.attached || msg.SetSubscriptionObj?)
            && t.calls == if msg.SetSubscriptionObj? then CallsFor(msg, before, after)
                          else s.calls + if s.attached then CallsFor(msg, before, after) else []
  {
    hide Add, Trim, NewKeys, GoneKeys, GoneVals, Converse, SendCached, NoEmpty;
    match msg
    case SetSubscriptionObj =>
    case Notify(batch) => assert s.calls + [] == s.calls;
    case Subscribe(items, c, req) => SubscribeCalls(s, items, c, req);
    case UpdateSubscription(items, c) => UpdateCalls(s, items, c);
    case Unsubscribe(items, c) => UnsubscribeCalls(s, items, c);
    case UnsubscribeAll(c) => UnsubscribeAllCalls(s, c);
  }

  lemma SubscribeCalls(s: State, items: set<ItemId>, c: Client, req: bool)
    requires Converse(s)
    ensures var t := Process(s, Msg.Subscribe(items, c, req));
            var before, after := s.itemToClients.Keys, t.itemToClients.Keys;
            && t.attached == s.attached
            && t.calls == s.calls + if s.attached then CallsFor(Msg.Subscribe(items, c, req), before, after) else []
  {
    hide Add, Converse, NoEmpty;
    assert s.calls + [] == s.calls;
  }

  lemma UpdateCalls(s: State, items: set<ItemId>, c: Client)
    requires Converse(s)
    ensures var t := Process(s, Msg.UpdateSubscription(items, c));
            var before, after := s.itemToClients.Keys, t.itemToClients.Keys;
            && t.attached == s.attached
            && t.calls == s.calls + if s.attached then CallsFor(Msg.UpdateSubscription(items, c), before, after) else []
  {
    var had := ValSet(s.clientToItems, c);
    var unused, added := had - items, items - had;
    var trimmed := Trim(s.itemToClients, unused, {c});
    if items == {} {
      assert s.itemToClients.Keys - s.itemToClients.Keys == {};
      assert s.calls + [] == s.calls;
    } else {
      TrimFacts(s.itemToClients, unused, {c});
      AddFacts(trimmed, added, {c});
      UpdatedKeys(s, items, c);
      hide Add, Trim, Converse, NoEmpty, SendCached, GoneKeys;
      var gone, fresh' := GoneKeys(s.itemToClients, unused, {c}), NewKeys(trimmed, added);
      var t := OnUpdate(s, items, c);
      assert t.itemToClients.Keys == s.itemToClients.Keys - gone + fresh';
      GoneWereKeys(s.itemToClients, unused, {c});
      assert t.itemToClients.Keys - s.itemToClients.Keys == fresh';
      assert s.itemToClients.Keys - t.itemToClients.Keys == gone;
      UpdateCallsAre(s, items, c, fresh', gone);
    }
  }

  lemma GoneWereKeys<K, V>(m: SetMap<K, V>, keys: set<K>, vals: set<V>)
    ensures GoneKeys(m, keys, vals) <= m.Keys && GoneKeys(m, keys, vals) <= keys
  {
  }

  lemma UpdateCallsAre(s: State, items: set<ItemId>, c: Client, fresh': set<ItemId>, gone: set<ItemId>)
    requires gone == GoneKeys(s.itemToClients, ValSet(s.clientToItems, c) - items, {c})
    requires fresh' == NewKeys(Trim(s.itemToClients, ValSet(s.clientToItems, c) - items, {c}),
                               items - ValSet(s.clientToItems, c))
    ensures var t := OnUpdate(s, items, c);
            && t.attached == s.attached
            && t.calls == s.calls + if s.attached then Unless(fresh', SubscribeTo(fresh'))
                                                       + Unless(gone, UnsubscribeFrom(gone)) else []
  {
    hide Add, Trim, GoneKeys, NewKeys, ValSet;
    assert s.calls + [] == s.calls;
  }

  lemma UnsubscribeCalls(s: State, items: set<ItemId>, c: Client)
    requires Converse(s)
    ensures var t := Process(s, Msg.Unsubscribe(items, c));
            var before, after := s.itemToClients.Keys, t.itemToClients.Keys;
            && t.attached == s.attached
            && t.calls == s.calls + if s.attached then CallsFor(Msg.Unsubscribe(items, c), before, after) else []
  {
    var unused := GoneVals(s.clientToItems, c, items);
    TrimFacts(s.itemToClients, unused, {c});
    GoneWereKeys(s.itemToClients, unused, {c});
    hide Trim, GoneKeys, GoneVals, Converse, NoEmpty;
    var gone := GoneKeys(s.itemToClients, unused, {c});
    assert s.itemToClients.Keys - (s.itemToClients.Keys - gone) == gone;
    assert s.itemToClients.Keys - s.itemToClients.Keys == {};
    assert s.calls + [] == s.calls;
  }

  lemma UnsubscribeAllCalls(s: State, c: Client)
    requires Converse(s)
    ensures var t := Process(s, Msg.UnsubscribeAll(c));
            var before, after := s.itemToClients.Keys, t.itemToClients.Keys;
            && t.attached == s.attached
            && t.calls == s.calls + if s.attached then CallsFor(Msg.UnsubscribeAll(c), before, after) else []
  {
    var had := ValSet(s.clientToItems, c);
    TrimFacts(s.itemToClients, had, {c});
    GoneWereKeys(s.itemToClients, had, {c});
    hide Trim, GoneKeys, ValSet, Converse, NoEmpty;
    var gone := GoneKeys(s.itemToClients, had, {c});
    assert s.itemToClients.Keys - (s.itemToClients.Keys - gone) == gone;
    assert s.itemToClients.Keys - s.itemToClients.Keys == {};
    assert s.calls + [] == s.calls;
  }

  // ---------- over runs

  /** The calls to the current object over a run, from the items wanted along it. */
  function CallsOver(msgs: seq<Msg>): seq<Call> {
    if msgs == [] then []
    else
      var front, msg := msgs[..|msgs| - 1], msgs[|msgs| - 1];
      var calls := CallsFor(msg, Wanted(Run(EMPTY, front)), Wanted(Run(EMPTY, msgs)));
      if msg.SetSubscriptionObj? then calls
      else if SetSubscriptionObj in front then CallsOver(front) + calls
      else []
  }

  /** In every run the framework is told exactly that, by kind, items and order. */
  lemma {:induction false} CallsAreExact(msgs: seq<Msg>)
    ensures var s := Run(EMPTY, msgs);
            s.calls == CallsOver(msgs) && (s.attached <==> SetSubscriptionObj in msgs)
  {
    if msgs != [] {
      hide Process, CallsFor, Converse, Wanted, Tracked;
      var front, msg := msgs[..|msgs| - 1], msgs[|msgs| - 1];
      CallsAreExact(front);
      AlwaysConverse(front);
      CallsOfMessage(Run(EMPTY, front), msg);
      assert msgs == front + [msg];
      if SetSubscriptionObj !in front {
        assert CallsOver(front) == [] by { NoObjectNoCalls(front); }
      }
    }
  }

  lemma NoObjectNoCalls(msgs: seq<Msg>)
    requires SetSubscriptionObj !in msgs
    ensures CallsOver(msgs) == []
  {
    if msgs != [] {
      assert msgs[|msgs| - 1] in msgs;
      assert forall m :: m in msgs[..|msgs| - 1] ==> m in msgs;
    }
  }
}
