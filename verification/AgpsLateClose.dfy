/** A run of the joined system in which a close that answers an older release arrives while a newer
    request is pending: it is ignored, so a release call may follow it. */
module AgpsLateClose {
  import opened AgpsMachine
  import opened AgpsQueue

  const H2: seq<Obs> := [Asked(1), CallRequest(3)]
  const H4: seq<Obs> := H2 + [Left(1), CallRelease(3)]
  const H8: seq<Obs> := H4 + [Asked(2)] + [GotDenied, Closed(1), CallRequest(3)]

  function W(state: State, subs: seq<Subscriber>, os: seq<Obs>, queue: seq<Reply>): World {
    World(Machine(state, subs, 3, os), false, queue)
  }

  lemma FirstClientAsks()
    ensures Act(Boot(false), Ask(1, 3)) == W(Pending, [Subscriber(1, false)], H2, [ConnFailed])
  {
  }

  lemma FirstClientLeaves()
    ensures Act(W(Pending, [Subscriber(1, false)], H2, [ConnFailed]), Leave(1))
         == W(Releasing, [Subscriber(1, true)], H4, [ConnFailed, ConnClosed])
  {
    var w := W(Pending, [Subscriber(1, false)], H2, [ConnFailed]);
    assert w.m.subs[0].handle == 1;
    FedQueue(w, Unsubscribe(1));
  }

  lemma SecondClientAsks()
    ensures Act(W(Releasing, [Subscriber(1, true)], H4, [ConnFailed, ConnClosed]), Ask(2, 3))
         == W(Releasing, [Subscriber(1, true), Subscriber(2, false)], H4 + [Asked(2)], [ConnFailed, ConnClosed])
  {
    FedQueue(W(Releasing, [Subscriber(1, true)], H4, [ConnFailed, ConnClosed]), Subscribe(2, 3));
  }

  lemma StaleDenialEndsTheRelease()
    ensures var subs := [Subscriber(1, true), Subscriber(2, false)];
            Act(W(Releasing, subs, H4 + [Asked(2)], [ConnFailed, ConnClosed]), Deliver)
            == W(Pending, [Subscriber(2, false)], H8, [ConnClosed, ConnFailed])
  {
    var w := W(Releasing, [Subscriber(1, true), Subscriber(2, false)], H4 + [Asked(2)], [ConnClosed]);
    assert Miss(w.m.subs, Inactives) == [Subscriber(2, false)];
    assert Reach(w.m.subs, Inactives) == [Subscriber(1, true)];
    assert Tell(Close, [Subscriber(1, true)]) == [Closed(1)];
    hide Miss, Reach, Tell;
    assert AnyActive([Subscriber(2, false)]) by { assert ![Subscriber(2, false)][0].inactive; }
    assert Step(w.m, Denied) == Machine(Pending, [Subscriber(2, false)], 3, H8);
    FedQueue(w, Denied);
  }

  lemma LateCloseIsPassedOver()
    ensures Act(W(Pending, [Subscriber(2, false)], H8, [ConnClosed, ConnFailed]), Deliver)
         == W(Pending, [Subscriber(2, false)], H8 + [GotReleased], [ConnFailed])
  {
    FedQueue(W(Pending, [Subscriber(2, false)], H8, [ConnFailed]), ClosedByFramework);
  }

  lemma SecondClientLeaves()
    ensures Act(W(Pending, [Subscriber(2, false)], H8 + [GotReleased], [ConnFailed]), Leave(2)).m.history
         == H8 + [GotReleased] + [Left(2), CallRelease(3)]
  {
    var w := W(Pending, [Subscriber(2, false)], H8 + [GotReleased], [ConnFailed]);
    assert w.m.subs[0].handle == 2;
  }

  /** The seventh observable is a request, the ninth a close, the eleventh the release call: a release
      is not always of a request that nothing has closed since. */
  lemma LateCloseBeforeRelease()
    ensures exists actions ::
      && WwanOnly(actions)
      && var os := Acts(Boot(false), actions).m.history;
         |os| == 11 && os[7] == CallRequest(3) && os[8] == GotReleased && os[9] == Left(2) && os[10] == CallRelease(3)
  {
    FirstClientAsks();
    FirstClientLeaves();
    SecondClientAsks();
    StaleDenialEndsTheRelease();
    LateCloseIsPassedOver();
    SecondClientLeaves();
    hide Act, W;
    var a := [Ask(1, 3)];
    var b := a + [Leave(1)];
    var c := b + [Ask(2, 3)];
    var d := c + [Deliver];
    var e := d + [Deliver];
    ActsOneMore(Boot(false), [], Ask(1, 3));
    assert [] + [Ask(1, 3)] == a;
    ActsOneMore(Boot(false), a, Leave(1));
    ActsOneMore(Boot(false), b, Ask(2, 3));
    ActsOneMore(Boot(false), c, Deliver);
    ActsOneMore(Boot(false), d, Deliver);
    ActsOneMore(Boot(false), e, Leave(2));
    hide Acts;
    var os := Acts(Boot(false), e + [Leave(2)]).m.history;
    assert os == H8 + [GotReleased] + [Left(2), CallRelease(3)];
    assert |H8| == 8 && H8[7] == CallRequest(3);
    assert WwanOnly(e + [Leave(2)]);
  }
}
