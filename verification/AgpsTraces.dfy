/** What every run of the data-call machine shows at its edges, as automata over the history. */
module AgpsTraces {
  import opened AgpsMachine

  // ---------- folding an automaton over a history

  function Fold<S>(rule: (S, Obs) -> S, s: S, os: seq<Obs>): S {
    if os == [] then s else Fold(rule, rule(s, os[0]), os[1..])
  }

  lemma {:induction false} FoldAppend<S>(rule: (S, Obs) -> S, s: S, a: seq<Obs>, b: seq<Obs>)
    ensures Fold(rule, s, a + b) == Fold(rule, Fold(rule, s, a), b)
  {
    if a == [] {
      assert a + b == b;
    } else {
      FoldAppend(rule, rule(s, a[0]), a[1..], b);
      assert (a + b)[1..] == a[1..] + b;
    }
  }

  lemma FoldNote<S>(rule: (S, Obs) -> S, s: S, m: Machine, os: seq<Obs>)
    ensures Fold(rule, s, Note(m, os).history) == Fold(rule, Fold(rule, s, m.history), os)
  {
    FoldAppend(rule, s, m.history, os);
  }

  lemma FoldOne<S>(rule: (S, Obs) -> S, s: S, o: Obs)
    ensures Fold(rule, s, [o]) == rule(s, o)
  {
  }

  // ---------- the connection as the framework sees it

  /** Nothing outstanding; a request not yet answered; a call that is up. */
  datatype Link = Idle | Wanted | Up | Broken

  function LinkRule(l: Link, o: Obs): Link {
    match (l, o)
    case (Broken, _) => Broken
    case (Idle, CallRequest(_)) => Wanted
    case (_, CallRequest(_)) => Broken
    case (Idle, CallRelease(_)) => Broken
    case (_, CallRelease(_)) => Idle
    case (Wanted, GotGranted) => Up
    case (Wanted, GotDenied) => Idle
    case (Up, GotReleased) => Idle
    case (_, _) => l
  }

  function LinkOf(m: Machine): Link { Fold(LinkRule, Idle, m.history) }

  function LinkFor(s: State): Link {
    match s case Pending => Wanted case Acquired => Up case _ => Idle
  }

  lemma {:induction false} TellKeepsLink(l: Link, n: Notice, subs: seq<Subscriber>)
    ensures Fold(LinkRule, l, Tell(n, subs)) == l
  {
    if subs != [] {
      TellKeepsLink(l, n, subs[1..]);
      assert LinkRule(l, Callback(n, subs[0].handle)) == l;
    }
  }

  lemma LinkNote(m: Machine, o: Obs)
    ensures LinkOf(Note(m, [o])) == LinkRule(LinkOf(m), o)
  {
    FoldNote(LinkRule, Idle, m, [o]);
    FoldOne(LinkRule, LinkOf(m), o);
  }

  lemma LinkTell(m: Machine, n: Notice, subs: seq<Subscriber>)
    ensures LinkOf(Note(m, Tell(n, subs))) == LinkOf(m)
  {
    FoldNote(LinkRule, Idle, m, Tell(n, subs));
    TellKeepsLink(LinkOf(m), n, subs);
  }

  lemma EndReleaseLink(m: Machine)
    requires LinkOf(m) == Idle
    ensures LinkOf(EndRelease(m)) == LinkFor(EndRelease(m).state)
  {
    hide Reach, Miss, Tell, Fold;
    var rest := Miss(m.subs, Inactives);
    var told := Note(m.(subs := rest), Tell(Close, Reach(m.subs, Inactives)));
    LinkTell(m.(subs := rest), Close, Reach(m.subs, Inactives));
    LinkNote(told.(state := Pending), CallRequest(m.typ));
  }

  lemma StepLink(m: Machine, i: Input)
    requires LinkOf(m) == LinkFor(m.state)
    ensures LinkOf(Step(m, i)) == LinkFor(Step(m, i).state)
  {
    hide Reach, Miss, Tell, Fold, Add, Deactivate, Listed, AnyActive, EndRelease;
    match i
    case Subscribe(h, typ) =>
      var asked := if Listed(m.subs, h) then AskedAgain(h) else Asked(h);
      var n := Note(m.(typ := typ), [asked]);
      var added := Add(n.subs, Subscriber(h, false));
      LinkNote(m.(typ := typ), asked);
      LinkNote(n.(subs := added, state := Pending), CallRequest(typ));
      LinkNote(n.(subs := added), Opened(h));
    case Unsubscribe(h) =>
      var n := Note(m, [Left(h)]);
      var subs := Deactivate(n.subs, h);
      LinkNote(m, Left(h));
      LinkNote(n, Closed(h));
      LinkNote(n.(subs := subs, state := Released), CallRelease(m.typ));
      LinkNote(n.(subs := subs, state := Releasing), CallRelease(m.typ));
    case Granted =>
      var n := Note(m, [GotGranted]);
      LinkNote(m, GotGranted);
      LinkTell(n.(state := Acquired), OpenOk, Reach(m.subs, Actives));
    case Denied =>
      var n := Note(m, [GotDenied]);
      LinkNote(m, GotDenied);
      LinkTell(n.(state := Released, subs := Miss(m.subs, Everyone)), OpenBad, Reach(m.subs, Everyone));
      if m.state.Releasing? { EndReleaseLink(n); }
    case ClosedByFramework =>
      var n := Note(m, [GotReleased]);
      LinkNote(m, GotReleased);
      LinkTell(n.(state := Released, subs := Miss(m.subs, Everyone)), Close, Reach(m.subs, Everyone));
      if m.state.Releasing? { EndReleaseLink(n); }
    case DropAll =>
  }

  /** In every run, modem restarts included, requests and releases alternate as the automaton says. */
  lemma {:induction false} LinkNeverBreaks(typ: int, inputs: seq<Input>)
    ensures var m := Run(Start(typ), inputs); LinkOf(m) == LinkFor(m.state)
  {
    hide Step;
    if inputs != [] {
      LinkNeverBreaks(typ, inputs[..|inputs| - 1]);
      StepLink(Run(Start(typ), inputs[..|inputs| - 1]), inputs[|inputs| - 1]);
    }
  }

  // ---------- the same, said of positions in the history

  ghost predicate GrantedWithin(os: seq<Obs>, j: nat, k: nat)
    requires k <= |os|
  {
    exists g :: j < g < k && os[g].GotGranted?
  }

  /** The request at j is still outstanding at k: not released since, not denied before it was granted,
      not closed after it was granted. */
  ghost predicate Outstanding(os: seq<Obs>, j: nat, k: nat)
    requires k <= |os|
  {
    && j < k && os[j].CallRequest?
    && forall i :: j < i < k ==>
         && !os[i].CallRequest? && !os[i].CallRelease?
         && (os[i].GotDenied? ==> GrantedWithin(os, j, i))
         && (os[i].GotReleased? ==> !GrantedWithin(os, j, i))
  }

  lemma FoldLast(os: seq<Obs>)
    requires os != []
    ensures Fold(LinkRule, Idle, os) == LinkRule(Fold(LinkRule, Idle, os[..|os| - 1]), os[|os| - 1])
  {
    assert os == os[..|os| - 1] + [os[|os| - 1]];
    FoldAppend(LinkRule, Idle, os[..|os| - 1], [os[|os| - 1]]);
    FoldOne(LinkRule, Fold(LinkRule, Idle, os[..|os| - 1]), os[|os| - 1]);
  }

  /** While the automaton is neither idle nor broken, some request is outstanding. */
  lemma {:induction false} OutstandingWitness(os: seq<Obs>) returns (j: nat)
    requires Fold(LinkRule, Idle, os).Wanted? || Fold(LinkRule, Idle, os).Up?
    ensures Outstanding(os, j, |os|)
    ensures GrantedWithin(os, j, |os|) <==> Fold(LinkRule, Idle, os).Up?
  {
    var k := |os| - 1;
    FoldLast(os);
    var front := os[..k];
    if os[k].CallRequest? {
      j := k;
    } else {
      j := OutstandingWitness(front);
      forall i | j < i <= k
        ensures GrantedWithin(os, j, i) == GrantedWithin(front, j, i)
      {
        if g :| j < g < i && os[g].GotGranted? { assert front[g].GotGranted?; }
        if g :| j < g < i && front[g].GotGranted? { assert os[g].GotGranted?; }
      }
      assert forall i :: j < i < k ==> front[i] == os[i];
      if os[k].GotGranted? { assert GrantedWithin(os, j, |os|); }
    }
  }

  lemma {:induction false} BrokenStaysBroken(os: seq<Obs>)
    ensures Fold(LinkRule, Broken, os) == Broken
  {
    if os != [] {
      BrokenStaysBroken(os[1..]);
    }
  }

  lemma PrefixNotBroken(os: seq<Obs>, k: nat)
    requires k <= |os| && Fold(LinkRule, Idle, os) != Broken
    ensures Fold(LinkRule, Idle, os[..k]) != Broken
  {
    assert os == os[..k] + os[k..];
    FoldAppend(LinkRule, Idle, os[..k], os[k..]);
    BrokenStaysBroken(os[k..]);
  }

  /** Every release call gives back a request that is still outstanding. */
  lemma ReleaseCallsAreOwed(typ: int, inputs: seq<Input>, k: nat)
    requires k < |Run(Start(typ), inputs).history| && Run(Start(typ), inputs).history[k].CallRelease?
    ensures exists j :: Outstanding(Run(Start(typ), inputs).history, j, k)
  {
    hide Run, Fold;
    var os := Run(Start(typ), inputs).history;
    LinkNeverBreaks(typ, inputs);
    PrefixNotBroken(os, k + 1);
    FoldLast(os[..k + 1]);
    assert os[..k + 1][..k] == os[..k];
    var j := OutstandingWitness(os[..k]);
    OutstandingPrefix(os, j, k);
  }

  lemma OutstandingPrefix(os: seq<Obs>, j: nat, k: nat)
    requires k <= |os| && Outstanding(os[..k], j, k)
    ensures Outstanding(os, j, k)
  {
    forall i | j < i < k
      ensures GrantedWithin(os, j, i) == GrantedWithin(os[..k], j, i)
    {
      if g :| j < g < i && os[g].GotGranted? { assert os[..k][g].GotGranted?; }
      if g :| j < g < i && os[..k][g].GotGranted? { assert os[g].GotGranted?; }
    }
    assert forall i :: j <= i < k ==> os[..k][i] == os[i];
  }

  /** Between two requests the call was released, denied or closed. */
  lemma RequestsAreSeparated(typ: int, inputs: seq<Input>, j: nat, k: nat)
    requires j < k < |Run(Start(typ), inputs).history|
    requires Run(Start(typ), inputs).history[j].CallRequest? && Run(Start(typ), inputs).history[k].CallRequest?
    ensures var os := Run(Start(typ), inputs).history;
            exists i :: j < i < k && (os[i].CallRelease? || os[i].GotDenied? || os[i].GotReleased?)
  {
    hide Run, Fold;
    var os := Run(Start(typ), inputs).history;
    LinkNeverBreaks(typ, inputs);
    PrefixNotBroken(os, k + 1);
    FoldLast(os[..k + 1]);
    assert os[..k + 1][..k] == os[..k];
    if forall i :: j < i < k ==> !os[i].CallRelease? && !os[i].GotDenied? && !os[i].GotReleased? {
      StaysOutstanding(os, j, k);
    }
  }

  lemma {:induction false} StaysOutstanding(os: seq<Obs>, j: nat, k: nat)
    requires j < k <= |os| && os[j].CallRequest?
    requires forall i :: j < i < k ==> !os[i].CallRelease? && !os[i].GotDenied? && !os[i].GotReleased?
    ensures !Fold(LinkRule, Idle, os[..k]).Idle?
  {
    hide Fold;
    FoldLast(os[..k]);
    assert os[..k][..k - 1] == os[..k - 1];
    if k > j + 1 {
      StaysOutstanding(os, j, k - 1);
    }
  }

  // ---------- a release call and the latest request before it

  lemma StepExtendsHistory(m: Machine, i: Input)
    ensures m.history <= Step(m, i).history
  {
    hide Reach, Miss, Tell, Add, Deactivate, Listed, AnyActive;
  }

  /** The machine passes over an answer: a close while its request waits, a denial while its call is up. */
  predicate PassesOver(m: Machine, i: Input) {
    (m.state.Pending? && i.ClosedByFramework?) || (m.state.Acquired? && i.Denied?)
  }

  /** Such an answer comes in between the two positions of the run's history. */
  ghost predicate PassedOverBetween(typ: int, inputs: seq<Input>, j: nat, k: nat) {
    exists n :: 0 <= n < |inputs| && PassesOver(Run(Start(typ), inputs[..n]), inputs[n])
                && j < |Run(Start(typ), inputs[..n]).history| < k
  }

  predicate EndsACall(o: Obs) {
    o.CallRelease? || o.GotDenied? || o.GotReleased?
  }

  lemma {:induction false} TellsNoEvents(n: Notice, subs: seq<Subscriber>)
    ensures forall o :: o in Tell(n, subs) ==> !o.GotDenied? && !o.GotReleased?
  {
    if subs != [] { TellsNoEvents(n, subs[1..]); }
  }

  /** A denial or a close is the first thing that its own input adds, and no other input adds one. */
  lemma StepAddsEvent(m: Machine, i: Input, p: nat)
    requires |m.history| <= p < |Step(m, i).history|
    ensures var o := Step(m, i).history[p];
            && (o.GotDenied? <==> p == |m.history| && i.Denied?)
            && (o.GotReleased? <==> p == |m.history| && i.ClosedByFramework?)
  {
    TellsNoEvents(OpenOk, Reach(m.subs, Actives));
    TellsNoEvents(OpenBad, Reach(m.subs, Everyone));
    TellsNoEvents(Close, Reach(m.subs, Everyone));
    TellsNoEvents(Close, Reach(m.subs, Inactives));
    hide Tell, Reach, Miss, Add, Deactivate, Listed, AnyActive;
  }

  lemma StepAddsItsEvent(m: Machine, i: Input)
    requires i.Denied? || i.ClosedByFramework?
    ensures |m.history| < |Step(m, i).history|
  {
    hide Tell, Reach, Miss, AnyActive;
  }

  lemma {:induction false} HistoryGrows(typ: int, inputs: seq<Input>, n: nat)
    requires n <= |inputs|
    ensures Run(Start(typ), inputs[..n]).history <= Run(Start(typ), inputs).history
  {
    hide Step;
    if n == |inputs| {
      assert inputs[..n] == inputs;
    } else {
      var front := inputs[..|inputs| - 1];
      HistoryGrows(typ, front, n);
      assert front[..n] == inputs[..n];
      StepExtendsHistory(Run(Start(typ), front), inputs[|inputs| - 1]);
    }
  }

  /** The input behind a denial or a close in the history, and the machine that it met. */
  lemma {:induction false} EventInput(typ: int, inputs: seq<Input>, p: nat) returns (n: nat)
    requires p < |Run(Start(typ), inputs).history|
    requires Run(Start(typ), inputs).history[p].GotDenied? || Run(Start(typ), inputs).history[p].GotReleased?
    ensures n < |inputs| && Run(Start(typ), inputs[..n]).history == Run(Start(typ), inputs).history[..p]
    ensures if Run(Start(typ), inputs).history[p].GotDenied? then inputs[n].Denied? else inputs[n].ClosedByFramework?
  {
    hide Step;
    var front, m := inputs[..|inputs| - 1], Run(Start(typ), inputs[..|inputs| - 1]);
    var last := inputs[|inputs| - 1];
    StepExtendsHistory(m, last);
    if p < |m.history| {
      n := EventInput(typ, front, p);
      assert front[..n] == inputs[..n];
    } else {
      StepAddsEvent(m, last, p);
      n := |inputs| - 1;
    }
  }

  /** While a request is outstanding the automaton says whether it has been granted. */
  lemma {:induction false} OutstandingLink(os: seq<Obs>, j: nat, k: nat, i: nat)
    requires k <= |os| && Outstanding(os, j, k) && j < i <= k && Fold(LinkRule, Idle, os) != Broken
    ensures Fold(LinkRule, Idle, os[..i]) == if GrantedWithin(os, j, i) then Up else Wanted
  {
    hide Fold;
    PrefixNotBroken(os, i);
    FoldLast(os[..i]);
    assert os[..i][..i - 1] == os[..i - 1];
    if i == j + 1 {
      assert !GrantedWithin(os, j, i);
    } else {
      OutstandingLink(os, j, k, i - 1);
      if GrantedWithin(os, j, i - 1) {
        var g :| j < g < i - 1 && os[g].GotGranted?;
        assert GrantedWithin(os, j, i);
      } else if os[i - 1].GotGranted? {
        assert GrantedWithin(os, j, i);
      }
    }
  }

  /** For each release call and the latest request before it: nothing has released, denied or closed the
      request in between exactly if the machine passed over no answer in between. */
  lemma ReleaseIsOfAnOpenRequestIff(typ: int, inputs: seq<Input>, j: nat, k: nat)
    requires j < k < |Run(Start(typ), inputs).history|
    requires var os := Run(Start(typ), inputs).history;
             os[j].CallRequest? && os[k].CallRelease? && forall i :: j < i < k ==> !os[i].CallRequest?
    ensures var os := Run(Start(typ), inputs).history;
            (forall i :: j < i < k ==> !EndsACall(os[i])) <==> !PassedOverBetween(typ, inputs, j, k)
  {
    hide Run, Fold, LinkRule, Outstanding;
    var os := Run(Start(typ), inputs).history;
    ReleaseCallsAreOwed(typ, inputs, k);
    var j' :| Outstanding(os, j', k);
    LatestIsOutstanding(os, j', j, k);
    if i :| j < i < k && EndsACall(os[i]) {
      var n := EndedByPassingOver(typ, inputs, j, k, i);
    }
    if PassedOverBetween(typ, inputs, j, k) {
      var n :| 0 <= n < |inputs| && PassesOver(Run(Start(typ), inputs[..n]), inputs[n])
               && j < |Run(Start(typ), inputs[..n]).history| < k;
      PassedOverIsHeard(typ, inputs, n);
    }
  }

  lemma LatestIsOutstanding(os: seq<Obs>, j': nat, j: nat, k: nat)
    requires k <= |os| && Outstanding(os, j', k) && j < k && os[j].CallRequest?
    requires forall i :: j < i < k ==> !os[i].CallRequest?
    ensures j' == j
  {
  }

  lemma EndedByPassingOver(typ: int, inputs: seq<Input>, j: nat, k: nat, i: nat) returns (n: nat)
    requires k < |Run(Start(typ), inputs).history| && Outstanding(Run(Start(typ), inputs).history, j, k)
    requires j < i < k && EndsACall(Run(Start(typ), inputs).history[i])
    ensures n < |inputs| && PassesOver(Run(Start(typ), inputs[..n]), inputs[n])
    ensures |Run(Start(typ), inputs[..n]).history| == i
  {
    hide Run, Fold, LinkRule;
    var os := Run(Start(typ), inputs).history;
    n := EventInput(typ, inputs, i);
    LinkNeverBreaks(typ, inputs);
    LinkNeverBreaks(typ, inputs[..n]);
    OutstandingLink(os, j, k, i);
  }

  lemma PassedOverIsHeard(typ: int, inputs: seq<Input>, n: nat)
    requires n < |inputs| && PassesOver(Run(Start(typ), inputs[..n]), inputs[n])
    ensures var os, p := Run(Start(typ), inputs).history, |Run(Start(typ), inputs[..n]).history|;
            p < |os| && EndsACall(os[p])
  {
    hide Step;
    var m := Run(Start(typ), inputs[..n]);
    assert inputs[..n + 1][..n] == inputs[..n];
    HistoryGrows(typ, inputs, n + 1);
    StepAddsItsEvent(m, inputs[n]);
    StepAddsEvent(m, inputs[n], |m.history|);
  }

  // ---------- one client's subscriptions

  /** Out of the list or in it, as the history tells; Bad when a callback or a request cannot be right. */
  datatype Member = Out | In | Bad

  function NextMember(h: int, s: Member, o: Obs): Member {
    match o
    case Asked(g) => if g != h then s else if s.Out? then In else Bad
    case AskedAgain(g) => if g != h || s.In? then s else Bad
    case Left(g) => if g != h || s.In? then s else Bad
    case Opened(g) => if g != h || s.In? then s else Bad
    case OpenFailed(g) => if g != h then s else if s.In? then Out else Bad
    case Closed(g) => if g != h then s else if s.In? then Out else Bad
    case _ => s
  }

  function MemberRule(h: int): (Member, Obs) -> Member {
    (s, o) => NextMember(h, s, o)
  }

  /** How a subscription should go: it waits, is served after at most one successful open, is leaving once
      its client unsubscribed (and then gets no open), and goes with exactly one terminal callback. Being
      asked for again makes no difference. */
  datatype Life = Gone | Waiting | Serving | Leaving | Wrong

  function NextLife(h: int, s: Life, o: Obs): Life {
    match o
    case Asked(g) => if g != h then s else if s.Gone? then Waiting else Wrong
    case AskedAgain(g) => if g != h || !s.Gone? then s else Wrong
    case Left(g) => if g != h then s else if s.Gone? || s.Wrong? then Wrong else Leaving
    case Opened(g) => if g != h then s else if s.Waiting? then Serving else Wrong
    case OpenFailed(g) => if g != h then s else if s.Waiting? || s.Leaving? then Gone else Wrong
    case Closed(g) => if g != h then s else if s.Serving? || s.Leaving? then Gone else Wrong
    case _ => s
  }

  function LifeRule(h: int): (Life, Obs) -> Life {
    (s, o) => NextLife(h, s, o)
  }

  /** A notification reaches a listed handle once and no other handle. */
  lemma {:induction false} TellFold<S(!new)>(rule: (S, Obs) -> S, h: int, s: S, n: Notice, subs: seq<Subscriber>)
    requires DistinctHandles(subs)
    requires forall t: S, g: int :: g != h ==> rule(t, Callback(n, g)) == t
    ensures Fold(rule, s, Tell(n, subs)) == if Listed(subs, h) then rule(s, Callback(n, h)) else s
  {
    if subs != [] {
      var rest := subs[1..];
      assert Listed(subs, h) <==> subs[0].handle == h || Listed(rest, h) by {
        if i :| 0 <= i < |subs| && subs[i].handle == h && i > 0 { assert rest[i - 1].handle == h; }
        if i :| 0 <= i < |rest| && rest[i].handle == h { assert subs[i + 1].handle == h; }
      }
      assert subs[0].handle == h ==> !Listed(rest, h);
      assert Tell(n, subs)[1..] == Tell(n, rest);
      TellFold(rule, h, rule(s, Callback(n, subs[0].handle)), n, rest);
    }
  }

  /** Listed and not yet leaving. */
  predicate ActiveIn(subs: seq<Subscriber>, h: int) {
    exists i :: 0 <= i < |subs| && subs[i].handle == h && !subs[i].inactive
  }

  lemma ByElement(subs: seq<Subscriber>, h: int)
    ensures Listed(subs, h) <==> exists s :: s in subs && s.handle == h
    ensures ActiveIn(subs, h) <==> exists s :: s in subs && s.handle == h && !s.inactive
  {
  }

  /** Which handles a notification reaches and which it leaves. */
  lemma ReachedHandles(subs: seq<Subscriber>, h: int)
    requires DistinctHandles(subs)
    ensures Listed(Reach(subs, Everyone), h) == Listed(subs, h)
    ensures Listed(Reach(subs, Actives), h) == ActiveIn(subs, h)
    ensures Listed(Reach(subs, Inactives), h) == (Listed(subs, h) && !ActiveIn(subs, h))
    ensures Listed(Miss(subs, Inactives), h) == ActiveIn(Miss(subs, Inactives), h) == ActiveIn(subs, h)
  {
    ReachMiss(subs, Everyone);
    ReachMiss(subs, Actives);
    ReachMiss(subs, Inactives);
    hide Reach, Miss;
    ByElement(subs, h);
    ByElement(Reach(subs, Everyone), h);
    ByElement(Reach(subs, Actives), h);
    ByElement(Reach(subs, Inactives), h);
    ByElement(Miss(subs, Inactives), h);
    hide Listed, ActiveIn;
  }

  function MemberOf(m: Machine, h: int): Member { Fold(MemberRule(h), Out, m.history) }

  function MemberFor(m: Machine, h: int): Member { if Listed(m.subs, h) then In else Out }

  lemma MemberNote(m: Machine, o: Obs, h: int)
    ensures MemberOf(Note(m, [o]), h) == NextMember(h, MemberOf(m, h), o)
  {
    FoldNote(MemberRule(h), Out, m, [o]);
    FoldOne(MemberRule(h), MemberOf(m, h), o);
  }

  lemma MemberTell(m: Machine, n: Notice, subs: seq<Subscriber>, h: int)
    requires DistinctHandles(subs)
    ensures MemberOf(Note(m, Tell(n, subs)), h)
         == if Listed(subs, h) then NextMember(h, MemberOf(m, h), Callback(n, h)) else MemberOf(m, h)
  {
    FoldNote(MemberRule(h), Out, m, Tell(n, subs));
    TellFold(MemberRule(h), h, MemberOf(m, h), n, subs);
  }

  lemma EndReleaseMember(m: Machine, h: int)
    requires DistinctHandles(m.subs) && MemberOf(m, h) == MemberFor(m, h)
    ensures MemberOf(EndRelease(m), h) == MemberFor(EndRelease(m), h)
  {
    hide AnyActive, MemberOf;
    var rest := Miss(m.subs, Inactives);
    var told := Note(m.(subs := rest), Tell(Close, Reach(m.subs, Inactives)));
    MembersTold(m, h);
    MemberNote(told.(state := Pending), CallRequest(m.typ), h);
    SameHistoryMember(told, told.(state := Pending), h);
    SameHistoryMember(told, told.(state := Released), h);
  }

  lemma SameHistoryMember(m: Machine, n: Machine, h: int)
    requires m.history == n.history
    ensures MemberOf(m, h) == MemberOf(n, h)
  {
  }

  lemma MembersTold(m: Machine, h: int)
    requires DistinctHandles(m.subs) && MemberOf(m, h) == MemberFor(m, h)
    ensures var rest := Miss(m.subs, Inactives);
            var told := Note(m.(subs := rest), Tell(Close, Reach(m.subs, Inactives)));
            MemberOf(told, h) == if Listed(rest, h) then In else Out
  {
    ReachedHandles(m.subs, h);
    SublistsDistinct(m.subs, Inactives);
    ActiveIsListed(m.subs, h);
    hide Reach, Miss, Tell, Fold, Listed, ActiveIn, DistinctHandles;
    MemberTell(m.(subs := Miss(m.subs, Inactives)), Close, Reach(m.subs, Inactives), h);
  }

  lemma DeactivateActive(subs: seq<Subscriber>, g: int, h: int)
    requires DistinctHandles(subs)
    ensures ActiveIn(Deactivate(subs, g), h) == (g != h && ActiveIn(subs, h))
  {
    DeactivateFacts(subs, g);
    if i :| 0 <= i < |subs| && subs[i].handle == h && !subs[i].inactive && g != h {
      assert Deactivate(subs, g)[i].handle == h;
    }
  }

  lemma AddActive(subs: seq<Subscriber>, g: int, h: int)
    ensures ActiveIn(Add(subs, Subscriber(g, false)), h) == (ActiveIn(subs, h) || (g == h && !Listed(subs, h)))
  {
    var r := Add(subs, Subscriber(g, false));
    if i :| 0 <= i < |subs| && subs[i].handle == h && !subs[i].inactive { assert r[i] == subs[i]; }
    if !Listed(subs, g) { assert r[|subs|] == Subscriber(g, false); }
  }

  lemma EmptyLists(h: int)
    ensures !Listed([], h) && !ActiveIn([], h)
  {
  }

  lemma StepMember(m: Machine, i: Input, h: int)
    requires Agree(m) && !i.DropAll? && MemberOf(m, h) == MemberFor(m, h)
    ensures MemberOf(Step(m, i), h) == MemberFor(Step(m, i), h)
  {
    hide Reach, Miss, Tell, Fold, Add, Deactivate, Listed, AnyActive, EndRelease, DistinctHandles, ActiveIn;
    EmptyLists(h);
    match i
    case Subscribe(g, typ) =>
      var asked := if Listed(m.subs, g) then AskedAgain(g) else Asked(g);
      var n := Note(m.(typ := typ), [asked]);
      var added := Add(n.subs, Subscriber(g, false));
      AddFacts(m.subs, g);
      MemberNote(m.(typ := typ), asked, h);
      MemberNote(n.(subs := added, state := Pending), CallRequest(typ), h);
      MemberNote(n.(subs := added), Opened(g), h);
    case Unsubscribe(g) =>
      var n := Note(m, [Left(g)]);
      var subs := Deactivate(n.subs, g);
      EmptyLists(g);
      DeactivateKeepsDistinct(m.subs, g);
      MemberNote(m, Left(g), h);
      MemberNote(n.(subs := subs, state := Releasing), CallRelease(m.typ), h);
    case Granted =>
      var n := Note(m, [GotGranted]);
      ReachedHandles(m.subs, h);
      SublistsDistinct(m.subs, Actives);
      ActiveIsListed(m.subs, h);
      MemberNote(m, GotGranted, h);
      MemberTell(n.(state := Acquired), OpenOk, Reach(m.subs, Actives), h);
    case Denied =>
      StepMemberEnd(m, GotDenied, OpenBad, h);
    case ClosedByFramework =>
      StepMemberEnd(m, GotReleased, Close, h);
  }

  lemma ActiveIsListed(subs: seq<Subscriber>, h: int)
    ensures ActiveIn(subs, h) ==> Listed(subs, h)
  {
  }

  lemma StepMemberEnd(m: Machine, got: Obs, notice: Notice, h: int)
    requires Agree(m) && MemberOf(m, h) == MemberFor(m, h)
    requires (got.GotDenied? && notice.OpenBad?) || (got.GotReleased? && notice.Close?)
    ensures var n := Note(m, [got]);
            && MemberOf(n, h) == MemberFor(n, h)
            && MemberOf(EndRelease(n), h) == MemberFor(EndRelease(n), h)
            && !Listed(Miss(m.subs, Everyone), h)
    ensures var e := Note(m, [got]).(state := Released, subs := Miss(m.subs, Everyone));
            MemberOf(Note(e, Tell(notice, Reach(m.subs, Everyone))), h) == Out
  {
    hide Reach, Miss, Tell, Fold, AnyActive, EndRelease;
    EmptyLists(h);
    NobodyMissed(m.subs);
    var n := Note(m, [got]);
    MemberNote(m, got, h);
    EndReleaseMember(n, h);
    ReachedHandles(m.subs, h);
    SublistsDistinct(m.subs, Everyone);
    MemberTell(n.(state := Released, subs := Miss(m.subs, Everyone)), notice, Reach(m.subs, Everyone), h);
  }

  /** Conservation: without modem restarts a handle is listed exactly when it was asked for and has had
      no terminal callback since; no callback ever reaches a handle that is not listed. */
  lemma {:induction false} SubscriptionsAreConserved(typ: int, inputs: seq<Input>, h: int)
    requires NoDrop(inputs)
    ensures var m := Run(Start(typ), inputs); MemberOf(m, h) == MemberFor(m, h)
  {
    hide Step, Agree;
    if inputs != [] {
      var front := inputs[..|inputs| - 1];
      SubscriptionsAreConserved(typ, front, h);
      StateAndListAgree(typ, front);
      StepMember(Run(Start(typ), front), inputs[|inputs| - 1], h);
    }
  }

  // ---------- one subscription's life

  function LifeOf(m: Machine, h: int): Life { Fold(LifeRule(h), Gone, m.history) }

  function LifeFor(m: Machine, h: int): Life {
    if !Listed(m.subs, h) then Gone
    else if !ActiveIn(m.subs, h) then Leaving
    else if m.state.Acquired? then Serving
    else Waiting
  }

  lemma LifeNote(m: Machine, o: Obs, h: int)
    ensures LifeOf(Note(m, [o]), h) == NextLife(h, LifeOf(m, h), o)
  {
    FoldNote(LifeRule(h), Gone, m, [o]);
    FoldOne(LifeRule(h), LifeOf(m, h), o);
  }

  lemma LifeTell(m: Machine, n: Notice, subs: seq<Subscriber>, h: int)
    requires DistinctHandles(subs)
    ensures LifeOf(Note(m, Tell(n, subs)), h)
         == if Listed(subs, h) then NextLife(h, LifeOf(m, h), Callback(n, h)) else LifeOf(m, h)
  {
    FoldNote(LifeRule(h), Gone, m, Tell(n, subs));
    TellFold(LifeRule(h), h, LifeOf(m, h), n, subs);
  }

  lemma EndReleaseLife(m: Machine, h: int)
    requires DistinctHandles(m.subs) && m.state.Releasing? && LifeOf(m, h) == LifeFor(m, h)
    ensures LifeOf(EndRelease(m), h) == LifeFor(EndRelease(m), h)
  {
    hide AnyActive, LifeOf;
    var rest := Miss(m.subs, Inactives);
    var told := Note(m.(subs := rest), Tell(Close, Reach(m.subs, Inactives)));
    ToldOfTheEnd(m, h);
    LifeNote(told.(state := Pending), CallRequest(m.typ), h);
    SameHistoryLife(told, told.(state := Pending), h);
    SameHistoryLife(told, told.(state := Released), h);
  }

  lemma SameHistoryLife(m: Machine, n: Machine, h: int)
    requires m.history == n.history
    ensures LifeOf(m, h) == LifeOf(n, h)
  {
  }

  /** Of the subscribers of a call that is being released, the inactive ones go and the active ones wait. */
  lemma ToldOfTheEnd(m: Machine, h: int)
    requires DistinctHandles(m.subs) && m.state.Releasing? && LifeOf(m, h) == LifeFor(m, h)
    ensures var rest := Miss(m.subs, Inactives);
            var told := Note(m.(subs := rest), Tell(Close, Reach(m.subs, Inactives)));
            && Listed(rest, h) == ActiveIn(rest, h)
            && LifeOf(told, h) == if Listed(rest, h) then Waiting else Gone
  {
    ReachedHandles(m.subs, h);
    SublistsDistinct(m.subs, Inactives);
    ActiveIsListed(m.subs, h);
    hide Reach, Miss, Tell, Fold, Listed, ActiveIn, DistinctHandles;
    LifeTell(m.(subs := Miss(m.subs, Inactives)), Close, Reach(m.subs, Inactives), h);
  }

  /** A call that everybody has left has no active subscriber, so its state no longer matters to h. */
  lemma NobodyActive(subs: seq<Subscriber>, h: int)
    requires !AnyActive(subs)
    ensures !ActiveIn(subs, h)
  {
  }

  /** A listed client asks again while the call is up; the machine then tells it of an open at once. */
  predicate AsksWhileUp(m: Machine, i: Input, h: int) {
    i.Subscribe? && i.h == h && m.state.Acquired? && Listed(m.subs, h)
  }

  lemma StepLife(m: Machine, i: Input, h: int)
    requires Agree(m) && !i.DropAll? && LifeOf(m, h) == LifeFor(m, h)
    ensures LifeOf(Step(m, i), h) == if AsksWhileUp(m, i, h) then Wrong else LifeFor(Step(m, i), h)
  {
    hide Reach, Miss, Tell, Fold, Add, Deactivate, Listed, AnyActive, EndRelease, DistinctHandles, ActiveIn;
    EmptyLists(h);
    ActiveIsListed(m.subs, h);
    match i
    case Subscribe(g, typ) =>
      var asked := if Listed(m.subs, g) then AskedAgain(g) else Asked(g);
      var n := Note(m.(typ := typ), [asked]);
      var added := Add(n.subs, Subscriber(g, false));
      AddFacts(m.subs, g);
      AddActive(m.subs, g, h);
      LifeNote(m.(typ := typ), asked, h);
      LifeNote(n.(subs := added, state := Pending), CallRequest(typ), h);
      LifeNote(n.(subs := added), Opened(g), h);
    case Unsubscribe(g) =>
      var n := Note(m, [Left(g)]);
      var subs := Deactivate(n.subs, g);
      EmptyLists(g);
      DeactivateKeepsDistinct(m.subs, g);
      DeactivateActive(m.subs, g, h);
      if !AnyActive(subs) { NobodyActive(subs, h); }
      LifeNote(m, Left(g), h);
      LifeNote(n.(subs := subs, state := Releasing), CallRelease(m.typ), h);
    case Granted =>
      var n := Note(m, [GotGranted]);
      ReachedHandles(m.subs, h);
      SublistsDistinct(m.subs, Actives);
      LifeNote(m, GotGranted, h);
      LifeTell(n.(state := Acquired), OpenOk, Reach(m.subs, Actives), h);
    case Denied =>
      StepLifeEnd(m, GotDenied, h);
    case ClosedByFramework =>
      StepLifeEnd(m, GotReleased, h);
  }

  lemma StepLifeEnd(m: Machine, got: Obs, h: int)
    requires Agree(m) && LifeOf(m, h) == LifeFor(m, h) && (got.GotDenied? || got.GotReleased?)
    ensures var n := Note(m, [got]);
            && LifeOf(n, h) == LifeFor(n, h)
            && (m.state.Releasing? ==> LifeOf(EndRelease(n), h) == LifeFor(EndRelease(n), h))
            && !Listed(Miss(m.subs, Everyone), h)
    ensures var e := Note(m, [got]).(state := Released, subs := Miss(m.subs, Everyone));
            && (m.state.Pending? ==> LifeOf(Note(e, Tell(OpenBad, Reach(m.subs, Everyone))), h) == Gone)
            && (m.state.Acquired? ==> LifeOf(Note(e, Tell(Close, Reach(m.subs, Everyone))), h) == Gone)
  {
    hide Reach, Miss, Tell, Fold, AnyActive, EndRelease, ActiveIn;
    EmptyLists(h);
    NobodyMissed(m.subs);
    ActiveIsListed(m.subs, h);
    var n := Note(m, [got]);
    LifeNote(m, got, h);
    if m.state.Releasing? { EndReleaseLife(n, h); }
    ReachedHandles(m.subs, h);
    SublistsDistinct(m.subs, Everyone);
    var e := n.(state := Released, subs := Miss(m.subs, Everyone));
    LifeTell(e, OpenBad, Reach(m.subs, Everyone), h);
    LifeTell(e, Close, Reach(m.subs, Everyone), h);
  }

  /** Some input of the run asks for h again while h is listed and the call is up. */
  ghost predicate AskedWhileUp(typ: int, inputs: seq<Input>, h: int) {
    exists k :: 0 <= k < |inputs| && AsksWhileUp(Run(Start(typ), inputs[..k]), inputs[k], h)
  }

  lemma AskedWhileUpOneMore(typ: int, inputs: seq<Input>, i: Input, h: int)
    ensures AskedWhileUp(typ, inputs + [i], h)
       <==> AskedWhileUp(typ, inputs, h) || AsksWhileUp(Run(Start(typ), inputs), i, h)
  {
    hide AsksWhileUp, Run;
    var all := inputs + [i];
    assert all[..|inputs|] == inputs;
    assert forall k :: 0 <= k < |inputs| ==> all[..k] == inputs[..k] && all[k] == inputs[k];
    if AsksWhileUp(Run(Start(typ), inputs), i, h) { assert all[|inputs|] == i; }
  }

  lemma {:induction false} WrongStaysWrong(h: int, os: seq<Obs>)
    ensures Fold(LifeRule(h), Wrong, os) == Wrong
  {
    if os != [] {
      assert NextLife(h, Wrong, os[0]) == Wrong;
      WrongStaysWrong(h, os[1..]);
    }
  }

  lemma StepKeepsWrong(m: Machine, i: Input, h: int)
    requires LifeOf(m, h) == Wrong
    ensures LifeOf(Step(m, i), h) == Wrong
  {
    hide Step;
    StepExtendsHistory(m, i);
    var os := Step(m, i).history[|m.history|..];
    assert Step(m, i).history == m.history + os;
    FoldAppend(LifeRule(h), Gone, m.history, os);
    WrongStaysWrong(h, os);
  }

  /** Without modem restarts: every subscription of a handle gets at most one successful open, none after
      its client left, and exactly one terminal callback, exactly if its client never asks again while it
      is listed and the call is up. */
  lemma {:induction false} LivesAreOrderlyIff(typ: int, inputs: seq<Input>, h: int)
    requires NoDrop(inputs)
    ensures var m := Run(Start(typ), inputs);
            if AskedWhileUp(typ, inputs, h) then LifeOf(m, h) == Wrong else LifeOf(m, h) == LifeFor(m, h) != Wrong
  {
    hide Step, Agree, AskedWhileUp, AsksWhileUp, LifeOf;
    if inputs == [] {
      NobodyYet(typ, h);
    } else {
      var front, i := inputs[..|inputs| - 1], inputs[|inputs| - 1];
      assert inputs == front + [i];
      LivesAreOrderlyIff(typ, front, h);
      StateAndListAgree(typ, front);
      AskedWhileUpOneMore(typ, front, i, h);
      if AskedWhileUp(typ, front, h) {
        StepKeepsWrong(Run(Start(typ), front), i, h);
      } else {
        StepLife(Run(Start(typ), front), i, h);
      }
    }
  }

  lemma NobodyYet(typ: int, h: int)
    ensures !AskedWhileUp(typ, [], h) && LifeOf(Start(typ), h) == LifeFor(Start(typ), h) == Gone
  {
  }

  /** Such a run: a client that asks again while its call is up is told of a second successful open for the
      one subscription. */
  lemma AskingAgainOpensAgain()
    ensures Run(Start(3), [Subscribe(1, 3), Granted, Subscribe(1, 3)]).history
         == [Asked(1), CallRequest(3), GotGranted, Opened(1), AskedAgain(1), Opened(1)]
  {
    hide Step;
    FirstAsk();
    ThenGranted();
    ThenAgain();
    var a: seq<Input> := [Subscribe(1, 3)];
    var b: seq<Input> := a + [Granted];
    var c: seq<Input> := b + [Subscribe(1, 3)];
    assert a[..0] == [] && b[..1] == a && c[..2] == b;
    assert Run(Start(3), a) == Machine(Pending, [Subscriber(1, false)], 3, [Asked(1), CallRequest(3)]);
    assert Run(Start(3), b)
        == Machine(Acquired, [Subscriber(1, false)], 3, [Asked(1), CallRequest(3), GotGranted, Opened(1)]);
    assert Run(Start(3), c).history
        == [Asked(1), CallRequest(3), GotGranted, Opened(1)] + [AskedAgain(1)] + [Opened(1)];
    assert c == [Subscribe(1, 3), Granted, Subscribe(1, 3)];
  }

  lemma FirstAsk()
    ensures Step(Start(3), Subscribe(1, 3)) == Machine(Pending, [Subscriber(1, false)], 3, [Asked(1), CallRequest(3)])
  {
  }

  lemma ThenGranted()
    ensures Step(Machine(Pending, [Subscriber(1, false)], 3, [Asked(1), CallRequest(3)]), Granted)
         == Machine(Acquired, [Subscriber(1, false)], 3, [Asked(1), CallRequest(3), GotGranted, Opened(1)])
  {
    assert Reach([Subscriber(1, false)], Actives) == [Subscriber(1, false)];
    assert Tell(OpenOk, [Subscriber(1, false)]) == [Opened(1)];
  }

  lemma ThenAgain()
    ensures var m := Machine(Acquired, [Subscriber(1, false)], 3, [Asked(1), CallRequest(3), GotGranted, Opened(1)]);
            Step(m, Subscribe(1, 3)).history
            == [Asked(1), CallRequest(3), GotGranted, Opened(1)] + [AskedAgain(1)] + [Opened(1)]
  {
    assert [Subscriber(1, false)][0].handle == 1;
  }
}
