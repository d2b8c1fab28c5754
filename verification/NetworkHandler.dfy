/** The native A-GPS handler as a client of the observer: what its connected flag says of the networks. */
module NetworkHandler {
  import opened Masks
  import opened StatusHistory
  import opened NetworkTable
  import opened NetworkReports
  import opened Observer
  import opened Subscriptions
  import opened Delivery
  import opened NetworkDelivery
  import AgpsProgram

  /** How a bundle's value is read for its mask of types. */
  type Decode = Value -> bv64

  /** What the handler finds in a bundle. */
  function ItemsOf(decode: Decode, b: Bundle): seq<AgpsProgram.DataItem> {
    if NETWORKINFO_DATA_ITEM_ID in b then [AgpsProgram.NetworkInfo(decode(b[NETWORKINFO_DATA_ITEM_ID]))] else []
  }

  /** The flag after all the handler has been told. */
  function FlagAfter(decode: Decode, log: seq<Bundle>): bool {
    if log == [] then false
    else AgpsProgram.ConnectedAfter(FlagAfter(decode, log[..|log| - 1]), ItemsOf(decode, log[|log| - 1]))
  }

  predicate HasMobile(mask: bv64) {
    Meets(TypeBit(TYPE_MOBILE), mask)
  }

  ghost predicate MobileListed(live: set<Slot>) {
    exists x :: x in live && SlotType(x.typ) == TYPE_MOBILE
  }

  lemma FlagOfMask(connected: bool, mask: bv64)
    ensures AgpsProgram.ConnectedAfter(connected, [AgpsProgram.NetworkInfo(mask)]) == HasMobile(mask)
  {
    OneBit(mask);
  }

  lemma OneBit(mask: bv64)
    ensures mask & (1 << AgpsProgram.TYPE_MOBILE) == 1 << AgpsProgram.TYPE_MOBILE <==> HasMobile(mask)
  {
  }

  lemma {:induction false} FlagIsLatest(decode: Decode, log: seq<Bundle>)
    ensures var v := Latest(log, NETWORKINFO_DATA_ITEM_ID);
            FlagAfter(decode, log) == (v.Some? && HasMobile(decode(v.value)))
  {
    hide HasMobile;
    if log != [] {
      var front, b := log[..|log| - 1], log[|log| - 1];
      FlagIsLatest(decode, front);
      if NETWORKINFO_DATA_ITEM_ID in b {
        FlagOfMask(FlagAfter(decode, front), decode(b[NETWORKINFO_DATA_ITEM_ID]));
      }
    }
  }

  /** Over any run of reports and subscriptions the flag is the mobile bit of the observer's copy. */
  lemma FlagFollowsTheCopy(enc: Encode, decode: Decode, events: seq<Event>, handler: Client)
    requires AllProper(events) && Wants(Reacts(enc, events).obs, handler, NETWORKINFO_DATA_ITEM_ID)
    requires ReportsOf(events) != [] && forall s :: decode(enc(s)) == s.allTypes
    ensures var n := Reacts(enc, events);
            n.records.copy.Some?
            && FlagAfter(decode, Log(n.obs.heard, handler)) == HasMobile(n.records.copy.value.allTypes)
  {
    hide Reacts, Process, Latest, Log, MsgsOf, ReportsOf, HasMobile, FlagAfter;
    ReactsAreRuns(enc, events);
    AlwaysUpToDate(MsgsOf(enc, events));
    SomethingRecorded(ReportsOf(events));
    FlagIsLatest(decode, Log(Reacts(enc, events).obs.heard, handler));
  }

  lemma {:induction false} SomethingRecorded(reports: seq<NetworkInfo>)
    requires reports != []
    ensures FullHistory(NETWORK, Calls(reports)) != []
  {
    hide Collated, SameNetworks;
    assert Calls(reports)[..|reports| - 1] == Calls(reports[..|reports| - 1]);
    assert |Calls(reports)| == |reports|;
  }

  /** When a report is taken, the flag becomes the mobile bit of the recorded mask, but for one case: no type
      is recorded any more, the item is copied, and its code is that of a mobile network. */
  lemma FlagIsRecordedIff(r: Records, s: NetworkInfo)
    requires IsNews(r, s)
    ensures var q, d := AfterReport(r, s), Taken(r, s);
            HasMobile(q.copy.value.allTypes) <==>
              || HasMobile(Newest(q.all).allTypes)
              || (r.copy.Some? && !OnlyApnDiffers(r.copy.value, d)
                  && d.allTypes == 0 && Normalized(s.typ) == TYPE_MOBILE)
  {
    NoMaskNoMobile();
    forall t: int ensures HasMobile(TypeBit(t)) <==> t == TYPE_MOBILE { MobileBitOnly(t); }
    hide TypeBit, Normalized, CodeOf, TableAfter, MaskAfter, ApnAfter, HasMobile;
  }

  lemma NoMaskNoMobile()
    ensures !HasMobile(0)
  {
  }

  lemma MobileBitOnly(t: int)
    ensures HasMobile(TypeBit(t)) <==> t == TYPE_MOBILE
  {
  }

  /** As long as the recorded mask has every listed type, the flag misses no mobile network. */
  lemma FlagMissesNone(r: Records, s: NetworkInfo)
    requires IsNews(r, s) && MaskCovers(Newest(AfterReport(r, s).all))
    requires MobileListed(Live(Newest(AfterReport(r, s).all).slots))
    ensures HasMobile(AfterReport(r, s).copy.value.allTypes)
  {
    FlagIsRecordedIff(r, s);
    hide AfterReport, Live, IsNews;
    var newest := Newest(AfterReport(r, s).all);
    var x :| x in Live(newest.slots) && SlotType(x.typ) == TYPE_MOBILE;
    CoveredMobile(newest.allTypes);
  }

  lemma CoveredMobile(mask: bv64)
    ensures Within(TypeBit(TYPE_MOBILE), mask) ==> HasMobile(mask)
  {
  }

  /** The flag can be down while a mobile network is listed: after a disconnection of an unknown type. */
  lemma FlagMissesAMobileNetwork()
    ensures var r := AfterReport(QUIET.records, Made(TYPE_MOBILE, true, 5));
            var s := Made(TYPE_UNKNOWN, false, 6);
            && IsNews(r, s) && MobileListed(Live(Newest(AfterReport(r, s).all).slots))
            && HasMobile(r.copy.value.allTypes) && !HasMobile(AfterReport(r, s).copy.value.allTypes)
  {
    var a, s := Made(TYPE_MOBILE, true, 5), Made(TYPE_UNKNOWN, false, 6);
    FirstReported(a);
    UnknownTypeForgetsAll();
    MobileBitOnly(TYPE_MOBILE);
    NoMaskNoMobile();
    var r := AfterReport(QUIET.records, a);
    hide TableAfter, MaskAfter, ApnAfter, Live, HasMobile, Made;
    FlagIsRecordedIff(r, s);
  }

  /** And it can be up with nothing listed: after the last mobile network has gone. */
  lemma FlagKeepsAMobileNetwork()
    ensures var q := AfterReport(QUIET.records, FrameworkReport(201, true, NETWORK_HANDLE_UNKNOWN, ""));
            var r := AfterReport(q, FrameworkReport(201, true, 5, ""));
            var t := AfterReport(r, FrameworkReport(201, false, 5, ""));
            && t.all != [] && Live(Newest(t.all).slots) == {}
            && t.copy.Some? && HasMobile(t.copy.value.allTypes)
  {
    hide HasMobile, Live;
    LastDisconnectionIsToldAsMobile();
    MobileBitOnly(TYPE_MOBILE);
  }
}
