/** What every run of interrupted stage calls keeps, and where completing the update leads. */
module CrashSafety {
  import opened Common
  import opened GptHeader
  import opened BootChain
  import opened GptDisk
  import opened BootUpdate

  /** Both tables are valid: where an update starts. */
  ghost predicate Sound(pf: Platform, d0: Image) {
    Laid(pf, d0) && TableValid(pf, d0, Primary) && TableValid(pf, d0, Secondary)
  }

  /** All that an update can change: the mark on each header, and the secondary's array with the
      checksum recorded for it. */
  datatype View = View(primaryGood: bool, secondaryGood: bool, crc: word, entries: seq<byte>)

  ghost predicate SameElsewhere(pf: Platform, d0: Image, d: Image)
    requires Laid(pf, d0) && |d| == |d0|
  {
    var sa, n := ArrayAt(pf, Header(pf, d0, Secondary)), ArraySize(Header(pf, d0, Primary));
    forall k :: 0 <= k < |d0| && !(pf.blk <= k < 2 * pf.blk) && k < |d0| - pf.blk && !(sa <= k < sa + n) ==>
      d[k] == d0[k]
  }

  /** d is d0 with the changes in v and no others. */
  ghost predicate Shows(pf: Platform, d0: Image, d: Image, v: View) {
    && Sound(pf, d0) && Laid(pf, d) && |d| == |d0| && SameElsewhere(pf, d0, d)
    && Header(pf, d, Primary)
         == Canon(pf.crc, Header(pf, d0, Primary), Get4(Header(pf, d0, Primary), PARTITION_CRC_OFFSET), v.primaryGood)
    && Header(pf, d, Secondary) == Canon(pf.crc, Header(pf, d0, Secondary), v.crc, v.secondaryGood)
    && Array(pf, d, Primary) == Array(pf, d0, Primary)
    && Array(pf, d, Secondary) == v.entries
  }

  ghost function Initially(pf: Platform, d0: Image): View
    requires Laid(pf, d0)
  {
    View(true, true, Get4(Header(pf, d0, Secondary), PARTITION_CRC_OFFSET), Array(pf, d0, Secondary))
  }

  lemma ShowsInitially(pf: Platform, d0: Image)
    requires Sound(pf, d0)
    ensures Shows(pf, d0, d0, Initially(pf, d0))
  {
    hide Canon, Get4, ArraySize, ArrayAt;
    CanonOfValid(pf.crc, Header(pf, d0, Primary));
    CanonOfValid(pf.crc, Header(pf, d0, Secondary));
  }

  /** A view determines the disk. */
  lemma ShowsIsFunctional(pf: Platform, d0: Image, d: Image, d': Image, v: View)
    requires Shows(pf, d0, d, v) && Shows(pf, d0, d', v)
    ensures d == d'
  {
    hide Canon, Get4, Get8, ArraySize;
    var s0, sd, sd' := Header(pf, d0, Secondary), Header(pf, d, Secondary), Header(pf, d', Secondary);
    SameArrays(pf, d0, d, v);
    SameArrays(pf, d0, d', v);
    var sa, n := ArrayAt(pf, s0), ArraySize(Header(pf, d0, Primary));
    hide ArrayAt, Laid;
    forall k | 0 <= k < |d|
      ensures d[k] == d'[k]
    {
      if pf.blk <= k < 2 * pf.blk {
        assert d[k] == Header(pf, d, Primary)[k - pf.blk];
        assert d'[k] == Header(pf, d', Primary)[k - pf.blk];
      } else if |d| - pf.blk <= k {
        assert d[k] == Header(pf, d, Secondary)[k - (|d| - pf.blk)];
        assert d'[k] == Header(pf, d', Secondary)[k - (|d| - pf.blk)];
      } else if sa <= k < sa + n {
        assert d[k] == Array(pf, d, Secondary)[k - sa];
        assert d'[k] == Array(pf, d', Secondary)[k - sa];
      }
    }
  }

  /** The arrays of a shown disk lie where they lay at the start. */
  lemma SameArrays(pf: Platform, d0: Image, d: Image, v: View)
    requires Shows(pf, d0, d, v)
    ensures ArrayAt(pf, Header(pf, d, Primary)) == ArrayAt(pf, Header(pf, d0, Primary))
    ensures ArrayAt(pf, Header(pf, d, Secondary)) == ArrayAt(pf, Header(pf, d0, Secondary))
    ensures ArraySize(Header(pf, d, Primary)) == ArraySize(Header(pf, d0, Primary))
    ensures ArraySize(Header(pf, d, Secondary)) == ArraySize(Header(pf, d0, Secondary))
  {
    hide Get4, Get8;
    var p0, s0 := Header(pf, d0, Primary), Header(pf, d0, Secondary);
    hide Canon, ArrayAt, ArraySize;
    CanonFacts(pf.crc, p0, Get4(p0, PARTITION_CRC_OFFSET), v.primaryGood);
    CanonFacts(pf.crc, s0, v.crc, v.secondaryGood);
    GeometryOf(pf, Header(pf, d, Primary), p0);
    GeometryOf(pf, Header(pf, d, Secondary), s0);
  }

  // ---------- the four kinds of block write, on views

  lemma SetStateOnView(pf: Platform, d0: Image, d: Image, v: View, inst: Instance, good: bool)
    requires Shows(pf, d0, d, v)
    ensures Shows(pf, d0, SetState(pf, d, inst, good),
                  if inst.Primary? then v.(primaryGood := good) else v.(secondaryGood := good))
  {
    hide Canon, WithSignature, Get4, ArraySize, ArrayAt, HeaderState;
    var p0, s0 := Header(pf, d0, Primary), Header(pf, d0, Secondary);
    SignatureOf(pf.crc, p0);
    SignatureOf(pf.crc, s0);
    CanonMarked(pf.crc, p0, Get4(p0, PARTITION_CRC_OFFSET), v.primaryGood, good);
    CanonMarked(pf.crc, s0, v.crc, v.secondaryGood, good);
    EditsKeepGeometry(pf.crc, Header(pf, d, inst), good, 0);
    var h := WithSignature(pf.crc, Header(pf, d, inst), good);
    HeaderWrite(pf, d, inst, h);
    OutsideSplice(d, HeaderAt(pf, d, inst), h);
  }

  lemma SignatureOf(crc: Checksum, h: seq<byte>)
    requires Readable(h) && HeaderState(crc, h) == Ok
    ensures h[..9] == GPT_SIGNATURE
  {
  }

  lemma SetArrayCrcOnView(pf: Platform, d0: Image, d: Image, v: View, c: word)
    requires Shows(pf, d0, d, v)
    ensures Shows(pf, d0, SetArrayCrc(pf, d, c), v.(crc := c))
  {
    hide Canon, WithArrayCrc, Get4, ArraySize, ArrayAt, HeaderState;
    var s0 := Header(pf, d0, Secondary);
    CanonArrayCrc(pf.crc, s0, v.crc, c, v.secondaryGood);
    EditsKeepGeometry(pf.crc, Header(pf, d, Secondary), true, c);
    var h := WithArrayCrc(pf.crc, Header(pf, d, Secondary), c);
    HeaderWrite(pf, d, Secondary, h);
    OutsideSplice(d, HeaderAt(pf, d, Secondary), h);
  }

  lemma SetArrayOnView(pf: Platform, d0: Image, d: Image, v: View, a: seq<byte>)
    requires Shows(pf, d0, d, v) && |a| == |Array(pf, d, Primary)|
    ensures Shows(pf, d0, SetArray(pf, d, a), v.(entries := a))
  {
    hide Canon, Get4, ArraySize, ArrayAt, HeaderState;
    SameArrays(pf, d0, d, v);
    ArrayWrite(pf, d, Secondary, a);
    OutsideSplice(d, ArrayAt(pf, Header(pf, d, Secondary)), a);
  }

  // ---------- the views an update can reach

  ghost function SwapsAny(pf: Platform, d0: Image): bool
    requires Laid(pf, d0)
  {
    SwapsSome(pf.ufs, pf.names, BootSlots(pf, d0))
  }

  ghost function Written(pf: Platform, d0: Image, v: View, boot: Chain): View
    requires Laid(pf, d0)
  {
    v.(crc := pf.crc(ChainArray(pf, d0, boot)), entries := ChainArray(pf, d0, boot))
  }

  /** The secondary describes the array it holds: the one found, the swapped one, or the primary's.
      While the primary is good it may also be caught between its two writes. */
  ghost predicate Reached(pf: Platform, d0: Image, v: View)
    requires Laid(pf, d0)
  {
    var v0 := Initially(pf, d0);
    var swapped, plain := Written(pf, d0, v, BackupBoot), Written(pf, d0, v, NormalBoot);
    if !SwapsAny(pf, d0) then v == v0
    else if !v.primaryGood then v.secondaryGood && v == swapped
    else if !v.secondaryGood then v == swapped || v == plain || v == swapped.(crc := plain.crc)
    else v == v0 || v == v0.(crc := swapped.crc) || v == swapped || v == plain || v == plain.(crc := swapped.crc)
  }

  ghost function StageOfView(v: View): Stage {
    if !v.primaryGood then Backup else if !v.secondaryGood then Finalize else Main
  }

  /** The views after the writes of one stage call. */
  ghost function StageViews(pf: Platform, d0: Image, v: View, stage: Stage, lunFails: bool): seq<View>
    requires Laid(pf, d0)
  {
    if stage != StageOfView(v) then []
    else match stage
      case Main =>
        if lunFails || !SwapsAny(pf, d0) then []
        else
          var w := Written(pf, d0, v, BackupBoot);
          [v.(crc := w.crc), w, w.(primaryGood := false)]
      case Backup =>
        if lunFails then []
        else [v.(primaryGood := true), v.(primaryGood := true, secondaryGood := false)]
      case Finalize =>
        var w := Written(pf, d0, v, NormalBoot);
        [v.(crc := w.crc), w, w.(secondaryGood := true)]
  }

  lemma StageViewsReached(pf: Platform, d0: Image, v: View, stage: Stage, lunFails: bool)
    requires Laid(pf, d0) && Reached(pf, d0, v)
    ensures forall w :: w in StageViews(pf, d0, v, stage, lunFails) ==> Reached(pf, d0, w)
  {
    hide ChainArray, SwapsAny, Laid, Header, Array, Get4;
  }

  /** What the program reads back from a shown disk. */
  lemma ReadBack(pf: Platform, d0: Image, d: Image, v: View)
    requires Shows(pf, d0, d, v)
    ensures StateOf(pf, d, Primary) == if v.primaryGood then Ok else BadSignature
    ensures StateOf(pf, d, Secondary) == if v.secondaryGood then Ok else BadSignature
    ensures pf.crc(Array(pf, d, Primary)) == Get4(Header(pf, d, Primary), PARTITION_CRC_OFFSET)
    ensures Get4(Header(pf, d, Secondary), PARTITION_CRC_OFFSET) == v.crc
    ensures BootSlots(pf, d) == BootSlots(pf, d0)
    ensures forall boot :: ChainArray(pf, d, boot) == ChainArray(pf, d0, boot)
  {
    hide Get4, ArrayAt, ArraySize, Canon, Slots;
    var p0, s0 := Header(pf, d0, Primary), Header(pf, d0, Secondary);
    CanonFacts(pf.crc, p0, Get4(p0, PARTITION_CRC_OFFSET), v.primaryGood);
    CanonFacts(pf.crc, s0, v.crc, v.secondaryGood);
  }

  lemma WriteChainOnView(pf: Platform, d0: Image, d: Image, v: View, a: seq<byte>)
    requires Shows(pf, d0, d, v) && |a| == |Array(pf, d, Primary)|
    ensures var o := WriteChain(pf, d, a);
            && o.code == 0
            && Shows(pf, d0, o.header, v.(crc := pf.crc(a)))
            && Shows(pf, d0, o.table, v.(crc := pf.crc(a), entries := a))
  {
    hide SameElsewhere, Canon, Array, Header, Laid, Get4, Get8, ArrayAt, ArraySize, SetArray, SetArrayCrc, TableValid;
    SetArrayCrcOnView(pf, d0, d, v, pf.crc(a));
    SetArrayOnView(pf, d0, SetArrayCrc(pf, d, pf.crc(a)), v.(crc := pf.crc(a)), a);
  }

  ghost predicate ShowAll(pf: Platform, d0: Image, images: seq<Image>, views: seq<View>) {
    |images| == |views| && forall k :: 0 <= k < |images| ==> Shows(pf, d0, images[k], views[k])
  }

  lemma DecodeOnView(pf: Platform, d0: Image, d: Image, v: View)
    requires Shows(pf, d0, d, v) && (v.primaryGood || v.secondaryGood)
    ensures Decode(pf, d) == At(StageOfView(v))
  {
    hide SameElsewhere, Canon, Array, Header, Get4, StateOf;
    ReadBack(pf, d0, d, v);
  }

  lemma ChainOnView(pf: Platform, d0: Image, d: Image, v: View, boot: Chain)
    requires Shows(pf, d0, d, v)
    ensures var o, w := SetBootChain(pf, d, boot), Written(pf, d0, v, boot);
            if boot.BackupBoot? && !SwapsAny(pf, d0) then o.code == 1
            else o.code == 0 && Shows(pf, d0, o.header, v.(crc := w.crc)) && Shows(pf, d0, o.table, w)
  {
    hide SameElsewhere, Canon, Array, Header, Get4, WriteChain, ChainArray, BootSlots, SwapsSome;
    ReadBack(pf, d0, d, v);
    WriteChainOnView(pf, d0, d, v, ChainArray(pf, d, boot));
  }

  /** The program's stage call, on bytes, does what the views say. */
  lemma EnterOnView(pf: Platform, d0: Image, d: Image, v: View, stage: Stage, lunFails: bool)
    requires Shows(pf, d0, d, v) && stage == StageOfView(v)
    ensures ShowAll(pf, d0, EnterStage(pf, d, stage, lunFails).images, StageViews(pf, d0, v, stage, lunFails))
  {
    hide SameElsewhere, Canon, Array, Header, Laid, Get4, Get8, ArrayAt, ArraySize, TableValid;
    hide SetBootChain, SetState, ChainArray, SwapsAny;
    match stage
    case Main =>
      ChainOnView(pf, d0, d, v, BackupBoot);
      if SwapsAny(pf, d0) {
        SetStateOnView(pf, d0, SetBootChain(pf, d, BackupBoot).table, Written(pf, d0, v, BackupBoot), Primary, false);
      }
    case Backup =>
      SetStateOnView(pf, d0, d, v, Primary, true);
      SetStateOnView(pf, d0, SetState(pf, d, Primary, true), v.(primaryGood := true), Secondary, false);
    case Finalize =>
      ChainOnView(pf, d0, d, v, NormalBoot);
      SetStateOnView(pf, d0, SetBootChain(pf, d, NormalBoot).table, Written(pf, d0, v, NormalBoot), Secondary, true);
  }

  lemma StageOnView(pf: Platform, d0: Image, d: Image, v: View, stage: Stage, lunFails: bool)
    requires Shows(pf, d0, d, v) && (v.primaryGood || v.secondaryGood)
    ensures ShowAll(pf, d0, RunStage(pf, d, stage, lunFails).images, StageViews(pf, d0, v, stage, lunFails))
  {
    hide SameElsewhere, Canon, Array, Header, Laid, Get4, Get8, ArrayAt, ArraySize, TableValid;
    hide EnterStage, StageViews, Decode;
    DecodeOnView(pf, d0, d, v);
    if stage == StageOfView(v) {
      EnterOnView(pf, d0, d, v, stage, lunFails);
    } else {
      NothingFromOtherStages(pf, d0, v, stage, lunFails);
    }
  }

  lemma NothingFromOtherStages(pf: Platform, d0: Image, v: View, stage: Stage, lunFails: bool)
    requires Laid(pf, d0) && stage != StageOfView(v)
    ensures StageViews(pf, d0, v, stage, lunFails) == []
  {
  }

  lemma AfterShows(pf: Platform, d0: Image, d: Image, v: View, c: Call) returns (w: View)
    requires Shows(pf, d0, d, v) && Reached(pf, d0, v)
    ensures Reached(pf, d0, w) && Shows(pf, d0, After(pf, d, c), w)
    ensures var views := StageViews(pf, d0, v, c.stage, c.lunFails);
            views != [] && c.writes >= |views| ==> w == views[|views| - 1]
    ensures StageViews(pf, d0, v, c.stage, c.lunFails) == [] ==> After(pf, d, c) == d
  {
    hide SameElsewhere, Canon, Array, Header, Laid, Get4, Get8, ArrayAt, ArraySize, TableValid, Reached;
    hide RunStage, StageViews;
    ReachedHasGood(pf, d0, v);
    StageOnView(pf, d0, d, v, c.stage, c.lunFails);
    StageViewsReached(pf, d0, v, c.stage, c.lunFails);
    var views := StageViews(pf, d0, v, c.stage, c.lunFails);
    w := v;
    if c.writes > 0 && views != [] {
      w := views[if c.writes < |views| then c.writes - 1 else |views| - 1];
    }
  }

  lemma {:induction false} RunShows(pf: Platform, d0: Image, calls: seq<Call>) returns (v: View)
    requires Sound(pf, d0)
    ensures Reached(pf, d0, v) && Shows(pf, d0, Run(pf, d0, calls), v)
  {
    hide Shows, Laid, After, Reached;
    if calls == [] {
      ShowsInitially(pf, d0);
      v := Initially(pf, d0);
      InitiallyReached(pf, d0);
    } else {
      var front := calls[..|calls| - 1];
      v := RunShows(pf, d0, front);
      v := AfterShows(pf, d0, Run(pf, d0, front), v, calls[|calls| - 1]);
    }
  }

  lemma ReachedHasGood(pf: Platform, d0: Image, v: View)
    requires Laid(pf, d0) && Reached(pf, d0, v)
    ensures v.primaryGood || v.secondaryGood
  {
    hide ChainArray, SwapsAny, Laid, Header, Array, Get4;
  }

  lemma InitiallyReached(pf: Platform, d0: Image)
    requires Laid(pf, d0)
    ensures Reached(pf, d0, Initially(pf, d0))
  {
  }

  // ---------- crash safety

  /** Whatever stages are called, in whatever order, and wherever each is cut off: one of the two
      tables is fully valid, and neither header ever carries a wrong checksum. */
  lemma CrashSafe(pf: Platform, d0: Image, calls: seq<Call>)
    requires Sound(pf, d0)
    ensures var d := Run(pf, d0, calls);
            && (TableValid(pf, d, Primary) || TableValid(pf, d, Secondary))
            && StateOf(pf, d, Primary) != BadCrc && StateOf(pf, d, Secondary) != BadCrc
  {
    var v := RunShows(pf, d0, calls);
    hide Laid, Array, Get4, Canon;
    ReadBack(pf, d0, Run(pf, d0, calls), v);
  }

  // ---------- recovery and convergence

  ghost function FinalView(pf: Platform, d0: Image): View
    requires Laid(pf, d0)
  {
    Written(pf, d0, Initially(pf, d0), NormalBoot)
  }

  lemma CompleteShows(pf: Platform, d0: Image, d: Image, v: View, stage: Stage) returns (w: View)
    requires Shows(pf, d0, d, v) && Reached(pf, d0, v) && SwapsAny(pf, d0) && stage == StageOfView(v)
    ensures Reached(pf, d0, w) && Shows(pf, d0, Complete(pf, d, stage), w)
    ensures match stage
            case Main => StageOfView(w) == Backup
            case Backup => StageOfView(w) == Finalize
            case Finalize => w == FinalView(pf, d0)
  {
    hide SameElsewhere, Canon, Array, Header, Laid, Get4, Get8, ArrayAt, ArraySize, TableValid;
    hide Reached, SwapsAny, ChainArray;
    hide After;
    w := AfterShows(pf, d0, d, v, Call(stage, false, 3));
    ReachedHasGood(pf, d0, v);
  }

  lemma ResumeShows(pf: Platform, d0: Image, d: Image, v: View)
    requires Shows(pf, d0, d, v) && Reached(pf, d0, v) && SwapsAny(pf, d0)
    ensures Shows(pf, d0, Resume(pf, d), FinalView(pf, d0))
  {
    hide SameElsewhere, Canon, Array, Header, Get4, TableValid, Reached, Complete, SwapsAny, Laid, FinalView, Decode;
    ReachedHasGood(pf, d0, v);
    DecodeOnView(pf, d0, d, v);
    var e, w := d, v;
    if StageOfView(v) == Main {
      w := CompleteShows(pf, d0, e, w, Main);
      e := Complete(pf, e, Main);
    }
    if StageOfView(w) == Backup {
      w := CompleteShows(pf, d0, e, w, Backup);
      e := Complete(pf, e, Backup);
    }
    w := CompleteShows(pf, d0, e, w, Finalize);
  }

  /** With no pair to swap no call ever writes. */
  lemma NoPairNoWrites(pf: Platform, d0: Image, calls: seq<Call>)
    requires Sound(pf, d0) && !SwapsAny(pf, d0)
    ensures Run(pf, d0, calls) == d0 && Resume(pf, d0) == d0
  {
    hide SameElsewhere, Canon, Array, Header, Laid, Get4, Get8, ArrayAt, ArraySize, TableValid, SwapsAny, After, Decode;
    var v := RunShows(pf, d0, calls);
    ShowsInitially(pf, d0);
    ShowsIsFunctional(pf, d0, Run(pf, d0, calls), d0, v);
    forall stage
      ensures Complete(pf, d0, stage) == d0
    {
      var _ := AfterShows(pf, d0, d0, v, Call(stage, false, 3));
    }
  }

  /** However the stages were interrupted, finishing the update from the stage that the headers decode
      to leads to the disk that an uninterrupted update would have made. */
  lemma Converges(pf: Platform, d0: Image, calls: seq<Call>)
    requires Sound(pf, d0)
    ensures Resume(pf, Run(pf, d0, calls)) == Resume(pf, d0)
  {
    hide Shows, Reached, Resume, SwapsAny, Laid, TableValid;
    var d := Run(pf, d0, calls);
    var v := RunShows(pf, d0, calls);
    if SwapsAny(pf, d0) {
      ShowsInitially(pf, d0);
      InitiallyReached(pf, d0);
      ResumeShows(pf, d0, d, v);
      ResumeShows(pf, d0, d0, Initially(pf, d0));
      ShowsIsFunctional(pf, d0, Resume(pf, d), Resume(pf, d0), FinalView(pf, d0));
    } else {
      NoPairNoWrites(pf, d0, calls);
    }
  }

  /** The finished update leaves the primary table byte for byte as it was, makes the secondary's
      entries equal to the primary's, and leaves both tables valid; and it is the identity on the whole
      disk when the two tables already agreed. */
  lemma UpdateRestoresTables(pf: Platform, d0: Image)
    requires Sound(pf, d0) && SwapsAny(pf, d0)
    ensures var d := Resume(pf, d0);
            && |d| == |d0| && SameElsewhere(pf, d0, d)
            && Header(pf, d, Primary) == Header(pf, d0, Primary)
            && Array(pf, d, Primary) == Array(pf, d0, Primary)
            && Array(pf, d, Secondary) == Array(pf, d0, Primary)
            && TableValid(pf, d, Primary) && TableValid(pf, d, Secondary)
    ensures Array(pf, d0, Secondary) == Array(pf, d0, Primary) ==> Resume(pf, d0) == d0
  {
    hide SameElsewhere, Canon, Get4, ArrayAt, ArraySize, Reached, Resume, SwapsAny;
    ShowsInitially(pf, d0);
    InitiallyReached(pf, d0);
    ResumeShows(pf, d0, d0, Initially(pf, d0));
    var d := Resume(pf, d0);
    CanonOfValid(pf.crc, Header(pf, d0, Primary));
    ReadBack(pf, d0, d, FinalView(pf, d0));
    if Array(pf, d0, Secondary) == Array(pf, d0, Primary) {
      ShowsIsFunctional(pf, d0, d, d0, Initially(pf, d0));
    }
  }

  /** On any disk at all, a call writes only when it names the very stage the headers decode to. */
  lemma OnlyTheDecodedStageWrites(pf: Platform, d: Image, stage: Stage, lunFails: bool)
    requires Laid(pf, d) && Decode(pf, d) != At(stage)
    ensures RunStage(pf, d, stage, lunFails).images == []
  {
    hide Decode;
  }

  /** Repeating a completed MAIN or BACKUP succeeds and writes nothing. */
  lemma RepeatIsQuiet(pf: Platform, d0: Image, calls: seq<Call>, stage: Stage, lunFails: bool)
    requires Sound(pf, d0) && SwapsAny(pf, d0) && !stage.Finalize?
    requires Decode(pf, Run(pf, d0, calls)) == At(stage)
    ensures RunStage(pf, Complete(pf, Run(pf, d0, calls), stage), stage, lunFails) == Outcome(0, [])
  {
    hide Shows, Reached, Complete, SwapsAny, Laid, Decode, EnterStage;
    var d := Run(pf, d0, calls);
    var v := RunShows(pf, d0, calls);
    ReachedHasGood(pf, d0, v);
    DecodeOnView(pf, d0, d, v);
    var w := CompleteShows(pf, d0, d, v, stage);
    ReachedHasGood(pf, d0, w);
    DecodeOnView(pf, d0, Complete(pf, d, stage), w);
  }
}
