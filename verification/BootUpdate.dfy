/** The failsafe boot update: three stages, each a short list of block writes decided from the state
    that the two headers are found in. */
module BootUpdate {
  import opened Common
  import opened GptHeader
  import opened BootChain
  import opened GptDisk

  datatype Stage = Main | Backup | Finalize
  datatype Chain = NormalBoot | BackupBoot

  /** A call's return code and the disk after each of its block writes, if none of them fails. */
  datatype Outcome = Outcome(code: int, images: seq<Image>)

  /** gpt_set_state. */
  function SetState(pf: Platform, d: Image, inst: Instance, good: bool): (r: Image)
    requires Laid(pf, d)
    ensures Laid(pf, r) && |r| == |d|
  {
    var h := WithSignature(pf.crc, Header(pf, d, inst), good);
    EditsKeepGeometry(pf.crc, Header(pf, d, inst), good, 0);
    HeaderWrite(pf, d, inst, h);
    Splice(d, HeaderAt(pf, d, inst), h)
  }

  /** The secondary header with the checksum of a new array. */
  function SetArrayCrc(pf: Platform, d: Image, c: word): (r: Image)
    requires Laid(pf, d)
    ensures Laid(pf, r) && |r| == |d|
    ensures |Array(pf, r, Primary)| == |Array(pf, d, Primary)|
  {
    var h := WithArrayCrc(pf.crc, Header(pf, d, Secondary), c);
    EditsKeepGeometry(pf.crc, Header(pf, d, Secondary), true, c);
    HeaderWrite(pf, d, Secondary, h);
    Splice(d, HeaderAt(pf, d, Secondary), h)
  }

  /** The secondary entry array. */
  function SetArray(pf: Platform, d: Image, a: seq<byte>): (r: Image)
    requires Laid(pf, d) && |a| == |Array(pf, d, Primary)|
    ensures Laid(pf, r) && |r| == |d|
  {
    ArrayWrite(pf, d, Secondary, a);
    Splice(d, ArrayAt(pf, Header(pf, d, Secondary)), a)
  }

  function BootSlots(pf: Platform, d: Image): seq<Entry>
    requires Laid(pf, d)
  {
    WholeEntries(pf, d);
    Slots(Array(pf, d, Primary))
  }

  /** The primary's array, as the chosen chain wants it in the secondary table. */
  function ChainArray(pf: Platform, d: Image, boot: Chain): (a: seq<byte>)
    requires Laid(pf, d)
    ensures |a| == |Array(pf, d, Primary)|
  {
    WholeEntries(pf, d);
    if boot.BackupBoot? then SwappedBytes(pf.ufs, pf.names, Array(pf, d, Primary)) else Array(pf, d, Primary)
  }

  /** The return code of gpt2_set_boot_chain and the disk after its header write and after its array
      write; with a non-zero code nothing is written. */
  datatype ChainOutcome = ChainOutcome(code: int, header: Image, table: Image)

  function SetBootChain(pf: Platform, d: Image, boot: Chain): (o: ChainOutcome)
    requires Laid(pf, d)
    ensures Laid(pf, o.header) && Laid(pf, o.table)
    ensures o.code == 0 || o.code == -1 || (o.code == 1 && boot.BackupBoot?)
  {
    hide Slice, Get4, ArraySize, ArrayAt, SwapsSome, Slots, HeaderSize;
    if pf.crc(Array(pf, d, Primary)) != Get4(Header(pf, d, Primary), PARTITION_CRC_OFFSET) then
      ChainOutcome(-1, d, d)
    else if boot.BackupBoot? && !SwapsSome(pf.ufs, pf.names, BootSlots(pf, d)) then
      ChainOutcome(1, d, d)
    else
      WriteChain(pf, d, ChainArray(pf, d, boot))
  }

  /** Header first, then the array it describes. */
  function WriteChain(pf: Platform, d: Image, a: seq<byte>): (o: ChainOutcome)
    requires Laid(pf, d) && |a| == |Array(pf, d, Primary)|
    ensures o.code == 0 && Laid(pf, o.header) && Laid(pf, o.table)
  {
    var d1 := SetArrayCrc(pf, d, pf.crc(a));
    ChainOutcome(0, d1, SetArray(pf, d1, a))
  }

  function StateOf(pf: Platform, d: Image, inst: Instance): GptState
    requires Laid(pf, d)
  {
    HeaderState(pf.crc, Header(pf, d, inst))
  }

  datatype Decoded = Abort | At(stage: Stage)

  /** The internal stage, recovered from the headers alone. */
  function Decode(pf: Platform, d: Image): Decoded
    requires Laid(pf, d)
  {
    var p, s := StateOf(pf, d, Primary), StateOf(pf, d, Secondary);
    if p.BadCrc? || s.BadCrc? then Abort
    else if p.BadSignature? && s.BadSignature? then Abort
    else if p.Ok? && s.Ok? then At(Main)
    else if p.BadSignature? then At(Backup)
    else At(Finalize)
  }

  function Ordinal(s: Stage): int {
    match s case Main => 1 case Backup => 2 case Finalize => 3
  }

  ghost predicate AllLaid(pf: Platform, images: seq<Image>) {
    forall k :: 0 <= k < |images| ==> Laid(pf, images[k])
  }

  /** prepare_partitions; lunFails says that switching the XBL boot LUN is called for and fails. */
  function RunStage(pf: Platform, d: Image, stage: Stage, lunFails: bool): (o: Outcome)
    requires Laid(pf, d)
    ensures |o.images| <= 3 && AllLaid(pf, o.images)
  {
    match Decode(pf, d)
    case Abort => Outcome(-1, [])
    case At(internal) =>
      if Ordinal(stage) == Ordinal(internal) - 1 then Outcome(0, [])
      else if stage != internal then Outcome(-1, [])
      else EnterStage(pf, d, stage, lunFails)
  }

  /** The writes of the stage that the headers call for. */
  function EnterStage(pf: Platform, d: Image, stage: Stage, lunFails: bool): (o: Outcome)
    requires Laid(pf, d)
    ensures |o.images| <= 3 && AllLaid(pf, o.images)
  {
    hide Laid;
    match stage
    case Main =>
      if lunFails then Outcome(-1, [])
      else
        var chain := SetBootChain(pf, d, BackupBoot);
        if chain.code < 0 then Outcome(chain.code, [])
        else if chain.code > 0 then Outcome(0, [])
        else Outcome(0, [chain.header, chain.table, SetState(pf, chain.table, Primary, false)])
    case Backup =>
      if lunFails then Outcome(-1, [])
      else
        var d1 := SetState(pf, d, Primary, true);
        Outcome(0, [d1, SetState(pf, d1, Secondary, false)])
    case Finalize =>
      var chain := SetBootChain(pf, d, NormalBoot);
      if chain.code < 0 then Outcome(chain.code, [])
      else Outcome(0, [chain.header, chain.table, SetState(pf, chain.table, Secondary, true)])
  }

  /** The disk when power is lost, or a write fails, after the given number of a call's writes. */
  function Cut(d: Image, images: seq<Image>, writes: nat): (r: Image)
    ensures r == d || r in images
  {
    if writes == 0 || images == [] then d
    else if writes < |images| then images[writes - 1]
    else images[|images| - 1]
  }

  datatype Call = Call(stage: Stage, lunFails: bool, writes: nat)

  /** The disk after one call, cut off anywhere. */
  function After(pf: Platform, d: Image, c: Call): (r: Image)
    requires Laid(pf, d)
    ensures Laid(pf, r)
  {
    Cut(d, RunStage(pf, d, c.stage, c.lunFails).images, c.writes)
  }

  /** The disk after any sequence of stage calls. */
  function Run(pf: Platform, d: Image, calls: seq<Call>): (r: Image)
    requires Laid(pf, d)
    ensures Laid(pf, r)
  {
    if calls == [] then d
    else After(pf, Run(pf, d, calls[..|calls| - 1]), calls[|calls| - 1])
  }

  /** A stage that nothing interrupts. */
  function Complete(pf: Platform, d: Image, stage: Stage): (r: Image)
    requires Laid(pf, d)
    ensures Laid(pf, r)
  {
    After(pf, d, Call(stage, false, 3))
  }

  /** Finishing the update from wherever the headers say it stands. */
  function Resume(pf: Platform, d: Image): (r: Image)
    requires Laid(pf, d)
    ensures Laid(pf, r)
  {
    match Decode(pf, d)
    case Abort => d
    case At(Main) => Complete(pf, Complete(pf, Complete(pf, d, Main), Backup), Finalize)
    case At(Backup) => Complete(pf, Complete(pf, d, Backup), Finalize)
    case At(Finalize) => Complete(pf, d, Finalize)
  }
}
