/** What a stage call does on any disk at all, said of the states of the two headers alone: the code it
    returns, how many writes it makes, and what is read after each of them. */
module UpdateOutcome {
  import opened Common
  import opened GptHeader
  import opened BootChain
  import opened GptDisk
  import opened BootUpdate

  /** The primary's entries match the checksum in its header. */
  predicate PrimaryArrayOk(pf: Platform, d: Image)
    requires Laid(pf, d)
  {
    pf.crc(Array(pf, d, Primary)) == Get4(Header(pf, d, Primary), PARTITION_CRC_OFFSET)
  }

  function Headers(pf: Platform, d: Image): (GptState, GptState)
    requires Laid(pf, d)
  {
    (HeaderState(pf.crc, Header(pf, d, Primary)), HeaderState(pf.crc, Header(pf, d, Secondary)))
  }

  /** A wrong header checksum, or two cleared signatures: every call fails and writes nothing. */
  lemma CorruptHeadersRefused(pf: Platform, d: Image, stage: Stage, lunFails: bool)
    requires Laid(pf, d)
    requires Headers(pf, d).0 == BadCrc || Headers(pf, d).1 == BadCrc || Headers(pf, d) == (BadSignature, BadSignature)
    ensures RunStage(pf, d, stage, lunFails) == Outcome(-1, [])
  {
    hide HeaderState, EnterStage, Laid;
  }

  /** Both headers good: MAIN is due. It fails if the LUN switch does or the primary's entries do not match
      their checksum, has nothing to do if there is no pair, and else makes three writes. */
  lemma WhenBothAreGood(pf: Platform, d: Image, stage: Stage, lunFails: bool)
    requires Laid(pf, d) && Headers(pf, d) == (Ok, Ok)
    ensures var o := RunStage(pf, d, stage, lunFails);
            if stage != Main || lunFails || !PrimaryArrayOk(pf, d) then o == Outcome(-1, [])
            else if !SwapsSome(pf.ufs, pf.names, BootSlots(pf, d)) then o == Outcome(0, [])
            else o.code == 0 && |o.images| == 3
  {
    hide HeaderState, Laid, BootSlots, SwapsSome, SetState, WriteChain, ChainArray;
  }

  /** The primary's signature cleared: BACKUP is due, and MAIN counts as done. */
  lemma WhenThePrimaryIsCleared(pf: Platform, d: Image, stage: Stage, lunFails: bool)
    requires Laid(pf, d) && Headers(pf, d) == (BadSignature, Ok)
    ensures var o := RunStage(pf, d, stage, lunFails);
            match stage
            case Main => o == Outcome(0, [])
            case Backup => if lunFails then o == Outcome(-1, []) else o.code == 0 && |o.images| == 2
            case Finalize => o == Outcome(-1, [])
  {
    hide HeaderState, Laid, BootSlots, SwapsSome, SetState, SetBootChain;
  }

  /** The secondary's signature cleared: FINALIZE is due, and BACKUP counts as done. */
  lemma WhenTheSecondaryIsCleared(pf: Platform, d: Image, stage: Stage, lunFails: bool)
    requires Laid(pf, d) && Headers(pf, d) == (Ok, BadSignature)
    ensures var o := RunStage(pf, d, stage, lunFails);
            match stage
            case Main => o == Outcome(-1, [])
            case Backup => o == Outcome(0, [])
            case Finalize => if PrimaryArrayOk(pf, d) then o.code == 0 && |o.images| == 3 else o == Outcome(-1, [])
  {
    hide HeaderState, Laid, BootSlots, SwapsSome, SetState, WriteChain, ChainArray;
  }

  // ---------- what is read after each write

  lemma AfterSetState(pf: Platform, d: Image, inst: Instance, good: bool)
    requires Laid(pf, d)
    ensures var r := SetState(pf, d, inst, good);
            var p, s := Header(pf, d, Primary), Header(pf, d, Secondary);
            if inst.Primary?
            then Sees(pf, r, WithSignature(pf.crc, p, good), Array(pf, d, Primary), s, Array(pf, d, Secondary))
            else Sees(pf, r, p, Array(pf, d, Primary), WithSignature(pf.crc, s, good), Array(pf, d, Secondary))
  {
    EditsKeepGeometry(pf.crc, Header(pf, d, inst), good, 0);
    hide Get4, Get8, ArrayAt, ArraySize, Splice, Slice, HeaderSize, WithSignature;
    HeaderWrite(pf, d, inst, WithSignature(pf.crc, Header(pf, d, inst), good));
  }

  lemma AfterWriteChain(pf: Platform, d: Image, a: seq<byte>)
    requires Laid(pf, d) && |a| == |Array(pf, d, Primary)|
    ensures var o := WriteChain(pf, d, a);
            var p, s, e := Header(pf, d, Primary), Header(pf, d, Secondary), Array(pf, d, Primary);
            && Sees(pf, o.header, p, e, WithArrayCrc(pf.crc, s, pf.crc(a)), Array(pf, d, Secondary))
            && Sees(pf, o.table, p, e, WithArrayCrc(pf.crc, s, pf.crc(a)), a)
  {
    EditsKeepGeometry(pf.crc, Header(pf, d, Secondary), true, pf.crc(a));
    hide Get4, Get8, ArrayAt, ArraySize, Splice, Slice, HeaderSize, WithArrayCrc;
    HeaderWrite(pf, d, Secondary, WithArrayCrc(pf.crc, Header(pf, d, Secondary), pf.crc(a)));
    ArrayWrite(pf, SetArrayCrc(pf, d, pf.crc(a)), Secondary, a);
  }

  /** MAIN writes the secondary header for the swapped entries, then those entries, then clears the
      primary's signature. */
  lemma MainWrites(pf: Platform, d: Image)
    requires Laid(pf, d) && |RunStage(pf, d, Main, false).images| == 3
    ensures var c := RunStage(pf, d, Main, false).images;
            var p, s, e := Header(pf, d, Primary), Header(pf, d, Secondary), Array(pf, d, Primary);
            |e| % PTN_ENTRY_SIZE == 0
            && var a := SwappedBytes(pf.ufs, pf.names, e);
               var s' := WithArrayCrc(pf.crc, s, pf.crc(a));
               && Sees(pf, c[0], p, e, s', Array(pf, d, Secondary))
               && Sees(pf, c[1], p, e, s', a)
               && Sees(pf, c[2], WithSignature(pf.crc, p, false), e, s', a)
  {
    WholeEntries(pf, d);
    MainImages(pf, d);
    var a := ChainArray(pf, d, BackupBoot);
    AfterWriteChain(pf, d, a);
    AfterSetState(pf, WriteChain(pf, d, a).table, Primary, false);
    hide Get4, Get8, Array, Header, SetState, WriteChain, Laid, RunStage, SwappedBytes, WithSignature, WithArrayCrc;
    hide ArrayAt, ArraySize, HeaderSize;
  }

  lemma MainImages(pf: Platform, d: Image)
    requires Laid(pf, d) && |RunStage(pf, d, Main, false).images| == 3
    ensures var o := WriteChain(pf, d, ChainArray(pf, d, BackupBoot));
            RunStage(pf, d, Main, false).images == [o.header, o.table, SetState(pf, o.table, Primary, false)]
  {
    hide Get4, Array, Header, SetState, WriteChain, Laid, Decode, SwapsSome, BootSlots, ChainArray;
  }

  lemma FinalizeImages(pf: Platform, d: Image)
    requires Laid(pf, d) && |RunStage(pf, d, Finalize, false).images| == 3
    ensures var o := WriteChain(pf, d, Array(pf, d, Primary));
            RunStage(pf, d, Finalize, false).images == [o.header, o.table, SetState(pf, o.table, Secondary, true)]
  {
    hide Get4, Array, Header, SetState, WriteChain, Laid, Decode, SwapsSome, BootSlots;
  }

  /** BACKUP restores the primary's signature, then clears the secondary's. */
  lemma BackupWrites(pf: Platform, d: Image)
    requires Laid(pf, d) && |RunStage(pf, d, Backup, false).images| == 2
    ensures var c := RunStage(pf, d, Backup, false).images;
            var p, s := Header(pf, d, Primary), Header(pf, d, Secondary);
            var e, f, p' := Array(pf, d, Primary), Array(pf, d, Secondary), WithSignature(pf.crc, p, true);
            Sees(pf, c[0], p', e, s, f) && Sees(pf, c[1], p', e, WithSignature(pf.crc, s, false), f)
  {
    AfterSetState(pf, d, Primary, true);
    AfterSetState(pf, SetState(pf, d, Primary, true), Secondary, false);
    hide Get4, Array, Header, SetState, Laid, Decode, WithSignature;
  }

  /** FINALIZE writes the secondary header for the primary's entries, then those entries, then restores the
      secondary's signature. */
  lemma FinalizeWrites(pf: Platform, d: Image)
    requires Laid(pf, d) && |RunStage(pf, d, Finalize, false).images| == 3
    ensures var c := RunStage(pf, d, Finalize, false).images;
            var p, s, e := Header(pf, d, Primary), Header(pf, d, Secondary), Array(pf, d, Primary);
            var s' := WithArrayCrc(pf.crc, s, pf.crc(e));
            && Sees(pf, c[0], p, e, s', Array(pf, d, Secondary))
            && Sees(pf, c[1], p, e, s', e)
            && Readable(s') && Sees(pf, c[2], p, e, WithSignature(pf.crc, s', true), e)
  {
    FinalizeImages(pf, d);
    var e := Array(pf, d, Primary);
    AfterWriteChain(pf, d, e);
    AfterSetState(pf, WriteChain(pf, d, e).table, Secondary, true);
    StillReadable(pf, d, WriteChain(pf, d, e).table);
    hide Get4, Get8, Array, Header, SetState, WriteChain, Laid, RunStage, WithSignature, WithArrayCrc;
    hide ArrayAt, ArraySize, HeaderSize, Readable;
  }

  lemma StillReadable(pf: Platform, d: Image, r: Image)
    requires Laid(pf, d) && Laid(pf, r)
    ensures Readable(Header(pf, r, Secondary)) && Readable(Header(pf, d, Secondary))
  {
  }
}
