/** The update as the program carries it out: buffers filled from the device, edited in place and
    written back, with an early exit at the first write that fails. */
module UpdateProgram {
  import opened Common
  import opened GptHeader
  import opened BootChain
  import opened GptDisk
  import opened BootUpdate

  /** Where the secondary's entries lie once its header has its new checksum: where they lay before. */
  lemma HeaderOfChain(pf: Platform, d: Image, c: word)
    requires Laid(pf, d)
    ensures var d1, h := SetArrayCrc(pf, d, c), Header(pf, d, Secondary);
            && Header(pf, d1, Secondary) == WithArrayCrc(pf.crc, h, c)
            && ArrayAt(pf, Header(pf, d1, Secondary)) == ArrayAt(pf, h)
            && ArrayAt(pf, h) + |Array(pf, d, Primary)| <= |d|
  {
    hide Slice, Splice, Get4, Get8, WithArrayCrc, ArrayAt, ArraySize;
    var h := Header(pf, d, Secondary);
    EditsKeepGeometry(pf.crc, h, true, c);
    HeaderWrite(pf, d, Secondary, WithArrayCrc(pf.crc, h, c));
    GeometryOf(pf, WithArrayCrc(pf.crc, h, c), h);
  }

  class BlockDevice {
    const pf: Platform
    var image: Image
    /** How many more block writes the device takes before power is lost or writing fails. */
    var writesLeft: nat

    constructor (pf: Platform, image: Image, writesLeft: nat)
      ensures this.pf == pf && this.image == image && this.writesLeft == writesLeft
    {
      this.pf, this.image, this.writesLeft := pf, image, writesLeft;
    }

    /** The device after a call that would pass through the given images, cut off where writing stops. */
    ghost predicate Went(d: Image, writes: nat, images: seq<Image>)
      reads this
    {
      && image == Cut(d, images, writes)
      && writesLeft == if writes < |images| then 0 else writes - |images|
    }

    method Read(at: nat, buf: array<byte>)
      requires at + buf.Length <= |image|
      modifies buf
      ensures buf[..] == Slice(image, at, buf.Length)
    {
      for i := 0 to buf.Length
        invariant forall k :: 0 <= k < i ==> buf[k] == image[at + k]
      {
        buf[i] := image[at + i];
      }
    }

    method Write(at: nat, buf: array<byte>, len: nat) returns (r: int)
      requires len <= buf.Length && at + len <= |image|
      modifies this
      ensures image == if old(writesLeft) == 0 then old(image) else Splice(old(image), at, buf[..len])
      ensures writesLeft == if old(writesLeft) == 0 then 0 else old(writesLeft) - 1
      ensures r == if old(writesLeft) == 0 then -1 else 0
    {
      if writesLeft == 0 {
        return -1;
      }
      image, writesLeft := Splice(image, at, buf[..len]), writesLeft - 1;
      r := 0;
    }

    method ReadHeader(inst: Instance) returns (header: array<byte>)
      requires Laid(pf, image)
      ensures fresh(header) && header[..] == Header(pf, image, inst)
    {
      header := new byte[pf.blk];
      Read(HeaderAt(pf, image, inst), header);
    }

    method GptGetState(inst: Instance) returns (state: GptState)
      requires Laid(pf, image)
      ensures state == StateOf(pf, image, inst)
    {
      var header := ReadHeader(inst);
      ghost var h := header[..];
      state := if header[..9] != GPT_SIGNATURE then BadSignature else Ok;
      assert header[..9] == h[..9];
      var size := Get4(header[..], HEADER_SIZE_OFFSET);
      var stored := Get4(header[..], HEADER_CRC_OFFSET);
      PutWord(header, HEADER_CRC_OFFSET, 0);
      assert header[..size] == Put4(h, HEADER_CRC_OFFSET, 0)[..size];
      if pf.crc(header[..size]) != stored {
        state := BadCrc;
      }
    }

    method GptSetState(inst: Instance, state: GptState) returns (r: int)
      requires Laid(pf, image)
      modifies this
      ensures Laid(pf, image)
      ensures Went(old(image), old(writesLeft),
                   if state.BadCrc? then [] else [SetState(pf, old(image), inst, state.Ok?)])
      ensures r == if state.BadCrc? || old(writesLeft) == 0 then -1 else 0
    {
      hide Slice, Splice, WithSignature, Get4, Get8, ArrayAt, ArraySize, RegionsFit, HeaderSize;
      var header := ReadHeader(inst);
      if state.BadCrc? {
        return -1;
      }
      SetSignature(pf.crc, header, state.Ok?);
      ghost var d := SetState(pf, image, inst, state.Ok?);
      assert header[..pf.blk] == header[..];
      r := Write(HeaderAt(pf, image, inst), header, pf.blk);
      assert r == 0 ==> image == d;
    }

    /** The primary's entries, and whether they match the checksum in its header. */
    method ReadPrimaryArray() returns (ok: bool, pentries: array<byte>)
      requires Laid(pf, image)
      ensures fresh(pentries) && pentries[..] == Array(pf, image, Primary)
      ensures ok <==> pf.crc(Array(pf, image, Primary)) == Get4(Header(pf, image, Primary), PARTITION_CRC_OFFSET)
    {
      var header := ReadHeader(Primary);
      hide Get4, Get8, Slice;
      var at := ArrayAt(pf, header[..]);
      pentries := new byte[ArraySize(header[..])];
      hide ArrayAt, ArraySize;
      Read(at, pentries);
      ok := Get4(header[..], PARTITION_CRC_OFFSET) == pf.crc(pentries[..]);
    }

    /** The secondary header resealed for an array checksum, and where its entries go. */
    method SecondaryHeader(c: word) returns (header: array<byte>, at: nat)
      requires Laid(pf, image)
      ensures fresh(header) && header.Length == pf.blk
      ensures header[..pf.blk] == WithArrayCrc(pf.crc, Header(pf, image, Secondary), c)
      ensures at == ArrayAt(pf, Header(pf, image, Secondary))
    {
      header := ReadHeader(Secondary);
      at := ArrayAt(pf, header[..]);
      hide Slice, Get4, Get8, WithArrayCrc, ArrayAt, ArraySize, RegionsFit;
      SetArrayChecksum(pf.crc, header, c);
      assert header[..pf.blk] == header[..];
    }

    method WriteSecondaryHeader(c: word) returns (r: int, at: nat)
      requires Laid(pf, image)
      modifies this
      ensures image == if old(writesLeft) == 0 then old(image) else SetArrayCrc(pf, old(image), c)
      ensures writesLeft == if old(writesLeft) == 0 then 0 else old(writesLeft) - 1
      ensures r == if old(writesLeft) == 0 then -1 else 0
      ensures Laid(pf, image) && at == ArrayAt(pf, Header(pf, image, Secondary))
    {
      HeaderOfChain(pf, image, c);
      hide Splice, Slice, WithArrayCrc, ArrayAt, ArraySize, RegionsFit, Get4, Get8, HeaderSize;
      ghost var d := SetArrayCrc(pf, image, c);
      var header: array<byte>;
      header, at := SecondaryHeader(c);
      r := Write(HeaderAt(pf, image, Secondary), header, pf.blk);
      assert r == 0 ==> image == d;
    }

    /** Writes the secondary header for the given entries, then the entries. */
    method WriteSecondaryTable(pentries: array<byte>) returns (r: int)
      requires Laid(pf, image) && pentries.Length == |Array(pf, image, Primary)|
      modifies this
      ensures Laid(pf, image)
      ensures var o := WriteChain(pf, old(image), pentries[..]);
              Went(old(image), old(writesLeft), [o.header, o.table])
      ensures r == if old(writesLeft) < 2 then -1 else 0
    {
      hide Splice, Slice, ArrayAt, ArraySize, Get4, SetArrayCrc;
      var at: nat;
      r, at := WriteSecondaryHeader(pf.crc(pentries[..]));
      if r == 0 {
        ghost var d := SetArray(pf, image, pentries[..]);
        assert pentries[..pentries.Length] == pentries[..];
        r := Write(at, pentries, pentries.Length);
        assert r == 0 ==> image == d;
      }
    }

    method Gpt2SetBootChain(boot: Chain) returns (r: int)
      requires Laid(pf, image)
      modifies this
      ensures Laid(pf, image)
      ensures var o := SetBootChain(pf, old(image), boot);
              var images := if o.code == 0 then [o.header, o.table] else [];
              && Went(old(image), old(writesLeft), images)
              && r == if old(writesLeft) < |images| then -1 else o.code
    {
      hide Array, Header, Get4, SwappedBytes, Slots, SwapsSome, WriteChain;
      var ok, pentries := ReadPrimaryArray();
      if !ok {
        return -1;
      }
      WholeEntries(pf, image);
      if boot.BackupBoot? {
        r := GptBootChainSwap(pf.ufs, pf.names, pentries);
        if r != 0 {
          return;
        }
      }
      assert pentries[..] == ChainArray(pf, image, boot);
      r := WriteSecondaryTable(pentries);
    }

    /** The stage that the two headers stand for, or an abort. */
    method DecodeStage() returns (internal: Decoded)
      requires Laid(pf, image)
      ensures internal == Decode(pf, image)
    {
      hide StateOf;
      var prim := GptGetState(Primary);
      var second := GptGetState(Secondary);
      if prim.BadCrc? || second.BadCrc? {
        return Abort;
      }
      if prim.BadSignature? && second.BadSignature? {
        return Abort;
      }
      if prim.Ok? && second.Ok? {
        internal := At(Main);
      } else if prim.BadSignature? {
        internal := At(Backup);
      } else {
        internal := At(Finalize);
      }
    }

    method PreparePartitions(stage: Stage, lunFails: bool) returns (r: int)
      requires Laid(pf, image)
      modifies this
      ensures Laid(pf, image)
      ensures var o := RunStage(pf, old(image), stage, lunFails);
              && Went(old(image), old(writesLeft), o.images)
              && r == if old(writesLeft) < |o.images| then -1 else o.code
    {
      hide Decode, EnterStage, Laid;
      var internal := DecodeStage();
      if internal.Abort? {
        return -1;
      }
      if Ordinal(stage) == Ordinal(internal.stage) - 1 {
        return 0;
      }
      if stage != internal.stage {
        return -1;
      }
      r := Enter(stage, lunFails);
    }

    /** The writes of one stage, abandoned at the first that fails. */
    method Enter(stage: Stage, lunFails: bool) returns (r: int)
      requires Laid(pf, image)
      modifies this
      ensures Laid(pf, image)
      ensures var o := EnterStage(pf, old(image), stage, lunFails);
              && Went(old(image), old(writesLeft), o.images)
              && r == if old(writesLeft) < |o.images| then -1 else o.code
    {
      hide SetBootChain, SetState, Laid;
      match stage {
        case Main =>
          if lunFails {
            return -1;
          }
          r := Gpt2SetBootChain(BackupBoot);
          if r != 0 {
            return if r < 0 then r else 0;
          }
          r := GptSetState(Primary, BadSignature);
        case Backup =>
          if lunFails {
            return -1;
          }
          r := GptSetState(Primary, Ok);
          if r != 0 {
            return;
          }
          r := GptSetState(Secondary, BadSignature);
        case Finalize =>
          r := Gpt2SetBootChain(NormalBoot);
          if r < 0 {
            return;
          }
          r := GptSetState(Secondary, Ok);
      }
    }
  }
}
