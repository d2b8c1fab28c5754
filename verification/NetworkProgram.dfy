/** A network report as an object whose table is merged in place, and its way into the status history. */
module NetworkProgram {
  import opened StatusHistory
  import opened NetworkTable
  import opened Masks
  import opened NetworkReports
  import opened NetworkDelivery

  class SystemStatusNetworkInfo {
    var allTypes: bv64
    var typ: int
    var names: string
    var available: bool
    var connected: bool
    var roaming: bool
    var handle: Handle
    var apn: string
    var reported: int
    const slots: array<Slot>

    ghost predicate Valid() {
      slots.Length == MAX_NETWORK_HANDLES
    }

    ghost function View(): NetworkInfo
      requires Valid()
      reads this, slots
    {
      NetworkInfo(allTypes, typ, names, available, connected, roaming, handle, apn, slots[..], reported)
    }

    constructor (s: NetworkInfo)
      ensures Valid() && View() == s && fresh(slots)
    {
      allTypes, typ, names, available, connected := s.allTypes, s.typ, s.names, s.available, s.connected;
      roaming, handle, apn, reported := s.roaming, s.handle, s.apn, s.reported;
      var copy := new Slot[MAX_NETWORK_HANDLES](i requires 0 <= i < MAX_NETWORK_HANDLES => s.slots[i]);
      slots := copy;
      new;
      assert slots[..] == s.slots;
    }

    method Value() returns (s: NetworkInfo)
      requires Valid()
      ensures s == View()
    {
      s := NetworkInfo(allTypes, typ, names, available, connected, roaming, handle, apn, slots[..], reported);
    }

    method Collate(cur: NetworkInfo)
      requires Valid()
      modifies this, slots
      ensures View() == Collated(old(View()), cur)
    {
      hide TableAfter, MaskAfter, ApnAfter;
      ReplaceTable(cur.slots);
      TakeApn(cur.apn);
      MergeOwn(cur.allTypes);
    }

    method TakeApn(curApn: string)
      requires Valid()
      modifies this`apn
      ensures apn == ApnAfter(typ, old(apn), curApn)
    {
      if typ != TYPE_MOBILE && curApn != "" {
        apn := curApn;
      }
    }

    /** The report's own connection goes into the table or comes out of it, and the mask follows. */
    method MergeOwn(curTypes: bv64)
      requires Valid()
      modifies this`allTypes, slots
      ensures slots[..] == TableAfter(connected, old(allTypes), Slot(handle, typ), old(slots[..]))
      ensures allTypes == MaskAfter(connected, old(allTypes), Slot(handle, typ), old(slots[..]), curTypes)
    {
      hide Connect, Disconnect, Others, Count, With, Without;
      if connected {
        allTypes := With(allTypes, curTypes);
        EnterOwn();
      } else if allTypes != 0 {
        var typeCount := TakeOutOwn();
        if typeCount == 0 {
          allTypes := Without(curTypes, allTypes);
        }
      }
    }

    /** The item takes over another of its kind, field by field. */
    method CopyFrom(d: NetworkInfo)
      requires Valid()
      modifies this, slots
      ensures View() == Copied(old(View()), d)
    {
      hide TypeBit, Normalized, CodeOf;
      var s := Value();
      var typ' := Normalized(d.typ);
      if OnlyApnDiffers(s, d) {
        return;
      }
      allTypes := if d.allTypes == 0 then TypeBit(typ') else d.allTypes;
      if Normalized(typ) != typ' {
        typ := CodeOf(typ');
      }
      names, available, connected, roaming := d.names, d.available, d.connected, d.roaming;
      ReplaceTable(d.slots);
      handle, apn := d.handle, d.apn;
    }

    method ReplaceTable(t: Table)
      requires Valid()
      modifies slots
      ensures slots[..] == t
    {
      for i := 0 to MAX_NETWORK_HANDLES
        invariant slots[..i] == t[..i]
      {
        slots[i] := t[i];
      }
    }

    method EnterOwn()
      requires Valid()
      modifies slots
      ensures slots[..] == Connect(old(slots[..]), Slot(handle, typ))
    {
      for i := 0 to MAX_NETWORK_HANDLES
        invariant slots[..] == old(slots[..])
        invariant i <= Stop(slots[..], handle)
      {
        if handle == slots[i].handle {
          break;
        }
        if slots[i].handle == NETWORK_HANDLE_UNKNOWN {
          slots[i] := Slot(handle, typ);
          break;
        }
      }
    }

    /** Tells how many other handles of the same type are left. */
    method TakeOutOwn() returns (typeCount: nat)
      requires Valid()
      modifies slots
      ensures slots[..] == Disconnect(old(slots[..]), Slot(handle, typ))
      ensures typeCount == var t := old(slots[..]); Others(t, Count(t), Slot(handle, typ))
    {
      ghost var own := Slot(handle, typ);
      var deletedIndex := MAX_NETWORK_HANDLES;
      var lastValidIndex := 0;
      typeCount := 0;
      while lastValidIndex < MAX_NETWORK_HANDLES && slots[lastValidIndex].handle != NETWORK_HANDLE_UNKNOWN
        invariant slots[..] == old(slots[..])
        invariant 0 <= lastValidIndex <= Count(slots[..])
        invariant typeCount == Others(slots[..], lastValidIndex, own)
        invariant var d := LastMatch(slots[..], lastValidIndex, own);
                  deletedIndex == if d < 0 then MAX_NETWORK_HANDLES else d
        decreases MAX_NETWORK_HANDLES - lastValidIndex
      {
        if typ == slots[lastValidIndex].typ {
          if handle == slots[lastValidIndex].handle {
            deletedIndex := lastValidIndex;
          } else {
            typeCount := typeCount + 1;
          }
        }
        lastValidIndex := lastValidIndex + 1;
      }
      assert lastValidIndex == Count(slots[..]);
      if lastValidIndex > 0 {
        lastValidIndex := lastValidIndex - 1;
      }
      if deletedIndex != MAX_NETWORK_HANDLES {
        slots[deletedIndex] := slots[lastValidIndex];
        slots[lastValidIndex] := FREE;
      }
    }
  }

  /** The report enters the history, and if it is news the reporter's own item takes over the merged table
      and mask, which is what observers are then told. */
  method EventNetworkInfo(history: ReportVector<NetworkInfo>, dataitem: SystemStatusNetworkInfo) returns (ret: bool)
    requires history.Valid() && history.kind == NETWORK && dataitem.Valid()
    modifies history, dataitem, dataitem.slots
    ensures history.Valid() && history.ops == old(history.ops) + [Report(old(dataitem.View()))]
    ensures ret == Grows(NETWORK, FullHistory(NETWORK, old(history.ops)), Report(old(dataitem.View())))
    ensures var all := FullHistory(NETWORK, history.ops);
            if ret then all != [] && dataitem.View() == old(dataitem.View()).(allTypes := all[|all| - 1].item.allTypes,
                                                                             slots := all[|all| - 1].item.slots)
            else dataitem.View() == old(dataitem.View())
  {
    var s := dataitem.Value();
    ret := history.SetIteminReport(s);
    if ret {
      EndHasNewest(Items(FullHistory(NETWORK, history.ops)), MAX_ITEM);
      var back := history.report[|history.report| - 1];
      dataitem.allTypes := back.allTypes;
      dataitem.ReplaceTable(back.slots);
    }
  }

  /** The reports that a reset posts, one for each record kept; they are taken in only afterwards. */
  method ResetNetworkInfo(history: ReportVector<NetworkInfo>, now: int) returns (posted: seq<NetworkInfo>)
    requires history.Valid() && history.kind == NETWORK
    ensures posted == ResetReports(LastOf(Items(FullHistory(NETWORK, history.ops)), MAX_ITEM), now)
  {
    posted := [];
    for i := 0 to |history.report|
      invariant posted == ResetReports(history.report[..i], now)
    {
      var r := history.report[i];
      posted := posted + [ConnectionStatus(false, Int8(r.typ), r.roaming, r.handle, r.apn, now)];
    }
    assert history.report[..|history.report|] == history.report;
  }
}
