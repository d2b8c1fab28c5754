/** The names the program swaps. */
module SwapList {
  import opened BootChain

  const PTN_SWAP_LIST: seq<string> := [
    "xbl", "xbl_config", "multiimgoem", "multiimgqti", "sbl1", "rpm", "tz", "aboot", "abl", "hyp",
    "lksecapp", "keymaster", "cmnlib", "cmnlib32", "cmnlib64", "pmic", "apdp", "devcfg", "hosd",
    "keystore", "msadp", "mdtp", "mdtpsecapp", "dsp", "aop", "qupfw", "vbmeta", "dtbo", "imagefv",
    "ImageFv", "uefisecapp", "vm-bootsys", "shrm", "cpucp", "featenabler", "vbmeta_system", "uefi",
    "aop_config", "uefisecapp", "recovery", "qweslicstore", "xbl_ramdump"]

  lemma SwapListIsPlain()
    ensures PlainList(PTN_SWAP_LIST)
  {
    SwapListNoNul0();
    SwapListNoNul1();
    SwapListNoNul2();
    SwapListNoBak();
  }

  // The constant list is inspected a third at a time, which keeps each query small.
  lemma SwapListNoNul0() ensures forall i :: 0 <= i < 14 ==> NoNul(PTN_SWAP_LIST[i]) {}
  lemma SwapListNoNul1() ensures forall i :: 14 <= i < 28 ==> NoNul(PTN_SWAP_LIST[i]) {}
  lemma SwapListNoNul2() ensures forall i :: 28 <= i < 42 ==> NoNul(PTN_SWAP_LIST[i]) {}
  lemma SwapListNoBak() ensures forall i :: 0 <= i < 42 ==> !EndsInBak(PTN_SWAP_LIST[i]) {}

  /** "uefisecapp" is listed twice, so its pair is swapped and swapped back: a pass over the shipped
      list leaves both of its entries where they were. */
  lemma UefisecappStays(ufs: bool, s: seq<Entry>)
    requires HasPair("uefisecapp", s)
    ensures PairIn("uefisecapp", s, Swapped(ufs, PTN_SWAP_LIST, s), false)
  {
    SwapListIsPlain();
    assert PlainName(PTN_SWAP_LIST[30]);
    PassExchangesByParity(ufs, PTN_SWAP_LIST, 42, "uefisecapp", s);
    UefisecappTwice();
  }

  lemma UefisecappTwice()
    ensures Times("uefisecapp", PTN_SWAP_LIST, 42) == 2
  {
    TimesByIndex("uefisecapp", PTN_SWAP_LIST, 42, {30, 38});
  }

  lemma {:induction false} TimesByIndex(n: string, names: seq<string>, k: nat, at: set<nat>)
    requires k <= |names|
    requires forall i :: i in at <==> 0 <= i < k && names[i] == n
    ensures Times(n, names, k) == |at|
  {
    if k == 0 {
      assert at == {};
    } else {
      TimesByIndex(n, names, k - 1, at - {k - 1});
    }
  }

  // ---------- every name of the list, on every device

  /** On UFS devices the families xbl, multiimgoem and multiimgqti belong to the boot-LUN switch. */
  const BOOT_LUN_NAMES: set<string> := {"xbl", "xbl_config", "multiimgoem", "multiimgqti", "xbl_ramdump"}

  /** A number that tells the listed names apart. */
  function Key(n: string): int {
    if |n| < 2 then 0 else |n| + n[0] as int + 7 * n[1] as int + n[|n| - 1] as int
  }

  /** Where the name with a key first stands in the list. */
  function Place(key: int): int {
    match key
    case 917 => 0
    case 919 => 1
    case 1048 => 2
    case 1044 => 3
    case 854 => 4
    case 1010 => 5
    case 1094 => 6
    case 904 => 7
    case 894 => 8
    case 1066 => 9
    case 977 => 10
    case 937 => 11
    case 966 => 12
    case 920 => 13
    case 922 => 14
    case 978 => 15
    case 997 => 16
    case 916 => 17
    case 985 => 18
    case 923 => 19
    case 1031 => 20
    case 925 => 21
    case 931 => 22
    case 1020 => 23
    case 989 => 24
    case 1056 => 25
    case 907 => 26
    case 1027 => 27
    case 993 => 28
    case 961 => 29
    case 946 => 30
    case 1006 => 31
    case 956 => 32
    case 1000 => 33
    case 934 => 34
    case 926 => 35
    case 933 => 36
    case 987 => 37
    case 950 => 39
    case 1059 => 40
    case 929 => 41
    case _ => -1
  }

  lemma KeysFirst()
    ensures forall i :: 0 <= i < 14 ==> Place(Key(PTN_SWAP_LIST[i])) == i
  {
  }

  lemma KeysSecond()
    ensures forall i :: 14 <= i < 28 ==> Place(Key(PTN_SWAP_LIST[i])) == i
  {
  }

  lemma KeysThird()
    ensures forall i :: 28 <= i < 42 ==> Place(Key(PTN_SWAP_LIST[i])) == if i == 38 then 30 else i
  {
  }

  /** No name but "uefisecapp" is listed twice. */
  lemma ListedOnce(i: nat, j: nat)
    requires i < j < 42 && PTN_SWAP_LIST[i] == PTN_SWAP_LIST[j]
    ensures i == 30 && j == 38
  {
    KeysFirst();
    KeysSecond();
    KeysThird();
    hide Place, Key;
  }

  lemma TimesOf(i: nat)
    requires i < 42
    ensures Times(PTN_SWAP_LIST[i], PTN_SWAP_LIST, 42) == if PTN_SWAP_LIST[i] == "uefisecapp" then 2 else 1
  {
    if PTN_SWAP_LIST[i] == "uefisecapp" {
      UefisecappTwice();
    } else {
      forall j | 0 <= j < 42 && PTN_SWAP_LIST[j] == PTN_SWAP_LIST[i] ensures j == i {
        if i < j { ListedOnce(i, j); }
        if j < i { ListedOnce(j, i); }
      }
      TimesByIndex(PTN_SWAP_LIST[i], PTN_SWAP_LIST, 42, {i});
    }
  }

  /** A name that does not begin as the three families do is never skipped. */
  lemma KeptByStart(n: string)
    requires |n| >= 2 && n[0] != 'x' && (n[0] == 'm' ==> n[1] != 'u')
    ensures Kept(true, n)
  {
    assert "xbl"[0] == 'x' && "multiimgoem"[0] == "multiimgqti"[0] == 'm';
    assert "multiimgoem"[1] == "multiimgqti"[1] == 'u';
  }

  lemma NeverSkippedElsewhere(n: string)
    ensures Kept(false, n)
  {
  }

  lemma StartsFirst()
    ensures forall i :: 4 <= i < 22 ==>
              var n := PTN_SWAP_LIST[i]; |n| >= 2 && n[0] != 'x' && (n[0] == 'm' ==> n[1] != 'u')
  {
  }

  lemma StartsSecond()
    ensures forall i :: 22 <= i < 41 ==>
              var n := PTN_SWAP_LIST[i]; |n| >= 2 && n[0] != 'x' && (n[0] == 'm' ==> n[1] != 'u')
  {
  }

  lemma FamiliesSkipped()
    ensures forall i :: 0 <= i < 4 || i == 41 ==> !Kept(true, PTN_SWAP_LIST[i])
  {
    assert "xbl_config"[..3] == "xbl" && "xbl_ramdump"[..3] == "xbl";
  }

  lemma KeptPlaces(i: nat)
    requires i < 42
    ensures Kept(true, PTN_SWAP_LIST[i]) <==> 4 <= i < 41
    ensures Kept(false, PTN_SWAP_LIST[i])
  {
    NeverSkippedElsewhere(PTN_SWAP_LIST[i]);
    if 4 <= i < 41 {
      StartsFirst();
      StartsSecond();
      KeptByStart(PTN_SWAP_LIST[i]);
    } else {
      FamiliesSkipped();
    }
  }

  lemma BootLunPlaces(i: nat)
    requires i < 42
    ensures PTN_SWAP_LIST[i] in BOOT_LUN_NAMES <==> i < 4 || i == 41
  {
    if PTN_SWAP_LIST[i] in BOOT_LUN_NAMES {
      var j := if PTN_SWAP_LIST[i] == "xbl" then 0 else if PTN_SWAP_LIST[i] == "xbl_config" then 1
               else if PTN_SWAP_LIST[i] == "multiimgoem" then 2
               else if PTN_SWAP_LIST[i] == "multiimgqti" then 3 else 41;
      assert PTN_SWAP_LIST[j] == PTN_SWAP_LIST[i];
      if i < j { ListedOnce(i, j); }
      if j < i { ListedOnce(j, i); }
    }
  }

  /** After a pass over the shipped list the pair of a listed name is exchanged, with the exceptions of
      "uefisecapp", which is exchanged twice, and on UFS devices of the boot-LUN names. */
  lemma ListedPairs(ufs: bool, n: string, s: seq<Entry>)
    requires n in PTN_SWAP_LIST && HasPair(n, s)
    ensures PairIn(n, s, Swapped(ufs, PTN_SWAP_LIST, s), n != "uefisecapp" && !(ufs && n in BOOT_LUN_NAMES))
  {
    SwapListIsPlain();
    var i :| 0 <= i < |PTN_SWAP_LIST| && PTN_SWAP_LIST[i] == n;
    TimesOf(i);
    BootLunPlaces(i);
    KeptPlaces(i);
    hide Kept, Times, HasPair, First, Second, Pass, PlainName;
    PassExchangesByParity(ufs, PTN_SWAP_LIST, 42, n, s);
  }

  /** On UFS devices an entry that carries a boot-LUN name, plain or with "bak", stays where it is. */
  lemma BootLunEntriesStay(s: seq<Entry>, at: nat)
    requires at < |s|
    requires exists n :: n in BOOT_LUN_NAMES && (PartitionName(s[at]) == n || PartitionName(s[at]) == n + "bak")
    ensures Swapped(true, PTN_SWAP_LIST, s)[at] == s[at]
  {
    var n :| n in BOOT_LUN_NAMES && (PartitionName(s[at]) == n || PartitionName(s[at]) == n + "bak");
    var i := PlaceOfBootLun(n);
    SwapListIsPlain();
    BootLunPlaces(i);
    assert PlainName(PTN_SWAP_LIST[i]);
    MatchesMeans(n, s[at]);
    KeptPlaces(i);
    hide Kept, Matches, PlainName, PartitionName;
    forall m | m in PTN_SWAP_LIST && Kept(true, m) && HasPair(m, s)
      ensures at != First(m, s) && at != Second(m, s)
    {
      assert PlainName(m);
      PlainNamesAreIndependent(m, n, s[at]);
    }
    PassLeavesTheRest(true, PTN_SWAP_LIST, 42, s, at);
  }

  lemma PlaceOfBootLun(n: string) returns (i: nat)
    requires n in BOOT_LUN_NAMES
    ensures i < 42 && PTN_SWAP_LIST[i] == n && (i < 4 || i == 41)
  {
    i := if n == "xbl" then 0 else if n == "xbl_config" then 1 else if n == "multiimgoem" then 2
         else if n == "multiimgqti" then 3 else 41;
  }
}
