/** How the system status records one kind of item: a short vector of the last reports, fed by reports
    that may be ignored, merged with the newest entry, or found to be no news. */
module StatusHistory {
  const MAX_ITEM := 5

  /** What an item type says for itself. collate(s, newest) is the report s merged with the newest entry;
      stamp(e, s) is e with the reporting time of s. */
  datatype Kind<!T> = Kind(ignore: T -> bool, equals: (T, T) -> bool, collate: (T, T) -> T, stamp: (T, T) -> T)

  datatype Op<T> = Report(item: T) | Default(item: T)

  /** What is recorded, if nothing were ever forgotten. reported tells whether a report brought it in. */
  datatype Entry<T> = Entry(item: T, reported: bool)

  function Record<T>(k: Kind<T>, all: seq<Entry<T>>, op: Op<T>): seq<Entry<T>> {
    match op
    case Default(s) => all + [Entry(s, false)]
    case Report(s) =>
      if k.ignore(s) then all
      else if all == [] then [Entry(s, true)]
      else
        var newest := all[|all| - 1];
        var c := k.collate(s, newest.item);
        if k.equals(newest.item, c) then all[|all| - 1 := newest.(item := k.stamp(newest.item, c))]
        else all + [Entry(c, true)]
  }

  function RecordAll<T>(k: Kind<T>, all: seq<Entry<T>>, ops: seq<Op<T>>): seq<Entry<T>> {
    if ops == [] then all else Record(k, RecordAll(k, all, ops[..|ops| - 1]), ops[|ops| - 1])
  }

  function FullHistory<T>(k: Kind<T>, ops: seq<Op<T>>): seq<Entry<T>> {
    RecordAll(k, [], ops)
  }

  lemma {:induction false} RecordAllConcat<T>(k: Kind<T>, all: seq<Entry<T>>, a: seq<Op<T>>, b: seq<Op<T>>)
    ensures RecordAll(k, all, a + b) == RecordAll(k, RecordAll(k, all, a), b)
  {
    hide Record;
    if b == [] {
      assert a + b == a;
    } else {
      RecordAllConcat(k, all, a, b[..|b| - 1]);
      assert (a + b)[..|a + b| - 1] == a + b[..|b| - 1];
    }
  }

  function Items<T>(all: seq<Entry<T>>): seq<T> {
    seq(|all|, i requires 0 <= i < |all| => all[i].item)
  }

  function LastOf<T>(s: seq<T>, n: nat): seq<T> {
    if |s| <= n then s else s[|s| - n..]
  }

  /** The end of a sequence, of no more than n elements and no fewer if there are so many. */
  lemma LastOfMeans<T>(s: seq<T>, n: nat)
    ensures var r := LastOf(s, n); |r| <= |s| && r == s[|s| - |r|..] && |r| <= n && (|r| < n ==> r == s)
  {
  }

  /** The reporting time plays no part in telling items apart. */
  ghost predicate StampIsNoNews<T(!new)>(k: Kind<T>) {
    forall a, b, s :: k.equals(a, k.stamp(b, s)) == k.equals(a, b)
  }

  /** Whether a call adds an entry, which is what the call reports. */
  predicate Grows<T>(k: Kind<T>, all: seq<Entry<T>>, op: Op<T>) {
    op.Default?
    || (!k.ignore(op.item)
        && (all == [] || !k.equals(all[|all| - 1].item, k.collate(op.item, all[|all| - 1].item))))
  }

  /** Nothing recorded is ever touched but the newest entry, and that only in its reporting time; a call
      adds at most one entry: a default as it is, a report merged with the newest entry if there is one. */
  lemma RecordKeepsThePast<T>(k: Kind<T>, all: seq<Entry<T>>, op: Op<T>)
    ensures var after := Record(k, all, op);
            && |after| == |all| + (if Grows(k, all, op) then 1 else 0)
            && (op.Default? ==> Grows(k, all, op))
            && (op.Report? && all == [] ==> (Grows(k, all, op) <==> !k.ignore(op.item)))
            && (op.Report? && all != [] ==>
                  (Grows(k, all, op) <==>
                    !k.ignore(op.item) && !k.equals(all[|all| - 1].item, k.collate(op.item, all[|all| - 1].item))))
            && (Grows(k, all, op) ==>
                  after[|all|] == Entry(if op.Default? || all == [] then op.item
                                        else k.collate(op.item, all[|all| - 1].item), op.Report?))
            && (forall i :: 0 <= i < |all| - 1 ==> after[i] == all[i])
            && (all != [] ==> after[|all| - 1] == all[|all| - 1]
                              || (!Grows(k, all, op) && op.Report?
                                  && after[|all| - 1].item
                                  == k.stamp(all[|all| - 1].item, k.collate(op.item, all[|all| - 1].item))))
  {
  }

  /** The calls that are not reports to be ignored. */
  function Heeded<T>(k: Kind<T>, ops: seq<Op<T>>): seq<Op<T>> {
    if ops == [] then []
    else
      var op := ops[|ops| - 1];
      if op.Report? && k.ignore(op.item) then Heeded(k, ops[..|ops| - 1]) else Heeded(k, ops[..|ops| - 1]) + [op]
  }

  /** Reports that are ignored leave no trace in any run: it records what the other calls alone would. */
  lemma {:induction false} IgnoredLeavesNoTrace<T>(k: Kind<T>, all: seq<Entry<T>>, ops: seq<Op<T>>)
    ensures RecordAll(k, all, ops) == RecordAll(k, all, Heeded(k, ops))
    ensures forall op :: op in Heeded(k, ops) ==> op.Default? || !k.ignore(op.item)
  {
    if ops != [] {
      var front, op := ops[..|ops| - 1], ops[|ops| - 1];
      IgnoredLeavesNoTrace(k, all, front);
      assert (Heeded(k, front) + [op])[..|Heeded(k, front)|] == Heeded(k, front);
    }
  }

  ghost predicate Telling<T(!new)>(k: Kind<T>, all: seq<Entry<T>>) {
    forall i :: 0 < i < |all| && all[i].reported ==> !k.equals(all[i - 1].item, all[i].item)
  }

  /** In every run, an entry brought in by a report differs from the entry before it. */
  lemma {:induction false} NeighboursDiffer<T(!new)>(k: Kind<T>, ops: seq<Op<T>>)
    requires StampIsNoNews(k)
    ensures Telling(k, FullHistory(k, ops))
  {
    if ops != [] {
      hide StampIsNoNews, Telling;
      NeighboursDiffer(k, ops[..|ops| - 1]);
      RecordKeepsTelling(k, FullHistory(k, ops[..|ops| - 1]), ops[|ops| - 1]);
    }
  }

  lemma RecordKeepsTelling<T(!new)>(k: Kind<T>, all: seq<Entry<T>>, op: Op<T>)
    requires StampIsNoNews(k) && Telling(k, all)
    ensures Telling(k, Record(k, all, op))
  {
  }

  /** One call on the items alone, and with only the last few of them at hand. */
  function RecordItems<T>(k: Kind<T>, items: seq<T>, op: Op<T>): seq<T> {
    match op
    case Default(s) => items + [s]
    case Report(s) =>
      if k.ignore(s) then items
      else if items == [] then [s]
      else
        var c := k.collate(s, items[|items| - 1]);
        if k.equals(items[|items| - 1], c) then items[|items| - 1 := k.stamp(items[|items| - 1], c)] else items + [c]
  }

  lemma ItemsOfRecord<T>(k: Kind<T>, all: seq<Entry<T>>, op: Op<T>)
    ensures Items(Record(k, all, op)) == RecordItems(k, Items(all), op)
  {
  }

  lemma LastOfPush<T>(items: seq<T>, x: T, n: nat)
    requires n > 0
    ensures LastOf(items + [x], n) == LastOf(LastOf(items, n) + [x], n)
  {
  }

  lemma LastOfReplace<T>(items: seq<T>, x: T, n: nat)
    requires n > 0 && items != []
    ensures LastOf(items, n) != []
    ensures LastOf(items[|items| - 1 := x], n) == LastOf(items, n)[|LastOf(items, n)| - 1 := x]
  {
  }

  /** Working on the stored end of the history alone gives the end of the whole history. */
  lemma EndSuffices<T>(k: Kind<T>, items: seq<T>, op: Op<T>, n: nat)
    requires n > 0
    ensures LastOf(RecordItems(k, items, op), n) == LastOf(RecordItems(k, LastOf(items, n), op), n)
  {
    hide LastOf;
    assert items == [] <==> LastOf(items, n) == [] by { EndHasNewest(items, n); }
    EndHasNewest(items, n);
    var stored := LastOf(items, n);
    LastOfIdempotent(items, n);
    match op
    case Default(s) => LastOfPush(items, s, n);
    case Report(s) =>
      if !k.ignore(s) && items != [] {
        var newest := items[|items| - 1];
        var c := k.collate(s, newest);
        LastOfPush(items, c, n);
        LastOfReplace(items, k.stamp(newest, c), n);
        LastOfReplace(stored, k.stamp(newest, c), n);
      }
  }

  lemma EndHasNewest<T>(items: seq<T>, n: nat)
    requires n > 0
    ensures items == [] <==> LastOf(items, n) == []
    ensures items != [] ==> LastOf(items, n)[|LastOf(items, n)| - 1] == items[|items| - 1]
  {
  }

  lemma ShortIsWhole<T>(items: seq<T>, n: nat)
    requires |items| <= n
    ensures LastOf(items, n) == items
  {
  }

  lemma LastOfIdempotent<T>(items: seq<T>, n: nat)
    ensures LastOf(LastOf(items, n), n) == LastOf(items, n) && |LastOf(items, n)| <= n
  {
  }

  /** A vector of reports as the system status keeps it. */
  class ReportVector<T> {
    const kind: Kind<T>
    var report: seq<T>
    ghost var ops: seq<Op<T>>

    /** What is stored is the end of the full history of the calls so far. */
    ghost predicate Valid()
      reads this
    {
      report == LastOf(Items(FullHistory(kind, ops)), MAX_ITEM)
    }

    constructor (kind: Kind<T>)
      ensures Valid() && ops == [] && this.kind == kind
    {
      this.kind := kind;
      report, ops := [], [];
    }

    method SetIteminReport(s: T) returns (updated: bool)
      requires Valid()
      modifies this
      ensures Valid() && ops == old(ops) + [Report(s)]
      ensures updated == Grows(kind, FullHistory(kind, old(ops)), Report(s))
    {
      hide LastOf, Items;
      Called(Report(s));
      ops := ops + [Report(s)];
      if kind.ignore(s) {
        ShortIsWhole(report, MAX_ITEM);
        return false;
      }
      if report != [] {
        var c := kind.collate(s, report[|report| - 1]);
        if kind.equals(report[|report| - 1], c) {
          report := report[|report| - 1 := kind.stamp(report[|report| - 1], c)];
          ShortIsWhole(report, MAX_ITEM);
          return false;
        }
        Push(c);
      } else {
        assert report + [s] == [s];
        Push(s);
      }
      updated := true;
    }

    method SetDefaultIteminReport(s: T)
      requires Valid()
      modifies this
      ensures Valid() && ops == old(ops) + [Default(s)]
    {
      Called(Default(s));
      ops := ops + [Default(s)];
      Push(s);
    }

    /** What a call leaves as the end of the history, and whether it grows, seen from the stored end. */
    lemma Called(op: Op<T>)
      requires Valid()
      ensures |report| <= MAX_ITEM
      ensures LastOf(Items(FullHistory(kind, ops + [op])), MAX_ITEM) == LastOf(RecordItems(kind, report, op), MAX_ITEM)
      ensures var all := FullHistory(kind, ops);
              (all == [] <==> report == []) && (all != [] ==> all[|all| - 1].item == report[|report| - 1])
    {
      var all := FullHistory(kind, ops);
      assert (ops + [op])[..|ops|] == ops;
      hide RecordItems, Record;
      ItemsOfRecord(kind, all, op);
      EndSuffices(kind, Items(all), op, MAX_ITEM);
      EndHasNewest(Items(all), MAX_ITEM);
    }

    method Push(s: T)
      requires |report| <= MAX_ITEM
      modifies this`report
      ensures report == LastOf(old(report) + [s], MAX_ITEM)
    {
      report := report + [s];
      if |report| > MAX_ITEM {
        report := report[1..];
      }
    }

    /** The latest-only read gives the newest entry of the whole history, or nothing before the first. */
    method GetIteminReport() returns (out: seq<T>)
      requires Valid()
      ensures out == LastOf(Items(FullHistory(kind, ops)), 1)
    {
      out := [];
      if |report| >= 1 {
        out := out + [report[|report| - 1]];
      }
    }
  }
}
