/** One gateway's table of packed records, and what a range summary of it means. */
module Ledger {
  import opened Types
  import opened Bytes
  import opened Records
  import opened Sums

  // ---------- The table ----------

  type Table = seq<Entry>

  /** Packed entries in strictly increasing order, so no pair is stored twice. */
  ghost predicate Ordered(en: Endian, t: Table) {
    && (forall i :: 0 <= i < |t| ==> Packed(t[i]))
    && (forall i, j :: 0 <= i < j < |t| ==> EntryLess(en, t[i], t[j]))
  }

  /** The effect of mdb_put without flags on a table of sorted duplicates. */
  function Insert(en: Endian, t: Table, x: Entry): Table {
    if t == [] then [x]
    else if t[0] == x then t
    else if EntryLess(en, x, t[0]) then [x] + t
    else [t[0]] + Insert(en, t[1..], x)
  }

  lemma {:induction false} InsertHolds(en: Endian, t: Table, x: Entry, e: Entry)
    ensures e in Insert(en, t, x) <==> e in t || e == x
  {
    if t != [] && t[0] != x && !EntryLess(en, x, t[0]) {
      InsertHolds(en, t[1..], x, e);
      assert t == [t[0]] + t[1..];
    }
  }

  lemma {:induction false} InsertKeepsOrder(en: Endian, t: Table, x: Entry)
    requires Ordered(en, t) && Packed(x)
    ensures Ordered(en, Insert(en, t, x))
  {
    if t == [] || t[0] == x {
    } else if EntryLess(en, x, t[0]) {
      forall j | 1 <= j < |t| ensures EntryLess(en, x, t[j]) {
        EntryLessIsStrictTotalOrder(en, x, t[0], t[j]);
      }
    } else {
      InsertKeepsOrder(en, t[1..], x);
      EntryLessIsStrictTotalOrder(en, x, t[0], x);
      var rest := Insert(en, t[1..], x);
      forall j | 0 <= j < |rest| ensures EntryLess(en, t[0], rest[j]) {
        InsertHolds(en, t[1..], x, rest[j]);
      }
    }
  }

  /** The records of a table in cursor order. */
  function Decoded(en: Endian, t: Table): (rs: seq<Record>)
    requires forall i :: 0 <= i < |t| ==> Packed(t[i])
    ensures |rs| == |t|
  {
    seq(|t|, i requires 0 <= i < |t| => Unpack(en, t[i]))
  }

  function RecordsOf(en: Endian, t: Table): set<Record> {
    set e | e in t && Packed(e) :: Unpack(en, e)
  }

  lemma DecodedRecords(en: Endian, t: Table)
    requires Ordered(en, t)
    ensures RecordsOf(en, t) == Elements(Decoded(en, t))
  {
    var rs := Decoded(en, t);
    forall i | 0 <= i < |rs| ensures rs[i] in RecordsOf(en, t) {
      assert t[i] in t;
    }
    forall r | r in RecordsOf(en, t) ensures r in rs {
      var e :| e in t && Packed(e) && Unpack(en, e) == r;
      var i :| 0 <= i < |t| && t[i] == e;
      assert rs[i] == r;
    }
  }

  lemma TableHoldsRecord(en: Endian, t: Table, r: Record)
    ensures r in RecordsOf(en, t) <==> Pack(en, r) in t
  {
    if r in RecordsOf(en, t) {
      var e :| e in t && Packed(e) && Unpack(en, e) == r;
      PackRoundTrip(en, r, e);
    }
    if Pack(en, r) in t {
      PackRoundTrip(en, r, Pack(en, r));
    }
  }

  /** Storing a record keeps the table ordered and adds exactly that record. */
  lemma InsertAddsRecord(en: Endian, t: Table, r: Record)
    requires Ordered(en, t)
    ensures Ordered(en, Insert(en, t, Pack(en, r)))
    ensures RecordsOf(en, Insert(en, t, Pack(en, r))) == RecordsOf(en, t) + {r}
  {
    var t' := Insert(en, t, Pack(en, r));
    InsertKeepsOrder(en, t, Pack(en, r));
    forall q ensures q in RecordsOf(en, t') <==> q in RecordsOf(en, t) + {r} {
      TableHoldsRecord(en, t, q);
      TableHoldsRecord(en, t', q);
      InsertHolds(en, t, Pack(en, r), Pack(en, q));
      PackRoundTrip(en, q, Pack(en, r));
      PackRoundTrip(en, r, Pack(en, r));
    }
  }

  /** An ordered table is determined by the records it holds: insertion order leaves no trace. */
  lemma TableIsCanonical(en: Endian, t: Table, u: Table)
    requires Ordered(en, t) && Ordered(en, u) && RecordsOf(en, t) == RecordsOf(en, u)
    ensures t == u
  {
    forall e ensures e in t <==> e in u {
      if Packed(e) {
        var r := Unpack(en, e);
        PackRoundTrip(en, r, e);
        TableHoldsRecord(en, t, r);
        TableHoldsRecord(en, u, r);
      }
    }
    SameEntriesSameTable(en, t, u);
  }

  lemma HeadIsUnique(en: Endian, t: Table, e: Entry)
    requires Ordered(en, t) && t != []
    ensures e in t[1..] <==> e in t && e != t[0]
  {
    assert t == [t[0]] + t[1..];
    EntryLessIsStrictTotalOrder(en, e, t[0], e);
  }

  lemma {:induction false} SameEntriesSameTable(en: Endian, t: Table, u: Table)
    requires Ordered(en, t) && Ordered(en, u)
    requires forall e :: e in t <==> e in u
    ensures t == u
  {
    if t != [] {
      assert t[0] in u;
    }
    if u != [] {
      assert u[0] in t;
    }
    if t != [] && u != [] {
      assert t[0] in u && u[0] in t;
      EntryLessIsStrictTotalOrder(en, t[0], u[0], t[0]);
      assert t[0] == u[0];
      forall e ensures e in t[1..] <==> e in u[1..] {
        HeadIsUnique(en, t, e);
        HeadIsUnique(en, u, e);
      }
      SameEntriesSameTable(en, t[1..], u[1..]);
      assert t == [t[0]] + t[1..] && u == [u[0]] + u[1..];
    }
  }

  // ---------- Summaries ----------

  const COUNT_LIMIT: nat := 0x1_0000_0000

  /** The request counter is a 32-bit unsigned integer. */
  datatype Summary = Summary(totalRequests: nat, totalAmount: real)

  /** A record's contribution to a total. */
  function Weight(r: Record): real {
    AmountOf(r.amount)
  }

  ghost function SummaryOf(s: set<Record>): Summary {
    Summary(|s| % COUNT_LIMIT, SumBy(s, Weight))
  }

  /** The records a summary request asks for. */
  predicate InRange(r: Record, from: Option<Int64>, to: Option<Int64>) {
    && (from.Some? ==> from.value <= r.at)
    && (to.Some? ==> r.at <= to.value)
  }

  function Selected(s: set<Record>, from: Option<Int64>, to: Option<Int64>): set<Record> {
    set r | r in s && InRange(r, from, to)
  }

  /** A seek on the raw key of `from` does not skip the record. */
  predicate Sought(r: Record, from: Option<Int64>) {
    from.Some? ==> Unsigned(from.value) <= Unsigned(r.at)
  }

  /** The records the cursor visits: from the sought key on, in key order, up to the first one later than `to`. */
  function Visited(s: set<Record>, from: Option<Int64>, to: Option<Int64>): set<Record> {
    set r | r in s && Sought(r, from) &&
      (to.Some? ==> forall x :: x in s && Sought(x, from) && Unsigned(x.at) <= Unsigned(r.at) ==> x.at <= to.value)
  }

  ghost function ScanSummary(s: set<Record>, from: Option<Int64>, to: Option<Int64>): Summary {
    SummaryOf(Visited(s, from, to))
  }

  ghost function NaiveSummary(s: set<Record>, from: Option<Int64>, to: Option<Int64>): Summary {
    SummaryOf(Selected(s, from, to))
  }

  /** Every time was read from a clock after 1970. */
  ghost predicate Clocked(s: set<Record>) {
    forall r :: r in s ==> r.at >= 0
  }

  const TIME_MIN: Int64 := -0x8000_0000_0000_0000
  const TIME_MAX: Int64 := 0x7FFF_FFFF_FFFF_FFFF

  /** The early stop loses nothing and the seek skips nothing it should keep. */
  lemma ClockVisitedIsSelected(s: set<Record>, from: Option<Int64>, to: Option<Int64>)
    requires Clocked(s)
    requires from.None? || from.value >= 0 || (to.Some? && to.value < 0)
    ensures Visited(s, from, to) == Selected(s, from, to)
  {
    forall r | r in s ensures r in Visited(s, from, to) <==> r in Selected(s, from, to) {
      assert Unsigned(r.at) <= Unsigned(r.at);
    }
  }

  lemma MissedAtZero(from: Option<Int64>, to: Option<Int64>)
    requires from.Some? && from.value < 0 && (to.None? || to.value >= 0)
    ensures ScanSummary({Record(0, 0, ZeroId())}, from, to) != NaiveSummary({Record(0, 0, ZeroId())}, from, to)
  {
    var r := Record(0, 0, ZeroId());
    assert Visited({r}, from, to) == {};
    assert Selected({r}, from, to) == {r};
  }

  /** Over clock-generated keys the scan answers a range correctly for every ledger
      exactly when `from` is absent or not before 1970, or `to` is before 1970. */
  lemma ClockSummaryExactIff(from: Option<Int64>, to: Option<Int64>)
    ensures (forall s: set<Record> :: Clocked(s) ==> ScanSummary(s, from, to) == NaiveSummary(s, from, to))
       <==> from.None? || from.value >= 0 || (to.Some? && to.value < 0)
  {
    if from.None? || from.value >= 0 || (to.Some? && to.value < 0) {
      forall s: set<Record> | Clocked(s) ensures ScanSummary(s, from, to) == NaiveSummary(s, from, to) {
        ClockVisitedIsSelected(s, from, to);
      }
    } else {
      MissedAtZero(from, to);
      assert Clocked({Record(0, 0, ZeroId())});
    }
  }

  predicate SafeForAnyKeys(from: Option<Int64>, to: Option<Int64>) {
    if from.None? then to.None? || to.value == TIME_MAX
    else from.value < 0 && to.Some? && to.value < 0
  }

  lemma SafeVisitedIsSelected(s: set<Record>, from: Option<Int64>, to: Option<Int64>)
    requires SafeForAnyKeys(from, to)
    ensures Visited(s, from, to) == Selected(s, from, to)
  {
    forall r | r in s ensures r in Visited(s, from, to) <==> r in Selected(s, from, to) {
      assert Unsigned(r.at) <= Unsigned(r.at);
    }
  }

  /** With keys on both sides of 1970 the scan is right for every ledger only on these ranges:
      everything, everything up to the last representable time, and ranges wholly before 1970. */
  lemma AnySummaryExactIff(from: Option<Int64>, to: Option<Int64>)
    ensures (forall s: set<Record> :: ScanSummary(s, from, to) == NaiveSummary(s, from, to)) <==> SafeForAnyKeys(from, to)
  {
    if SafeForAnyKeys(from, to) {
      forall s: set<Record> ensures ScanSummary(s, from, to) == NaiveSummary(s, from, to) {
        SafeVisitedIsSelected(s, from, to);
      }
    } else {
      var first, last := Record(TIME_MIN, 0, ZeroId()), Record(TIME_MAX, 0, ZeroId());
      if from.None? {
        assert Visited({first, last}, from, to) == {} by {
          assert Unsigned(last.at) <= Unsigned(first.at) && last in {first, last};
        }
        assert Selected({first, last}, from, to) == {first};
        assert ScanSummary({first, last}, from, to) != NaiveSummary({first, last}, from, to);
      } else if from.value >= 0 {
        assert Visited({first}, from, to) == {first};
        assert Selected({first}, from, to) == {};
        assert ScanSummary({first}, from, to) != NaiveSummary({first}, from, to);
      } else {
        MissedAtZero(from, to);
      }
    }
  }

  lemma WrappedSum(a: nat, b: nat)
    ensures (a + b) % COUNT_LIMIT == (a % COUNT_LIMIT + b % COUNT_LIMIT) % COUNT_LIMIT
  {
    var q, r := a / COUNT_LIMIT, b / COUNT_LIMIT;
    assert a + b == a % COUNT_LIMIT + b % COUNT_LIMIT + (q + r) * COUNT_LIMIT;
  }

  /** The whole is the two parts together, on the 32-bit counter and in exact arithmetic. */
  predicate AddUp(left: Summary, right: Summary, whole: Summary) {
    && whole.totalRequests == (left.totalRequests + right.totalRequests) % COUNT_LIMIT
    && whole.totalAmount == left.totalAmount + right.totalAmount
  }

  lemma DisjointSummary(a: set<Record>, b: set<Record>)
    requires a !! b
    ensures AddUp(SummaryOf(a), SummaryOf(b), SummaryOf(a + b))
  {
    SumDisjoint(a, b, Weight);
    assert |a + b| == |a| + |b|;
    WrappedSum(|a|, |b|);
  }

  lemma SingleSummary(r: Record)
    ensures SummaryOf({r}) == Summary(1, Weight(r))
  {
    SumInsert({}, Weight, r);
    assert {} + {r} == {r};
  }

  /** Filter and sum: a new record in range adds one request and its amount; any other changes nothing. */
  lemma RecordRaisesNaive(s: set<Record>, r: Record, from: Option<Int64>, to: Option<Int64>)
    ensures NaiveSummary(s + {r}, from, to) ==
            if r !in s && InRange(r, from, to) then Raised(NaiveSummary(s, from, to), r) else NaiveSummary(s, from, to)
  {
    var a := Selected(s, from, to);
    if r !in s && InRange(r, from, to) {
      assert Selected(s + {r}, from, to) == a + {r};
      DisjointSummary(a, {r});
      SingleSummary(r);
    } else {
      assert Selected(s + {r}, from, to) == a;
    }
  }

  /** One request more, on the 32-bit counter, and the amount of r more. */
  function Raised(summary: Summary, r: Record): Summary {
    Summary((summary.totalRequests + 1) % COUNT_LIMIT, summary.totalAmount + Weight(r))
  }

  lemma SelectedSplits(s: set<Record>, from: Option<Int64>, mid: Int64, to: Option<Int64>)
    requires Adjacent(from, mid, to)
    ensures var a, b := Selected(s, from, Some(mid)), Selected(s, Some(mid + 1), to);
            a !! b && Selected(s, from, to) == a + b
  {
    var a, b := Selected(s, from, Some(mid)), Selected(s, Some(mid + 1), to);
    forall r | r in s ensures InRange(r, from, to) <==> InRange(r, from, Some(mid)) || InRange(r, Some(mid + 1), to) {
    }
    assert forall r :: r in Selected(s, from, to) <==> r in a + b;
  }

  /** Filters over adjacent ranges take the set apart. */
  lemma AdjacentNaiveAddUp(s: set<Record>, from: Option<Int64>, mid: Int64, to: Option<Int64>)
    requires Adjacent(from, mid, to)
    ensures AddUp(NaiveSummary(s, from, Some(mid)), NaiveSummary(s, Some(mid + 1), to), NaiveSummary(s, from, to))
  {
    SelectedSplits(s, from, mid, to);
    DisjointSummary(Selected(s, from, Some(mid)), Selected(s, Some(mid + 1), to));
  }

  /** The range is cut after mid. */
  predicate Adjacent(from: Option<Int64>, mid: Int64, to: Option<Int64>) {
    mid < TIME_MAX && (from.Some? ==> from.value <= mid + 1) && (to.Some? ==> mid <= to.value)
  }

  ghost predicate ScansAddUp(s: set<Record>, from: Option<Int64>, mid: Int64, to: Option<Int64>)
    requires Adjacent(from, mid, to)
  {
    AddUp(ScanSummary(s, from, Some(mid)), ScanSummary(s, Some(mid + 1), to), ScanSummary(s, from, to))
  }

  /** Neither scan starts before 1970, or all three scans are empty. */
  predicate CutIsHarmless(from: Option<Int64>, mid: Int64, to: Option<Int64>) {
    || (to.Some? && to.value < 0)
    || (if from.None? || from.value >= 0 then mid >= -1 else mid < -1 || to == Some(mid))
  }

  /** A scan that starts or ends before 1970, or ends before it starts, finds nothing made by a clock. */
  lemma EmptyScan(s: set<Record>, from: Option<Int64>, to: Option<Int64>)
    requires Clocked(s)
    requires (from.Some? && from.value < 0) || (to.Some? && (to.value < 0 || (from.Some? && to.value < from.value)))
    ensures Visited(s, from, to) == {}
  {
    forall r | r in s ensures r !in Visited(s, from, to) {
      assert Unsigned(r.at) <= Unsigned(r.at);
    }
  }

  lemma HarmlessCutAddsUp(s: set<Record>, from: Option<Int64>, mid: Int64, to: Option<Int64>)
    requires Clocked(s) && Adjacent(from, mid, to) && CutIsHarmless(from, mid, to)
    ensures ScansAddUp(s, from, mid, to)
  {
    AdjacentNaiveAddUp(s, from, mid, to);
    if (from.None? || from.value >= 0) && mid >= -1 {
      ClockVisitedIsSelected(s, from, Some(mid));
      ClockVisitedIsSelected(s, Some(mid + 1), to);
      ClockVisitedIsSelected(s, from, to);
    } else {
      EmptyScan(s, from, Some(mid));
      EmptyScan(s, Some(mid + 1), to);
      EmptyScan(s, from, to);
    }
  }

  /** Over clock-generated keys the scans of adjacent ranges add up, in exact arithmetic and for every ledger,
      exactly when the cut is harmless: it always is when the ranges do not start before 1970. */
  lemma AdjacentScansAddUpIff(from: Option<Int64>, mid: Int64, to: Option<Int64>)
    requires Adjacent(from, mid, to)
    ensures (forall s: set<Record> :: Clocked(s) ==> ScansAddUp(s, from, mid, to)) <==> CutIsHarmless(from, mid, to)
  {
    if CutIsHarmless(from, mid, to) {
      forall s: set<Record> | Clocked(s) ensures ScansAddUp(s, from, mid, to) {
        HarmlessCutAddsUp(s, from, mid, to);
      }
    } else {
      var r := Record(if mid >= -1 then mid + 1 else 0, 0, ZeroId());
      assert Clocked({r});
      if mid >= -1 {
        EmptyScan({r}, from, Some(mid));
        EmptyScan({r}, from, to);
        ClockVisitedIsSelected({r}, Some(mid + 1), to);
        assert Selected({r}, Some(mid + 1), to) == {r};
      } else {
        EmptyScan({r}, from, Some(mid));
        EmptyScan({r}, Some(mid + 1), to);
        ClockVisitedIsSelected({r}, from, to);
        assert Selected({r}, from, to) == {r};
      }
      assert !ScansAddUp({r}, from, mid, to);
    }
  }

  // ---------- The scan as a loop over the table ----------

  lemma DecodedDistinct(en: Endian, t: Table)
    requires Ordered(en, t)
    ensures Distinct(Decoded(en, t))
  {
    forall i, j | 0 <= i < j < |t| ensures Decoded(en, t)[i] != Decoded(en, t)[j] {
      EntryLessIsStrictTotalOrder(en, t[i], t[j], t[i]);
      PackRoundTrip(en, Unpack(en, t[i]), t[i]);
      PackRoundTrip(en, Unpack(en, t[j]), t[j]);
    }
  }

  /** Times along the table never decrease as unsigned numbers. */
  ghost predicate Ascending(rs: seq<Record>) {
    forall i, j :: 0 <= i < j < |rs| ==> Unsigned(rs[i].at) <= Unsigned(rs[j].at)
  }

  lemma DecodedAscending(en: Endian, t: Table)
    requires Ordered(en, t)
    ensures Ascending(Decoded(en, t))
  {
    forall i, j | 0 <= i < j < |t| ensures Unsigned(Decoded(en, t)[i].at) <= Unsigned(Decoded(en, t)[j].at) {
      EntryOrderIsTimeOrder(en, t[i], t[j]);
    }
  }

  /** The positions lo to hi are where a scan goes: sought from lo on, not past `to` before hi, past it at hi. */
  ghost predicate Stretch(rs: seq<Record>, lo: nat, hi: nat, from: Option<Int64>, to: Option<Int64>) {
    && lo <= hi <= |rs|
    && (forall i :: 0 <= i < |rs| ==> (Sought(rs[i], from) <==> lo <= i))
    && (forall i :: lo <= i < hi ==> to.Some? ==> rs[i].at <= to.value)
    && (hi < |rs| ==> to.Some? && rs[hi].at > to.value)
  }

  lemma PositionVisitedIff(rs: seq<Record>, lo: nat, hi: nat, from: Option<Int64>, to: Option<Int64>, i: nat)
    requires Ascending(rs) && Stretch(rs, lo, hi, from, to) && i < |rs|
    ensures rs[i] in Visited(Elements(rs), from, to) <==> lo <= i < hi
  {
    if hi <= i {
      assert rs[hi] in Elements(rs) && Unsigned(rs[hi].at) <= Unsigned(rs[i].at);
    } else if lo <= i {
      forall x | x in Elements(rs) && Sought(x, from) && Unsigned(x.at) <= Unsigned(rs[i].at)
        ensures to.Some? ==> x.at <= to.value
      {
        var k :| 0 <= k < |rs| && rs[k] == x;
        if hi <= k {
          assert Unsigned(rs[i].at) <= Unsigned(rs[k].at);
        }
      }
    }
  }

  /** The records at those positions are exactly the visited ones. */
  lemma StretchIsVisited(rs: seq<Record>, lo: nat, hi: nat, from: Option<Int64>, to: Option<Int64>)
    requires Ascending(rs) && Stretch(rs, lo, hi, from, to)
    ensures Visited(Elements(rs), from, to) == Elements(rs[lo..hi])
  {
    forall i | 0 <= i < |rs| ensures rs[i] in Visited(Elements(rs), from, to) <==> lo <= i < hi {
      PositionVisitedIff(rs, lo, hi, from, to, i);
    }
    ElementsOfStretch(rs, lo, hi, Visited(Elements(rs), from, to));
  }
}
