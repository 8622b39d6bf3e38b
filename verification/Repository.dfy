/** The ledger database as the code uses it: transactions, a cursor, the per-gateway
    repository and the service that routes to the two of them. */
module Repository {
  import opened Types
  import opened Bytes
  import opened Records
  import opened Sums
  import opened Ledger

  /** One table per gateway. */
  datatype Tables = Tables(defaultTable: Table, fallbackTable: Table) {
    function Of(g: Gateway): Table {
      if g == Default then defaultTable else fallbackTable
    }

    function With(g: Gateway, t: Table): Tables {
      if g == Default then this.(defaultTable := t) else this.(fallbackTable := t)
    }

    ghost predicate Valid(en: Endian) {
      Ordered(en, defaultTable) && Ordered(en, fallbackTable)
    }
  }

  /** What a put does to the answers, over clock-made records and a range not starting before 1970: a new record
      in range raises its own gateway's summary by one request and its amount, any other changes nothing;
      the other gateway's table stays as it is. */
  lemma RecordRaisesSummary(en: Endian, tables: Tables, g: Gateway, r: Record, from: Option<Int64>, to: Option<Int64>)
    requires tables.Valid(en) && Clocked(RecordsOf(en, tables.Of(g))) && r.at >= 0
    requires from.None? || from.value >= 0
    ensures var t, after := tables.Of(g), tables.With(g, Insert(en, tables.Of(g), Pack(en, r)));
            && after.Valid(en) && after.Of(Other(g)) == tables.Of(Other(g))
            && var before, now := ScanSummary(RecordsOf(en, t), from, to), ScanSummary(RecordsOf(en, after.Of(g)), from, to);
               if Pack(en, r) !in t && (from.Some? ==> from.value <= r.at) && (to.Some? ==> r.at <= to.value) then
                 && now.totalRequests == (before.totalRequests + 1) % 0x1_0000_0000
                 && now.totalAmount == before.totalAmount + AmountOf(r.amount)
               else now == before
  {
    InsertAddsRecord(en, tables.Of(g), r);
    TableHoldsRecord(en, tables.Of(g), r);
    ScanRaises(RecordsOf(en, tables.Of(g)), r, from, to);
    PutChangesOne(en, tables, g, Insert(en, tables.Of(g), Pack(en, r)));
  }

  lemma PutChangesOne(en: Endian, tables: Tables, g: Gateway, t: Table)
    requires tables.Valid(en) && Ordered(en, t)
    ensures tables.With(g, t).Valid(en) && tables.With(g, t).Of(g) == t
    ensures tables.With(g, t).Of(Other(g)) == tables.Of(Other(g))
  {
  }

  lemma ScanRaises(s: set<Record>, r: Record, from: Option<Int64>, to: Option<Int64>)
    requires Clocked(s) && r.at >= 0 && (from.None? || from.value >= 0)
    ensures ScanSummary(s + {r}, from, to) ==
            if r !in s && InRange(r, from, to) then Raised(ScanSummary(s, from, to), r) else ScanSummary(s, from, to)
  {
    ClockVisitedIsSelected(s, from, to);
    ClockVisitedIsSelected(s + {r}, from, to);
    RecordRaisesNaive(s, r, from, to);
  }

  /** The open database: the committed tables and LMDB's single-writer lock. */
  class Environment {
    const endian: Endian
    var tables: Tables
    var writing: bool

    constructor (endian: Endian)
      ensures this.endian == endian && tables == Tables([], []) && !writing
    {
      this.endian := endian;
      tables := Tables([], []);
      writing := false;
    }
  }

  /** A read transaction sees the tables as committed when it began; a write transaction
      also holds the writer lock and publishes its view when it ends. */
  class Transaction {
    const env: Environment
    const readOnly: bool
    var view: Tables

    constructor (env: Environment, readOnly: bool)
      requires readOnly || !env.writing
      modifies env`writing
      ensures this.env == env && this.readOnly == readOnly && view == env.tables
      ensures env.writing == (old(env.writing) || !readOnly)
    {
      this.env := env;
      this.readOnly := readOnly;
      view := env.tables;
      new;
      if !readOnly {
        env.writing := true;
      }
    }

    /** The destructor: a read transaction aborts, a write transaction commits. */
    method Finish()
      modifies env
      ensures readOnly ==> env.tables == old(env.tables) && env.writing == old(env.writing)
      ensures !readOnly ==> env.tables == view && !env.writing
    {
      if !readOnly {
        env.tables := view;
        env.writing := false;
      }
    }

    method Put(g: Gateway, e: Entry)
      requires !readOnly
      modifies this
      ensures view == old(view).With(g, Insert(env.endian, old(view).Of(g), e))
    {
      view := view.With(g, Insert(env.endian, view.Of(g), e));
    }

    method Drop(g: Gateway)
      requires !readOnly
      modifies this
      ensures view == old(view).With(g, [])
    {
      view := view.With(g, []);
    }
  }

  /** A cursor over one table of a snapshot. */
  class Cursor {
    const endian: Endian
    const rows: Table
    var position: nat

    constructor (endian: Endian, rows: Table)
      ensures this.endian == endian && this.rows == rows && position == 0
    {
      this.endian := endian;
      this.rows := rows;
      position := 0;
    }

    /** MDB_FIRST */
    method First() returns (found: bool)
      modifies this
      ensures position == 0 && found == (rows != [])
    {
      position := 0;
      found := rows != [];
    }

    /** MDB_SET_RANGE: the first entry whose key is not below the given one. */
    method SetRange(key: seq<Byte>) returns (found: bool)
      requires Ordered(endian, rows)
      modifies this
      ensures position <= |rows| && found == (position < |rows|)
      ensures forall i :: 0 <= i < |rows| ==> (Less(endian, rows[i].key, key) <==> i < position)
    {
      var lo, hi := 0, |rows|;
      while lo < hi
        invariant 0 <= lo <= hi <= |rows|
        invariant forall i :: 0 <= i < lo ==> Less(endian, rows[i].key, key)
        invariant forall i :: hi <= i < |rows| ==> !Less(endian, rows[i].key, key)
      {
        var mid := (lo + hi) / 2;
        KeysAscend(endian, rows, key, mid);
        if Less(endian, rows[mid].key, key) {
          lo := mid + 1;
        } else {
          hi := mid;
        }
      }
      position := lo;
      found := lo < |rows|;
    }

    /** MDB_NEXT */
    method Next() returns (found: bool)
      requires position < |rows|
      modifies this
      ensures position == old(position) + 1 && found == (position < |rows|)
    {
      position := position + 1;
      found := position < |rows|;
    }
  }

  lemma KeysAscend(en: Endian, t: Table, key: seq<Byte>, mid: nat)
    requires Ordered(en, t) && mid < |t|
    ensures Less(en, t[mid].key, key) ==> forall i :: 0 <= i < mid ==> Less(en, t[i].key, key)
    ensures !Less(en, t[mid].key, key) ==> forall i :: mid <= i < |t| ==> !Less(en, t[i].key, key)
  {
    forall i | 0 <= i < mid && Less(en, t[mid].key, key) ensures Less(en, t[i].key, key) {
      assert EntryLess(en, t[i], t[mid]);
      LessIsStrictTotalOrder(en, t[i].key, t[mid].key, key);
    }
    forall i | mid <= i < |t| && !Less(en, t[mid].key, key) ensures !Less(en, t[i].key, key) {
      assert i == mid || EntryLess(en, t[mid], t[i]);
      LessIsStrictTotalOrder(en, t[mid].key, t[i].key, key);
    }
  }

  lemma SoughtIffNotBelow(en: Endian, e: Entry, from: Int64)
    requires Packed(e)
    ensures Sought(Unpack(en, e), Some(from)) <==> !Less(en, e.key, StoreWord(en, Unsigned(from)))
  {
    WordRoundTrip(en, Unsigned(from), e.key);
    WordOrder(en, LoadWord(en, e.key), Unsigned(from));
  }

  /** What the loop has accumulated when it stops is the scan summary. */
  lemma StretchTotals(en: Endian, t: Table, lo: nat, hi: nat, from: Option<Int64>, to: Option<Int64>)
    requires Ordered(en, t) && Stretch(Decoded(en, t), lo, hi, from, to)
    ensures ScanSummary(RecordsOf(en, t), from, to) ==
            Summary((hi - lo) % COUNT_LIMIT, FoldRange(Decoded(en, t), lo, hi, Weight))
  {
    DecodedRecords(en, t);
    DecodedAscending(en, t);
    DecodedDistinct(en, t);
    StretchOfSummary(Decoded(en, t), lo, hi, from, to);
  }

  lemma StretchOfSummary(rs: seq<Record>, lo: nat, hi: nat, from: Option<Int64>, to: Option<Int64>)
    requires Ascending(rs) && Distinct(rs) && Stretch(rs, lo, hi, from, to)
    ensures ScanSummary(Elements(rs), from, to) == Summary((hi - lo) % COUNT_LIMIT, FoldRange(rs, lo, hi, Weight))
  {
    StretchIsVisited(rs, lo, hi, from, to);
    FoldedSummary(rs, lo, hi);
  }

  lemma FoldedSummary(rs: seq<Record>, lo: nat, hi: nat)
    requires Distinct(rs) && lo <= hi <= |rs|
    ensures SummaryOf(Elements(rs[lo..hi])) == Summary((hi - lo) % COUNT_LIMIT, FoldRange(rs, lo, hi, Weight))
  {
    FoldIsSum(rs, lo, hi, Weight);
  }

  lemma LoopAnswers(en: Endian, t: Table, lo: nat, hi: nat, from: Option<Int64>, to: Option<Int64>, response: Summary)
    requires Ordered(en, t) && Stretch(Decoded(en, t), lo, hi, from, to)
    requires response == Summary((hi - lo) % COUNT_LIMIT, FoldRange(Decoded(en, t), lo, hi, Weight))
    ensures response == ScanSummary(RecordsOf(en, t), from, to)
  {
    StretchTotals(en, t, lo, hi, from, to);
  }

  /** The cursor position after the first move splits the table into skipped and sought entries. */
  lemma SeekSplits(en: Endian, t: Table, from: Option<Int64>, position: nat)
    requires Ordered(en, t) && position <= |t|
    requires from.None? ==> position == 0
    requires from.Some? ==>
               forall i :: 0 <= i < |t| ==> (Less(en, t[i].key, StoreWord(en, Unsigned(from.value))) <==> i < position)
    ensures forall i :: 0 <= i < |t| ==> (Sought(Decoded(en, t)[i], from) <==> position <= i)
  {
    forall i | 0 <= i < |t| ensures Sought(Decoded(en, t)[i], from) <==> position <= i {
      if from.Some? {
        SoughtIffNotBelow(en, t[i], from.value);
      }
    }
  }

  class PaymentRepository {
    const gateway: Gateway

    constructor (gateway: Gateway)
      ensures this.gateway == gateway
    {
      this.gateway := gateway;
    }

    method PostPayment(env: Environment, amount: Word, correlationId: CorrelationId, requestedAt: Int64)
      requires !env.writing
      modifies env
      ensures !env.writing
      ensures env.tables == old(env.tables).With(gateway,
                Insert(env.endian, old(env.tables).Of(gateway), Pack(env.endian, Record(requestedAt, amount, correlationId))))
    {
      var transaction := new Transaction(env, false);
      transaction.Put(gateway, Pack(env.endian, Record(requestedAt, amount, correlationId)));
      transaction.Finish();
    }

    method GetPaymentsSummary(transaction: Transaction, from: Option<Int64>, to: Option<Int64>)
      returns (response: Summary)
      requires transaction.view.Valid(transaction.env.endian)
      ensures response == ScanSummary(RecordsOf(transaction.env.endian, transaction.view.Of(gateway)), from, to)
    {
      var en := transaction.env.endian;
      var initialKey := StoreWord(en, Unsigned(if from.Some? then from.value else 0));
      var cursor := new Cursor(en, transaction.view.Of(gateway));
      var found: bool;
      if from.Some? {
        found := cursor.SetRange(initialKey);
      } else {
        found := cursor.First();
      }
      ghost var lo := cursor.position;
      SeekSplits(en, cursor.rows, from, lo);
      response := Accumulate(cursor, found, to, e requires Packed(e) => Unpack(en, e), Weight, Decoded(en, cursor.rows));
      LoopAnswers(en, cursor.rows, lo, cursor.position, from, to, response);
    }

    /** The loop: count and add until the table ends or a time is later than `to`.
        `read` and `amount` are the casts that give an entry its fields; rs is what they read. */
    static method Accumulate(cursor: Cursor, start: bool, to: Option<Int64>,
                             read: Entry --> Record, amount: Record -> real, ghost rs: seq<Record>)
      returns (response: Summary)
      requires |rs| == |cursor.rows|
      requires forall i :: 0 <= i < |rs| ==> read.requires(cursor.rows[i]) && read(cursor.rows[i]) == rs[i]
      requires cursor.position <= |rs| && start == (cursor.position < |rs|)
      modifies cursor
      ensures old(cursor.position) <= cursor.position <= |rs|
      ensures forall i :: old(cursor.position) <= i < cursor.position ==> to.Some? ==> rs[i].at <= to.value
      ensures cursor.position < |rs| ==> to.Some? && rs[cursor.position].at > to.value
      ensures response.totalRequests == (cursor.position - old(cursor.position)) % COUNT_LIMIT
      ensures response.totalAmount == FoldRange(rs, old(cursor.position), cursor.position, amount)
    {
      var totalRequests, totalAmount, found := 0, 0.0, start;
      ghost var lo := cursor.position;
      while found
        invariant lo <= cursor.position <= |rs| && found == (cursor.position < |rs|)
        invariant forall i :: lo <= i < cursor.position ==> to.Some? ==> rs[i].at <= to.value
        invariant totalRequests == (cursor.position - lo) % COUNT_LIMIT
        invariant totalAmount == FoldRange(rs, lo, cursor.position, amount)
        decreases |rs| - cursor.position
      {
        var record := read(cursor.rows[cursor.position]);
        if to.Some? && record.at > to.value {
          break;
        }
        WrappedSum(cursor.position - lo, 1);
        totalRequests := (totalRequests + 1) % COUNT_LIMIT;
        totalAmount := totalAmount + amount(record);
        found := cursor.Next();
      }
      response := Summary(totalRequests, totalAmount);
    }

    method Purge(env: Environment)
      requires !env.writing
      modifies env
      ensures !env.writing && env.tables == old(env.tables).With(gateway, [])
    {
      var transaction := new Transaction(env, false);
      transaction.Drop(gateway);
      transaction.Finish();
    }
  }

  class PaymentService {
    const defaultRepository: PaymentRepository
    const fallbackRepository: PaymentRepository

    ghost predicate Valid() {
      defaultRepository.gateway == Default && fallbackRepository.gateway == Fallback
    }

    constructor ()
      ensures Valid()
    {
      defaultRepository := new PaymentRepository(Default);
      fallbackRepository := new PaymentRepository(Fallback);
    }

    method PostPayment(env: Environment, gateway: Gateway, amount: Word, correlationId: CorrelationId, requestedAt: Int64)
      requires Valid() && !env.writing && env.tables.Valid(env.endian)
      modifies env
      ensures !env.writing && env.tables.Valid(env.endian)
      ensures RecordsOf(env.endian, env.tables.Of(gateway)) ==
              RecordsOf(env.endian, old(env.tables).Of(gateway)) + {Record(requestedAt, amount, correlationId)}
      ensures env.tables.Of(Other(gateway)) == old(env.tables).Of(Other(gateway))
    {
      InsertAddsRecord(env.endian, env.tables.Of(gateway), Record(requestedAt, amount, correlationId));
      var repository := if gateway == Default then defaultRepository else fallbackRepository;
      repository.PostPayment(env, amount, correlationId, requestedAt);
    }

    /** Both halves are read from one snapshot. */
    method GetPaymentsSummary(env: Environment, from: Option<Int64>, to: Option<Int64>)
      returns (onDefault: Summary, onFallback: Summary)
      requires Valid() && env.tables.Valid(env.endian)
      modifies env
      ensures env.tables == old(env.tables) && env.writing == old(env.writing)
      ensures onDefault == ScanSummary(RecordsOf(env.endian, env.tables.defaultTable), from, to)
      ensures onFallback == ScanSummary(RecordsOf(env.endian, env.tables.fallbackTable), from, to)
    {
      var transaction := new Transaction(env, true);
      onDefault := defaultRepository.GetPaymentsSummary(transaction, from, to);
      onFallback := fallbackRepository.GetPaymentsSummary(transaction, from, to);
      transaction.Finish();
    }

    /** Two write transactions, one per gateway. */
    method Purge(env: Environment)
      requires Valid() && !env.writing
      modifies env
      ensures !env.writing && env.tables == Tables([], [])
    {
      defaultRepository.Purge(env);
      fallbackRepository.Purge(env);
    }
  }
}
