/** Payments, the records kept of confirmed ones, and their packed image in the ledger. */
module Records {
  import opened Bytes

  const ID_SIZE: nat := 36
  const DATA_SIZE: nat := 44

  type CorrelationId = s: seq<Byte> | |s| == ID_SIZE witness seq(ID_SIZE, _ => 0)

  function ZeroId(): CorrelationId {
    seq(ID_SIZE, _ => 0)
  }

  /** A pending payment; the amount is the bit pattern of a double. */
  datatype Payment = Payment(amount: Word, id: CorrelationId)

  /** A confirmed payment: the time is milliseconds since 1970. */
  datatype Record = Record(at: Int64, amount: Word, id: CorrelationId)

  /** A key and its data as LMDB stores them. */
  datatype Entry = Entry(key: seq<Byte>, data: seq<Byte>)

  function PaymentOf(r: Record): Payment {
    Payment(r.amount, r.id)
  }

  /** x times two to the power n. */
  function Scaled(x: real, n: int): real
    decreases if n < 0 then -n else n
  {
    if n == 0 then x
    else if n > 0 then Scaled(2.0 * x, n - 1)
    else Scaled(x / 2.0, n + 1)
  }

  /** A number with exponent field e and fraction field m, sign apart. */
  function Magnitude(e: nat, m: nat): real {
    if e == 0 then Scaled(m as real, -1074)
    else Scaled((0x10_0000_0000_0000 + m) as real, e - 1075)
  }

  /** The exact value of a finite IEEE 754 binary64 pattern. */
  function AmountOf(bits: Word): real {
    var magnitude := Magnitude(bits / 0x10_0000_0000_0000 % 0x800, bits % 0x10_0000_0000_0000);
    if bits < 0x8000_0000_0000_0000 then magnitude else -magnitude
  }

  function Pow2(n: nat): (p: real)
    ensures p > 0.0
  {
    if n == 0 then 1.0 else 2.0 * Pow2(n - 1)
  }

  lemma {:induction false} Pow2Sum(m: nat, n: nat)
    ensures Pow2(m + n) == Pow2(m) * Pow2(n)
  {
    if m > 0 {
      Pow2Sum(m - 1, n);
      assert Pow2(m + n) == 2.0 * (Pow2(m - 1) * Pow2(n));
    }
  }

  lemma MoveTwo(a: real, x: real, p: real, q: real)
    requires a == 2.0 * x * p && q == 2.0 * p
    ensures a == x * q
  {
  }

  lemma MoveHalf(a: real, x: real, p: real, q: real)
    requires a == x / 2.0 * q && q == 2.0 * p
    ensures a == x * p
  {
  }

  /** Scaling by two to the n, cleared of its denominator. */
  lemma {:induction false} ScaledTimes(x: real, n: int, k: nat)
    requires n + k >= 0
    ensures Scaled(x, n) * Pow2(k) == x * Pow2(n + k)
    decreases if n < 0 then -n else n
  {
    if n > 0 {
      ScaledTimes(2.0 * x, n - 1, k);
      MoveTwo(Scaled(2.0 * x, n - 1) * Pow2(k), x, Pow2(n - 1 + k), Pow2(n + k));
    } else if n < 0 {
      ScaledTimes(x / 2.0, n + 1, k);
      MoveHalf(Scaled(x / 2.0, n + 1) * Pow2(k), x, Pow2(n + k), Pow2(n + 1 + k));
    }
  }

  /** A pattern taken apart: sign, exponent e, fraction m. */
  lemma FieldsOf(bits: Word, sign: nat, e: nat, m: nat)
    requires bits == sign * 0x8000_0000_0000_0000 + e * 0x10_0000_0000_0000 + m
    requires e < 0x800 && m < 0x10_0000_0000_0000
    ensures bits / 0x10_0000_0000_0000 % 0x800 == e && bits % 0x10_0000_0000_0000 == m
  {
    assert bits == (sign * 0x800 + e) * 0x10_0000_0000_0000 + m;
    assert bits / 0x10_0000_0000_0000 == sign * 0x800 + e;
  }

  lemma AmountIsMagnitude(bits: Word, e: nat, m: nat)
    requires bits == e * 0x10_0000_0000_0000 + m && e < 0x800 && m < 0x10_0000_0000_0000
    ensures AmountOf(bits) == Magnitude(e, m)
  {
    FieldsOf(bits, 0, e, m);
  }

  lemma NormalMagnitude(a: real, e: nat, m: nat, k: nat)
    requires a == Magnitude(e, m) && e >= 1 && e - 1075 + k >= 0
    ensures a * Pow2(k) == (0x10_0000_0000_0000 + m) as real * Pow2(e - 1075 + k)
  {
    ScaledTimes((0x10_0000_0000_0000 + m) as real, e - 1075, k);
  }

  lemma SameMagnitude(bits: Word, e: nat, m: nat, k: nat)
    requires AmountOf(bits) == Magnitude(e, m) && e >= 1 && e - 1075 + k >= 0
    ensures AmountOf(bits) * Pow2(k) == (0x10_0000_0000_0000 + m) as real * Pow2(e - 1075 + k)
  {
    NormalMagnitude(AmountOf(bits), e, m, k);
  }

  /** A normal number: 2^52 + m units of 2^(e - 1075). It is taken times 2^k, for any k that leaves no
      denominator; k == 1075 does for every exponent. */
  lemma NormalAmount(bits: Word, e: nat, m: nat, k: nat)
    requires bits == e * 0x10_0000_0000_0000 + m && 1 <= e <= 2046 && m < 0x10_0000_0000_0000
    requires e - 1075 + k >= 0
    ensures AmountOf(bits) * Pow2(k) == (0x10_0000_0000_0000 + m) as real * Pow2(e - 1075 + k)
  {
    AmountIsMagnitude(bits, e, m);
    SameMagnitude(bits, e, m, k);
  }

  /** A subnormal number: m units of 2^-1074. */
  lemma SubnormalAmount(m: nat, k: nat)
    requires m < 0x10_0000_0000_0000 && k >= 1074
    ensures AmountOf(m) * Pow2(k) == m as real * Pow2(-1074 + k)
  {
    AmountIsMagnitude(m, 0, m);
    ScaledTimes(m as real, -1074, k);
  }

  /** The top bit is the sign. */
  lemma NegativeAmount(bits: Word)
    requires bits < 0x8000_0000_0000_0000
    ensures AmountOf(bits + 0x8000_0000_0000_0000) == -AmountOf(bits)
  {
    var e, m := bits / 0x10_0000_0000_0000, bits % 0x10_0000_0000_0000;
    FieldsOf(bits, 0, e, m);
    FieldsOf(bits + 0x8000_0000_0000_0000, 1, e, m);
  }

  lemma Pow2Of52(k: nat)
    requires k == 52
    ensures Pow2(k) == 0x10_0000_0000_0000 as real
  {
    assert Pow2(13) == 8192.0;
    Pow2Sum(13, 13);
    Pow2Sum(26, 26);
  }

  /** One, two, four and so on: the exponent counts from 1023. */
  lemma PowerOfTwoAmount(bits: Word, n: nat)
    requires n <= 1023 && bits == (1023 + n) * 0x10_0000_0000_0000
    ensures AmountOf(bits) == Pow2(n)
  {
    var k: nat :| k == 52;
    Pow2Of52(k);
    NormalAmount(bits, 1023 + n, 0, k);
    SameFactor(AmountOf(bits), Pow2(n), Pow2(k));
  }

  lemma SameFactor(a: real, b: real, c: real)
    requires c > 0.0 && a * c == c * b
    ensures a == b
  {
    assert (a - b) * c == 0.0;
  }

  /** 0x3FF0000000000000 is one. */
  lemma OneAmount(bits: Word)
    requires bits == 0x3FF0_0000_0000_0000
    ensures AmountOf(bits) == 1.0
  {
    PowerOfTwoAmount(bits, 0);
  }

  lemma {:induction false} ScaledSign(x: real, n: int)
    ensures Scaled(x, n) > 0.0 <==> x > 0.0
    ensures Scaled(x, n) < 0.0 <==> x < 0.0
    decreases if n < 0 then -n else n
  {
    if n > 0 {
      ScaledSign(2.0 * x, n - 1);
    } else if n < 0 {
      ScaledSign(x / 2.0, n + 1);
    }
  }

  lemma UnsignedAmountSign(bits: Word)
    requires bits < 0x8000_0000_0000_0000
    ensures AmountOf(bits) >= 0.0 && (AmountOf(bits) > 0.0 <==> bits > 0)
  {
    var e, m := bits / 0x10_0000_0000_0000, bits % 0x10_0000_0000_0000;
    AmountIsMagnitude(bits, e, m);
    if e == 0 {
      ScaledSign(m as real, -1074);
    } else {
      ScaledSign((0x10_0000_0000_0000 + m) as real, e - 1075);
    }
  }

  lemma PositiveAmountIff(bits: Word)
    ensures AmountOf(bits) > 0.0 <==> 0 < bits < 0x8000_0000_0000_0000
  {
    if bits < 0x8000_0000_0000_0000 {
      UnsignedAmountSign(bits);
    } else {
      NegativeAmount(bits - 0x8000_0000_0000_0000);
      UnsignedAmountSign(bits - 0x8000_0000_0000_0000);
    }
  }

  /** The HTTP handler takes a payment with a full-length id and a positive amount. */
  predicate Acceptable(id: seq<Byte>, amount: Word) {
    |id| == ID_SIZE && AmountOf(amount) > 0.0
  }

  /** In terms of the bytes received: 36 of them, and a double that is not zero and has no sign bit. */
  lemma AcceptableIff(id: seq<Byte>, amount: Word)
    ensures Acceptable(id, amount) <==> |id| == 36 && 0 < amount < 0x8000_0000_0000_0000
  {
    PositiveAmountIff(amount);
  }

  predicate Packed(e: Entry) {
    |e.key| == WORD_SIZE && |e.data| == DATA_SIZE
  }

  /** The packed PaymentKey and PaymentData of a record. */
  function Pack(en: Endian, r: Record): (e: Entry)
    ensures Packed(e)
  {
    Entry(StoreWord(en, Unsigned(r.at)), StoreWord(en, r.amount) + r.id)
  }

  function Unpack(en: Endian, e: Entry): Record
    requires Packed(e)
  {
    Record(Signed(LoadWord(en, e.key)), LoadWord(en, e.data[..WORD_SIZE]), e.data[WORD_SIZE..])
  }

  /** Packing loses nothing and every packed entry comes from one record. */
  lemma PackRoundTrip(en: Endian, r: Record, e: Entry)
    requires Packed(e)
    ensures Unpack(en, Pack(en, r)) == r
    ensures Pack(en, Unpack(en, e)) == e
  {
    var p := Pack(en, r);
    assert p.data[..WORD_SIZE] == StoreWord(en, r.amount) && p.data[WORD_SIZE..] == r.id;
    WordRoundTrip(en, Unsigned(r.at), e.key);
    WordRoundTrip(en, r.amount, e.data[..WORD_SIZE]);
    assert e.data == e.data[..WORD_SIZE] + e.data[WORD_SIZE..];
  }

  /** Table order: by key, then by data among equal keys. */
  predicate EntryLess(en: Endian, a: Entry, b: Entry) {
    Less(en, a.key, b.key) || (a.key == b.key && Less(en, a.data, b.data))
  }

  lemma EntryLessIsStrictTotalOrder(en: Endian, a: Entry, b: Entry, c: Entry)
    ensures !(EntryLess(en, a, b) && EntryLess(en, b, a))
    ensures EntryLess(en, a, b) || EntryLess(en, b, a) <==> a != b
    ensures EntryLess(en, a, b) && EntryLess(en, b, c) ==> EntryLess(en, a, c)
  {
    LessIsStrictTotalOrder(en, a.key, b.key, c.key);
    LessIsStrictTotalOrder(en, a.key, b.key, a.key);
    LessIsStrictTotalOrder(en, a.data, b.data, c.data);
  }

  /** Table order of packed records never goes against the unsigned order of their times. */
  lemma EntryOrderIsTimeOrder(en: Endian, a: Entry, b: Entry)
    requires Packed(a) && Packed(b)
    ensures Less(en, a.key, b.key) <==> Unsigned(Unpack(en, a).at) < Unsigned(Unpack(en, b).at)
    ensures EntryLess(en, a, b) ==> Unsigned(Unpack(en, a).at) <= Unsigned(Unpack(en, b).at)
  {
    var v, w := LoadWord(en, a.key), LoadWord(en, b.key);
    WordRoundTrip(en, v, a.key);
    WordRoundTrip(en, w, b.key);
    WordOrder(en, v, w);
  }

  /** Table order in full, the data being the amount's bytes and then the id: among equal times a big-endian machine
      looks at the amount first, a little-endian one, which compares backwards, at the id. */
  lemma EntryOrderIsRecordOrder(en: Endian, r: Record, q: Record)
    ensures EntryLess(en, Pack(en, r), Pack(en, q)) <==>
            || Unsigned(r.at) < Unsigned(q.at)
            || (r.at == q.at &&
                  match en
                  case Big => r.amount < q.amount || (r.amount == q.amount && ForwardLess(r.id, q.id))
                  case Little => BackwardLess(r.id, q.id) || (r.id == q.id && r.amount < q.amount))
  {
    WordOrder(en, Unsigned(r.at), Unsigned(q.at));
    WordOrder(en, r.amount, q.amount);
    ForwardConcat(StoreWord(en, r.amount), r.id, StoreWord(en, q.amount), q.id);
    BackwardConcat(StoreWord(en, r.amount), r.id, StoreWord(en, q.amount), q.id);
  }
}
