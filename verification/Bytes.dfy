/** Machine words in native byte order, and the two byte comparators LMDB offers:
    first byte to last, or (MDB_REVERSEKEY, MDB_REVERSEDUP) last byte to first. */
module Bytes {
  type Byte = n: nat | n < 0x100
  type Word = n: nat | n < 0x1_0000_0000_0000_0000
  type Int64 = n: int | -0x8000_0000_0000_0000 <= n < 0x8000_0000_0000_0000

  const WORD_SIZE: nat := 8

  datatype Endian = Little | Big

  function Pow256(n: nat): (p: nat)
    ensures p > 0
  {
    if n == 0 then 1 else 256 * Pow256(n - 1)
  }

  lemma WordLimit()
    ensures Pow256(WORD_SIZE) == 0x1_0000_0000_0000_0000
  {
    assert Pow256(4) == 0x1_0000_0000;
    assert Pow256(8) == 0x1_0000_0000 * Pow256(4);
  }

  /** The n low bytes of v, least significant first. */
  function LittleBytes(v: nat, n: nat): (b: seq<Byte>)
    ensures |b| == n
  {
    if n == 0 then [] else [v % 256] + LittleBytes(v / 256, n - 1)
  }

  /** The n low bytes of v, most significant first. */
  function BigBytes(v: nat, n: nat): (b: seq<Byte>)
    ensures |b| == n
  {
    if n == 0 then [] else BigBytes(v / 256, n - 1) + [v % 256]
  }

  function LittleValue(b: seq<Byte>): (v: nat)
    ensures v < Pow256(|b|)
  {
    if b == [] then 0 else b[0] + 256 * LittleValue(b[1..])
  }

  function BigValue(b: seq<Byte>): (v: nat)
    ensures v < Pow256(|b|)
  {
    if b == [] then 0 else 256 * BigValue(b[..|b| - 1]) + b[|b| - 1]
  }

  /** A word as the machine stores it. */
  function StoreWord(e: Endian, w: Word): (b: seq<Byte>)
    ensures |b| == WORD_SIZE
  {
    match e
    case Little => LittleBytes(w, WORD_SIZE)
    case Big => BigBytes(w, WORD_SIZE)
  }

  /** The word found in eight bytes of memory. */
  function LoadWord(e: Endian, b: seq<Byte>): Word
    requires |b| == WORD_SIZE
  {
    WordLimit();
    match e
    case Little => LittleValue(b)
    case Big => BigValue(b)
  }

  lemma {:induction false} ValueOfBytes(v: nat, n: nat)
    requires v < Pow256(n)
    ensures LittleValue(LittleBytes(v, n)) == v
    ensures BigValue(BigBytes(v, n)) == v
  {
    if n > 0 {
      ValueOfBytes(v / 256, n - 1);
      assert LittleBytes(v, n)[1..] == LittleBytes(v / 256, n - 1);
      assert BigBytes(v, n)[..n - 1] == BigBytes(v / 256, n - 1);
    }
  }

  lemma {:induction false} LittleBytesOfValue(b: seq<Byte>)
    ensures LittleBytes(LittleValue(b), |b|) == b
  {
    if b != [] {
      var low, high := b[0], LittleValue(b[1..]);
      LittleBytesOfValue(b[1..]);
      assert (low + 256 * high) % 256 == low && (low + 256 * high) / 256 == high;
    }
  }

  lemma {:induction false} BigBytesOfValue(b: seq<Byte>)
    ensures BigBytes(BigValue(b), |b|) == b
  {
    if b != [] {
      var low, high := b[|b| - 1], BigValue(b[..|b| - 1]);
      BigBytesOfValue(b[..|b| - 1]);
      assert (256 * high + low) % 256 == low && (256 * high + low) / 256 == high;
    }
  }

  /** Storing and loading are inverse to each other on either machine. */
  lemma WordRoundTrip(e: Endian, w: Word, b: seq<Byte>)
    requires |b| == WORD_SIZE
    ensures LoadWord(e, StoreWord(e, w)) == w
    ensures StoreWord(e, LoadWord(e, b)) == b
  {
    WordLimit();
    ValueOfBytes(w, WORD_SIZE);
    LittleBytesOfValue(b);
    BigBytesOfValue(b);
  }

  /** Order of mdb_cmp_memn: first differing byte from the front, then length. */
  predicate ForwardLess(a: seq<Byte>, b: seq<Byte>) {
    if b == [] then false
    else if a == [] then true
    else a[0] < b[0] || (a[0] == b[0] && ForwardLess(a[1..], b[1..]))
  }

  /** Order of mdb_cmp_memnr: first differing byte from the back, then length. */
  predicate BackwardLess(a: seq<Byte>, b: seq<Byte>) {
    if b == [] then false
    else if a == [] then true
    else
      var x, y := a[|a| - 1], b[|b| - 1];
      x < y || (x == y && BackwardLess(a[..|a| - 1], b[..|b| - 1]))
  }

  /** The comparator the flags select: reversed exactly on little-endian machines. */
  predicate Less(e: Endian, a: seq<Byte>, b: seq<Byte>) {
    match e
    case Little => BackwardLess(a, b)
    case Big => ForwardLess(a, b)
  }

  lemma {:induction false} ForwardTotal(a: seq<Byte>, b: seq<Byte>)
    ensures !(ForwardLess(a, b) && ForwardLess(b, a))
    ensures ForwardLess(a, b) || ForwardLess(b, a) <==> a != b
  {
    if a != [] && b != [] {
      ForwardTotal(a[1..], b[1..]);
      assert a == [a[0]] + a[1..] && b == [b[0]] + b[1..];
    }
  }

  lemma {:induction false} BackwardTotal(a: seq<Byte>, b: seq<Byte>)
    ensures !(BackwardLess(a, b) && BackwardLess(b, a))
    ensures BackwardLess(a, b) || BackwardLess(b, a) <==> a != b
  {
    if a != [] && b != [] {
      BackwardTotal(a[..|a| - 1], b[..|b| - 1]);
      assert a == a[..|a| - 1] + [a[|a| - 1]] && b == b[..|b| - 1] + [b[|b| - 1]];
    }
  }

  lemma {:induction false} ForwardTransitive(a: seq<Byte>, b: seq<Byte>, c: seq<Byte>)
    requires ForwardLess(a, b) && ForwardLess(b, c)
    ensures ForwardLess(a, c)
  {
    if a != [] && a[0] == b[0] == c[0] {
      ForwardTransitive(a[1..], b[1..], c[1..]);
    }
  }

  lemma {:induction false} BackwardTransitive(a: seq<Byte>, b: seq<Byte>, c: seq<Byte>)
    requires BackwardLess(a, b) && BackwardLess(b, c)
    ensures BackwardLess(a, c)
  {
    if a != [] && a[|a| - 1] == b[|b| - 1] == c[|c| - 1] {
      BackwardTransitive(a[..|a| - 1], b[..|b| - 1], c[..|c| - 1]);
    }
  }

  /** Either comparator is a strict total order on byte strings. */
  lemma LessIsStrictTotalOrder(e: Endian, a: seq<Byte>, b: seq<Byte>, c: seq<Byte>)
    ensures !(Less(e, a, b) && Less(e, b, a))
    ensures Less(e, a, b) || Less(e, b, a) <==> a != b
    ensures Less(e, a, b) && Less(e, b, c) ==> Less(e, a, c)
  {
    ForwardTotal(a, b);
    BackwardTotal(a, b);
    if ForwardLess(a, b) && ForwardLess(b, c) {
      ForwardTransitive(a, b, c);
    }
    if BackwardLess(a, b) && BackwardLess(b, c) {
      BackwardTransitive(a, b, c);
    }
  }

  lemma {:induction false} BackwardCons(x: Byte, a: seq<Byte>, y: Byte, b: seq<Byte>)
    requires |a| == |b|
    ensures BackwardLess([x] + a, [y] + b) <==> BackwardLess(a, b) || (a == b && x < y)
  {
    if a == [] {
      assert [x] + a == [x] && [y] + b == [y];
    } else {
      var m := |a| - 1;
      BackwardCons(x, a[..m], y, b[..m]);
      assert ([x] + a)[..m + 1] == [x] + a[..m] && ([y] + b)[..m + 1] == [y] + b[..m];
      assert a == a[..m] + [a[m]] && b == b[..m] + [b[m]];
    }
  }

  lemma {:induction false} ForwardSnoc(a: seq<Byte>, x: Byte, b: seq<Byte>, y: Byte)
    requires |a| == |b|
    ensures ForwardLess(a + [x], b + [y]) <==> ForwardLess(a, b) || (a == b && x < y)
  {
    if a == [] {
      assert a + [x] == [x] && b + [y] == [y];
    } else {
      ForwardSnoc(a[1..], x, b[1..], y);
      assert (a + [x])[1..] == a[1..] + [x] && (b + [y])[1..] == b[1..] + [y];
      assert a == [a[0]] + a[1..] && b == [b[0]] + b[1..];
    }
  }

  lemma {:induction false} BytesOrder(v: nat, w: nat, n: nat)
    requires v < Pow256(n) && w < Pow256(n)
    ensures BackwardLess(LittleBytes(v, n), LittleBytes(w, n)) <==> v < w
    ensures ForwardLess(BigBytes(v, n), BigBytes(w, n)) <==> v < w
  {
    ValueOfBytes(v, n);
    ValueOfBytes(w, n);
    if n > 0 {
      var v', w' := v / 256, w / 256;
      BytesOrder(v', w', n - 1);
      ValueOfBytes(v', n - 1);
      ValueOfBytes(w', n - 1);
      BackwardCons(v % 256, LittleBytes(v', n - 1), w % 256, LittleBytes(w', n - 1));
      ForwardSnoc(BigBytes(v', n - 1), v % 256, BigBytes(w', n - 1), w % 256);
    }
  }

  /** On either machine the selected comparator orders stored words by their unsigned value,
      although the bytes and the comparator both differ. */
  lemma WordOrder(e: Endian, v: Word, w: Word)
    ensures Less(e, StoreWord(e, v), StoreWord(e, w)) <==> v < w
    ensures StoreWord(e, v) == StoreWord(e, w) <==> v == w
  {
    WordLimit();
    BytesOrder(v, w, WORD_SIZE);
    WordRoundTrip(e, v, StoreWord(e, w));
    WordRoundTrip(e, w, StoreWord(e, v));
  }

  /** The i-th byte of a number, counted from the lowest. */
  function NthByte(v: nat, i: nat): Byte {
    if i == 0 then v % 256 else NthByte(v / 256, i - 1)
  }

  /** The i-th lowest byte is at place i on a little-endian machine, counted from the end on a big-endian one. */
  lemma {:induction false} ByteOfWord(v: nat, n: nat, i: nat)
    requires i < n
    ensures LittleBytes(v, n)[i] == NthByte(v, i)
    ensures BigBytes(v, n)[n - 1 - i] == NthByte(v, i)
  {
    if i > 0 {
      ByteOfWord(v / 256, n - 1, i - 1);
    }
  }

  lemma {:induction false} ForwardLessIff(a: seq<Byte>, b: seq<Byte>)
    requires |a| == |b|
    ensures ForwardLess(a, b) <==> exists i :: 0 <= i < |a| && a[i] < b[i] && a[..i] == b[..i]
  {
    if a != [] {
      ForwardLessIff(a[1..], b[1..]);
      if i :| 0 <= i < |a| - 1 && a[1..][i] < b[1..][i] && a[1..][..i] == b[1..][..i] {
        assert a[0] == b[0] ==> a[..i + 1] == b[..i + 1] by {
          assert a[..i + 1] == [a[0]] + a[1..][..i] && b[..i + 1] == [b[0]] + b[1..][..i];
        }
        assert a[i + 1] < b[i + 1];
      }
      if i :| 1 <= i < |a| && a[i] < b[i] && a[..i] == b[..i] {
        assert a[0] == a[..i][0] == b[..i][0] == b[0];
        assert a[1..][..i - 1] == a[..i][1..] && b[1..][..i - 1] == b[..i][1..];
        assert a[1..][i - 1] < b[1..][i - 1];
      }
      assert a[..0] == b[..0];
    }
  }

  lemma {:induction false} BackwardLessDiffers(a: seq<Byte>, b: seq<Byte>)
    requires |a| == |b| && BackwardLess(a, b)
    ensures exists i :: 0 <= i < |a| && a[i] < b[i] && a[i + 1..] == b[i + 1..]
  {
    var n := |a| - 1;
    if a[n] < b[n] {
      assert a[n + 1..] == b[n + 1..];
    } else {
      BackwardLessDiffers(a[..n], b[..n]);
      var i :| 0 <= i < n && a[..n][i] < b[..n][i] && a[..n][i + 1..] == b[..n][i + 1..];
      assert a[i + 1..] == a[..n][i + 1..] + [a[n]] && b[i + 1..] == b[..n][i + 1..] + [b[n]];
      assert a[i] < b[i];
    }
  }

  lemma {:induction false} DiffersBackwardLess(a: seq<Byte>, b: seq<Byte>, i: nat)
    requires |a| == |b| && i < |a| && a[i] < b[i] && a[i + 1..] == b[i + 1..]
    ensures BackwardLess(a, b)
  {
    var n := |a| - 1;
    if i < n {
      assert a[n] == a[i + 1..][n - i - 1] == b[i + 1..][n - i - 1] == b[n];
      assert a[..n][i + 1..] == a[i + 1..][..n - i - 1] && b[..n][i + 1..] == b[i + 1..][..n - i - 1];
      DiffersBackwardLess(a[..n], b[..n], i);
    }
  }

  lemma {:induction false} BackwardLessIff(a: seq<Byte>, b: seq<Byte>)
    requires |a| == |b|
    ensures BackwardLess(a, b) <==> exists i :: 0 <= i < |a| && a[i] < b[i] && a[i + 1..] == b[i + 1..]
  {
    if BackwardLess(a, b) {
      BackwardLessDiffers(a, b);
    }
    if i :| 0 <= i < |a| && a[i] < b[i] && a[i + 1..] == b[i + 1..] {
      DiffersBackwardLess(a, b, i);
    }
  }

  /** The selected comparator, on strings of one length: at the last byte that differs on a little-endian machine,
      at the first one on a big-endian machine. */
  lemma LessIff(e: Endian, a: seq<Byte>, b: seq<Byte>)
    requires |a| == |b|
    ensures Less(e, a, b) <==>
            if e == Little then exists i :: 0 <= i < |a| && a[i] < b[i] && a[i + 1..] == b[i + 1..]
            else exists i :: 0 <= i < |a| && a[i] < b[i] && a[..i] == b[..i]
  {
    ForwardLessIff(a, b);
    BackwardLessIff(a, b);
  }

  lemma {:induction false} ForwardConcat(a: seq<Byte>, x: seq<Byte>, b: seq<Byte>, y: seq<Byte>)
    requires |a| == |b|
    ensures ForwardLess(a + x, b + y) <==> ForwardLess(a, b) || (a == b && ForwardLess(x, y))
  {
    if a == [] {
      assert a + x == x && b + y == y;
    } else {
      ForwardConcat(a[1..], x, b[1..], y);
      assert (a + x)[1..] == a[1..] + x && (b + y)[1..] == b[1..] + y;
      assert a == [a[0]] + a[1..] && b == [b[0]] + b[1..];
    }
  }

  lemma {:induction false} BackwardConcat(a: seq<Byte>, x: seq<Byte>, b: seq<Byte>, y: seq<Byte>)
    requires |x| == |y|
    ensures BackwardLess(a + x, b + y) <==> BackwardLess(x, y) || (x == y && BackwardLess(a, b))
  {
    if x == [] {
      assert a + x == a && b + y == b;
    } else {
      var n := |x| - 1;
      BackwardConcat(a, x[..n], b, y[..n]);
      assert (a + x)[..|a| + n] == a + x[..n] && (b + y)[..|b| + n] == b + y[..n];
      assert x == x[..n] + [x[n]] && y == y[..n] + [y[n]];
    }
  }

  /** Two's complement. */
  function Unsigned(t: Int64): Word {
    if t < 0 then t + 0x1_0000_0000_0000_0000 else t
  }

  function Signed(w: Word): Int64 {
    if w < 0x8000_0000_0000_0000 then w else w - 0x1_0000_0000_0000_0000
  }

  /** Key order agrees with the signed order of the times exactly when both have the same sign. */
  lemma KeyOrderIsSignedOrderIff(e: Endian, t: Int64, u: Int64)
    ensures (Less(e, StoreWord(e, Unsigned(t)), StoreWord(e, Unsigned(u))) <==> t < u) <==> (t < 0 <==> u < 0)
  {
    WordOrder(e, Unsigned(t), Unsigned(u));
  }
}
