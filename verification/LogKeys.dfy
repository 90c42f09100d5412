/** internal/storage/badger.go: the byte keys under which log entries are stored, and their order. */
module LogKeys {
  import opened Types

  type Key = seq<Byte>

  const PREFIX: Key := [108, 111, 103, 58] // "log:"

  const TWO_63: int := 0x8000_0000_0000_0000
  const TWO_64: int := 0x1_0000_0000_0000_0000

  predicate IsInt64(i: int) {
    -TWO_63 <= i < TWO_63
  }

  /** Go's conversion to uint64 and back. */
  function ToUint64(i: int): int {
    if i < 0 then i + TWO_64 else i
  }

  function ToInt64(u: int): int {
    if u >= TWO_63 then u - TWO_64 else u
  }

  /** The low `len` bytes of n, most significant first. */
  function BigEndian(n: nat, len: nat): Key {
    if len == 0 then [] else BigEndian(n / 256, len - 1) + [(n % 256) as Byte]
  }

  function FromBigEndian(s: Key): nat {
    if |s| == 0 then 0 else FromBigEndian(s[..|s| - 1]) * 256 + s[|s| - 1] as int
  }

  function Pow256(len: nat): nat {
    if len == 0 then 1 else 256 * Pow256(len - 1)
  }

  /** The unsigned number that a log key encodes; keys are stored under their slots. */
  predicate IsSlot(u: int) {
    0 <= u < TWO_64
  }

  function SlotKey(u: int): Key
    requires IsSlot(u)
  {
    PREFIX + BigEndian(u, 8)
  }

  function KeySlot(key: Key): int
    requires |key| >= 4
  {
    FromBigEndian(key[4..])
  }

  function MakeLogKey(index: int): Key
    requires IsInt64(index)
  {
    SlotKey(ToUint64(index))
  }

  function ParseLogKey(key: Key): int
    requires |key| >= 4
  {
    ToInt64(KeySlot(key))
  }

  /** Byte order, as the database sorts its keys. */
  predicate Less(a: Key, b: Key) {
    if |b| == 0 then false
    else if |a| == 0 then true
    else if a[0] != b[0] then a[0] < b[0]
    else Less(a[1..], b[1..])
  }

  predicate HasPrefix(k: Key) {
    PREFIX <= k
  }

  // --------------------------------------------------------------- the encoding

  lemma {:induction false} BigEndianInverse(n: nat, len: nat)
    requires n < Pow256(len)
    ensures |BigEndian(n, len)| == len
    ensures FromBigEndian(BigEndian(n, len)) == n
  {
    if len > 0 {
      BigEndianInverse(n / 256, len - 1);
      var s := BigEndian(n, len);
      assert s[..|s| - 1] == BigEndian(n / 256, len - 1);
    }
  }

  lemma {:induction false} FromBigEndianBound(s: Key)
    ensures FromBigEndian(s) < Pow256(|s|)
    ensures BigEndian(FromBigEndian(s), |s|) == s
  {
    if |s| > 0 {
      var init, last := s[..|s| - 1], s[|s| - 1];
      FromBigEndianBound(init);
      Digits(FromBigEndian(init), last as int);
      assert s == init + [last];
    }
  }

  lemma Digits(n: nat, d: nat)
    requires d < 256
    ensures (n * 256 + d) / 256 == n && (n * 256 + d) % 256 == d
  {
  }

  lemma EightBytes()
    ensures Pow256(8) == TWO_64
  {
    assert Pow256(4) == 0x1_0000_0000;
    assert Pow256(6) == 0x1_0000_0000_0000;
  }

  lemma SlotInverse(u: int)
    requires IsSlot(u)
    ensures |SlotKey(u)| == 12 && HasPrefix(SlotKey(u)) && KeySlot(SlotKey(u)) == u
  {
    EightBytes();
    BigEndianInverse(u, 8);
    assert SlotKey(u)[4..] == BigEndian(u, 8);
  }

  /** Parsing inverts making, for every int64. */
  lemma ParseInvertsMake(index: int)
    requires IsInt64(index)
    ensures |MakeLogKey(index)| == 12 && HasPrefix(MakeLogKey(index))
    ensures ParseLogKey(MakeLogKey(index)) == index
  {
    SlotInverse(ToUint64(index));
  }

  /** Making inverts parsing, for every twelve-byte key with the log prefix. */
  lemma MakeInvertsParse(key: Key)
    requires |key| == 12 && HasPrefix(key)
    ensures IsInt64(ParseLogKey(key))
    ensures MakeLogKey(ParseLogKey(key)) == key
  {
    EightBytes();
    FromBigEndianBound(key[4..]);
    assert key == PREFIX + key[4..];
  }

  // ------------------------------------------------------------------ the order

  lemma {:induction false} LessSnoc(a: Key, b: Key, x: Byte, y: Byte)
    requires |a| == |b|
    ensures Less(a + [x], b + [y]) <==> Less(a, b) || (a == b && x < y)
  {
    if |a| > 0 {
      assert (a + [x])[1..] == a[1..] + [x];
      assert (b + [y])[1..] == b[1..] + [y];
      LessSnoc(a[1..], b[1..], x, y);
      assert a == [a[0]] + a[1..] && b == [b[0]] + b[1..];
    }
  }

  lemma {:induction false} BigEndianOrder(n: nat, m: nat, len: nat)
    requires n < Pow256(len) && m < Pow256(len)
    ensures Less(BigEndian(n, len), BigEndian(m, len)) <==> n < m
  {
    if len > 0 {
      BigEndianOrder(n / 256, m / 256, len - 1);
      BigEndianInverse(n / 256, len - 1);
      BigEndianInverse(m / 256, len - 1);
      LessSnoc(BigEndian(n / 256, len - 1), BigEndian(m / 256, len - 1), (n % 256) as Byte, (m % 256) as Byte);
    }
  }

  lemma {:induction false} LessSamePrefix(p: Key, a: Key, b: Key)
    ensures Less(p + a, p + b) <==> Less(a, b)
  {
    if |p| == 0 {
      assert p + a == a && p + b == b;
    } else {
      assert (p + a)[1..] == p[1..] + a;
      assert (p + b)[1..] == p[1..] + b;
      LessSamePrefix(p[1..], a, b);
    }
  }

  lemma SlotOrder(u: int, v: int)
    requires IsSlot(u) && IsSlot(v)
    ensures Less(SlotKey(u), SlotKey(v)) <==> u < v
  {
    EightBytes();
    LessSamePrefix(PREFIX, BigEndian(u, 8), BigEndian(v, 8));
    BigEndianOrder(u, v, 8);
  }

  /** Keys sort as the unsigned images of their indices; negative indices come after all others. */
  lemma KeyOrder(i: int, j: int)
    requires IsInt64(i) && IsInt64(j)
    ensures Less(MakeLogKey(i), MakeLogKey(j)) <==> ToUint64(i) < ToUint64(j)
  {
    SlotOrder(ToUint64(i), ToUint64(j));
  }

  /** Key order is index order exactly on pairs of indices with the same sign. */
  lemma KeyOrderIsNumeric(i: int, j: int)
    requires IsInt64(i) && IsInt64(j)
    ensures (Less(MakeLogKey(i), MakeLogKey(j)) <==> i < j) <==> (i < 0 <==> j < 0)
  {
    KeyOrder(i, j);
  }

  lemma {:induction false} LessTransitive(a: Key, b: Key, c: Key)
    requires Less(a, b) && Less(b, c)
    ensures Less(a, c)
  {
    if |a| > 0 && a[0] == b[0] && b[0] == c[0] {
      LessTransitive(a[1..], b[1..], c[1..]);
    }
  }

  lemma {:induction false} LessTotal(a: Key, b: Key)
    ensures a == b || Less(a, b) || Less(b, a)
    ensures !(Less(a, b) && Less(b, a))
    ensures a == b ==> !Less(a, b)
  {
    if |a| > 0 && |b| > 0 {
      LessTotal(a[1..], b[1..]);
      assert a == [a[0]] + a[1..] && b == [b[0]] + b[1..];
    }
  }

  /** The keys with the log prefix stand next to one another. */
  lemma PrefixConvex(a: Key, b: Key, c: Key)
    requires HasPrefix(a) && HasPrefix(c)
    requires Less(a, b) && Less(b, c)
    ensures HasPrefix(b)
  {
    PrefixConvexFrom(PREFIX, a, b, c);
  }

  lemma {:induction false} PrefixConvexFrom(p: Key, a: Key, b: Key, c: Key)
    requires p <= a && p <= c
    requires Less(a, b) && Less(b, c)
    ensures p <= b
  {
    if |p| > 0 {
      assert a[0] == p[0] == c[0];
      assert b[0] == p[0];
      PrefixConvexFrom(p[1..], a[1..], b[1..], c[1..]);
      assert b == [b[0]] + b[1..] && p == [p[0]] + p[1..];
    }
  }
}
