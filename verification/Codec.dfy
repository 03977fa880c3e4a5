/** Queries on the wire (communication/data/query_c2s.h, scheme/dummy.h,
    util/stream.h): 64-bit words, least significant byte first. */
module Codec {
  import opened Sequences
  import opened Operands

  type Byte = b: nat | b < 256

  // ---- words ----

  function Pow256(n: nat): nat { if n == 0 then 1 else 256 * Pow256(n - 1) }

  function Bytes(w: nat, n: nat): (r: seq<Byte>)
    ensures |r| == n
  {
    if n == 0 then [] else [w % 256] + Bytes(w / 256, n - 1)
  }

  function Number(b: seq<Byte>): nat { if b == [] then 0 else b[0] + 256 * Number(b[1..]) }

  lemma {:induction false} NumberOfBytes(w: nat, n: nat)
    requires w < Pow256(n)
    ensures Number(Bytes(w, n)) == w
  {
    if n > 0 {
      NumberOfBytes(w / 256, n - 1);
      assert Bytes(w, n)[1..] == Bytes(w / 256, n - 1);
    }
  }

  lemma {:induction false} NumberBound(b: seq<Byte>)
    ensures Number(b) < Pow256(|b|)
  {
    if b != [] { NumberBound(b[1..]); }
  }

  lemma EightBytes()
    ensures Pow256(8) == TWO_TO_THE_64
  {
    assert Pow256(4) == 256 * (256 * (256 * 256)) by { assert Pow256(1) == 256 && Pow256(2) == 65536; }
    assert Pow256(8) == 256 * (256 * (256 * (256 * Pow256(4))));
  }

  function EncodeWord(w: Word): (r: seq<Byte>)
    ensures |r| == 8
  {
    Bytes(w, 8)
  }

  /** What is decoded, and the bytes behind it. */
  type Decoded<T> = Option<(T, seq<Byte>)>

  function DecodeWord(b: seq<Byte>): Decoded<Word> {
    if |b| < 8 then None else
      NumberBound(b[..8]); EightBytes();
      Some((Number(b[..8]), b[8..]))
  }

  lemma WordRoundTrip(w: Word, suffix: seq<Byte>)
    ensures DecodeWord(EncodeWord(w) + suffix) == Some((w, suffix))
  {
    EightBytes();
    NumberOfBytes(w, 8);
    assert (EncodeWord(w) + suffix)[..8] == EncodeWord(w) && (EncodeWord(w) + suffix)[8..] == suffix;
  }

  // ---- repetition ----

  function EncodeMany<T>(encode: T -> seq<Byte>, xs: seq<T>): seq<Byte> {
    if xs == [] then [] else EncodeMany(encode, xs[..|xs| - 1]) + encode(xs[|xs| - 1])
  }

  function DecodeMany<T>(decode: seq<Byte> -> Decoded<T>, n: nat, b: seq<Byte>): (r: Decoded<seq<T>>)
    ensures r.Some? ==> |r.value.0| == n
  {
    if n == 0 then Some(([], b)) else
      match DecodeMany(decode, n - 1, b)
      case None => None
      case Some(front) =>
        match decode(front.1)
        case None => None
        case Some(last) => Some((front.0 + [last.0], last.1))
  }

  /** Nothing follows what could not be decoded. */
  lemma {:induction false} DecodeManyStops<T>(decode: seq<Byte> -> Decoded<T>, i: nat, n: nat, b: seq<Byte>)
    requires i <= n && DecodeMany(decode, i, b).None?
    ensures DecodeMany(decode, n, b).None?
  {
    if i < n { DecodeManyStops(decode, i, n - 1, b); }
  }

  ghost predicate RoundTrips<T(!new)>(encode: T -> seq<Byte>, decode: seq<Byte> -> Decoded<T>, x: T) {
    forall suffix :: decode(encode(x) + suffix) == Some((x, suffix))
  }

  lemma {:induction false} ManyRoundTrip<T(!new)>(encode: T -> seq<Byte>, decode: seq<Byte> -> Decoded<T>, xs: seq<T>,
                                           suffix: seq<Byte>)
    requires forall i :: 0 <= i < |xs| ==> RoundTrips(encode, decode, xs[i])
    ensures DecodeMany(decode, |xs|, EncodeMany(encode, xs) + suffix) == Some((xs, suffix))
  {
    if xs == [] {
      assert EncodeMany(encode, xs) + suffix == suffix;
    } else {
      var k := |xs| - 1;
      assert RoundTrips(encode, decode, xs[k]);
      forall i | 0 <= i < k ensures RoundTrips(encode, decode, xs[..k][i]) { assert RoundTrips(encode, decode, xs[i]); }
      ManyRoundTrip(encode, decode, xs[..k], encode(xs[k]) + suffix);
      assert EncodeMany(encode, xs) + suffix == EncodeMany(encode, xs[..k]) + (encode(xs[k]) + suffix);
      assert xs == xs[..k] + [xs[k]];
    }
  }

  // ---- plaintexts and ciphertexts ----

  function Words(): Word -> seq<Byte> { (w: Word) => EncodeWord(w) }

  function Rows(): seq<Word> -> seq<Byte> { (row: seq<Word>) => EncodeMany(Words(), row) }

  function Polys(): seq<seq<Word>> -> seq<Byte> { (p: seq<seq<Word>>) => EncodeMany(Rows(), p) }

  function UnWord(): seq<Byte> -> Decoded<Word> { (b: seq<Byte>) => DecodeWord(b) }

  function UnRow(n: nat): seq<Byte> -> Decoded<seq<Word>> { (b: seq<Byte>) => DecodeMany(UnWord(), n, b) }

  function UnPoly(n: nat,
                  rows: nat): seq<Byte> -> Decoded<seq<seq<Word>>> { (b: seq<Byte>) => DecodeMany(UnRow(n), rows, b) }

  /** Rows of `n` words. */
  predicate Rectangular(n: nat, p: seq<seq<Word>>) {
    forall i :: 0 <= i < |p| ==> |p[i]| == n
  }

  predicate PlainShaped(n: nat, pt: Plaintext) {
    pt.level < TWO_TO_THE_64 - 1 && |pt.data| == pt.level + 1 && Rectangular(n, pt.data)
  }

  predicate CipherShaped(n: nat, ct: Ciphertext) {
    && ct.level < TWO_TO_THE_64 - 1 && |ct.data| == ct.length
    && forall k :: 0 <= k < |ct.data| ==> |ct.data[k]| == ct.level + 1 && Rectangular(n, ct.data[k])
  }

  function EncodePlain(pt: Plaintext): seq<Byte> { EncodeWord(pt.level) + Polys()(pt.data) }

  function EncodeCipher(ct: Ciphertext): seq<Byte> {
    EncodeWord(ct.length) + EncodeWord(ct.level) + EncodeMany(Polys(), ct.data)
  }

  /** With the largest level the number of rows, level + 1, wraps to none, and the
      first of them is not there. */
  function DecodePlain(n: nat, b: seq<Byte>): Decoded<Plaintext> {
    match DecodeWord(b)
    case None => None
    case Some(level) =>
      if level.0 == TWO_TO_THE_64 - 1 then None else
        match DecodeMany(UnRow(n), level.0 + 1, level.1)
        case None => None
        case Some(data) => Some((Plaintext(level.0, data.0), data.1))
  }

  function DecodeCipher(n: nat, b: seq<Byte>): Decoded<Ciphertext> {
    match DecodeWord(b)
    case None => None
    case Some(length) =>
      match DecodeWord(length.1)
      case None => None
      case Some(level) =>
        if level.0 == TWO_TO_THE_64 - 1 && length.0 > 0 then None else
          match DecodeMany(UnPoly(n, (level.0 + 1) % TWO_TO_THE_64), length.0, level.1)
          case None => None
          case Some(data) => Some((Ciphertext(length.0, level.0, data.0), data.1))
  }

  lemma RowRoundTrip(n: nat, row: seq<Word>)
    requires |row| == n
    ensures RoundTrips(Rows(), UnRow(n), row)
  {
    forall suffix ensures UnRow(n)(Rows()(row) + suffix) == Some((row, suffix)) {
      forall i | 0 <= i < |row| ensures RoundTrips(Words(), UnWord(), row[i]) {
        forall s ensures UnWord()(Words()(row[i]) + s) == Some((row[i], s)) { WordRoundTrip(row[i], s); }
      }
      ManyRoundTrip(Words(), UnWord(), row, suffix);
    }
  }

  lemma PolyRoundTrip(n: nat, p: seq<seq<Word>>)
    requires Rectangular(n, p)
    ensures RoundTrips(Polys(), UnPoly(n, |p|), p)
  {
    forall suffix ensures UnPoly(n, |p|)(Polys()(p) + suffix) == Some((p, suffix)) {
      forall i | 0 <= i < |p| ensures RoundTrips(Rows(), UnRow(n), p[i]) { RowRoundTrip(n, p[i]); }
      ManyRoundTrip(Rows(), UnRow(n), p, suffix);
    }
  }

  lemma PlainRoundTrip(n: nat, pt: Plaintext, suffix: seq<Byte>)
    requires PlainShaped(n, pt)
    ensures DecodePlain(n, EncodePlain(pt) + suffix) == Some((pt, suffix))
  {
    var rest := Polys()(pt.data) + suffix;
    assert EncodePlain(pt) + suffix == EncodeWord(pt.level) + rest;
    WordRoundTrip(pt.level, rest);
    PolyRoundTrip(n, pt.data);
    assert UnPoly(n, |pt.data|)(rest) == Some((pt.data, suffix));
  }

  lemma CipherRoundTrip(n: nat, ct: Ciphertext, suffix: seq<Byte>)
    requires CipherShaped(n, ct)
    ensures DecodeCipher(n, EncodeCipher(ct) + suffix) == Some((ct, suffix))
  {
    hide EncodeWord, DecodeWord, EncodeMany, DecodeMany;
    var body := EncodeMany(Polys(), ct.data) + suffix;
    assert EncodeCipher(ct) + suffix == EncodeWord(ct.length) + (EncodeWord(ct.level) + body);
    WordRoundTrip(ct.length, EncodeWord(ct.level) + body);
    WordRoundTrip(ct.level, body);
    PolysRoundTrip(n, ct, suffix);
  }

  lemma PolysRoundTrip(n: nat, ct: Ciphertext, suffix: seq<Byte>)
    requires CipherShaped(n, ct)
    ensures DecodeMany(UnPoly(n, (ct.level + 1) % TWO_TO_THE_64), ct.length, EncodeMany(Polys(), ct.data) + suffix) ==
              Some((ct.data, suffix))
  {
    hide EncodeMany, DecodeMany;
    assert (ct.level + 1) % TWO_TO_THE_64 == ct.level + 1;
    forall k | 0 <= k < |ct.data| ensures RoundTrips(Polys(), UnPoly(n, ct.level + 1), ct.data[k]) {
      PolyRoundTrip(n, ct.data[k]);
    }
    ManyRoundTrip(Polys(), UnPoly(n, ct.level + 1), ct.data, suffix);
  }

  // ---- queries ----

  datatype QueryC2S = QueryC2S(appId: Word, clientId: Word, queryId: Word, pt: seq<Plaintext>, ct: seq<Ciphertext>)

  /** The ring dimension of the scheme of an application and a client, if it is known. */
  type Schemes = (Word, Word) -> Option<nat>

  ghost predicate Sendable(q: QueryC2S, schemes: Schemes) {
    && schemes(q.appId, q.clientId).Some?
    && |q.pt| < TWO_TO_THE_64 && |q.ct| < TWO_TO_THE_64
    && (forall i :: 0 <= i < |q.pt| ==> PlainShaped(schemes(q.appId, q.clientId).value, q.pt[i]))
    && (forall i :: 0 <= i < |q.ct| ==> CipherShaped(schemes(q.appId, q.clientId).value, q.ct[i]))
  }

  function Plains(): Plaintext -> seq<Byte> { (pt: Plaintext) => EncodePlain(pt) }

  function Ciphers(): Ciphertext -> seq<Byte> { (ct: Ciphertext) => EncodeCipher(ct) }

  function UnPlain(n: nat): seq<Byte> -> Decoded<Plaintext> { (b: seq<Byte>) => DecodePlain(n, b) }

  function UnCipher(n: nat): seq<Byte> -> Decoded<Ciphertext> { (b: seq<Byte>) => DecodeCipher(n, b) }

  /** A list with its length before it. */
  function EncodeList<T>(encode: T -> seq<Byte>, xs: seq<T>): seq<Byte>
    requires |xs| < TWO_TO_THE_64
  {
    EncodeWord(|xs|) + EncodeMany(encode, xs)
  }

  function DecodeList<T>(decode: seq<Byte> -> Decoded<T>, b: seq<Byte>): Decoded<seq<T>> {
    match DecodeWord(b)
    case None => None
    case Some(n) => DecodeMany(decode, n.0, n.1)
  }

  lemma ListRoundTrip<T(!new)>(encode: T -> seq<Byte>, decode: seq<Byte> -> Decoded<T>, xs: seq<T>, suffix: seq<Byte>)
    requires |xs| < TWO_TO_THE_64 && forall i :: 0 <= i < |xs| ==> RoundTrips(encode, decode, xs[i])
    ensures DecodeList(decode, EncodeList(encode, xs) + suffix) == Some((xs, suffix))
  {
    hide EncodeWord, DecodeWord, EncodeMany, DecodeMany, RoundTrips;
    assert EncodeList(encode, xs) + suffix == EncodeWord(|xs|) + (EncodeMany(encode, xs) + suffix);
    WordRoundTrip(|xs|, EncodeMany(encode, xs) + suffix);
    ManyRoundTrip(encode, decode, xs, suffix);
  }

  function EncodeQuery(q: QueryC2S): seq<Byte>
    requires |q.pt| < TWO_TO_THE_64 && |q.ct| < TWO_TO_THE_64
  {
    EncodeWord(q.appId) + (EncodeWord(q.clientId) + (EncodeWord(q.queryId) +
      (EncodeList(Plains(), q.pt) + EncodeList(Ciphers(), q.ct))))
  }

  function DecodeQuery(schemes: Schemes, b: seq<Byte>): Decoded<QueryC2S> {
    match DecodeWord(b)
    case None => None
    case Some(ai) =>
      match DecodeWord(ai.1)
      case None => None
      case Some(ci) =>
        match DecodeWord(ci.1)
        case None => None
        case Some(qi) =>
          match schemes(ai.0, ci.0)
          case None => None
          case Some(n) =>
            match DecodeList(UnPlain(n), qi.1)
            case None => None
            case Some(p) =>
              match DecodeList(UnCipher(n), p.1)
              case None => None
              case Some(c) => Some((QueryC2S(ai.0, ci.0, qi.0, p.0, c.0), c.1))
  }

  /** What is written for a query is read as that query, and nothing behind it is touched. */
  lemma QueryRoundTrip(schemes: Schemes, q: QueryC2S, suffix: seq<Byte>)
    requires Sendable(q, schemes)
    ensures DecodeQuery(schemes, EncodeQuery(q) + suffix) == Some((q, suffix))
  {
    hide EncodeWord, DecodeWord, EncodeList, DecodeList, PlainShaped, CipherShaped;
    var n := schemes(q.appId, q.clientId).value;
    var c := EncodeList(Ciphers(), q.ct) + suffix;
    var p := EncodeList(Plains(), q.pt) + c;
    assert EncodeQuery(q) + suffix == EncodeWord(q.appId) + (EncodeWord(q.clientId) + (EncodeWord(q.queryId) + p));
    WordRoundTrip(q.appId, EncodeWord(q.clientId) + (EncodeWord(q.queryId) + p));
    WordRoundTrip(q.clientId, EncodeWord(q.queryId) + p);
    WordRoundTrip(q.queryId, p);
    OperandsRoundTrip(n, q);
    ListRoundTrip(Plains(), UnPlain(n), q.pt, c);
    ListRoundTrip(Ciphers(), UnCipher(n), q.ct, suffix);
  }

  lemma OperandsRoundTrip(n: nat, q: QueryC2S)
    requires forall i :: 0 <= i < |q.pt| ==> PlainShaped(n, q.pt[i])
    requires forall i :: 0 <= i < |q.ct| ==> CipherShaped(n, q.ct[i])
    ensures forall i :: 0 <= i < |q.pt| ==> RoundTrips(Plains(), UnPlain(n), q.pt[i])
    ensures forall i :: 0 <= i < |q.ct| ==> RoundTrips(Ciphers(), UnCipher(n), q.ct[i])
  {
    hide PlainShaped, CipherShaped, DecodePlain, DecodeCipher, EncodePlain, EncodeCipher;
    forall i | 0 <= i < |q.pt| ensures RoundTrips(Plains(), UnPlain(n), q.pt[i]) {
      forall s ensures UnPlain(n)(Plains()(q.pt[i]) + s) == Some((q.pt[i], s)) { PlainRoundTrip(n, q.pt[i], s); }
    }
    forall i | 0 <= i < |q.ct| ensures RoundTrips(Ciphers(), UnCipher(n), q.ct[i]) {
      forall s ensures UnCipher(n)(Ciphers()(q.ct[i]) + s) == Some((q.ct[i], s)) { CipherRoundTrip(n, q.ct[i], s); }
    }
  }

  // ---- where everything is ----

  /** Least significant byte first. */
  lemma WordBytes(w: Word)
    ensures EncodeWord(w) ==
              [w % 256, w / 0x100 % 256, w / 0x1_0000 % 256, w / 0x100_0000 % 256, w / 0x1_0000_0000 % 256,
               w / 0x100_0000_0000 % 256, w / 0x1_0000_0000_0000 % 256, w / 0x100_0000_0000_0000 % 256]
  {
    FourBytes(w, 4);
    FourBytes(w / 0x1_0000_0000, 0);
    hide Bytes;
    assert w / 0x1_0000_0000 / 0x100 == w / 0x100_0000_0000;
    assert w / 0x1_0000_0000 / 0x1_0000 == w / 0x1_0000_0000_0000;
    assert w / 0x1_0000_0000 / 0x100_0000 == w / 0x100_0000_0000_0000;
  }

  lemma FourBytes(w: nat, n: nat)
    ensures Bytes(w, 4 + n) ==
              [w % 256, w / 0x100 % 256, w / 0x1_0000 % 256, w / 0x100_0000 % 256] + Bytes(w / 0x1_0000_0000, n)
    ensures Bytes(w, 0) == []
  {
    var a, b, c := w / 0x100, w / 0x1_0000, w / 0x100_0000;
    assert a / 0x100 == b && b / 0x100 == c && c / 0x100 == w / 0x1_0000_0000;
    assert Bytes(c, 1 + n) == [c % 256] + Bytes(c / 0x100, n);
    assert Bytes(b, 2 + n) == [b % 256] + Bytes(b / 0x100, 1 + n);
    assert Bytes(a, 3 + n) == [a % 256] + Bytes(a / 0x100, 2 + n);
    assert Bytes(w, 4 + n) == [w % 256] + Bytes(w / 0x100, 3 + n);
  }

  /** Items of one size are at multiples of it. */
  lemma {:induction false} ItemAt<T>(encode: T -> seq<Byte>, xs: seq<T>, size: nat, i: nat)
    requires forall k :: 0 <= k < |xs| ==> |encode(xs[k])| == size
    ensures |EncodeMany(encode, xs)| == |xs| * size
    ensures i < |xs| ==> 0 <= i * size <= (i + 1) * size <= |EncodeMany(encode, xs)|
    ensures i < |xs| ==> EncodeMany(encode, xs)[i * size..(i + 1) * size] == encode(xs[i])
  {
    if xs != [] {
      var k := |xs| - 1;
      ItemAt(encode, xs[..k], size, i);
      OneMore(k, size);
      OneMore(i, size);
      hide EncodeMany;
      LastItem(encode, xs);
      if i < k {
        AtMost(i + 1, k, size);
        assert EncodeMany(encode, xs)[i * size..(i + 1) * size] ==
               EncodeMany(encode, xs[..k])[i * size..(i + 1) * size];
      }
    }
  }

  lemma LastItem<T>(encode: T -> seq<Byte>, xs: seq<T>)
    requires xs != []
    ensures EncodeMany(encode, xs) == EncodeMany(encode, xs[..|xs| - 1]) + encode(xs[|xs| - 1])
  {
  }

  lemma OneMore(k: nat, size: nat)
    ensures 0 <= k * size && (k + 1) * size == k * size + size
  {
  }

  lemma AtMost(a: nat, b: nat, size: nat)
    requires a <= b
    ensures a * size <= b * size
  {
    assert b * size == a * size + (b - a) * size;
  }

  /** Items of any size are one behind the other. */
  lemma {:induction false} ItemBehind<T>(encode: T -> seq<Byte>, xs: seq<T>, i: nat)
    requires i < |xs|
    ensures EncodeMany(encode, xs[..i]) + encode(xs[i]) <= EncodeMany(encode, xs)
  {
    var k := |xs| - 1;
    if i < k {
      ItemBehind(encode, xs[..k], i);
      assert xs[..k][..i] == xs[..i];
    }
  }

  /** The words of a polynomial, row by row. */
  lemma PolyLayout(n: nat, p: seq<seq<Word>>, i: nat, j: nat)
    requires Rectangular(n, p)
    ensures |Polys()(p)| == |p| * (n * 8)
    ensures i < |p| && j < n ==>
              && i * (n * 8) + j * 8 + 8 <= |Polys()(p)|
              && Polys()(p)[i * (n * 8) + j * 8..i * (n * 8) + j * 8 + 8] == EncodeWord(p[i][j])
  {
    hide EncodeMany, EncodeWord;
    forall k | 0 <= k < |p| ensures |Rows()(p[k])| == n * 8 { ItemAt(Words(), p[k], 8, 0); }
    ItemAt(Rows(), p, n * 8, i);
    if i < |p| && j < n {
      OneMore(i, n * 8);
      ItemAt(Words(), p[i], 8, j);
      SliceOfSlice(Polys()(p), i * (n * 8), (i + 1) * (n * 8), j * 8, 8);
      assert Polys()(p)[i * (n * 8)..(i + 1) * (n * 8)] == Rows()(p[i]);
      assert Rows()(p[i])[j * 8..j * 8 + 8] == EncodeWord(p[i][j]);
    }
  }

  lemma SliceOfSlice<T>(s: seq<T>, a: nat, b: nat, i: nat, size: nat)
    requires a + i + size <= b <= |s|
    ensures s[a..b][i..i + size] == s[a + i..a + i + size]
  {
    var r := s[a..b];
    var x, y := r[i..i + size], s[a + i..a + i + size];
    forall k | 0 <= k < size ensures x[k] == y[k] { assert r[i + k] == s[a + (i + k)]; }
  }

  /** The level, then the words. */
  lemma PlainLayout(n: nat, pt: Plaintext, i: nat, j: nat)
    requires PlainShaped(n, pt) && i <= pt.level && j < n
    ensures |EncodePlain(pt)| == 8 + (pt.level + 1) * (n * 8) >= 8 + (i * (n * 8) + j * 8) + 8
    ensures EncodePlain(pt)[..8] == EncodeWord(pt.level)
    ensures EncodePlain(pt)[8 + (i * (n * 8) + j * 8)..8 + (i * (n * 8) + j * 8) + 8] == EncodeWord(pt.data[i][j])
  {
    hide Rectangular, EncodeWord;
    PolyLayout(n, pt.data, i, j);
    assert i < |pt.data|;
    SliceBehind(EncodeWord(pt.level), Polys()(pt.data), i * (n * 8) + j * 8, 8);
  }

  lemma SliceBehind<T>(a: seq<T>, b: seq<T>, i: nat, size: nat)
    requires i + size <= |b|
    ensures (a + b)[..|a|] == a
    ensures (a + b)[|a| + i..|a| + i + size] == b[i..i + size]
  {
  }

  /** Length and level, then the polynomials. */
  lemma CipherLayout(n: nat, ct: Ciphertext, k: nat)
    requires CipherShaped(n, ct) && k < |ct.data|
    ensures var size := (ct.level + 1) * (n * 8);
            && |EncodeCipher(ct)| == 16 + |ct.data| * size
            && 0 <= k * size <= (k + 1) * size <= |ct.data| * size
            && EncodeCipher(ct)[16 + k * size..16 + (k + 1) * size] == Polys()(ct.data[k])
    ensures EncodeCipher(ct)[..8] == EncodeWord(ct.length) && EncodeCipher(ct)[8..16] == EncodeWord(ct.level)
  {
    hide EncodeMany, EncodeWord;
    var size := (ct.level + 1) * (n * 8);
    forall m | 0 <= m < |ct.data| ensures |Polys()(ct.data[m])| == size { PolyLayout(n, ct.data[m], 0, 0); }
    ItemAt(Polys(), ct.data, size, k);
    var head := EncodeWord(ct.length) + EncodeWord(ct.level);
    OneMore(k, size);
    SliceBehind(head, EncodeMany(Polys(), ct.data), k * size, size);
    assert EncodeCipher(ct) == head + EncodeMany(Polys(), ct.data);
    assert head[..8] == EncodeWord(ct.length) && head[8..] == EncodeWord(ct.level);
  }

  /** Application, client and query number, the number of plaintexts and these, the
      number of ciphertexts and these, all in their order. */
  lemma QueryLayout(q: QueryC2S, i: nat)
    requires |q.pt| < TWO_TO_THE_64 && |q.ct| < TWO_TO_THE_64
    ensures |EncodeQuery(q)| >= 32 + |EncodeMany(Plains(), q.pt)| + 8
    ensures EncodeQuery(q)[..8] == EncodeWord(q.appId) && EncodeQuery(q)[8..16] == EncodeWord(q.clientId)
    ensures EncodeQuery(q)[16..24] == EncodeWord(q.queryId) && EncodeQuery(q)[24..32] == EncodeWord(|q.pt|)
    ensures i < |q.pt| ==>
              EncodeMany(Plains(), q.pt[..i]) + EncodePlain(q.pt[i]) <= EncodeQuery(q)[32..]
    ensures var c := 32 + |EncodeMany(Plains(), q.pt)|;
            && EncodeQuery(q)[c..c + 8] == EncodeWord(|q.ct|)
            && (i < |q.ct| ==> EncodeMany(Ciphers(), q.ct[..i]) + EncodeCipher(q.ct[i]) <= EncodeQuery(q)[c + 8..])
  {
    hide EncodeMany, EncodeWord, EncodePlain, EncodeCipher;
    var p, c := EncodeMany(Plains(), q.pt), EncodeMany(Ciphers(), q.ct);
    var tail := EncodeWord(|q.ct|) + c;
    var head := EncodeWord(q.appId) + EncodeWord(q.clientId) + EncodeWord(q.queryId) + EncodeWord(|q.pt|);
    assert EncodeQuery(q) == head + (p + tail);
    SliceBehind(head, p + tail, |p|, 8);
    assert EncodeQuery(q)[32..] == p + tail && EncodeQuery(q)[32 + |p| + 8..] == c;
    if i < |q.pt| { ItemBehind(Plains(), q.pt, i); }
    if i < |q.ct| { ItemBehind(Ciphers(), q.ct, i); }
  }
}
