/** Writing queries to a stream and reading them from one. */
module Streams {
  import opened Sequences
  import opened Operands
  import opened Codec

  /** Enough data for the level and the ring dimension: otherwise `at` throws. */
  predicate RowsCover(n: nat, level: Word, p: seq<seq<Word>>) {
    level < |p| && forall i :: 0 <= i <= level ==> n <= |p[i]|
  }

  class OutStream {
    var bytes: seq<Byte>

    constructor ()
      ensures bytes == []
    {
      bytes := [];
    }

    method WriteWord(w: Word)
      modifies this
      ensures bytes == old(bytes) + EncodeWord(w)
    {
      bytes := bytes + Bytes(w, 8);
    }

    /** The rows up to the level, `n` words of each; false where `at` throws. */
    method WriteRows(n: nat, level: Word, p: seq<seq<Word>>) returns (ok: bool)
      modifies this
      ensures ok <==> RowsCover(n, level, p)
      ensures |p| == level + 1 && Rectangular(n, p) ==> bytes == old(bytes) + Polys()(p)
    {
      hide EncodeMany;
      NoneEncoded(Rows());
      var i: nat := 0;
      while i <= level
        invariant i <= |p| && i <= level + 1
        invariant forall k :: 0 <= k < i ==> n <= |p[k]|
        invariant (forall k :: 0 <= k < i ==> |p[k]| == n) ==> bytes == old(bytes) + EncodeMany(Rows(), p[..i])
        decreases level + 1 - i
      {
        if i >= |p| { return false; }
        if |p[i]| < n { return false; }
        WriteRow(n, p[i]);
        OneMoreEncoded(Rows(), p, i);
        i := i + 1;
      }
      ok := true;
      assert |p| == level + 1 ==> p[..i] == p;
    }

    method WriteRow(n: nat, row: seq<Word>)
      requires n <= |row|
      modifies this
      ensures bytes == old(bytes) + EncodeMany(Words(), row[..n])
      ensures |row| == n ==> bytes == old(bytes) + Rows()(row)
    {
      hide EncodeMany;
      NoneEncoded(Words());
      for j := 0 to n
        invariant bytes == old(bytes) + EncodeMany(Words(), row[..j])
      {
        WriteWord(row[j]);
        OneMoreEncoded(Words(), row, j);
      }
      assert |row| == n ==> row[..n] == row;
    }

    method SavePlaintext(n: nat, pt: Plaintext) returns (ok: bool)
      modifies this
      ensures ok <==> RowsCover(n, pt.level, pt.data)
      ensures PlainShaped(n, pt) ==> bytes == old(bytes) + EncodePlain(pt)
    {
      WriteWord(pt.level);
      ok := WriteRows(n, pt.level, pt.data);
    }

    method SaveCiphertext(n: nat, ct: Ciphertext) returns (ok: bool)
      modifies this
      ensures ok <==> ct.length <= |ct.data| && forall k :: 0 <= k < ct.length ==> RowsCover(n, ct.level, ct.data[k])
      ensures CipherShaped(n, ct) ==> bytes == old(bytes) + EncodeCipher(ct)
    {
      hide EncodeMany, RowsCover;
      WriteWord(ct.length);
      WriteWord(ct.level);
      NoneEncoded(Polys());
      var k: nat := 0;
      while k < ct.length
        invariant k <= |ct.data| && k <= ct.length
        invariant forall i :: 0 <= i < k ==> RowsCover(n, ct.level, ct.data[i])
        invariant CipherShaped(n, ct) ==>
                    bytes == old(bytes) + EncodeWord(ct.length) + EncodeWord(ct.level) +
                               EncodeMany(Polys(), ct.data[..k])
      {
        if k >= |ct.data| { return false; }
        ShapedCovers(n, ct, k);
        var good := WriteRows(n, ct.level, ct.data[k]);
        if !good { return false; }
        OneMoreEncoded(Polys(), ct.data, k);
        k := k + 1;
      }
      ok := true;
      assert CipherShaped(n, ct) ==> ct.data[..k] == ct.data;
    }

    method WritePlaintexts(n: nat, p: seq<Plaintext>) returns (ok: bool)
      requires |p| < TWO_TO_THE_64
      modifies this
      ensures (forall i :: 0 <= i < |p| ==> PlainShaped(n, p[i])) ==>
                ok && bytes == old(bytes) + EncodeList(Plains(), p)
    {
      hide EncodeMany;
      WriteWord(|p|);
      NoneEncoded(Plains());
      for i := 0 to |p|
        invariant (forall k :: 0 <= k < |p| ==> PlainShaped(n, p[k])) ==>
                    bytes == old(bytes) + EncodeWord(|p|) + EncodeMany(Plains(), p[..i])
      {
        var good := SavePlaintext(n, p[i]);
        if !good { return false; }
        OneMoreEncoded(Plains(), p, i);
      }
      ok := true;
      assert p[..|p|] == p;
    }

    method WriteCiphertexts(n: nat, c: seq<Ciphertext>) returns (ok: bool)
      requires |c| < TWO_TO_THE_64
      modifies this
      ensures (forall i :: 0 <= i < |c| ==> CipherShaped(n, c[i])) ==>
                ok && bytes == old(bytes) + EncodeList(Ciphers(), c)
    {
      hide EncodeMany, EncodeCipher;
      WriteWord(|c|);
      NoneEncoded(Ciphers());
      for i := 0 to |c|
        invariant (forall k :: 0 <= k < |c| ==> CipherShaped(n, c[k])) ==>
                    bytes == old(bytes) + EncodeWord(|c|) + EncodeMany(Ciphers(), c[..i])
      {
        var good := SaveCiphertext(n, c[i]);
        if !good { return false; }
        OneMoreEncoded(Ciphers(), c, i);
      }
      ok := true;
      assert c[..|c|] == c;
    }

    /** False where the scheme is not known or `at` throws. */
    method WriteQuery(q: QueryC2S, schemes: Schemes) returns (ok: bool)
      requires |q.pt| < TWO_TO_THE_64 && |q.ct| < TWO_TO_THE_64
      modifies this
      ensures Sendable(q, schemes) ==> ok && bytes == old(bytes) + EncodeQuery(q)
    {
      hide EncodeList, PlainShaped, CipherShaped, EncodeWord;
      WriteWord(q.appId);
      WriteWord(q.clientId);
      WriteWord(q.queryId);
      var n := schemes(q.appId, q.clientId);
      if n == None { return false; }
      ok := WritePlaintexts(n.value, q.pt);
      if !ok { return; }
      ok := WriteCiphertexts(n.value, q.ct);
      Grouped(old(bytes), EncodeWord(q.appId), EncodeWord(q.clientId), EncodeWord(q.queryId),
              EncodeList(Plains(), q.pt), EncodeList(Ciphers(), q.ct));
    }
  }

  lemma Grouped<T>(z: seq<T>, a: seq<T>, b: seq<T>, c: seq<T>, d: seq<T>, e: seq<T>)
    ensures z + a + b + c + d + e == z + (a + (b + (c + (d + e))))
  {
  }

  lemma ShapedCovers(n: nat, ct: Ciphertext, k: nat)
    requires k < |ct.data|
    ensures CipherShaped(n, ct) ==> RowsCover(n, ct.level, ct.data[k])
  {
  }

  lemma NoneEncoded<T>(encode: T -> seq<Byte>)
    ensures EncodeMany(encode, []) == []
  {
  }

  lemma OneMoreEncoded<T>(encode: T -> seq<Byte>, xs: seq<T>, i: nat)
    requires i < |xs|
    ensures EncodeMany(encode, xs[..i + 1]) == EncodeMany(encode, xs[..i]) + encode(xs[i])
  {
    assert xs[..i + 1][..i] == xs[..i];
  }

  /** What a read returns and what it leaves, or that it cannot be completed. */
  ghost predicate Reads<T>(d: Decoded<T>, r: Option<T>, rest: seq<Byte>) {
    match d
    case None => r.None?
    case Some(p) => r == Some(p.0) && rest == p.1
  }

  class InStream {
    var rest: seq<Byte>

    constructor (bytes: seq<Byte>)
      ensures rest == bytes
    {
      rest := bytes;
    }

    method ReadWord() returns (r: Option<Word>)
      modifies this
      ensures Reads(DecodeWord(old(rest)), r, rest)
    {
      if |rest| < 8 { return None; }
      NumberBound(rest[..8]);
      EightBytes();
      r := Some(Number(rest[..8]));
      rest := rest[8..];
    }

    method ReadRow(n: nat) returns (r: Option<seq<Word>>)
      modifies this
      ensures Reads(UnRow(n)(old(rest)), r, rest)
    {
      var row: seq<Word> := [];
      for j := 0 to n
        invariant DecodeMany(UnWord(), j, old(rest)) == Some((row, rest))
      {
        var w := ReadWord();
        if w == None {
          DecodeManyStops(UnWord(), j + 1, n, old(rest));
          return None;
        }
        row := row + [w.value];
      }
      r := Some(row);
    }

    method ReadRows(n: nat, rows: nat) returns (r: Option<seq<seq<Word>>>)
      modifies this
      ensures Reads(UnPoly(n, rows)(old(rest)), r, rest)
    {
      var p: seq<seq<Word>> := [];
      for i := 0 to rows
        invariant DecodeMany(UnRow(n), i, old(rest)) == Some((p, rest))
      {
        var row := ReadRow(n);
        if row == None {
          DecodeManyStops(UnRow(n), i + 1, rows, old(rest));
          return None;
        }
        p := p + [row.value];
      }
      r := Some(p);
    }

    method LoadPlaintext(n: nat) returns (r: Option<Plaintext>)
      modifies this
      ensures Reads(DecodePlain(n, old(rest)), r, rest)
    {
      var level := ReadWord();
      if level == None || level.value == TWO_TO_THE_64 - 1 { return None; }
      var data := ReadRows(n, level.value + 1);
      if data == None { return None; }
      r := Some(Plaintext(level.value, data.value));
    }

    method LoadCiphertext(n: nat) returns (r: Option<Ciphertext>)
      modifies this
      ensures Reads(DecodeCipher(n, old(rest)), r, rest)
    {
      hide DecodeWord, DecodeMany;
      var length := ReadWord();
      if length == None { return None; }
      var level := ReadWord();
      if level == None || (level.value == TWO_TO_THE_64 - 1 && length.value > 0) { return None; }
      var data := ReadPolys(n, (level.value + 1) % TWO_TO_THE_64, length.value);
      if data == None { return None; }
      r := Some(Ciphertext(length.value, level.value, data.value));
    }

    method ReadPolys(n: nat, rows: nat, length: nat) returns (r: Option<seq<seq<seq<Word>>>>)
      modifies this
      ensures Reads(DecodeMany(UnPoly(n, rows), length, old(rest)), r, rest)
    {
      hide DecodeWord;
      ghost var start := rest;
      var data: seq<seq<seq<Word>>> := [];
      var k: nat := 0;
      while k < length
        invariant k <= length
        invariant DecodeMany(UnPoly(n, rows), k, start) == Some((data, rest))
      {
        var p := ReadRows(n, rows);
        if p == None {
          DecodeManyStops(UnPoly(n, rows), k + 1, length, start);
          return None;
        }
        data := data + [p.value];
        k := k + 1;
      }
      r := Some(data);
    }

    method ReadPlaintexts(n: nat) returns (r: Option<seq<Plaintext>>)
      modifies this
      ensures Reads(DecodeList(UnPlain(n), old(rest)), r, rest)
    {
      hide DecodePlain;
      var size := ReadWord();
      if size == None { return None; }
      ghost var start := rest;
      var p: seq<Plaintext> := [];
      var i: nat := 0;
      while i < size.value
        invariant i <= size.value && DecodeMany(UnPlain(n), i, start) == Some((p, rest))
      {
        var pt := LoadPlaintext(n);
        if pt == None {
          DecodeManyStops(UnPlain(n), i + 1, size.value, start);
          return None;
        }
        p := p + [pt.value];
        i := i + 1;
      }
      r := Some(p);
    }

    method ReadCiphertexts(n: nat) returns (r: Option<seq<Ciphertext>>)
      modifies this
      ensures Reads(DecodeList(UnCipher(n), old(rest)), r, rest)
    {
      hide DecodeCipher;
      var size := ReadWord();
      if size == None { return None; }
      ghost var start := rest;
      var c: seq<Ciphertext> := [];
      var i: nat := 0;
      while i < size.value
        invariant i <= size.value && DecodeMany(UnCipher(n), i, start) == Some((c, rest))
      {
        var ct := LoadCiphertext(n);
        if ct == None {
          DecodeManyStops(UnCipher(n), i + 1, size.value, start);
          return None;
        }
        c := c + [ct.value];
        i := i + 1;
      }
      r := Some(c);
    }

    method ReadQuery(schemes: Schemes) returns (r: Option<QueryC2S>)
      modifies this
      ensures Reads(DecodeQuery(schemes, old(rest)), r, rest)
    {
      hide DecodeWord, DecodeList;
      var ai := ReadWord();
      if ai == None { return None; }
      var ci := ReadWord();
      if ci == None { return None; }
      var qi := ReadWord();
      if qi == None { return None; }
      var n := schemes(ai.value, ci.value);
      if n == None { return None; }
      var p := ReadPlaintexts(n.value);
      if p == None { return None; }
      var c := ReadCiphertexts(n.value);
      if c == None { return None; }
      r := Some(QueryC2S(ai.value, ci.value, qi.value, p.value, c.value));
    }
  }

  /** Written and read back, whatever follows on the stream. */
  method SendAndReceive(q: QueryC2S, schemes: Schemes, suffix: seq<Byte>) returns (r: Option<QueryC2S>, left: seq<Byte>)
    requires Sendable(q, schemes)
    ensures r == Some(q) && left == suffix
  {
    var sender := new OutStream();
    var ok := sender.WriteQuery(q, schemes);
    assert sender.bytes == EncodeQuery(q);
    QueryRoundTrip(schemes, q, suffix);
    var receiver := new InStream(sender.bytes + suffix);
    r := receiver.ReadQuery(schemes);
    left := receiver.rest;
  }
}
