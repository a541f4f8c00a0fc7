/** Length-prefixed messages over a byte stream: the incremental decoder of the test
  * service (docker_test_service/simple.py), the blocking reader and the encoder of
  * edge_protocol.py, which the simulated user shares. */
module Framing {
  import opened Basics

  newtype byte = b: int | 0 <= b < 256
  type Bytes = seq<byte>

  // ---------------------------------------------------------------- lengths

  /** `pack('!i', n)`: four bytes, most significant first. */
  function Header(n: nat): (h: Bytes)
    requires n < 0x8000_0000
    ensures |h| == 4
  {
    [(n / 0x100_0000) as byte, (n / 0x1_0000 % 0x100) as byte, (n / 0x100 % 0x100) as byte, (n % 0x100) as byte]
  }

  /** A number from its bytes, most significant first. */
  function Unsigned(h: Bytes): (n: nat) {
    if h == [] then 0 else Unsigned(h[..|h| - 1]) * 0x100 + h[|h| - 1] as int
  }

  /** `unpack('!i', h)`: a signed number of 32 bits. */
  function Length(h: Bytes): int
    requires |h| == 4
  {
    var n := Unsigned(h);
    if n < 0x8000_0000 then n else n - 0x1_0000_0000
  }

  lemma UnsignedOfFour(a: byte, b: byte, c: byte, d: byte)
    ensures Unsigned([a, b, c, d]) == ((a as int * 0x100 + b as int) * 0x100 + c as int) * 0x100 + d as int
  {
    assert [a, b, c, d][..3] == [a, b, c] && [a, b, c][..2] == [a, b] && [a, b][..1] == [a] && [a][..0] == [];
    assert Unsigned([a]) == a as int;
    assert Unsigned([a, b, c]) == Unsigned([a, b]) * 0x100 + c as int;
  }

  /** A length is a number of 32 bits in two's complement. */
  lemma LengthIsSigned(a: byte, b: byte, c: byte, d: byte)
    ensures var n := Length([a, b, c, d]);
            && -0x8000_0000 <= n < 0x8000_0000
            && n + (if a < 128 then 0 else 0x1_0000_0000)
               == a as int * 0x100_0000 + b as int * 0x1_0000 + c as int * 0x100 + d as int
  {
    UnsignedOfFour(a, b, c, d);
  }

  lemma HeaderRoundTrip(n: nat)
    requires n < 0x8000_0000
    ensures Length(Header(n)) == n
  {
    var h := Header(n);
    UnsignedOfFour(h[0], h[1], h[2], h[3]);
    assert h == [h[0], h[1], h[2], h[3]];
    assert n / 0x1_0000 == (n / 0x100) / 0x100;
    assert n / 0x100_0000 == (n / 0x1_0000) / 0x100;
  }

  function Frame(p: Bytes): Bytes
    requires |p| < 0x8000_0000
  {
    Header(|p|) + p
  }

  ghost predicate Sendable(ps: seq<Bytes>) {
    forall p | p in ps :: |p| < 0x8000_0000
  }

  function Stream(ps: seq<Bytes>): Bytes
    requires Sendable(ps)
  {
    if ps == [] then [] else Frame(ps[0]) + Stream(ps[1..])
  }

  /** Empty messages are sent, but the decoder takes their length for "no message". */
  function NonEmpty(ps: seq<Bytes>): seq<Bytes> {
    if ps == [] then [] else (if ps[0] == [] then [] else [ps[0]]) + NonEmpty(ps[1..])
  }

  // ---------------------------------------------------------------- decoder

  /** `data[:n]` and `data[n:]`, where a negative `n` counts from the end. */
  function PyIndex(len: nat, n: int): (i: nat)
    ensures i <= len
  {
    if n >= 0 then if n <= len then n else len
    else if len + n >= 0 then len + n else 0
  }

  function PyTake(data: Bytes, n: int): Bytes {
    data[..PyIndex(|data|, n)]
  }

  function PyDrop(data: Bytes, n: int): Bytes {
    data[PyIndex(|data|, n)..]
  }

  datatype Decoder = Decoder(buf: Bytes, need: int, cnt: nat) {
    predicate Valid() {
      need == 0 ==> |buf| < 4
    }
  }

  datatype Fed = Fed(d: Decoder, out: seq<Bytes>)

  const START := Decoder([], 0, 0)

  /** What the decoder does with a chunk of data, and the messages it completes. */
  function Feed(d: Decoder, data: Bytes): (r: Fed)
    requires d.Valid()
    ensures r.d.Valid()
    ensures r.d.cnt == d.cnt + |r.out|
    decreases |data|, if d.need < 0 then 1 else 0
  {
    if data == [] then Fed(d, [])
    else if d.need == 0 then
      var missing := 4 - |d.buf|;
      if |data| < missing then Fed(d.(buf := d.buf + data), [])
      else Feed(Decoder([], Length(d.buf + data[..missing]), d.cnt), data[missing..])
    else if |data| < d.need then Fed(d.(buf := d.buf + data, need := d.need - |data|), [])
    else
      var r := Feed(Decoder([], 0, d.cnt + 1), PyDrop(data, d.need));
      Fed(r.d, [d.buf + PyTake(data, d.need)] + r.out)
  }

  /** The messages of `r` come after those that are out already. */
  function Onto(out: seq<Bytes>, r: Fed): Fed {
    Fed(r.d, out + r.out)
  }

  lemma FeedMessage(d: Decoder, data: Bytes, out: seq<Bytes>)
    requires data != [] && d.Valid() && d.need != 0 && |data| >= d.need
    ensures Onto(out, Feed(d, data))
            == Onto(out + [d.buf + PyTake(data, d.need)], Feed(Decoder([], 0, d.cnt + 1), PyDrop(data, d.need)))
  {
    var m, r := d.buf + PyTake(data, d.need), Feed(Decoder([], 0, d.cnt + 1), PyDrop(data, d.need));
    assert out + ([m] + r.out) == (out + [m]) + r.out;
  }

  function FeedAll(d: Decoder, chunks: seq<Bytes>): (r: Fed)
    requires d.Valid()
    ensures r.d.Valid()
    ensures r.d.cnt == d.cnt + |r.out|
    decreases |chunks|
  {
    if chunks == [] then Fed(d, [])
    else
      var first := Feed(d, chunks[0]);
      var rest := FeedAll(first.d, chunks[1..]);
      Fed(rest.d, first.out + rest.out)
  }

  function Concat(chunks: seq<Bytes>): Bytes {
    if chunks == [] then [] else chunks[0] + Concat(chunks[1..])
  }

  /** Whatever negative length the decoder reads from this data, it is followed by at
    * most that many bytes: then all of them count as "the last bytes" that a negative
    * index keeps, and they are read again. */
  predicate CutProof(d: Decoder, data: Bytes)
    requires d.Valid()
    decreases |data|, if d.need < 0 then 1 else 0
  {
    data == [] ||
    if d.need == 0 then
      var missing := 4 - |d.buf|;
      |data| < missing || CutProof(Decoder([], Length(d.buf + data[..missing]), d.cnt), data[missing..])
    else if d.need > 0 then
      |data| < d.need || CutProof(Decoder([], 0, d.cnt + 1), data[d.need..])
    else
      |data| <= -d.need && CutProof(Decoder([], 0, d.cnt + 1), data)
  }

  /** What the decoder does next, once a length is complete. */
  function AfterLength(d: Decoder, data: Bytes): Decoder
    requires d.Valid() && d.need == 0 && |data| >= 4 - |d.buf|
  {
    Decoder([], Length(d.buf + data[..4 - |d.buf|]), d.cnt)
  }

  /** The parts of Feed, for data that ends inside or after what is waited for. */
  lemma FeedLength(d: Decoder, data: Bytes)
    requires d.Valid() && d.need == 0 && |data| >= 4 - |d.buf|
    ensures Feed(d, data) == Feed(AfterLength(d, data), data[4 - |d.buf|..])
    ensures CutProof(d, data) <==> CutProof(AfterLength(d, data), data[4 - |d.buf|..])
  {
  }

  lemma FeedBody(d: Decoder, data: Bytes)
    requires 0 < d.need <= |data|
    ensures var r := Feed(Decoder([], 0, d.cnt + 1), data[d.need..]);
            Feed(d, data) == Fed(r.d, [d.buf + data[..d.need]] + r.out)
    ensures CutProof(d, data) <==> CutProof(Decoder([], 0, d.cnt + 1), data[d.need..])
  {
  }

  ghost predicate Splits(d: Decoder, a: Bytes, b: Bytes)
    requires d.Valid()
  {
    var first := Feed(d, a);
    var second := Feed(first.d, b);
    Feed(d, a + b) == Fed(second.d, first.out + second.out) && CutProof(first.d, b)
  }

  lemma SplitSilently(d: Decoder, a: Bytes, b: Bytes, d1: Decoder)
    requires d.Valid() && d1.Valid() && Feed(d, a) == Fed(d1, [])
    requires Feed(d, a + b) == Feed(d1, b) && CutProof(d1, b)
    ensures Splits(d, a, b)
  {
    assert [] + Feed(d1, b).out == Feed(d1, b).out;
  }

  lemma FeedLengthTo(d: Decoder, data: Bytes, next: Decoder, rest: Bytes)
    requires d.Valid() && d.need == 0 && |data| >= 4 - |d.buf|
    requires next == AfterLength(d, data) && rest == data[4 - |d.buf|..]
    ensures Feed(d, data) == Feed(next, rest)
    ensures CutProof(d, data) <==> CutProof(next, rest)
  {
    FeedLength(d, data);
  }

  lemma SplitInsideLength(d: Decoder, a: Bytes, b: Bytes)
    requires d.Valid() && d.need == 0 && 0 < |a| < 4 - |d.buf| <= |a + b| && CutProof(d, a + b)
    ensures Splits(d, a, b)
  {
    var d1, next, rest := d.(buf := d.buf + a), AfterLength(d, a + b), (a + b)[4 - |d.buf|..];
    FeedShort(d, a);
    SameLength(d, a, b);
    FeedLengthTo(d, a + b, next, rest);
    FeedLengthTo(d1, b, next, rest);
    SplitSilently(d, a, b, d1);
  }

  lemma SplitBeforeLength(d: Decoder, a: Bytes, b: Bytes)
    requires d.Valid() && d.need == 0 && a != [] && b != [] && |a + b| < 4 - |d.buf|
    ensures Splits(d, a, b)
  {
    var d1 := d.(buf := d.buf + a);
    FeedShort(d, a);
    FeedShort(d, a + b);
    FeedShort(d1, b);
    assert d.buf + (a + b) == d1.buf + b;
    SplitSilently(d, a, b, d1);
  }

  lemma FeedShort(d: Decoder, data: Bytes)
    requires d.Valid() && d.need == 0 && 0 < |data| < 4 - |d.buf|
    ensures Feed(d, data) == Fed(d.(buf := d.buf + data), []) && CutProof(d, data)
  {
  }

  /** A length cut in two is read as if it were whole. */
  lemma SameLength(d: Decoder, a: Bytes, b: Bytes)
    requires d.Valid() && d.need == 0 && |a| < 4 - |d.buf| <= |a + b|
    ensures AfterLength(d, a + b) == AfterLength(d.(buf := d.buf + a), b)
    ensures (a + b)[4 - |d.buf|..] == b[4 - |d.buf + a|..]
  {
    assert d.buf + (a + b)[..4 - |d.buf|] == (d.buf + a) + b[..4 - |d.buf + a|];
  }

  lemma FeedPiece(d: Decoder, data: Bytes)
    requires 0 < |data| < d.need
    ensures Feed(d, data) == Fed(d.(buf := d.buf + data, need := d.need - |data|), []) && CutProof(d, data)
  {
  }

  /** A body cut in two is read as if it were whole. */
  lemma SameBody(buf: Bytes, a: Bytes, b: Bytes, n: nat)
    requires |a| < n <= |a + b|
    ensures buf + (a + b)[..n] == (buf + a) + b[..n - |a|]
    ensures (a + b)[n..] == b[n - |a|..]
  {
    assert (a + b)[..n] == a + b[..n - |a|];
  }

  lemma SplitInsideBody(d: Decoder, a: Bytes, b: Bytes)
    requires 0 < |a| < d.need <= |a + b| && CutProof(d, a + b)
    ensures Splits(d, a, b)
  {
    var d1 := d.(buf := d.buf + a, need := d.need - |a|);
    FeedPiece(d, a);
    SameBody(d.buf, a, b, d.need);
    FeedBody(d, a + b);
    FeedBody(d1, b);
    SplitSilently(d, a, b, d1);
  }

  lemma SplitBeforeEnd(d: Decoder, a: Bytes, b: Bytes)
    requires a != [] && b != [] && |a + b| < d.need
    ensures Splits(d, a, b)
  {
    var d1 := d.(buf := d.buf + a, need := d.need - |a|);
    FeedPiece(d, a);
    FeedPiece(d, a + b);
    FeedPiece(d1, b);
    assert d.buf + (a + b) == d1.buf + b;
    SplitSilently(d, a, b, d1);
  }

  lemma SplitAfterLength(d: Decoder, a: Bytes, b: Bytes)
    requires d.Valid() && d.need == 0 && |a| >= 4 - |d.buf|
    requires Splits(AfterLength(d, a), a[4 - |d.buf|..], b)
    ensures Splits(d, a, b)
  {
    SameStart(a, b, 4 - |d.buf|);
    FeedLength(d, a + b);
    FeedLength(d, a);
  }

  lemma SplitAfterBody(d: Decoder, a: Bytes, b: Bytes)
    requires 0 < d.need <= |a|
    requires Splits(Decoder([], 0, d.cnt + 1), a[d.need..], b)
    ensures Splits(d, a, b)
  {
    SameStart(a, b, d.need);
    FeedBody(d, a + b);
    FeedBody(d, a);
  }

  lemma SameStart(a: Bytes, b: Bytes, n: nat)
    requires n <= |a|
    ensures (a + b)[..n] == a[..n] && (a + b)[n..] == a[n..] + b
  {
  }

  /** Two chunks are as good as one. */
  lemma {:induction false} FeedSplit(d: Decoder, a: Bytes, b: Bytes)
    requires d.Valid() && CutProof(d, a + b)
    ensures Splits(d, a, b)
    decreases |a|, if d.need < 0 then 1 else 0
  {
    if a == [] {
      assert a + b == b;
      SplitSilently(d, a, b, d);
    } else if b == [] {
      assert a + b == a;
    } else if d.need == 0 {
      if |a| >= 4 - |d.buf| {
        SameStart(a, b, 4 - |d.buf|);
        FeedLength(d, a + b);
        FeedSplit(AfterLength(d, a), a[4 - |d.buf|..], b);
        SplitAfterLength(d, a, b);
      } else if |a + b| >= 4 - |d.buf| {
        SplitInsideLength(d, a, b);
      } else {
        SplitBeforeLength(d, a, b);
      }
    } else if d.need < 0 {
      FeedNegative(d, a + b);
      FeedSplit(Decoder([], 0, d.cnt + 1), a, b);
      SplitAfterNegative(d, a, b);
    } else if |a| >= d.need {
      SameStart(a, b, d.need);
      FeedBody(d, a + b);
      FeedSplit(Decoder([], 0, d.cnt + 1), a[d.need..], b);
      SplitAfterBody(d, a, b);
    } else if |a + b| >= d.need {
      SplitInsideBody(d, a, b);
    } else {
      SplitBeforeEnd(d, a, b);
    }
  }

  /** A negative length before few enough bytes counts an empty message. */
  lemma FeedNegative(d: Decoder, data: Bytes)
    requires d.need < 0 && 0 < |data| <= -d.need
    ensures var r := Feed(Decoder([], 0, d.cnt + 1), data);
            Feed(d, data) == Fed(r.d, [d.buf] + r.out)
    ensures CutProof(d, data) <==> CutProof(Decoder([], 0, d.cnt + 1), data)
  {
    assert PyTake(data, d.need) == [] && PyDrop(data, d.need) == data;
    assert d.buf + [] == d.buf;
  }

  lemma SplitAfterNegative(d: Decoder, a: Bytes, b: Bytes)
    requires d.need < 0 && a != [] && |a + b| <= -d.need
    requires Splits(Decoder([], 0, d.cnt + 1), a, b)
    ensures Splits(d, a, b)
  {
    FeedNegative(d, a + b);
    FeedNegative(d, a);
  }

  /** Any cutting of cut-proof data gives the same messages and the same state. */
  lemma {:induction false} CutProofSuffices(d: Decoder, chunks: seq<Bytes>)
    requires d.Valid() && CutProof(d, Concat(chunks))
    ensures FeedAll(d, chunks) == Feed(d, Concat(chunks))
    decreases |chunks|
  {
    if chunks == [] {
    } else {
      FeedSplit(d, chunks[0], Concat(chunks[1..]));
      CutProofSuffices(Feed(d, chunks[0]).d, chunks[1..]);
    }
  }

  /** The messages that come out when the data is cut at `k`. */
  function CutOut(d: Decoder, data: Bytes, k: nat): seq<Bytes>
    requires d.Valid() && k <= |data|
  {
    var first := Feed(d, data[..k]);
    first.out + Feed(first.d, data[k..]).out
  }

  ghost predicate BadAt(d: Decoder, data: Bytes, k: nat)
    requires d.Valid()
  {
    0 < k < |data| && CutOut(d, data, k) != Feed(d, data).out
  }

  /** All other data has a place where a cut changes the messages: one byte after the
    * first negative length with too much behind it. */
  lemma {:induction false} BadCut(d: Decoder, data: Bytes) returns (k: nat)
    requires d.Valid() && !CutProof(d, data)
    ensures BadAt(d, data, k)
    decreases |data|, if d.need < 0 then 1 else 0
  {
    if d.need == 0 {
      BadBeyondLength(d, data);
      var j := BadCut(AfterLength(d, data), data[4 - |d.buf|..]);
      k := 4 - |d.buf| + j;
      BadAfterLength(d, data, j);
    } else if d.need > 0 {
      BadBeyondBody(d, data);
      var j := BadCut(Decoder([], 0, d.cnt + 1), data[d.need..]);
      k := d.need + j;
      BadAfterBody(d, data, j);
    } else if |data| <= -d.need {
      FeedNegative(d, data);
      k := BadCut(Decoder([], 0, d.cnt + 1), data);
      BadAfterNegative(d, data, k);
    } else {
      k := 1;
      BadHere(d, data);
    }
  }

  lemma BadBeyondLength(d: Decoder, data: Bytes)
    requires d.Valid() && d.need == 0 && !CutProof(d, data)
    ensures |data| >= 4 - |d.buf| && AfterLength(d, data).Valid() &&
            !CutProof(AfterLength(d, data), data[4 - |d.buf|..])
  {
  }

  lemma BadBeyondBody(d: Decoder, data: Bytes)
    requires d.need > 0 && !CutProof(d, data)
    ensures |data| >= d.need && !CutProof(Decoder([], 0, d.cnt + 1), data[d.need..])
  {
  }

  lemma BadAfterLength(d: Decoder, data: Bytes, j: nat)
    requires d.Valid() && d.need == 0 && |data| >= 4 - |d.buf| && BadAt(AfterLength(d, data), data[4 - |d.buf|..], j)
    ensures BadAt(d, data, 4 - |d.buf| + j)
  {
    FeedLength(d, data);
    CutBeyondLength(d, data, j);
  }

  lemma CutBeyondLength(d: Decoder, data: Bytes, j: nat)
    requires d.Valid() && d.need == 0 && 4 - |d.buf| + j <= |data|
    ensures CutOut(d, data, 4 - |d.buf| + j) == CutOut(AfterLength(d, data), data[4 - |d.buf|..], j)
  {
    var m := 4 - |d.buf|;
    CutLater(data, m, j);
    FeedLength(d, data[..m + j]);
    assert AfterLength(d, data[..m + j]) == AfterLength(d, data);
  }

  lemma BadAfterBody(d: Decoder, data: Bytes, j: nat)
    requires 0 < d.need <= |data| && BadAt(Decoder([], 0, d.cnt + 1), data[d.need..], j)
    ensures BadAt(d, data, d.need + j)
  {
    CutLater(data, d.need, j);
    FeedBody(d, data);
    FeedBody(d, data[..d.need + j]);
    var r := Feed(Decoder([], 0, d.cnt + 1), data[d.need..][..j]);
    OneMore(d.buf + data[..d.need], r.out, Feed(r.d, data[d.need + j..]).out,
            Feed(Decoder([], 0, d.cnt + 1), data[d.need..]).out);
  }

  lemma BadAfterNegative(d: Decoder, data: Bytes, k: nat)
    requires d.need < 0 && |data| <= -d.need && BadAt(Decoder([], 0, d.cnt + 1), data, k)
    ensures BadAt(d, data, k)
  {
    FeedNegative(d, data);
    FeedNegative(d, data[..k]);
    var r := Feed(Decoder([], 0, d.cnt + 1), data[..k]);
    OneMore(d.buf, r.out, Feed(r.d, data[k..]).out, Feed(Decoder([], 0, d.cnt + 1), data).out);
  }

  /** The whole data gives a message of what precedes the last bytes; one byte gives an
    * empty one. */
  lemma BadHere(d: Decoder, data: Bytes)
    requires d.need < 0 && |data| > -d.need
    ensures BadAt(d, data, 1)
  {
    FeedNegative(d, data[..1]);
    assert Feed(d, data).out[0] == d.buf + PyTake(data, d.need);
    assert CutOut(d, data, 1)[0] == d.buf;
  }

  /** The same message before two lists keeps them apart. */
  lemma OneMore(message: Bytes, a: seq<Bytes>, b: seq<Bytes>, whole: seq<Bytes>)
    ensures ([message] + a) + b == [message] + (a + b)
    ensures a + b != whole ==> [message] + (a + b) != [message] + whole
  {
    assert ([message] + (a + b))[1..] == a + b && ([message] + whole)[1..] == whole;
  }

  lemma CutLater(data: Bytes, m: nat, j: nat)
    requires m + j <= |data|
    ensures data[..m + j][..m] == data[..m] && data[..m + j][m..] == data[m..][..j] && data[m + j..] == data[m..][j..]
  {
  }

  /** Chunk invariance, exactly: the messages do not depend on how the stream is cut if
    * and only if every negative length in it is followed by at most that many bytes.
    * In particular they never do without negative lengths. */
  lemma ChunkInvariance(d: Decoder, data: Bytes)
    requires d.Valid()
    ensures CutProof(d, data) <==> forall chunks | Concat(chunks) == data :: FeedAll(d, chunks).out == Feed(d, data).out
    ensures CutProof(d, data) ==> forall chunks | Concat(chunks) == data :: FeedAll(d, chunks) == Feed(d, data)
  {
    if CutProof(d, data) {
      forall chunks | Concat(chunks) == data
        ensures FeedAll(d, chunks) == Feed(d, data)
      {
        CutProofSuffices(d, chunks);
      }
    } else {
      var k := BadCut(d, data);
      TwoChunks(d, data[..k], data[k..]);
      assert data[..k] + data[k..] == data;
      assert Concat([data[..k], data[k..]]) == data;
    }
  }

  lemma TwoChunks(d: Decoder, a: Bytes, b: Bytes)
    requires d.Valid()
    ensures Concat([a, b]) == a + b
    ensures FeedAll(d, [a, b]).out == Feed(d, a).out + Feed(Feed(d, a).d, b).out
  {
    assert [a, b][1..] == [b] && [b][1..] == [];
    assert Concat([b]) == b + Concat([]) == b;
    var first := Feed(d, a);
    assert FeedAll(first.d, [b]).out == Feed(first.d, b).out + [];
  }

  /** An instance: the length -1 before two bytes. */
  lemma NegativeLengthBreaksIt()
    ensures var header: Bytes := [255, 255, 255, 255];
            !CutProof(START, header + [1, 2]) && CutProof(START, header + [1])
  {
    var header: Bytes := [255, 255, 255, 255];
    UnsignedOfFour(255, 255, 255, 255);
    AfterHeader(header, [1, 2]);
    AfterHeader(header, [1]);
    assert CutProof(Decoder([], 0, 1), [1]);
  }

  lemma AfterHeader(header: Bytes, rest: Bytes)
    requires |header| == 4
    ensures CutProof(START, header + rest) <==> CutProof(Decoder([], Length(header), 0), rest)
  {
    FeedLength(START, header + rest);
    assert [] + (header + rest)[..4] == header && (header + rest)[4..] == rest;
  }

  // -------------------------------------------------------------- round trip

  lemma FeedFrame(cnt: nat, p: Bytes, rest: Bytes)
    requires |p| < 0x8000_0000
    ensures var r := Feed(Decoder([], 0, if p == [] then cnt else cnt + 1), rest);
            Feed(Decoder([], 0, cnt), Frame(p) + rest) == Fed(r.d, NonEmpty([p]) + r.out)
    ensures CutProof(Decoder([], 0, if p == [] then cnt else cnt + 1), rest) ==>
              CutProof(Decoder([], 0, cnt), Frame(p) + rest)
  {
    HeaderRoundTrip(|p|);
    var data := Frame(p) + rest;
    assert [] + data[..4] == Header(|p|);
    assert data[4..] == p + rest;
    if p == [] {
      assert p + rest == rest;
    } else {
      assert (p + rest)[..|p|] == p && (p + rest)[|p|..] == rest;
      assert [] + p == p;
      assert NonEmpty([p]) == [p] by { assert [p][1..] == []; }
    }
    if rest == [] && p == [] {
      assert data[4..] == [];
    }
  }

  /** A message that has not arrived completely. */
  ghost predicate Partial(tail: Bytes, p: Bytes)
    requires |p| < 0x8000_0000
  {
    |tail| < |Frame(p)| && tail == Frame(p)[..|tail|]
  }

  lemma FeedPartial(cnt: nat, tail: Bytes, p: Bytes)
    requires |p| < 0x8000_0000 && Partial(tail, p)
    ensures Feed(Decoder([], 0, cnt), tail).out == []
    ensures CutProof(Decoder([], 0, cnt), tail)
  {
    HeaderRoundTrip(|p|);
    if |tail| >= 4 {
      assert [] + tail[..4] == Header(|p|);
      assert |tail[4..]| < |p|;
    }
  }

  lemma {:induction false} NonEmptyHead(ps: seq<Bytes>)
    requires ps != []
    ensures NonEmpty(ps) == NonEmpty([ps[0]]) + NonEmpty(ps[1..])
  {
    assert [ps[0]][1..] == [];
  }

  lemma {:induction false} DecodeStream(cnt: nat, ps: seq<Bytes>, tail: Bytes, last: Bytes)
    requires Sendable(ps) && |last| < 0x8000_0000 && Partial(tail, last)
    ensures CutProof(Decoder([], 0, cnt), Stream(ps) + tail)
    ensures Feed(Decoder([], 0, cnt), Stream(ps) + tail).out == NonEmpty(ps)
    decreases |ps|
  {
    if ps == [] {
      assert Stream(ps) + tail == tail;
      FeedPartial(cnt, tail, last);
    } else {
      assert Stream(ps) + tail == Frame(ps[0]) + (Stream(ps[1..]) + tail);
      DecodeStream(if ps[0] == [] then cnt else cnt + 1, ps[1..], tail, last);
      FeedFrame(cnt, ps[0], Stream(ps[1..]) + tail);
      NonEmptyHead(ps);
    }
  }

  /** The round trip: however the stream is cut, and although a last message may be
    * incomplete, exactly the complete non-empty messages come out, in order, and the
    * counter says how many they are. */
  lemma RoundTrip(ps: seq<Bytes>, tail: Bytes, last: Bytes, chunks: seq<Bytes>)
    requires Sendable(ps) && |last| < 0x8000_0000 && Partial(tail, last)
    requires Concat(chunks) == Stream(ps) + tail
    ensures FeedAll(START, chunks).out == NonEmpty(ps)
    ensures FeedAll(START, chunks).d.cnt == |NonEmpty(ps)|
    ensures (forall p | p in ps :: p != []) ==> NonEmpty(ps) == ps
  {
    DecodeStream(0, ps, tail, last);
    CutProofSuffices(START, chunks);
    if forall p | p in ps :: p != [] {
      AllNonEmpty(ps);
    }
  }

  lemma {:induction false} AllNonEmpty(ps: seq<Bytes>)
    requires forall p | p in ps :: p != []
    ensures NonEmpty(ps) == ps
  {
    if ps == [] {
    } else {
      assert forall p | p in ps[1..] :: p in ps;
      AllNonEmpty(ps[1..]);
      assert ps[0] in ps && ps == [ps[0]] + ps[1..];
    }
  }

  /** The decoder of one connection. */
  class TCPServer {
    var buf: Bytes
    var byteToRead: int
    var cnt: nat

    function View(): Decoder reads this {
      Decoder(buf, byteToRead, cnt)
    }

    /** `connection_made`. */
    constructor ()
      ensures View() == START
    {
      buf, byteToRead, cnt := [], 0, 0;
    }

    method DataReceived(chunk: Bytes) returns (out: seq<Bytes>)
      requires View().Valid()
      modifies this
      ensures View().Valid()
      ensures Fed(View(), out) == Feed(old(View()), chunk)
    {
      var data := chunk;
      out := [];
      while |data| != 0
        invariant View().Valid()
        invariant Feed(old(View()), chunk) == Onto(out, Feed(View(), data))
        decreases |data|, if byteToRead < 0 then 1 else 0
      {
        if byteToRead == 0 {
          if |data| < 4 - |buf| {
            buf := buf + data;
            data := [];
          } else {
            var lenBuf := |buf|;
            buf := buf + data[..4 - lenBuf];
            data := data[4 - lenBuf..];
            byteToRead := Length(buf);
            buf := [];
          }
        } else if |data| < byteToRead {
          buf := buf + data;
          byteToRead := byteToRead - |data|;
          data := [];
        } else {
          FeedMessage(View(), data, out);
          buf := buf + PyTake(data, byteToRead);
          out := out + [buf];
          buf := [];
          if |data| > byteToRead {
            data := PyDrop(data, byteToRead);
          } else {
            data := [];
          }
          byteToRead := 0;
          cnt := cnt + 1;
        }
      }
    }
  }

  // --------------------------------------------------------- blocking reader

  /** The first message as the blocking reader understands it; None when it waits for
    * bytes that never come. Lengths of zero and below give the empty message. */
  function FirstMessage(stream: Bytes): Option<Bytes> {
    if |stream| < 4 then None
    else
      var n := Length(stream[..4]);
      if n <= 0 then Some([]) else if |stream| < 4 + n then None else Some(stream[4..4 + n])
  }

  /** A connection that hands out what was sent in pieces of any size. */
  class Connection {
    var stream: Bytes

    constructor (s: Bytes)
      ensures stream == s
    {
      stream := s;
    }

    /** Between one and `n` bytes, or None when nothing more will ever arrive. */
    method Recv(n: nat) returns (piece: Option<Bytes>)
      requires n > 0
      modifies this
      ensures piece.None? <==> old(stream) == []
      ensures piece.None? ==> stream == old(stream)
      ensures piece.Some? ==> 0 < |piece.value| <= n && old(stream) == piece.value + stream
    {
      if |stream| == 0 {
        return None;
      }
      var k: nat :| 0 < k <= n && k <= |stream|;
      piece := Some(stream[..k]);
      stream := stream[k..];
    }
  }

  lemma MessageCutOff(all: Bytes, header: Bytes, data: Bytes)
    requires |header| == 4 && all == header + data + [] && |data| < Length(header)
    ensures FirstMessage(all).None?
  {
    assert all[..4] == header;
  }

  lemma MessageComplete(all: Bytes, header: Bytes, data: Bytes, rest: Bytes)
    requires |header| == 4 && all == header + data + rest
    requires |data| == if Length(header) > 0 then Length(header) else 0
    ensures FirstMessage(all) == Some(data)
  {
    assert all[..4] == header;
    assert all[4..4 + |data|] == data;
  }

  /** `EdgeTCPServer.client_thread`, up to `on_msg`. */
  method ClientThread(conn: Connection) returns (msg: Option<Bytes>)
    modifies conn
    ensures msg == FirstMessage(old(conn.stream))
  {
    ghost var all := conn.stream;
    var buf: Bytes := [];
    while |buf| < 4
      invariant |buf| <= 4 && all == buf + conn.stream
    {
      var piece := conn.Recv(4 - |buf|);
      if piece.None? {
        return None;
      }
      buf := buf + piece.value;
    }
    var length := Length(buf);
    var data: Bytes := [];
    while |data| < length
      invariant |data| <= length || data == []
      invariant all == buf + data + conn.stream
    {
      var toRead := length - |data|;
      var piece := conn.Recv(if toRead > 4096 then 4096 else toRead);
      if piece.None? {
        MessageCutOff(all, buf, data);
        return None;
      }
      data := data + piece.value;
    }
    MessageComplete(all, buf, data, conn.stream);
    msg := Some(data);
  }

  /** The two readers agree on the first message exactly when it is not empty. */
  lemma ReadersAgree(p: Bytes, rest: Bytes)
    requires |p| < 0x8000_0000
    ensures FirstMessage(Frame(p) + rest) == Some(p)
    ensures p != [] ==> Feed(START, Frame(p) + rest).out != [] && Feed(START, Frame(p) + rest).out[0] == p
    ensures p == [] ==> Feed(START, Frame(p) + rest) == Feed(START, rest)
  {
    HeaderRoundTrip(|p|);
    var stream := Frame(p) + rest;
    assert stream[..4] == Header(|p|);
    assert stream[4..4 + |p|] == p;
    FeedFrame(0, p, rest);
    if p != [] {
      assert [p][1..] == [];
    }
  }

  // ---------------------------------------------------------------- commands

  /** The position of the first `c`. */
  function Find(s: string, c: char): (i: nat)
    ensures i <= |s| && c !in s[..i] && (i < |s| ==> s[i] == c)
  {
    if s == [] || s[0] == c then 0 else 1 + Find(s[1..], c)
  }

  /** `prepare_msg` before encoding: the command, a space, and the payload. */
  function Command(kind: string, payload: string): string {
    kind + " " + payload
  }

  /** `line.split(' ', 1)` into a command and its payload; None without a space. */
  function SplitCommand(line: string): Option<(string, string)> {
    var i := Find(line, ' ');
    if i == |line| then None else Some((line[..i], line[i + 1..]))
  }

  lemma {:induction false} FindFirst(s: string, c: char, j: nat)
    requires j < |s| && s[j] == c
    ensures Find(s, c) <= j
  {
    if s[0] == c {
    } else {
      FindFirst(s[1..], c, j - 1);
    }
  }

  /** Commands survive exactly when their names contain no space. */
  lemma CommandRoundTrip(kind: string, payload: string)
    ensures SplitCommand(Command(kind, payload)) == Some((kind, payload)) <==> ' ' !in kind
  {
    var line := Command(kind, payload);
    var i := Find(line, ' ');
    FindFirst(line, ' ', |kind|);
    assert line[..|kind|] == kind && line[|kind| + 1..] == payload;
    if i < |kind| {
      assert kind[i] == line[i] == ' ';
    } else {
      assert line[..i] == kind;
    }
  }
}
