/** Blocks, their encoding, and their split into chunks
    (crates/primitives/types/src/block.rs, crates/primitives/types/src/util.rs). */
module Block {
  import opened Wrappers
  import opened Algebra
  import opened Wire

  const MAX_TRANSACTIONS_BYTES := 16 * 1024 * 1024
  const DATA_BYTES := 31

  type u64 = x: int | 0 <= x < 0x1_0000_0000_0000_0000

  datatype Block = Block(parentHash: seq<byte>, number: u64, timestamp: u64, gasUsed: u64, gasLimit: u64,
                         stateRoot: seq<byte>, transactions: seq<byte>)
  {
    predicate IsBlock() { |parentHash| == 32 == |stateRoot| && |transactions| < 0x1_0000_0000 }
  }

  /** The library's length prefix: read back whatever follows it, at most four bytes for any
      permitted length, and not readable when cut short. */
  datatype LengthCodec = LengthCodec(write: nat -> seq<byte>, read: seq<byte> -> Parsed<nat>)
  {
    ghost predicate IsPrefix() {
      && (forall k: nat, rest: seq<byte> {:trigger At2(k, rest)} :: At2(k, rest) && k < 0x1_0000_0000 ==>
            read(write(k) + rest) == Success((k, rest)))
      && (forall k: nat {:trigger write(k)} :: k <= MAX_TRANSACTIONS_BYTES ==> |write(k)| <= 4)
      && (forall k: nat, cut: nat {:trigger At2(k, cut)} :: At2(k, cut) && k < 0x1_0000_0000 && cut < |write(k)| ==>
            read(write(k)[..cut]).Failure?)
    }
  }

  // ---------- codec ----------

  function WriteBlock(lc: LengthCodec, b: Block): seq<byte> {
    b.parentHash + (ToBE(b.number, 8) + (ToBE(b.timestamp, 8) + (ToBE(b.gasUsed, 8) + (ToBE(b.gasLimit, 8)
      + (b.stateRoot + (lc.write(|b.transactions|) + b.transactions))))))
  }

  function ReadU64(buf: seq<byte>): Parsed<u64> {
    if |buf| < 8 then Failure("end of buffer") else
      BEBound(buf[..8], 8);
      Pow256Values();
      Success((FromBE(buf[..8]), buf[8..]))
  }

  function ReadBytes(k: nat, buf: seq<byte>): Parsed<seq<byte>> {
    if |buf| < k then Failure("end of buffer") else Success((buf[..k], buf[k..]))
  }

  function ReadBlock(lc: LengthCodec, buf: seq<byte>): (r: Parsed<Block>)
    ensures r.Success? ==> |r.value.0.transactions| <= MAX_TRANSACTIONS_BYTES
  {
    var (parentHash, r0) :- ReadBytes(32, buf);
    var (number, r1) :- ReadU64(r0);
    var (timestamp, r2) :- ReadU64(r1);
    var (gasUsed, r3) :- ReadU64(r2);
    var (gasLimit, r4) :- ReadU64(r3);
    var (stateRoot, r5) :- ReadBytes(32, r4);
    var (transactions, r6) :- ReadTransactions(lc, r5);
    Success((Block(parentHash, number, timestamp, gasUsed, gasLimit, stateRoot, transactions), r6))
  }

  /** A length-prefixed payload, refused beyond the limit. */
  function ReadTransactions(lc: LengthCodec, buf: seq<byte>): (r: Parsed<seq<byte>>)
    ensures r.Success? ==> |r.value.0| <= MAX_TRANSACTIONS_BYTES
  {
    var (count, rest) :- lc.read(buf);
    if count > MAX_TRANSACTIONS_BYTES then Failure("invalid length") else ReadBytes(count, rest)
  }

  lemma TransactionsRoundTrip(lc: LengthCodec, tx: seq<byte>, rest: seq<byte>)
    requires lc.IsPrefix() && |tx| < 0x1_0000_0000
    ensures var buf := lc.write(|tx|) + (tx + rest);
      ReadTransactions(lc, buf) == Success((tx, rest)) <==> |tx| <= MAX_TRANSACTIONS_BYTES
  {
    var count: nat := |tx|;
    assert At2(count, tx + rest);
    BytesRoundTrip(tx, rest);
  }

  lemma {:induction false} BEBound(bs: seq<byte>, k: nat)
    requires |bs| == k
    ensures FromBE(bs) < Pow256(k)
  {
    if k > 0 { BEBound(bs[..k - 1], k - 1); }
  }

  lemma U64RoundTrip(v: u64, rest: seq<byte>)
    ensures ReadU64(ToBE(v, 8) + rest) == Success((v, rest))
  {
    Pow256Values();
    BERoundTrip(v, 8);
    assert (ToBE(v, 8) + rest)[..8] == ToBE(v, 8) && (ToBE(v, 8) + rest)[8..] == rest;
  }

  lemma BytesRoundTrip(bs: seq<byte>, rest: seq<byte>)
    ensures ReadBytes(|bs|, bs + rest) == Success((bs, rest))
  {
    assert (bs + rest)[..|bs|] == bs && (bs + rest)[|bs|..] == rest;
  }

  /** Reading what starts with a block's header leaves the transactions to be read. */
  lemma HeaderRoundTrip(lc: LengthCodec, b: Block, tail: seq<byte>)
    requires b.IsBlock()
    ensures var r := ReadBlock(lc, b.parentHash + (ToBE(b.number, 8) + (ToBE(b.timestamp, 8) + (ToBE(b.gasUsed, 8)
        + (ToBE(b.gasLimit, 8) + (b.stateRoot + tail))))));
      match ReadTransactions(lc, tail)
      case Failure(e) => r == Failure(e)
      case Success((tx, rest)) => r == Success((b.(transactions := tx), rest))
  {
    var r4 := b.stateRoot + tail;
    var r3 := ToBE(b.gasLimit, 8) + r4;
    var r2 := ToBE(b.gasUsed, 8) + r3;
    var r1 := ToBE(b.timestamp, 8) + r2;
    var r0 := ToBE(b.number, 8) + r1;
    BytesRoundTrip(b.parentHash, r0);
    U64RoundTrip(b.number, r1);
    U64RoundTrip(b.timestamp, r2);
    U64RoundTrip(b.gasUsed, r3);
    U64RoundTrip(b.gasLimit, r4);
    BytesRoundTrip(b.stateRoot, tail);
  }

  /** What follows a block's encoding follows its transactions. */
  lemma TailOf(lc: LengthCodec, b: Block, rest: seq<byte>)
    requires b.IsBlock()
    ensures WriteBlock(lc, b) + rest == b.parentHash + (ToBE(b.number,
      8) + (ToBE(b.timestamp, 8) + (ToBE(b.gasUsed, 8)
      + (ToBE(b.gasLimit, 8) + (b.stateRoot + (lc.write(|b.transactions|) + (b.transactions + rest)))))))
  {
  }

  /** A block is read back from its encoding, whatever follows, exactly when its
      transactions fit the limit. */
  lemma BlockCodecRoundTrip(lc: LengthCodec, b: Block, rest: seq<byte>)
    requires lc.IsPrefix() && b.IsBlock()
    ensures var buf := WriteBlock(lc, b) + rest;
      ReadBlock(lc, buf) == Success((b, rest)) <==> |b.transactions| <= 16 * 1024 * 1024
  {
    TailOf(lc, b, rest);
    HeaderRoundTrip(lc, b, lc.write(|b.transactions|) + (b.transactions + rest));
    TransactionsRoundTrip(lc, b.transactions, rest);
  }

  // ---------- encodings cut short ----------

  /** What is left of `x + rest` cut at `cut`, when the cut falls inside `x` or after it. */
  lemma CutConcat(x: seq<byte>, rest: seq<byte>, cut: nat)
    requires cut <= |x| + |rest|
    ensures cut < |x| ==> (x + rest)[..cut] == x[..cut]
    ensures cut >= |x| ==> (x + rest)[..cut] == x + rest[..cut - |x|]
  {
  }

  lemma CutBytes(x: seq<byte>, rest: seq<byte>, cut: nat)
    requires cut <= |x| + |rest|
    ensures cut < |x| ==> ReadBytes(|x|, (x + rest)[..cut]).Failure?
    ensures cut >= |x| ==> ReadBytes(|x|, (x + rest)[..cut]) == Success((x, rest[..cut - |x|]))
  {
    CutConcat(x, rest, cut);
    if cut >= |x| { BytesRoundTrip(x, rest[..cut - |x|]); }
  }

  lemma CutU64(v: u64, rest: seq<byte>, cut: nat)
    requires cut <= 8 + |rest|
    ensures cut < 8 ==> ReadU64((ToBE(v, 8) + rest)[..cut]).Failure?
    ensures cut >= 8 ==> ReadU64((ToBE(v, 8) + rest)[..cut]) == Success((v, rest[..cut - 8]))
  {
    CutConcat(ToBE(v, 8), rest, cut);
    if cut >= 8 { U64RoundTrip(v, rest[..cut - 8]); }
  }

  lemma CutTransactions(lc: LengthCodec, tx: seq<byte>, cut: nat)
    requires lc.IsPrefix() && |tx| < 0x1_0000_0000 && cut < |lc.write(|tx|)| + |tx|
    ensures ReadTransactions(lc, (lc.write(|tx|) + tx)[..cut]).Failure?
  {
    var count: nat := |tx|;
    CutConcat(lc.write(count), tx, cut);
    if cut < |lc.write(count)| {
      assert At2(count, cut);
    } else {
      assert At2(count, tx[..cut - |lc.write(count)|]);
    }
  }

  /** No proper prefix of a block's encoding reads as a block. */
  lemma CutBlock(lc: LengthCodec, b: Block, cut: nat)
    requires lc.IsPrefix() && b.IsBlock() && cut < |WriteBlock(lc, b)|
    ensures ReadBlock(lc, WriteBlock(lc, b)[..cut]).Failure?
  {
    var r5 := lc.write(|b.transactions|) + b.transactions;
    var r4 := b.stateRoot + r5;
    var r3 := ToBE(b.gasLimit, 8) + r4;
    var r2 := ToBE(b.gasUsed, 8) + r3;
    var r1 := ToBE(b.timestamp, 8) + r2;
    var r0 := ToBE(b.number, 8) + r1;
    CutBytes(b.parentHash, r0, cut);
    if cut >= 32 { CutU64(b.number, r1, cut - 32); }
    if cut >= 40 { CutU64(b.timestamp, r2, cut - 40); }
    if cut >= 48 { CutU64(b.gasUsed, r3, cut - 48); }
    if cut >= 56 { CutU64(b.gasLimit, r4, cut - 56); }
    if cut >= 64 { CutBytes(b.stateRoot, r5, cut - 64); }
    if cut >= 96 { CutTransactions(lc, b.transactions, cut - 96); }
  }

  /** Where each field of an encoded block is. */
  lemma BlockLayout(lc: LengthCodec, b: Block)
    requires b.IsBlock()
    ensures var bytes, prefix := WriteBlock(lc, b), lc.write(|b.transactions|);
      && |bytes| == 96 + |prefix| + |b.transactions|
      && bytes[..32] == b.parentHash && bytes[32..40] == ToBE(b.number, 8) && bytes[40..48] == ToBE(b.timestamp, 8)
      && bytes[48..56] == ToBE(b.gasUsed, 8) && bytes[56..64] == ToBE(b.gasLimit, 8) && bytes[64..96] == b.stateRoot
      && bytes[96..] == prefix + b.transactions
  {
  }

  lemma BlockSize(lc: LengthCodec, b: Block)
    requires lc.IsPrefix() && b.IsBlock() && |b.transactions| <= MAX_TRANSACTIONS_BYTES
    ensures 96 <= |WriteBlock(lc, b)| <= |b.transactions| + 100
  {
    assert |lc.write(|b.transactions|)| <= 4;
  }

  // ---------- packing bytes into scalars ----------

  /** Any 31 bytes after a zero byte are the encoding of a scalar. */
  ghost predicate Packs<F(!new)>(c: ElementCodec<F>) {
    && c.IsCodec() && c.ZeroIsZeros() && c.size == DATA_BYTES + 1
    && forall bs: seq<byte> {:trigger c.read(bs)} :: |bs| == c.size && bs[0] == 0 && bs != Zeros(c.size) ==>
        c.read(bs).Some? && c.write(c.read(bs).value) == bs
  }

  /** `[0 | window | zeros]` as a scalar. */
  function Pack<F(!new)>(c: ElementCodec<F>, window: seq<byte>): F
    requires |window| <= DATA_BYTES
  {
    if forall i :: 0 <= i < |window| ==> window[i] == 0 then c.zero
    else match c.read([0] + window + Zeros(DATA_BYTES - |window|))
         case Some(x) => x
         case None => c.zero
  }

  function Unpack<F(!new)>(c: ElementCodec<F>, x: F): seq<byte> {
    var bs := c.write(x);
    if bs == [] then [] else bs[1..]
  }

  lemma PackRoundTrip<F(!new)>(c: ElementCodec<F>, window: seq<byte>)
    requires Packs(c) && |window| <= DATA_BYTES
    ensures c.write(Pack(c, window)) == [0] + window + Zeros(DATA_BYTES - |window|)
    ensures Unpack(c, Pack(c, window)) == window + Zeros(DATA_BYTES - |window|)
  {
    var be := [0] + window + Zeros(DATA_BYTES - |window|);
    if forall i :: 0 <= i < |window| ==> window[i] == 0 {
      assert be == Zeros(c.size);
    } else {
      var i :| 0 <= i < |window| && window[i] != 0;
      assert be[i + 1] != Zeros(c.size)[i + 1];
    }
    assert be[1..] == window + Zeros(DATA_BYTES - |window|);
  }

  /** Consecutive windows of 31 bytes, the last possibly shorter. */
  function Windows<F(!new)>(c: ElementCodec<F>, data: seq<byte>): seq<F> {
    if data == [] then []
    else if |data| <= DATA_BYTES then [Pack(c, data)]
    else [Pack(c, data[..DATA_BYTES])] + Windows(c, data[DATA_BYTES..])
  }

  function BytesToElements<F(!new)>(c: ElementCodec<F>, data: seq<byte>): seq<F> {
    if data == [] then [c.zero] else Windows(c, data)
  }

  function ElementsToBytes<F(!new)>(c: ElementCodec<F>, xs: seq<F>): seq<byte> {
    if xs == [] then [] else ElementsToBytes(c, xs[..|xs| - 1]) + Unpack(c, xs[|xs| - 1])
  }

  method FieldElementsToBytes<F(!new)>(c: ElementCodec<F>, xs: seq<F>) returns (out: seq<byte>)
    ensures out == ElementsToBytes(c, xs)
  {
    out := [];
    for i := 0 to |xs|
      invariant out == ElementsToBytes(c, xs[..i])
    {
      assert xs[..i + 1][..i] == xs[..i];
      out := out + Unpack(c, xs[i]);
    }
    assert xs[..|xs|] == xs;
  }

  lemma {:induction false} ElementsConcat<F(!new)>(c: ElementCodec<F>, xs: seq<F>, ys: seq<F>)
    ensures ElementsToBytes(c, xs + ys) == ElementsToBytes(c, xs) + ElementsToBytes(c, ys)
  {
    if ys == [] {
      assert xs + ys == xs;
    } else {
      var front, last := ys[..|ys| - 1], ys[|ys| - 1];
      ElementsConcat(c, xs, front);
      assert (xs + ys)[..|xs + ys| - 1] == xs + front && (xs + ys)[|xs + ys| - 1] == last;
      Regrouped(ElementsToBytes(c, xs), ElementsToBytes(c, front), Unpack(c, last));
    }
  }

  /** Unpacking gives the data back as a prefix, and uses `⌈|data|/31⌉` elements. */
  lemma {:induction false} WindowsRoundTrip<F(!new)>(c: ElementCodec<F>, data: seq<byte>)
    requires Packs(c)
    ensures data <= ElementsToBytes(c, Windows(c, data))
    ensures DATA_BYTES * |Windows(c, data)| < |data| + DATA_BYTES
  {
    if data == [] {
    } else if |data| <= DATA_BYTES {
      PackRoundTrip(c, data);
      assert Windows(c, data)[..0] == [];
    } else {
      var head, tail := data[..DATA_BYTES], data[DATA_BYTES..];
      PackRoundTrip(c, head);
      WindowsRoundTrip(c, tail);
      ElementsConcat(c, [Pack(c, head)], Windows(c, tail));
      assert ElementsToBytes(c, [Pack(c, head)]) == head by { assert [Pack(c, head)][..0] == []; }
      assert data == head + tail;
    }
  }

  /** Element `k` packs bytes `31·k` up to `31·(k + 1)`, or up to the end; beyond there is
      only zero. */
  function ElementAt<F(!new)>(c: ElementCodec<F>, data: seq<byte>, k: nat): F {
    if DATA_BYTES * k < |data| then Pack(c, data[DATA_BYTES * k..Least(DATA_BYTES * k + DATA_BYTES, |data|)])
    else c.zero
  }

  lemma {:induction false} WindowsAt<F(!new)>(c: ElementCodec<F>, data: seq<byte>, k: nat)
    ensures k < |Windows(c, data)| <==> DATA_BYTES * k < |data|
    ensures k < |Windows(c, data)| ==> Windows(c, data)[k] == ElementAt(c, data, k)
  {
    if |data| <= DATA_BYTES {
      assert data[0..|data|] == data;
    } else if k > 0 {
      var tail := data[DATA_BYTES..];
      WindowsAt(c, tail, k - 1);
      if DATA_BYTES * k < |data| {
        var from, to := DATA_BYTES * (k - 1), Least(DATA_BYTES * k, |tail|);
        SliceOfTail(data, DATA_BYTES, from, to);
      }
    }
  }

  lemma SliceOfTail(data: seq<byte>, cut: nat, from: nat, to: nat)
    requires cut <= |data| && from <= to <= |data| - cut
    ensures data[cut..][from..to] == data[cut + from..cut + to]
  {
  }

  function Least(a: int, b: int): int { if a <= b then a else b }

  // ---------- chunks ----------

  /** Consecutive chunks of exactly `m` elements. */
  function Split<F>(xs: seq<F>, m: nat): seq<seq<F>> {
    if m == 0 || |xs| < m then [] else [xs[..m]] + Split(xs[m..], m)
  }

  function Flatten<F>(chunks: seq<seq<F>>): seq<F> {
    if chunks == [] then [] else chunks[0] + Flatten(chunks[1..])
  }

  /** Splitting `n·m` elements gives `n` chunks of `m` that flatten back. */
  lemma {:induction false} SplitExact<F>(xs: seq<F>, n: nat, m: nat)
    requires m > 0 && |xs| == n * m
    ensures |Split(xs, m)| == n && Flatten(Split(xs, m)) == xs
    ensures forall i :: 0 <= i < n ==> |Split(xs, m)[i]| == m
  {
    if n > 0 {
      OneLess(n, m);
      SplitExact(xs[m..], n - 1, m);
      assert Split(xs, m)[1..] == Split(xs[m..], m);
    }
  }

  /** Element `j` of chunk `i` is element `i·m + j`. */
  lemma {:induction false} SplitAt<F>(xs: seq<F>, n: nat, m: nat, i: nat, j: nat)
    requires m > 0 && |xs| == n * m && i < n && j < m
    ensures i * m + j < |xs| && |Split(xs, m)| == n && |Split(xs, m)[i]| == m && Split(xs, m)[i][j] == xs[i * m + j]
  {
    SplitExact(xs, n, m);
    OneLess(n, m);
    if i > 0 {
      SplitAt(xs[m..], n - 1, m, i - 1, j);
      OneLess(i, m);
    }
  }

  lemma OneLess(n: nat, m: nat)
    requires n > 0
    ensures n * m == (n - 1) * m + m
  {
  }

  function Repeat<F>(x: F, k: nat): seq<F> { seq(k, _ => x) }

  /** `n` chunks of `m` elements and the encoded length; a block too large panics. */
  function AsChunks<F(!new)>(c: ElementCodec<F>, lc: LengthCodec, b: Block, n: nat,
      m: nat): (r: Result<(seq<seq<F>>, nat), string>)
    ensures r.Success? ==> m > 0 && |r.value.0| == n && forall i :: 0 <= i < n ==> |r.value.0[i]| == m
  {
    var encoded := WriteBlock(lc, b);
    var elements := BytesToElements(c, encoded);
    var slots: nat := n * m;
    if |elements| > slots then Failure("block requires more field elements") else
      assert elements != [] && m > 0;
      SplitExact(elements + Repeat(c.zero, slots - |elements|), n, m);
      Success((Split(elements + Repeat(c.zero, slots - |elements|), m), |encoded|))
  }

  /** A block becomes chunks if and only if its encoding fits into them; the elements fill the
      chunks row by row, and zeros fill the rest. */
  lemma ChunkLayout<F(!new)>(c: ElementCodec<F>, lc: LengthCodec, b: Block, n: nat, m: nat, i: nat, j: nat)
    requires Packs(c) && b.IsBlock()
    ensures AsChunks(c, lc, b, n, m).Success? <==> |WriteBlock(lc, b)| <= 31 * (n * m)
    ensures AsChunks(c, lc, b, n, m).Success? && i < n && j < m ==>
      AsChunks(c, lc, b, n, m).value.0[i][j] == ElementAt(c, WriteBlock(lc, b), i * m + j)
  {
    var encoded, slots := WriteBlock(lc, b), n * m;
    BlockLayout(lc, b);
    WindowsFit(c, encoded, slots);
    if |Windows(c, encoded)| <= slots && i < n && j < m {
      PaddedAt(c, encoded, Windows(c, encoded) + Repeat(c.zero, slots - |Windows(c, encoded)|), n, m, i, j);
    }
  }

  lemma WindowsFit<F(!new)>(c: ElementCodec<F>, data: seq<byte>, slots: nat)
    requires Packs(c)
    ensures |Windows(c, data)| <= slots <==> |data| <= DATA_BYTES * slots
  {
    WindowsRoundTrip(c, data);
    WindowsAt(c, data, |Windows(c, data)|);
  }

  lemma PaddedAt<F(!new)>(c: ElementCodec<F>, data: seq<byte>, padded: seq<F>, n: nat, m: nat, i: nat, j: nat)
    requires |Windows(c, data)| <= n * m == |padded| && i < n && j < m
    requires padded == Windows(c, data) + Repeat(c.zero, |padded| - |Windows(c, data)|)
    ensures |Split(padded, m)| == n && |Split(padded, m)[i]| == m
    ensures Split(padded, m)[i][j] == ElementAt(c, data, i * m + j)
  {
    SplitAt(padded, n, m, i, j);
    WindowsAt(c, data, i * m + j);
  }

  /** Inverse of `AsChunks`; a length beyond the data or bytes that are no block panic. */
  function FromChunks<F(!new)>(c: ElementCodec<F>, lc: LengthCodec, chunks: seq<seq<F>>,
      byteLen: nat): Result<Block, string>
  {
    var bytes := ElementsToBytes(c, Flatten(chunks));
    if byteLen > |bytes| then Failure("range end out of bounds") else
      var (block, rest) :- ReadBlock(lc, bytes[..byteLen]);
      Success(block)
  }

  /** The chunks hold the encoded block as a prefix. */
  lemma ChunksHoldBlock<F(!new)>(c: ElementCodec<F>, lc: LengthCodec, b: Block, n: nat, m: nat)
    requires Packs(c) && AsChunks(c, lc, b, n, m).Success?
    ensures var (vs, byteLen) := AsChunks(c, lc, b, n, m).value;
      byteLen == |WriteBlock(lc, b)| && WriteBlock(lc, b) <= ElementsToBytes(c, Flatten(vs))
  {
    var encoded := WriteBlock(lc, b);
    var elements := BytesToElements(c, encoded);
    assert elements != [];
    var padding := Repeat(c.zero, n * m - |elements|);
    WindowsRoundTrip(c, encoded);
    SplitExact(elements + padding, n, m);
    ElementsConcat(c, elements, padding);
  }

  /** Splitting into chunks loses nothing: whenever the block fits, it is rebuilt from its
      chunks exactly when its transactions are within the limit. */
  lemma ChunkRoundTrip<F(!new)>(c: ElementCodec<F>, lc: LengthCodec, b: Block, n: nat, m: nat)
    requires Packs(c) && lc.IsPrefix() && b.IsBlock() && AsChunks(c, lc, b, n, m).Success?
    ensures var (vs, byteLen) := AsChunks(c, lc, b, n, m).value;
      FromChunks(c, lc, vs, byteLen) == Success(b) <==> |b.transactions| <= 16 * 1024 * 1024
  {
    ChunksHoldBlock(c, lc, b, n, m);
    BlockCodecRoundTrip(lc, b, []);
    assert WriteBlock(lc, b) + [] == WriteBlock(lc, b);
    var (vs, byteLen) := AsChunks(c, lc, b, n, m).value;
    assert ElementsToBytes(c, Flatten(vs))[..byteLen] == WriteBlock(lc, b);
  }

  lemma {:induction false} ElementsSize<F(!new)>(c: ElementCodec<F>, xs: seq<F>)
    requires Packs(c)
    ensures |ElementsToBytes(c, xs)| == DATA_BYTES * |xs|
  {
    if xs != [] { ElementsSize(c, xs[..|xs| - 1]); }
  }

  lemma {:induction false} FlattenSize<F>(chunks: seq<seq<F>>, m: nat)
    requires forall i :: 0 <= i < |chunks| ==> |chunks[i]| == m
    ensures |Flatten(chunks)| == |chunks| * m
  {
    if chunks != [] {
      FlattenSize(chunks[1..], m);
      OneLess(|chunks|, m);
    }
  }

  /** The chunks hold the whole encoding. */
  lemma EncodingFits<F(!new)>(c: ElementCodec<F>, lc: LengthCodec, b: Block, n: nat, m: nat)
    requires Packs(c) && AsChunks(c, lc, b, n, m).Success?
    ensures |WriteBlock(lc, b)| <= DATA_BYTES * (n * m)
  {
    var vs := AsChunks(c, lc, b, n, m).value.0;
    ChunksHoldBlock(c, lc, b, n, m);
    ElementsSize(c, Flatten(vs));
    FlattenSize(vs, m);
  }

  /** The chunks of a block give it back under any announced length from that of its encoding
      up to all the bytes they hold, and nothing, the code panicking, under any other. */
  lemma LengthDecides<F(!new)>(c: ElementCodec<F>, lc: LengthCodec, b: Block, n: nat, m: nat, len: nat)
    requires Packs(c) && lc.IsPrefix() && b.IsBlock() && AsChunks(c, lc, b, n, m).Success?
    requires |b.transactions| <= MAX_TRANSACTIONS_BYTES
    ensures var r := FromChunks(c, lc, AsChunks(c, lc, b, n, m).value.0, len);
      if |WriteBlock(lc, b)| <= len <= DATA_BYTES * (n * m) then r == Success(b) else r.Failure?
  {
    var vs, encoded := AsChunks(c, lc, b, n, m).value.0, WriteBlock(lc, b);
    var bytes := ElementsToBytes(c, Flatten(vs));
    ChunksHoldBlock(c, lc, b, n, m);
    ElementsSize(c, Flatten(vs));
    FlattenSize(vs, m);
    if len < |encoded| {
      CutBlock(lc, b, len);
      assert bytes[..len] == encoded[..len];
    } else if len <= |bytes| {
      BlockCodecRoundTrip(lc, b, bytes[|encoded|..len]);
      assert bytes[..len] == encoded + bytes[|encoded|..len];
    }
  }

  /** `m` for a block of `size` transaction bytes in `n` chunks. */
  function ComputeM(size: nat, n: nat): nat
    requires n > 0
  {
    (size + 100 + (31 * n - 1)) / (31 * n)
  }

  /** The computed chunk dimension always makes room for the block. */
  lemma ComputedCapacity<F(!new)>(c: ElementCodec<F>, lc: LengthCodec, b: Block, n: nat)
    requires Packs(c) && lc.IsPrefix() && b.IsBlock() && |b.transactions| <= MAX_TRANSACTIONS_BYTES && n > 0
    ensures AsChunks(c, lc, b, n, ComputeM(|b.transactions|, n)).Success?
  {
    BlockSize(lc, b);
    WindowsRoundTrip(c, WriteBlock(lc, b));
    Ceiling(|b.transactions|, n, |BytesToElements(c, WriteBlock(lc, b))|);
  }

  /** And no smaller one has room for the `size + 100` bytes a block may take. */
  lemma ComputedLeast(size: nat, n: nat, m: nat)
    requires n > 0
    ensures size + 100 <= (DATA_BYTES * n) * m <==> ComputeM(size, n) <= m
  {
    CeilLeast(size + 100, 31 * n, m);
  }

  lemma CeilLeast(size: nat, d: nat, m: nat)
    requires d > 0
    ensures size <= d * m <==> (size + (d - 1)) / d <= m
  {
    Bracket(size, d, (size + (d - 1)) / d, (size + (d - 1)) % d, m);
  }

  lemma Bracket(size: nat, d: nat, q: nat, r: nat, m: nat)
    requires r < d && size + (d - 1) == d * q + r
    ensures size <= d * m <==> q <= m
  {
    if q <= m {
      Monotone(d, q, m);
    } else {
      Monotone(d, m + 1, q);
      assert d * (m + 1) == d * m + d;
    }
  }

  lemma Ceiling(size: nat, n: nat, elements: nat)
    requires n > 0 && 31 * elements < size + 100 + 31
    ensures elements <= n * ComputeM(size, n)
  {
    var d, m := 31 * n, ComputeM(size, n);
    CeilCovers(size + 100, d);
    assert d * m == 31 * (n * m);
  }

  lemma CeilCovers(size: nat, d: nat)
    requires d > 0
    ensures size <= d * ((size + (d - 1)) / d)
  {
  }
}
