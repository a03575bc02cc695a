/** Wire formats: elements, packets and proofs (crates/primitives/types/src/util.rs,
    crates/strategy/core/src/proof.rs, and the proof formats of the two schemes). */
module Wire {
  import opened Wrappers
  import opened Algebra
  import opened Coding
  import opened Integrity
  import opened Pedersen

  type byte = x: int | 0 <= x < 256

  /** A value read from a buffer and the bytes left over, or an error. */
  type Parsed<T> = Result<(T, seq<byte>), string>

  function Zeros(k: nat): seq<byte> { seq(k, _ => 0) }

  // ---------- big-endian integers ----------

  function Pow256(k: nat): nat {
    if k == 0 then 1 else 256 * Pow256(k - 1)
  }

  /** `k` bytes, most significant first; higher digits of `v` are cut off. */
  function ToBE(v: nat, k: nat): (bs: seq<byte>)
    ensures |bs| == k
  {
    if k == 0 then [] else ToBE(v / 256, k - 1) + [v % 256]
  }

  function FromBE(bs: seq<byte>): nat {
    if bs == [] then 0 else 256 * FromBE(bs[..|bs| - 1]) + bs[|bs| - 1]
  }

  lemma {:induction false} BERoundTrip(v: nat, k: nat)
    requires v < Pow256(k)
    ensures FromBE(ToBE(v, k)) == v
  {
    if k > 0 {
      BERoundTrip(v / 256, k - 1);
      assert ToBE(v, k)[..k - 1] == ToBE(v / 256, k - 1);
    }
  }

  /** Byte `i` is digit `k - 1 - i` in base 256: most significant first. */
  lemma {:induction false} BigEndian(v: nat, k: nat, i: nat)
    requires i < k
    ensures Pow256(k - 1 - i) > 0 && ToBE(v, k)[i] == v / Pow256(k - 1 - i) % 256
  {
    if i < k - 1 {
      BigEndian(v / 256, k - 1, i);
      Nested(v, Pow256(k - 2 - i));
    } else {
      assert Pow256(0) == 1;
    }
  }

  lemma Nested(v: nat, p: nat)
    requires p > 0
    ensures v / 256 / p == v / (256 * p)
  {
    var q, r := v / 256 / p, v / 256 % p;
    var low := v % 256;
    assert v == 256 * (p * q + r) + low;
    Quotient(v, 256 * p, q, 256 * r + low) by { assert 256 * (p * q + r) == (256 * p) * q + 256 * r; }
  }

  lemma Quotient(v: nat, d: nat, q: nat, r: nat)
    requires d > 0 && r < d && v == d * q + r
    ensures v / d == q
  {
    Between(d, v / d, v % d, q, r);
  }

  lemma Between(d: nat, x: nat, s: nat, q: nat, r: nat)
    requires d > 0 && s < d && r < d && d * x + s == d * q + r
    ensures x == q
  {
    if x < q { Steps(d, x, q); } else if x > q { Steps(d, q, x); }
  }

  lemma Steps(d: nat, x: nat, y: nat)
    requires x < y
    ensures d * x + d <= d * y
  {
    Monotone(d, x + 1, y);
    assert d * (x + 1) == d * x + d;
  }

  lemma Monotone(d: nat, a: nat, b: nat)
    requires a <= b
    ensures d * a <= d * b
  {
  }

  /** Reading is the inverse of writing on all byte strings of a length. */
  lemma {:induction false} BEInverse(bs: seq<byte>)
    ensures FromBE(bs) < Pow256(|bs|) && ToBE(FromBE(bs), |bs|) == bs
  {
    if bs != [] { BEInverse(bs[..|bs| - 1]); }
  }

  lemma Pow256Values()
    ensures Pow256(4) == 0x1_0000_0000 && Pow256(8) == 0x1_0000_0000_0000_0000
  {
    assert Pow256(2) == 0x1_0000;
    assert Pow256(4) == 256 * (256 * Pow256(2));
    assert Pow256(6) == 256 * (256 * Pow256(4));
  }

  // ---------- single elements ----------

  /** The library's fixed-size codec of scalars or group elements. `read` sees exactly
      `size` bytes and, being meant for keys, refuses the neutral element. */
  datatype ElementCodec<!T(!new)> = ElementCodec(size: nat, zero: T, write: T -> seq<byte>,
      read: seq<byte> -> Option<T>)
  {
    ghost predicate IsCodec() {
      && size > 0 && read(write(zero)) == None
      && forall x {:trigger write(x)} :: |write(x)| == size && (x != zero ==> read(write(x)) == Some(x))
    }

    /** Scalars write zero as zero bytes. */
    ghost predicate ZeroIsZeros() {
      write(zero) == Zeros(size)
    }
  }

  /** The library's own reader. */
  function ReadRaw<T(!new)>(c: ElementCodec<T>, buf: seq<byte>): Parsed<T> {
    if |buf| < c.size then Failure("end of buffer") else
      match c.read(buf[..c.size])
      case None => Failure("invalid element")
      case Some(x) => Success((x, buf[c.size..]))
  }

  /** Reads a field element, accepting zero. */
  function ReadField<T(!new)>(c: ElementCodec<T>, buf: seq<byte>): Parsed<T> {
    if |buf| < c.size then Failure("not enough bytes for field element")
    else if forall i :: 0 <= i < c.size ==> buf[i] == 0 then Success((c.zero, buf[c.size..]))
    else ReadRaw(c, buf)
  }

  /** Reads a group element, accepting the identity. */
  function ReadGroup<T(!new)>(c: ElementCodec<T>, buf: seq<byte>): Parsed<T> {
    if |buf| < c.size then Failure("not enough bytes for group element")
    else if buf[..c.size] == c.write(c.zero) then Success((c.zero, buf[c.size..]))
    else ReadRaw(c, buf)
  }

  /** The library reader gives back everything but the neutral element. */
  lemma RawRoundTrip<T(!new)>(c: ElementCodec<T>, x: T, rest: seq<byte>)
    requires c.IsCodec()
    ensures ReadRaw(c, c.write(x) + rest) == Success((x, rest)) <==> x != c.zero
  {
    var buf := c.write(x) + rest;
    assert buf[..c.size] == c.write(x) && buf[c.size..] == rest;
  }

  /** `read_field` gives back every scalar, zero included. */
  lemma FieldRoundTrip<T(!new)>(c: ElementCodec<T>, x: T, rest: seq<byte>)
    requires c.IsCodec() && c.ZeroIsZeros()
    ensures ReadField(c, c.write(x) + rest) == Success((x, rest))
  {
    RawRoundTrip(c, x, rest);
    var buf := c.write(x) + rest;
    assert buf[..c.size] == c.write(x) && buf[c.size..] == rest;
    if forall i :: 0 <= i < c.size ==> buf[i] == 0 {
      assert c.write(x) == Zeros(c.size) == c.write(c.zero);
    }
  }

  /** `read_group` gives back every group element, the identity included. */
  lemma GroupRoundTrip<T(!new)>(c: ElementCodec<T>, x: T, rest: seq<byte>)
    requires c.IsCodec()
    ensures ReadGroup(c, c.write(x) + rest) == Success((x, rest))
  {
    RawRoundTrip(c, x, rest);
    var buf := c.write(x) + rest;
    assert buf[..c.size] == c.write(x) && buf[c.size..] == rest;
  }

  // ---------- runs of elements ----------

  function WriteAll<T(!new)>(c: ElementCodec<T>, xs: seq<T>): seq<byte> {
    if xs == [] then [] else WriteAll(c, xs[..|xs| - 1]) + c.write(xs[|xs| - 1])
  }

  /** Appends the encodings of `xs` to `buf`, one after the other. */
  method AppendAll<T(!new)>(c: ElementCodec<T>, buf: seq<byte>, xs: seq<T>) returns (r: seq<byte>)
    ensures r == buf + WriteAll(c, xs)
  {
    r := buf;
    for i := 0 to |xs|
      invariant r == buf + WriteAll(c, xs[..i])
    {
      assert xs[..i + 1][..i] == xs[..i];
      r := r + c.write(xs[i]);
    }
    assert xs[..|xs|] == xs;
  }

  /** Reads `k` elements in a row. */
  function ReadMany<T(!new)>(reader: seq<byte> -> Parsed<T>, k: nat, buf: seq<byte>): (r: Parsed<seq<T>>)
    ensures r.Success? ==> |r.value.0| == k
  {
    if k == 0 then Success(([], buf)) else
      match ReadMany(reader, k - 1, buf)
      case Failure(e) => Failure(e)
      case Success((xs, rest)) =>
        match reader(rest)
        case Failure(e) => Failure(e)
        case Success((x, rest')) => Success((xs + [x], rest'))
  }

  /** Reads `k` elements in a row, advancing the buffer. */
  method TakeMany<T(!new)>(reader: seq<byte> -> Parsed<T>, k: nat, buf: seq<byte>) returns (r: Parsed<seq<T>>)
    ensures r == ReadMany(reader, k, buf)
  {
    var xs, rest := [], buf;
    for i := 0 to k
      invariant ReadMany(reader, i, buf) == Success((xs, rest))
    {
      match reader(rest) {
        case Failure(e) =>
          ReadManyFails(reader, i + 1, k, buf, e);
          return Failure(e);
        case Success((x, rest')) =>
          xs, rest := xs + [x], rest';
      }
    }
    r := Success((xs, rest));
  }

  lemma {:induction false} ReadManyFails<T(!new)>(reader: seq<byte> -> Parsed<T>, i: nat, k: nat, buf: seq<byte>,
      e: string)
    requires i <= k && ReadMany(reader, i, buf) == Failure(e)
    ensures ReadMany(reader, k, buf) == Failure(e)
  {
    if i < k { ReadManyFails(reader, i, k - 1, buf, e); }
  }

  /** A reader that undoes `write` for every element, whatever follows. */
  ghost predicate Undoes<T(!new)>(c: ElementCodec<T>, reader: seq<byte> -> Parsed<T>) {
    forall x: T, rest: seq<byte> {:trigger At2(x, rest)} :: At2(x, rest) ==>
      reader(c.write(x) + rest) == Success((x, rest))
  }

  lemma {:induction false} ManyRoundTrip<T(!new)>(c: ElementCodec<T>, reader: seq<byte> -> Parsed<T>, xs: seq<T>,
      rest: seq<byte>)
    requires Undoes(c, reader)
    ensures ReadMany(reader, |xs|, WriteAll(c, xs) + rest) == Success((xs, rest))
  {
    if xs == [] {
      assert WriteAll(c, xs) + rest == rest;
    } else {
      var front, x := xs[..|xs| - 1], xs[|xs| - 1];
      assert WriteAll(c, xs) + rest == WriteAll(c, front) + (c.write(x) + rest);
      ManyRoundTrip(c, reader, front, c.write(x) + rest);
      assert At2(x, rest);
      assert front + [x] == xs;
    }
  }

  lemma {:induction false} WriteAllSize<T(!new)>(c: ElementCodec<T>, xs: seq<T>)
    requires c.IsCodec()
    ensures |WriteAll(c, xs)| == c.size * |xs|
  {
    if xs != [] {
      WriteAllSize(c, xs[..|xs| - 1]);
      assert c.size * |xs| == c.size * (|xs| - 1) + c.size;
    }
  }

  /** The bytes hold `part` from position `at` on. */
  predicate HoldsAt(bytes: seq<byte>, at: nat, part: seq<byte>) {
    at + |part| <= |bytes| && bytes[at..at + |part|] == part
  }

  lemma HeldInFront(x: seq<byte>, y: seq<byte>, at: nat, part: seq<byte>)
    ensures HoldsAt(x, at, part) ==> HoldsAt(x + y, at, part)
  {
  }

  lemma HeldBehind(x: seq<byte>, y: seq<byte>, at: nat, part: seq<byte>)
    ensures HoldsAt(y, at, part) ==> HoldsAt(x + y, |x| + at, part)
  {
  }

  /** Element `i` is at byte `size·i`. */
  lemma {:induction false} WriteAllAt<T(!new)>(c: ElementCodec<T>, xs: seq<T>, i: nat)
    requires c.IsCodec() && i < |xs|
    ensures HoldsAt(WriteAll(c, xs), c.size * i, c.write(xs[i]))
  {
    var front, last := xs[..|xs| - 1], xs[|xs| - 1];
    WriteAllSize(c, front);
    if i < |xs| - 1 {
      WriteAllAt(c, front, i);
      HeldInFront(WriteAll(c, front), c.write(last), c.size * i, c.write(xs[i]));
    }
  }

  /** A run of elements takes exactly their bytes. */
  lemma {:induction false} ReadManyTakes<T(!new)>(c: ElementCodec<T>, k: nat, buf: seq<byte>)
    ensures var r := ReadMany(b => ReadField(c, b), k, buf);
      r.Success? ==> |buf| == c.size * k + |r.value.1|
  {
    if k > 0 {
      ReadManyTakes(c, k - 1, buf);
      assert c.size * k == c.size * (k - 1) + c.size;
    }
  }

  // ---------- packets ----------

  /** The wire format of a scheme's proofs. */
  datatype ProofCodec<!P(!new)> = ProofCodec(write: P -> seq<byte>, read: seq<byte> -> Parsed<P>, wireSize: P -> nat)

  /** `[w | b | proof]`. */
  function Serialize<F(!new), P(!new)>(fc: ElementCodec<F>, pc: ProofCodec<P>, pkt: SignedPacket<F, P>): seq<byte> {
    WriteAll(fc, pkt.chunk.w) + WriteAll(fc, pkt.chunk.b) + pc.write(pkt.proof)
  }

  method SerializePacket<F(!new), P(!new)>(fc: ElementCodec<F>, pc: ProofCodec<P>, pkt: SignedPacket<F, P>)
      returns (buf: seq<byte>)
    ensures buf == Serialize(fc, pc, pkt)
  {
    buf := AppendAll(fc, [], pkt.chunk.w);
    buf := AppendAll(fc, buf, pkt.chunk.b);
    buf := buf + pc.write(pkt.proof);
  }

  function WireSize<F(!new), P(!new)>(fc: ElementCodec<F>, pc: ProofCodec<P>, n: nat, pkt: SignedPacket<F, P>): nat {
    fc.size * |pkt.chunk.w| + fc.size * n + pc.wireSize(pkt.proof)
  }

  /** Bytes after the proof are left unread; a chunk without data is a panic. */
  function Deserialize<F(!new), P(!new)>(fc: ElementCodec<F>, pc: ProofCodec<P>, n: nat, m: nat,
      data: seq<byte>): Result<SignedPacket<F, P>, string>
  {
    var (w, rest) :- ReadMany(buf => ReadField(fc, buf), m, data);
    var (b, rest') :- ReadMany(buf => ReadField(fc, buf), n, rest);
    var (proof, rest'') :- pc.read(rest');
    if w == [] then Failure("chunk must not be empty") else Success(SignedPacket(CodedChunk(w, b), proof))
  }

  method DeserializePacket<F(!new), P(!new)>(fc: ElementCodec<F>, pc: ProofCodec<P>, n: nat, m: nat, data: seq<byte>)
    returns (r: Result<SignedPacket<F, P>, string>)
    ensures r == Deserialize(fc, pc, n, m, data)
  {
    var reader := (buf: seq<byte>) => ReadField(fc, buf);
    assert forall k: nat, buf: seq<byte> :: ReadMany(reader, k, buf) == ReadMany(buf => ReadField(fc, buf), k, buf);
    var first := TakeMany(reader, m, data);
    if first.Failure? { return Failure(first.error); }
    var second := TakeMany(reader, n, first.value.1);
    if second.Failure? { return Failure(second.error); }
    match pc.read(second.value.1) {
      case Failure(e) => return Failure(e);
      case Success((proof, rest)) =>
        if m == 0 { return Failure("chunk must not be empty"); }
        return Success(SignedPacket(CodedChunk(first.value.0, second.value.0), proof));
    }
  }

  /** Data and coefficients always come back, zero scalars included, so what is read back
      is the packet with whatever its proof is read back as. */
  lemma PacketRoundTrip<F(!new), P(!new)>(fc: ElementCodec<F>, pc: ProofCodec<P>, pkt: SignedPacket<F, P>,
      rest: seq<byte>)
    requires fc.IsCodec() && fc.ZeroIsZeros() && pkt.chunk.w != []
    ensures Deserialize(fc, pc, |pkt.chunk.b|, |pkt.chunk.w|, Serialize(fc, pc, pkt) + rest) ==
      match pc.read(pc.write(pkt.proof) + rest)
      case Failure(e) => Failure(e)
      case Success((proof, _)) => Success(SignedPacket(pkt.chunk, proof))
  {
    var reader := (buf: seq<byte>) => ReadField(fc, buf);
    forall x: F, tail: seq<byte> | At2(x, tail) ensures reader(fc.write(x) + tail) == Success((x, tail)) {
      FieldRoundTrip(fc, x, tail);
    }
    var w, b, tail := pkt.chunk.w, pkt.chunk.b, pc.write(pkt.proof) + rest;
    assert Serialize(fc, pc, pkt) + rest == WriteAll(fc, w) + (WriteAll(fc, b) + tail);
    ManyRoundTrip(fc, reader, w, WriteAll(fc, b) + tail);
    ManyRoundTrip(fc, reader, b, tail);
  }

  lemma PacketSize<F(!new), P(!new)>(fc: ElementCodec<F>, pc: ProofCodec<P>, pkt: SignedPacket<F, P>)
    requires fc.IsCodec() && |pc.write(pkt.proof)| == pc.wireSize(pkt.proof)
    ensures |Serialize(fc, pc, pkt)| == WireSize(fc, pc, |pkt.chunk.b|, pkt)
  {
    WriteAllSize(fc, pkt.chunk.w);
    WriteAllSize(fc, pkt.chunk.b);
  }

  /** Where each part of a packet is: data scalars first, then coefficients, then the proof. */
  lemma PacketLayout<F(!new), P(!new)>(fc: ElementCodec<F>, pc: ProofCodec<P>, pkt: SignedPacket<F, P>, at: nat,
      part: seq<byte>)
    requires fc.IsCodec()
    ensures var bytes, w, b := Serialize(fc, pc, pkt), WriteAll(fc, pkt.chunk.w), WriteAll(fc, pkt.chunk.b);
      && |w| == fc.size * |pkt.chunk.w| && |b| == fc.size * |pkt.chunk.b|
      && (HoldsAt(w, at, part) ==> HoldsAt(bytes, at, part))
      && (HoldsAt(b, at, part) ==> HoldsAt(bytes, |w| + at, part))
      && (HoldsAt(pc.write(pkt.proof), at, part) ==> HoldsAt(bytes, |w| + |b| + at, part))
  {
    WriteAllSize(fc, pkt.chunk.w);
    WriteAllSize(fc, pkt.chunk.b);
    var w, b := WriteAll(fc, pkt.chunk.w), WriteAll(fc, pkt.chunk.b);
    HeldInThree(w, b, pc.write(pkt.proof), at, part);
  }

  lemma HeldInThree(x: seq<byte>, y: seq<byte>, z: seq<byte>, at: nat, part: seq<byte>)
    ensures HoldsAt(x, at, part) ==> HoldsAt(x + y + z, at, part)
    ensures HoldsAt(y, at, part) ==> HoldsAt(x + y + z, |x| + at, part)
    ensures HoldsAt(z, at, part) ==> HoldsAt(x + y + z, |x| + |y| + at, part)
  {
    HeldInFront(x, y, at, part);
    HeldInFront(x + y, z, at, part);
    HeldBehind(x, y, at, part);
    HeldInFront(x + y, z, |x| + at, part);
    HeldBehind(x + y, z, at, part);
  }

  /** Nothing shorter than its scalars parses. */
  lemma TooShort<F(!new), P(!new)>(fc: ElementCodec<F>, pc: ProofCodec<P>, n: nat, m: nat, data: seq<byte>)
    requires |data| < fc.size * m + fc.size * n
    ensures Deserialize(fc, pc, n, m, data).Failure?
  {
    ReadManyTakes(fc, m, data);
    var first := ReadMany(buf => ReadField(fc, buf), m, data);
    if first.Success? { ReadManyTakes(fc, n, first.value.1); }
  }

  // ---------- BFKW proofs: one raw group element ----------

  function BfkwProofCodec<G(!new)>(gc: ElementCodec<G>): ProofCodec<G> {
    ProofCodec(gc.write, (buf: seq<byte>) => ReadRaw(gc, buf), (p: G) => gc.size)
  }

  /** A BFKW packet survives the wire if and only if its signature is not the identity;
      an identity signature makes the reader fail. */
  lemma BfkwPacketRoundTrip<F(!new), G(!new)>(fc: ElementCodec<F>, gc: ElementCodec<G>, pkt: SignedPacket<F, G>)
    requires fc.IsCodec() && fc.ZeroIsZeros() && gc.IsCodec() && pkt.chunk.w != []
    ensures var pc, n, m := BfkwProofCodec(gc), |pkt.chunk.b|, |pkt.chunk.w|;
      && |Serialize(fc, pc, pkt)| == WireSize(fc, pc, n, pkt)
      && if pkt.proof == gc.zero then Deserialize(fc, pc, n, m, Serialize(fc, pc, pkt)).Failure?
         else Deserialize(fc, pc, n, m, Serialize(fc, pc, pkt)) == Success(pkt)
  {
    var pc := BfkwProofCodec(gc);
    PacketRoundTrip(fc, pc, pkt, []);
    PacketSize(fc, pc, pkt);
    RawRoundTrip(gc, pkt.proof, []);
    assert Serialize(fc, pc, pkt) + [] == Serialize(fc, pc, pkt);
  }

  // ---------- Pedersen proofs: count, commitments, signature ----------

  const MAX_COMMITMENTS := 1024

  /** The fixed-size codec of whichever signature scheme authenticates the commitments. */
  datatype SignatureCodec<!S(!new)> = SignatureCodec(size: nat, write: S -> seq<byte>, read: seq<byte> -> Option<S>)
  {
    ghost predicate IsSized() { forall x {:trigger write(x)} :: |write(x)| == size }

    ghost predicate Reads(x: S) { read(write(x)) == Some(x) }
  }

  function ReadSignature<S(!new)>(c: SignatureCodec<S>, buf: seq<byte>): Parsed<S> {
    if |buf| < c.size then Failure("end of buffer") else
      match c.read(buf[..c.size])
      case None => Failure("signature")
      case Some(x) => Success((x, buf[c.size..]))
  }

  /** The count is cut to 32 bits when written. */
  function WritePedersen<G(!new), S(!new)>(gc: ElementCodec<G>, sc: SignatureCodec<S>,
      p: PedersenProof<G, S>): seq<byte>
  {
    ToBE(|p.commitments| % 0x1_0000_0000, 4) + WriteAll(gc, p.commitments) + sc.write(p.signature)
  }

  function ReadPedersen<G(!new), S(!new)>(gc: ElementCodec<G>, sc: SignatureCodec<S>,
      buf: seq<byte>): Parsed<PedersenProof<G, S>>
  {
    if |buf| < 4 then Failure("commitment count") else
      var count := FromBE(buf[..4]);
      if count > MAX_COMMITMENTS then Failure("too many commitments") else
        var (commitments, rest) :- ReadMany(b => ReadGroup(gc, b), count, buf[4..]);
        var (signature, rest') :- ReadSignature(sc, rest);
        Success((PedersenProof(commitments, signature), rest'))
  }

  function PedersenProofCodec<G(!new), S(!new)>(gc: ElementCodec<G>,
      sc: SignatureCodec<S>): ProofCodec<PedersenProof<G, S>>
  {
    ProofCodec((p: PedersenProof<G, S>) => WritePedersen(gc, sc, p), (buf: seq<byte>) => ReadPedersen(gc, sc, buf),
               (p: PedersenProof<G, S>) => 4 + |p.commitments| * gc.size + sc.size)
  }

  /** A Pedersen packet survives the wire if and only if it carries at most 1024
      commitments, identities included, and a signature that its own reader accepts. */
  lemma PedersenPacketRoundTrip<F(!new), G(!new), S(!new)>(fc: ElementCodec<F>, gc: ElementCodec<G>,
      sc: SignatureCodec<S>, pkt: SignedPacket<F, PedersenProof<G, S>>)
    requires fc.IsCodec() && fc.ZeroIsZeros() && gc.IsCodec() && sc.IsSized() && pkt.chunk.w != []
    ensures var pc, n, m := PedersenProofCodec(gc, sc), |pkt.chunk.b|, |pkt.chunk.w|;
      && |Serialize(fc, pc, pkt)| == WireSize(fc, pc, n, pkt)
      && (Deserialize(fc, pc, n, m, Serialize(fc, pc, pkt)) == Success(pkt)
          <==> |pkt.proof.commitments| <= 1024 && sc.Reads(pkt.proof.signature))
  {
    var pc := PedersenProofCodec(gc, sc);
    PedersenProofRoundTrip(gc, sc, pkt.proof);
    PedersenCount(gc, sc, pkt.proof);
    PacketRoundTrip(fc, pc, pkt, []);
    assert Serialize(fc, pc, pkt) + [] == Serialize(fc, pc, pkt);
    assert pc.write(pkt.proof) + [] == WritePedersen(gc, sc, pkt.proof);
    PacketSize(fc, pc, pkt);
  }

  lemma Regrouped<T>(u: seq<T>, v: seq<T>, w: seq<T>)
    ensures (u + v) + w == u + (v + w)
  {
  }

  lemma PedersenCount<G(!new), S(!new)>(gc: ElementCodec<G>, sc: SignatureCodec<S>, p: PedersenProof<G, S>)
    requires gc.IsCodec() && sc.IsSized()
    ensures var buf := WritePedersen(gc, sc, p);
      && |buf| == 4 + |p.commitments| * gc.size + sc.size
      && FromBE(buf[..4]) == |p.commitments| % 0x1_0000_0000
      && buf[4..] == WriteAll(gc, p.commitments) + sc.write(p.signature)
  {
    var count := |p.commitments| % 0x1_0000_0000;
    WriteAllSize(gc, p.commitments);
    Pow256Values();
    BERoundTrip(count, 4);
    var buf, rest := WritePedersen(gc, sc, p), WriteAll(gc, p.commitments) + sc.write(p.signature);
    Regrouped(ToBE(count, 4), WriteAll(gc, p.commitments), sc.write(p.signature));
    assert buf == ToBE(count, 4) + rest;
    assert buf[..4] == ToBE(count, 4) && buf[4..] == rest;
  }

  lemma PedersenProofRoundTrip<G(!new), S(!new)>(gc: ElementCodec<G>, sc: SignatureCodec<S>, p: PedersenProof<G, S>)
    requires gc.IsCodec() && sc.IsSized()
    ensures var r := ReadPedersen(gc, sc, WritePedersen(gc, sc, p));
      r.Success? && r.value.0 == p <==> |p.commitments| <= MAX_COMMITMENTS && sc.Reads(p.signature)
  {
    if |p.commitments| <= MAX_COMMITMENTS {
      PedersenCount(gc, sc, p);
      AtMostLimit(gc, sc, p, WritePedersen(gc, sc, p));
    } else {
      TooMany(gc, sc, p);
    }
  }

  lemma AtMostLimit<G(!new), S(!new)>(gc: ElementCodec<G>, sc: SignatureCodec<S>, p: PedersenProof<G, S>,
      buf: seq<byte>)
    requires gc.IsCodec() && sc.IsSized() && |buf| >= 4 && FromBE(buf[..4]) == |p.commitments| <= MAX_COMMITMENTS
    requires buf[4..] == WriteAll(gc, p.commitments) + sc.write(p.signature)
    ensures var r := ReadPedersen(gc, sc, buf); r.Success? && r.value.0 == p <==> sc.Reads(p.signature)
  {
    CommitmentsRoundTrip(gc, p.commitments, sc.write(p.signature));
    assert sc.write(p.signature)[..sc.size] == sc.write(p.signature);
  }

  /** Beyond the limit the reader fails, or reads a shorter list when the count wrapped. */
  lemma TooMany<G(!new), S(!new)>(gc: ElementCodec<G>, sc: SignatureCodec<S>, p: PedersenProof<G, S>)
    requires gc.IsCodec() && sc.IsSized() && |p.commitments| > MAX_COMMITMENTS
    ensures var r := ReadPedersen(gc, sc, WritePedersen(gc, sc, p)); r.Success? ==> r.value.0 != p
  {
    PedersenCount(gc, sc, p);
  }

  lemma CommitmentsRoundTrip<G(!new)>(gc: ElementCodec<G>, cs: seq<G>, rest: seq<byte>)
    requires gc.IsCodec()
    ensures ReadMany(b => ReadGroup(gc, b), |cs|, WriteAll(gc, cs) + rest) == Success((cs, rest))
  {
    var reader := (b: seq<byte>) => ReadGroup(gc, b);
    forall x: G, tail: seq<byte> | At2(x, tail) ensures reader(gc.write(x) + tail) == Success((x, tail)) {
      GroupRoundTrip(gc, x, tail);
    }
    ManyRoundTrip(gc, reader, cs, rest);
  }
}
