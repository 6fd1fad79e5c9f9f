/** Deposit identifiers: the pool id and a sequence number packed, byte by byte, into one 128-bit NFT id. */
module NftIds {
  import opened Basics
  import opened Rounding

  type Byte = b: nat | b < 256

  const POOL_ID_BYTES: nat := 4
  const NFT_SEQUENCE_BYTES: nat := 12
  const ID_BYTES: nat := 16
  const MAX_NFT_SEQUENCE: nat := 79_228_162_514_264_337_593_543_950_335
  const LARGEST_INVALID_ID: nat := 4_294_967_296

  function Pow256(k: nat): nat { if k == 0 then 1 else 256 * Pow256(k - 1) }

  function ToLeBytes(n: nat, len: nat): (bs: seq<Byte>)
    ensures |bs| == len
  {
    if len == 0 then [] else [n % 256] + ToLeBytes(n / 256, len - 1)
  }

  function FromLeBytes(bs: seq<Byte>): nat {
    if bs == [] then 0 else bs[0] + 256 * FromLeBytes(bs[1..])
  }

  function EncodeId(pool: nat, sequence: nat): nat {
    FromLeBytes(ToLeBytes(pool, POOL_ID_BYTES) + ToLeBytes(sequence, ID_BYTES)[..NFT_SEQUENCE_BYTES])
  }

  /** The pool id of an NFT id; ids up to 2^32 are refused. */
  function DecodePool(id: nat): Option<nat> {
    if id <= LARGEST_INVALID_ID then None
    else Some(FromLeBytes(ToLeBytes(id, ID_BYTES)[..POOL_ID_BYTES]))
  }

  lemma {:induction false} PowPositive(k: nat)
    ensures Pow256(k) > 0
  {
    if k > 0 { PowPositive(k - 1); }
  }

  lemma {:induction false} LeConcat(a: seq<Byte>, b: seq<Byte>)
    ensures FromLeBytes(a + b) == FromLeBytes(a) + Pow256(|a|) * FromLeBytes(b)
  {
    if a == [] {
      assert a + b == b;
    } else {
      assert (a + b)[1..] == a[1..] + b;
      LeConcat(a[1..], b);
      assert 256 * (Pow256(|a| - 1) * FromLeBytes(b)) == Pow256(|a|) * FromLeBytes(b);
    }
  }

  lemma DivMod256(n: nat, p: nat)
    requires p > 0
    ensures n % (256 * p) == n % 256 + 256 * (n / 256 % p)
  {
    var q, r := n / 256, n % 256;
    var u, v := q / p, q % p;
    assert n == 256 * (p * u + v) + r;
    assert n == (256 * p) * u + (256 * v + r);
    assert 256 * v + r < 256 * p;
    ModUnique(n, 256 * p, u, 256 * v + r);
  }

  /** The first k little-endian bytes carry the residue modulo 256^k. */
  lemma {:induction false} LePrefix(n: nat, len: nat, k: nat)
    requires k <= len
    ensures FromLeBytes(ToLeBytes(n, len)[..k]) == (PowPositive(k); n % Pow256(k))
  {
    PowPositive(k);
    if k > 0 {
      var bs := ToLeBytes(n, len);
      PowPositive(k - 1);
      LePrefix(n / 256, len - 1, k - 1);
      assert bs[..k][1..] == ToLeBytes(n / 256, len - 1)[..k - 1];
      assert bs[..k][0] == n % 256;
      DivMod256(n, Pow256(k - 1));
    }
  }

  lemma Powers()
    ensures Pow256(POOL_ID_BYTES) == 0x1_0000_0000
    ensures Pow256(NFT_SEQUENCE_BYTES) == MAX_NFT_SEQUENCE + 1
  {
    assert Pow256(1) == 256;
    assert Pow256(2) == 0x1_0000;
    assert Pow256(3) == 0x100_0000;
    assert Pow256(4) == 0x1_0000_0000;
    assert Pow256(5) == 0x100_0000_0000;
    assert Pow256(6) == 0x1_0000_0000_0000;
    assert Pow256(7) == 0x100_0000_0000_0000;
    assert Pow256(8) == 0x1_0000_0000_0000_0000;
    assert Pow256(9) == 0x100_0000_0000_0000_0000;
    assert Pow256(10) == 0x1_0000_0000_0000_0000_0000;
    assert Pow256(11) == 0x100_0000_0000_0000_0000_0000;
  }

  lemma LowBytes(pool: nat)
    requires pool <= MAX_U32
    ensures FromLeBytes(ToLeBytes(pool, POOL_ID_BYTES)) == pool
  {
    Powers();
    LePrefix(pool, POOL_ID_BYTES, POOL_ID_BYTES);
    assert ToLeBytes(pool, POOL_ID_BYTES)[..POOL_ID_BYTES] == ToLeBytes(pool, POOL_ID_BYTES);
  }

  lemma HighBytes(sequence: nat)
    requires sequence <= MAX_NFT_SEQUENCE
    ensures FromLeBytes(ToLeBytes(sequence, ID_BYTES)[..NFT_SEQUENCE_BYTES]) == sequence
  {
    Powers();
    LePrefix(sequence, ID_BYTES, NFT_SEQUENCE_BYTES);
  }

  /** What the byte shuffling computes: the pool id in the LEAST significant 32 bits, the sequence above. */
  lemma EncodedValue(pool: nat, sequence: nat)
    requires pool <= MAX_U32 && sequence <= MAX_NFT_SEQUENCE
    ensures EncodeId(pool, sequence) == pool + 0x1_0000_0000 * sequence
  {
    LowBytes(pool);
    HighBytes(sequence);
    LeConcat(ToLeBytes(pool, POOL_ID_BYTES), ToLeBytes(sequence, ID_BYTES)[..NFT_SEQUENCE_BYTES]);
    Powers();
  }

  lemma DecodedValue(id: nat)
    ensures DecodePool(id) == if id <= LARGEST_INVALID_ID then None else Some(id % 0x1_0000_0000)
  {
    Powers();
    LePrefix(id, ID_BYTES, POOL_ID_BYTES);
  }

  /** Round trip: every id minted for a valid pool fits 128 bits, passes the validity guard, decodes to its
      pool, and keeps its sequence number recoverable, so no two mints collide. */
  lemma IdRoundTrip(pool: nat, sequence: nat)
    requires 1 <= pool <= MAX_U32 && 1 <= sequence <= MAX_NFT_SEQUENCE
    ensures DecodePool(EncodeId(pool, sequence)) == Some(pool)
    ensures EncodeId(pool, sequence) / 0x1_0000_0000 == sequence
    ensures EncodeId(pool, sequence) <= MAX_U128
  {
    EncodedValue(pool, sequence);
    var id := EncodeId(pool, sequence);
    ModUnique(id, 0x1_0000_0000, sequence, pool);
    DecodedValue(id);
  }

  lemma IdsNeverCollide(pool: nat, sequence: nat, pool': nat, sequence': nat)
    requires 1 <= pool <= MAX_U32 && 1 <= sequence <= MAX_NFT_SEQUENCE
    requires 1 <= pool' <= MAX_U32 && 1 <= sequence' <= MAX_NFT_SEQUENCE
    ensures EncodeId(pool, sequence) == EncodeId(pool', sequence') <==> pool == pool' && sequence == sequence'
  {
    IdRoundTrip(pool, sequence);
    IdRoundTrip(pool', sequence');
  }
}
