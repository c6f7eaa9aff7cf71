/** Substitute numbers: two identities that differ in one byte, of the handle or of its type, are not given the same number
    to start from, unless it is one moved off the reserved ones. */
module NodeHashes {
  import opened Files
  import opened Nodes

  /** The multiplier of FNV, and its inverse modulo 2^64. */
  const PRIME := 0x0000_0100_0000_01b3
  const INVERSE := 0xce96_5057_aff6_957b

  lemma PrimeInverse()
    ensures PRIME * INVERSE == 1 + 887285111055 * LIMIT
  {
  }

  /** Multiplying by the prime loses nothing of a 64-bit number. */
  lemma ProductsDiffer(x: nat, y: nat)
    requires x < LIMIT && y < LIMIT && x * PRIME % LIMIT == y * PRIME % LIMIT
    ensures x == y
  {
    var m := x * PRIME / LIMIT - y * PRIME / LIMIT;
    assert (x - y) * PRIME == m * LIMIT;
    assert (x - y) * PRIME * INVERSE == m * INVERSE * LIMIT;
    PrimeInverse();
    assert x - y == LIMIT * (m * INVERSE - 887285111055 * (x - y));
  }

  function Power(bits: nat): nat {
    if bits == 0 then 1 else 2 * Power(bits - 1)
  }

  /** Exclusive or stays within its bits. */
  lemma {:induction false} XorFits(a: nat, b: nat, bits: nat)
    ensures Xor(a, b, bits) < Power(bits)
  {
    if bits > 0 {
      XorFits(a / 2, b / 2, bits - 1);
    }
  }

  /** Exclusive or with the same number tells two numbers apart, and either way round. */
  lemma {:induction false} XorDiffers(a: nat, b: nat, c: nat, bits: nat)
    requires a < Power(bits) && b < Power(bits)
    ensures Xor(a, c, bits) == Xor(b, c, bits) ==> a == b
    ensures Xor(c, a, bits) == Xor(c, b, bits) ==> a == b
  {
    if bits > 0 {
      XorDiffers(a / 2, b / 2, c / 2, bits - 1);
    }
  }

  lemma {:induction false} XorZero(a: nat, bits: nat)
    requires a < Power(bits)
    ensures Xor(a, 0, bits) == a
  {
    if bits > 0 {
      XorZero(a / 2, bits - 1);
    }
  }

  lemma EightBits()
    ensures Power(4) == 16 && Power(5) == 32 && Power(7) == 128 && Power(8) == 256
  {
  }

  /** The hash with a byte brought into it, before the product. */
  function Xored(hash: nat, byte: bv8): nat {
    hash - hash % 256 + Xor(hash % 256, byte as nat, 8)
  }

  lemma LowByte(hash: nat, low: nat)
    requires hash < LIMIT && low < 256
    ensures var x := hash - hash % 256 + low; x < LIMIT && x % 256 == low && x / 256 == hash / 256
  {
    assert hash - hash % 256 + low == 256 * (hash / 256) + low;
  }

  lemma {:induction false} Parts(hash: nat, byte: bv8)
    requires hash < LIMIT
    ensures Xored(hash, byte) < LIMIT && Xored(hash, byte) / 256 == hash / 256
    ensures Xored(hash, byte) % 256 == Xor(hash % 256, byte as nat, 8)
  {
    EightBits();
    XorFits(hash % 256, byte as nat, 8);
    LowByte(hash, Xor(hash % 256, byte as nat, 8));
  }

  lemma SameByte(a: bv8, b: bv8)
    requires a as nat == b as nat
    ensures a == b
  {
  }

  /** Two bytes that differ are mixed in differently. */
  lemma {:induction false} BytesDiffer(hash: nat, a: bv8, b: bv8)
    requires hash < LIMIT && Mix(hash, a) == Mix(hash, b)
    ensures a == b
  {
    Parts(hash, a);
    Parts(hash, b);
    ProductsDiffer(Xored(hash, a), Xored(hash, b));
    EightBits();
    XorDiffers(a as nat, b as nat, hash % 256, 8);
    SameByte(a, b);
  }

  /** And two hashes that differ stay different. */
  lemma {:induction false} HashesDiffer(one: nat, other: nat, byte: bv8)
    requires one < LIMIT && other < LIMIT && Mix(one, byte) == Mix(other, byte)
    ensures one == other
  {
    Parts(one, byte);
    Parts(other, byte);
    ProductsDiffer(Xored(one, byte), Xored(other, byte));
    EightBits();
    XorDiffers(one % 256, other % 256, byte as nat, 8);
  }

  /** Bytes that differ in one place have different hashes. */
  lemma {:induction false} HashDiffers(first: seq<bv8>, a: bv8, b: bv8, rest: seq<bv8>)
    requires a != b
    ensures Fnv(first + [a] + rest) != Fnv(first + [b] + rest)
    decreases |rest|
  {
    var one, other := first + [a] + rest, first + [b] + rest;
    if rest == [] {
      assert one[..|one| - 1] == first && other[..|other| - 1] == first;
      if Fnv(one) == Fnv(other) {
        BytesDiffer(Fnv(first), a, b);
      }
    } else {
      var n := |rest| - 1;
      assert one[..|one| - 1] == first + [a] + rest[..n] && other[..|other| - 1] == first + [b] + rest[..n];
      HashDiffers(first, a, b, rest[..n]);
      if Fnv(one) == Fnv(other) {
        HashesDiffer(Fnv(first + [a] + rest[..n]), Fnv(first + [b] + rest[..n]), rest[n]);
      }
    }
  }

  /** Files whose handles differ in one byte start from different numbers. */
  lemma {:induction false} HandleCounts(identity: Identity, i: nat, byte: bv8)
    requires i < |identity.handle| && byte != identity.handle[i]
    ensures var other := identity.(handle := identity.handle[i := byte]);
      Substitute(identity) != Substitute(other) || Substitute(identity) == 2
  {
    var other := identity.(handle := identity.handle[i := byte]);
    var kind, handle := LittleEndian(identity.handleType), identity.handle;
    HashDiffers(kind + handle[..i], handle[i], byte, handle[i + 1..]);
    assert kind + handle == kind + handle[..i] + [handle[i]] + handle[i + 1..];
    assert kind + other.handle == kind + handle[..i] + [byte] + handle[i + 1..];
  }

  /** So do files whose handles are of types that differ in one byte, here the lowest. */
  lemma {:induction false} TypeCounts(identity: Identity, handleType: bv32)
    requires handleType != identity.handleType && handleType >> 8 == identity.handleType >> 8
    ensures var other := identity.(handleType := handleType);
      Substitute(identity) != Substitute(other) || Substitute(identity) == 2
  {
    LowestDiffers(identity.handleType, handleType);
    FirstDiffers(LittleEndian(identity.handleType), LittleEndian(handleType), identity.handle);
  }

  lemma {:induction false} FirstDiffers(one: seq<bv8>, other: seq<bv8>, rest: seq<bv8>)
    requires one != [] && other != [] && one[0] != other[0] && one[1..] == other[1..]
    ensures Fnv(one + rest) != Fnv(other + rest)
  {
    HashDiffers([], one[0], other[0], one[1..] + rest);
    assert one + rest == [] + [one[0]] + (one[1..] + rest);
    assert other + rest == [] + [other[0]] + (one[1..] + rest);
  }

  lemma Lowest(a: bv32, b: bv32)
    requires a != b && a >> 8 == b >> 8
    ensures (a & 0xff) as bv8 != (b & 0xff) as bv8
  {
  }

  lemma Higher(a: bv32, b: bv32)
    requires a >> 8 == b >> 8
    ensures a >> 16 == b >> 16 && a >> 24 == b >> 24
  {
  }

  lemma LowestDiffers(a: bv32, b: bv32)
    requires a != b && a >> 8 == b >> 8
    ensures LittleEndian(a)[0] != LittleEndian(b)[0] && LittleEndian(a)[1..] == LittleEndian(b)[1..]
  {
    Lowest(a, b);
    Higher(a, b);
  }
}
