/** Where the substitutes of one file start, worked out: a number pinned outside this program (`inodes.rs:543-553`). */
module NodePinned {
  import opened Files
  import opened Nodes
  import opened NodeHashes

  lemma Wraps(n: nat, over: nat, mixed: nat)
    requires n == over * LIMIT + mixed && mixed < LIMIT
    ensures n % LIMIT == mixed
  {
  }

  lemma {:induction false} XorBit(a: nat, b: nat, bits: nat, rest: nat)
    requires bits > 0 && Xor(a / 2, b / 2, bits - 1) == rest
    ensures Xor(a, b, bits) == (if a % 2 == b % 2 then 0 else 1) + 2 * rest
  {
  }

  lemma {:induction false} XorType(a: nat, b: nat)
    requires a == 37 && b == 1
    ensures Xor(a, b, 8) == 36
  {
    assert a / 2 == 18 && b / 2 == 0;
    EightBits();
    XorZero(a / 2, 7);
    XorBit(a, b, 8, 18);
  }

  lemma {:induction false} XorInode(a: nat, b: nat)
    requires a == 100 && b == 10
    ensures Xor(a, b, 8) == 110
  {
    EightBits();
    XorZero(a / 2 / 2 / 2 / 2, 4);
    XorBit(a / 2 / 2 / 2, b / 2 / 2 / 2, 5, 6);
    XorBit(a / 2 / 2, b / 2 / 2, 6, 13);
    XorBit(a / 2, b / 2, 7, 27);
    XorBit(a, b, 8, 55);
  }

  lemma {:induction false} XorLife(a: nat, b: nat)
    requires a == 78 && b == 7
    ensures Xor(a, b, 8) == 73
  {
    EightBits();
    XorZero(a / 2 / 2 / 2, 5);
    XorBit(a / 2 / 2, b / 2 / 2, 6, 9);
    XorBit(a / 2, b / 2, 7, 18);
    XorBit(a, b, 8, 36);
  }

  /** One byte mixed in: `low` is the hash's lowest byte, `xored` it with the byte, and `over` what the product wraps by. */
  lemma {:induction false} Mixes(hash: nat, byte: bv8, low: nat, xored: nat, over: nat, mixed: nat)
    requires hash % 256 == low && low < 256 && Xor(low, byte as nat, 8) == xored
    requires (hash - low + xored) * 0x0000_0100_0000_01b3 == over * LIMIT + mixed && mixed < LIMIT
    ensures Mix(hash, byte) == mixed
  {
    var product := (hash - low + xored) * 0x0000_0100_0000_01b3;
    Wraps(product, over, mixed);
    assert Mix(hash, byte) == product % LIMIT;
  }

  /** The hash of the first `i` bytes. */
  predicate HashIs(bytes: seq<bv8>, i: nat, hash: nat) {
    i <= |bytes| && Fnv(bytes[..i]) == hash
  }

  lemma {:induction false} Step(bytes: seq<bv8>, i: nat, byte: nat, hash: nat, low: nat, xored: nat, over: nat, mixed: nat)
    requires i < |bytes| && bytes[i] as nat == byte && HashIs(bytes, i, hash)
    requires hash % 256 == low && low < 256 && Xor(low, byte, 8) == xored
    requires (hash - low + xored) * 0x0000_0100_0000_01b3 == over * LIMIT + mixed && mixed < LIMIT
    ensures HashIs(bytes, i + 1, mixed)
  {
    Mixes(hash, bytes[i], low, xored, over, mixed);
    assert bytes[..i + 1][..i] == bytes[..i];
  }

  lemma {:induction false} StepZero(bytes: seq<bv8>, i: nat, hash: nat, low: nat, over: nat, mixed: nat)
    requires i < |bytes| && bytes[i] == 0 && HashIs(bytes, i, hash) && hash % 256 == low && low < 256
    requires hash * 0x0000_0100_0000_01b3 == over * LIMIT + mixed && mixed < LIMIT
    ensures HashIs(bytes, i + 1, mixed)
  {
    EightBits();
    XorZero(low, 8);
    Step(bytes, i, 0, hash, low, low, over, mixed);
  }

  lemma Begins(bytes: seq<bv8>)
    ensures HashIs(bytes, 0, 0xcbf29ce484222325)
  {
    assert bytes[..0] == [];
  }

  lemma PinnedFirst(bytes: seq<bv8>, first: nat, hash: nat, low: nat)
    requires |bytes| == 12 && bytes[0] as nat == first && HashIs(bytes, 0, hash)
    requires first == 1 && low == 37 && hash == 0xcbf29ce484222325
    ensures HashIs(bytes, 1, 0xaf63bc4c8601b62c)
  {
    XorType(low, first);
    Step(bytes, 0, first, hash, low, 36, 875948729822, 0xaf63bc4c8601b62c);
  }

  lemma PinnedType(bytes: seq<bv8>)
    requires |bytes| == 12 && bytes[0] == 1 && bytes[1] == 0
    ensures HashIs(bytes, 2, 0x082f2207b4e88cc4)
  {
    Begins(bytes);
    PinnedFirst(bytes, 1, 0xcbf29ce484222325, 37);
    StepZero(bytes, 1, 0xaf63bc4c8601b62c, 44, 753292561840, 0x082f2207b4e88cc4);
  }

  lemma PinnedTypeRest(bytes: seq<bv8>)
    requires |bytes| == 12 && bytes[2] == 0 && bytes[3] == 0 && HashIs(bytes, 2, 0x082f2207b4e88cc4)
    ensures HashIs(bytes, 4, 0xad2aca7747985764)
  {
    StepZero(bytes, 2, 0x082f2207b4e88cc4, 196, 35150497730, 0xd0a397186727310c);
    StepZero(bytes, 3, 0xd0a397186727310c, 12, 896097786313, 0xad2aca7747985764);
  }

  lemma PinnedInode(bytes: seq<bv8>)
    requires |bytes| == 12 && bytes[4] == 10 && bytes[5] == 0 && HashIs(bytes, 4, 0xad2aca7747985764)
    ensures HashIs(bytes, 6, 0xfb7094c73bc88a9e)
  {
    XorInode(100, 10);
    Step(bytes, 4, 10, 0xad2aca7747985764, 100, 110, 743747254381, 0xd80d76aea7dc8fea);
    StepZero(bytes, 5, 0xd80d76aea7dc8fea, 234, 927938818070, 0xfb7094c73bc88a9e);
  }

  lemma PinnedInodeRest(bytes: seq<bv8>)
    requires |bytes| == 12 && bytes[6] == 0 && bytes[7] == 0 && HashIs(bytes, 6, 0xfb7094c73bc88a9e)
    ensures HashIs(bytes, 8, 0xc997e97c7b444d4e)
  {
    StepZero(bytes, 6, 0xfb7094c73bc88a9e, 158, 1079925590247, 0x08d76c8a95c38a7a);
    StepZero(bytes, 7, 0x08d76c8a95c38a7a, 122, 37973953188, 0xc997e97c7b444d4e);
  }

  lemma PinnedLife(bytes: seq<bv8>)
    requires |bytes| == 12 && bytes[8] == 7 && bytes[9] == 0 && HashIs(bytes, 8, 0xc997e97c7b444d4e)
    ensures HashIs(bytes, 10, 0xeefcd2c5e90a1bb1)
  {
    XorLife(78, 7);
    Step(bytes, 8, 7, 0xc997e97c7b444d4e, 78, 73, 865837088209, 0xd16f0785750f530b);
    StepZero(bytes, 9, 0xd16f0785750f530b, 11, 899510929112, 0xeefcd2c5e90a1bb1);
  }

  lemma PinnedLifeRest(bytes: seq<bv8>)
    requires |bytes| == 12 && bytes[10] == 0 && bytes[11] == 0 && HashIs(bytes, 10, 0xeefcd2c5e90a1bb1)
    ensures HashIs(bytes, 12, 0x750a976a808e6259)
  {
    StepZero(bytes, 10, 0xeefcd2c5e90a1bb1, 177, 1026443888511, 0x21b5d74afc2d0dc3);
    StepZero(bytes, 11, 0x21b5d74afc2d0dc3, 195, 144784706357, 0x750a976a808e6259);
  }

  lemma PinnedHash(bytes: seq<bv8>)
    requires bytes == [1, 0, 0, 0, 10, 0, 0, 0, 7, 0, 0, 0]
    ensures Fnv(bytes) == 0x750a976a808e6259
  {
    PinnedType(bytes);
    PinnedTypeRest(bytes);
    PinnedInode(bytes);
    PinnedInodeRest(bytes);
    PinnedLife(bytes);
    PinnedLifeRest(bytes);
    assert bytes[..12] == bytes;
  }

  /** The substitute of inode number 10 in its seventh life, as ext4 puts it in a handle. */
  lemma PinnedSubstitute(identity: Identity)
    requires identity == Identity(1, [10, 0, 0, 0, 7, 0, 0, 0])
    ensures Substitute(identity) == 0x750a976a808e6259
  {
    assert LittleEndian(identity.handleType) == [1, 0, 0, 0];
    PinnedHash(LittleEndian(identity.handleType) + identity.handle);
  }
}
