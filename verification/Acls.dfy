/** Owners inside a POSIX ACL in the kernel's xattr form (`owners.rs`), and how a mount that shows the server's user as its
    own rewrites them (`ids.rs`): out, only the local user's ids have a counterpart; in, every other owner is nobody. */
module Acls {
  import opened Files

  type Byte = n: nat | n < 256
  type U32 = n: nat | n < 0x1_0000_0000

  const NOBODY: U32 := 65534
  const ACL_VERSION := 2
  const ACL_ENTRY := 8
  const ACL_USER := 0x02
  const ACL_GROUP := 0x08

  datatype KindOwner = User | Group

  datatype Owner = Owner(kind: KindOwner, id: U32)

  // ---- Little-endian words ----

  function Word16(low: Byte, high: Byte): nat {
    low + 0x100 * high
  }

  function Word32(a: Byte, b: Byte, c: Byte, d: Byte): U32 {
    a + 0x100 * b + 0x1_0000 * c + 0x100_0000 * d
  }

  /** Byte `k` of a little-endian word. */
  function ByteOf(word: U32, k: nat): Byte
    requires k < 4
  {
    if k == 0 then word % 0x100
    else if k == 1 then word / 0x100 % 0x100
    else if k == 2 then word / 0x1_0000 % 0x100
    else word / 0x100_0000
  }

  lemma BytesOfWord(word: U32)
    ensures Word32(ByteOf(word, 0), ByteOf(word, 1), ByteOf(word, 2), ByteOf(word, 3)) == word
  {
    assert word / 0x1_0000 == word / 0x100 / 0x100 && word / 0x100_0000 == word / 0x1_0000 / 0x100;
  }

  lemma WordOfBytes(a: Byte, b: Byte, c: Byte, d: Byte)
    ensures var word := Word32(a, b, c, d);
      ByteOf(word, 0) == a && ByteOf(word, 1) == b && ByteOf(word, 2) == c && ByteOf(word, 3) == d
  {
    var word := Word32(a, b, c, d);
    assert word / 0x100 == b + 0x100 * c + 0x1_0000 * d;
    assert word / 0x1_0000 == c + 0x100 * d;
  }

  // ---- ACLs ----

  /** A little-endian version word, then whole entries of tag, permissions and id. */
  predicate IsAcl(value: seq<Byte>) {
    && |value| >= 4
    && Word32(value[0], value[1], value[2], value[3]) == ACL_VERSION
    && (|value| - 4) % ACL_ENTRY == 0
  }

  function Entries(value: seq<Byte>): nat
    requires |value| >= 4
  {
    (|value| - 4) / ACL_ENTRY
  }

  /** The owner that entry `k` names, if it is of a kind that names one. */
  function OwnerAt(value: seq<Byte>, k: nat): Option<Owner>
    requires |value| >= 4 && k < Entries(value)
  {
    var e := 4 + ACL_ENTRY * k;
    var id := Word32(value[e + 4], value[e + 5], value[e + 6], value[e + 7]);
    if Word16(value[e], value[e + 1]) == ACL_USER then Some(Owner(User, id))
    else if Word16(value[e], value[e + 1]) == ACL_GROUP then Some(Owner(Group, id))
    else None
  }

  /** Byte `j` of the ACL with every named id replaced. */
  function MappedByte(value: seq<Byte>, change: Owner -> U32, j: nat): Byte
    requires |value| >= 4 && (|value| - 4) % ACL_ENTRY == 0 && j < |value|
  {
    if j < 4 then value[j]
    else
      var k, o := (j - 4) / ACL_ENTRY, (j - 4) % ACL_ENTRY;
      if o >= 4 && OwnerAt(value, k).Some? then ByteOf(change(OwnerAt(value, k).value), o - 4) else value[j]
  }

  /** The ACL with every named id replaced; anything else as it is. */
  function Mapped(value: seq<Byte>, change: Owner -> U32): (mapped: seq<Byte>)
    ensures |mapped| == |value|
  {
    if IsAcl(value) then seq(|value|, j requires 0 <= j < |value| => MappedByte(value, change, j)) else value
  }

  /** The owners an ACL names, in order. */
  function OwnersTo(value: seq<Byte>, n: nat): seq<Owner>
    requires |value| >= 4 && n <= Entries(value)
  {
    if n == 0 then []
    else OwnersTo(value, n - 1) + if OwnerAt(value, n - 1).Some? then [OwnerAt(value, n - 1).value] else []
  }

  function Owners(value: seq<Byte>): Option<seq<Owner>> {
    if IsAcl(value) then Some(OwnersTo(value, Entries(value))) else None
  }

  /** Rewrites the ids in the bytes; unless they are an ACL, they stay. */
  method MapAcl(value: array<Byte>, change: Owner -> U32) returns (acl: bool)
    modifies value
    ensures acl == IsAcl(old(value[..])) && value[..] == Mapped(old(value[..]), change)
  {
    acl := IsAcl(value[..]);
    if !acl {
      return;
    }
    ghost var was := value[..];
    var n := Entries(value[..]);
    for k := 0 to n
      invariant value.Length == |was|
      invariant forall j | 0 <= j < 4 + ACL_ENTRY * k :: value[j] == MappedByte(was, change, j)
      invariant forall j | 4 + ACL_ENTRY * k <= j < value.Length :: value[j] == was[j]
    {
      MapEntry(value, change, k, was);
    }
  }

  /** Entry `k` is replaced, those before it having been. */
  method MapEntry(value: array<Byte>, change: Owner -> U32, k: nat, ghost was: seq<Byte>)
    requires value.Length == |was| && IsAcl(was) && k < Entries(was)
    requires forall j | 0 <= j < 4 + ACL_ENTRY * k :: value[j] == MappedByte(was, change, j)
    requires forall j | 4 + ACL_ENTRY * k <= j < value.Length :: value[j] == was[j]
    modifies value
    ensures forall j | 0 <= j < 4 + ACL_ENTRY * (k + 1) :: value[j] == MappedByte(was, change, j)
    ensures forall j | 4 + ACL_ENTRY * (k + 1) <= j < value.Length :: value[j] == was[j]
  {
    var e := 4 + ACL_ENTRY * k;
    var owner := OwnerAt(value[..], k);
    assert owner == OwnerAt(was, k);
    if owner.Some? {
      var id := change(owner.value);
      value[e + 4], value[e + 5] := ByteOf(id, 0), ByteOf(id, 1);
      value[e + 6], value[e + 7] := ByteOf(id, 2), ByteOf(id, 3);
    }
    forall j | e <= j < e + ACL_ENTRY ensures value[j] == MappedByte(was, change, j) {
      assert (j - 4) / ACL_ENTRY == k && (j - 4) % ACL_ENTRY == j - e;
    }
  }

  /** Byte `o` of entry `k`, with every named id replaced. */
  lemma MappedAt(value: seq<Byte>, change: Owner -> U32, k: nat, o: nat)
    requires IsAcl(value) && k < Entries(value) && o < ACL_ENTRY
    ensures var e, owner := 4 + ACL_ENTRY * k, OwnerAt(value, k);
      Mapped(value, change)[e + o]
      == if o >= 4 && owner.Some? then ByteOf(change(owner.value), o - 4) else value[e + o]
  {
    var j := 4 + ACL_ENTRY * k + o;
    assert (j - 4) / ACL_ENTRY == k && (j - 4) % ACL_ENTRY == o;
    assert Mapped(value, change)[j] == MappedByte(value, change, j);
  }

  /** An entry with these tag bytes and this id names this owner. */
  lemma OwnerIs(value: seq<Byte>, other: seq<Byte>, k: nat, id: U32)
    requires |value| == |other| >= 4 && k < Entries(value)
    requires var e := 4 + ACL_ENTRY * k;
      && Word16(other[e], other[e + 1]) == Word16(value[e], value[e + 1])
      && (OwnerAt(value, k).Some? ==> Word32(other[e + 4], other[e + 5], other[e + 6], other[e + 7]) == id)
    ensures var owner := OwnerAt(value, k);
      OwnerAt(other, k) == if owner.Some? then Some(Owner(owner.value.kind, id)) else None
  {
  }

  /** Replacing ids replaces them and nothing else: the form, the tags and the entries that name nobody stay. */
  lemma MappedOwner(value: seq<Byte>, change: Owner -> U32, k: nat)
    requires IsAcl(value) && k < Entries(value)
    ensures IsAcl(Mapped(value, change)) && Entries(Mapped(value, change)) == Entries(value)
    ensures var owner := OwnerAt(value, k);
      OwnerAt(Mapped(value, change), k) == if owner.Some? then Some(Owner(owner.value.kind, change(owner.value))) else None
  {
    MappedForm(value, change);
    MappedTag(value, change, k);
    var owner, mapped := OwnerAt(value, k), Mapped(value, change);
    if owner.Some? {
      MappedWord(value, change, k);
    }
    OwnerIs(value, mapped, k, if owner.Some? then change(owner.value) else 0);
  }

  lemma MappedTag(value: seq<Byte>, change: Owner -> U32, k: nat)
    requires IsAcl(value) && k < Entries(value)
    ensures var e, mapped := 4 + ACL_ENTRY * k, Mapped(value, change);
      Word16(mapped[e], mapped[e + 1]) == Word16(value[e], value[e + 1])
  {
    var e, mapped := 4 + ACL_ENTRY * k, Mapped(value, change);
    TagStays(value, change, k, e);
    TagStays(value, change, k, e + 1);
  }

  lemma TagStays(value: seq<Byte>, change: Owner -> U32, k: nat, j: nat)
    requires IsAcl(value) && k < Entries(value) && 4 + ACL_ENTRY * k <= j < 4 + ACL_ENTRY * k + 4
    ensures Mapped(value, change)[j] == value[j]
  {
    MappedAt(value, change, k, j - 4 - ACL_ENTRY * k);
  }

  lemma MappedWord(value: seq<Byte>, change: Owner -> U32, k: nat)
    requires IsAcl(value) && k < Entries(value) && OwnerAt(value, k).Some?
    ensures var e, mapped := 4 + ACL_ENTRY * k, Mapped(value, change);
      Word32(mapped[e + 4], mapped[e + 5], mapped[e + 6], mapped[e + 7]) == change(OwnerAt(value, k).value)
  {
    MappedAt(value, change, k, 4);
    MappedAt(value, change, k, 5);
    MappedAt(value, change, k, 6);
    MappedAt(value, change, k, 7);
    BytesOfWord(change(OwnerAt(value, k).value));
  }

  lemma MappedForm(value: seq<Byte>, change: Owner -> U32)
    requires IsAcl(value)
    ensures IsAcl(Mapped(value, change))
  {
    var mapped := Mapped(value, change);
    assert mapped[0] == value[0] && mapped[1] == value[1] && mapped[2] == value[2] && mapped[3] == value[3];
  }

  // ---- One mount's owners ----

  datatype Result<T> = Ok(value: T) | Unmapped

  datatype Owned = Owned(serverUid: U32, serverGid: U32, localUid: U32, localGid: U32)
  {
    function Server(kind: KindOwner): U32 {
      if kind.User? then serverUid else serverGid
    }

    function Local(kind: KindOwner): U32 {
      if kind.User? then localUid else localGid
    }

    /** An owner in local terms. */
    function In(owner: Owner): U32 {
      if owner.id == Server(owner.kind) then Local(owner.kind) else NOBODY
    }

    /** An owner in server terms, if it has a counterpart there. */
    function Out(owner: Owner): Result<U32> {
      if owner.id == Local(owner.kind) then Ok(Server(owner.kind)) else Unmapped
    }

    function ToServer(): Owner -> U32 {
      (owner: Owner) => Server(owner.kind)
    }

    function ToLocal(): Owner -> U32 {
      (owner: Owner) => In(owner)
    }

    /** The value of an ACL as it is sent: what does not parse as it is, for the server to judge. */
    function Outgoing(value: seq<Byte>): Result<seq<Byte>> {
      var named := Owners(value);
      if named.None? then Ok(value)
      else if forall k | 0 <= k < |named.value| :: Out(named.value[k]).Ok? then Ok(Mapped(value, ToServer()))
      else Unmapped
    }

    /** The value of an ACL as it is shown. */
    function Incoming(value: seq<Byte>): seq<Byte> {
      Mapped(value, ToLocal())
    }
  }

  lemma {:induction false} OwnersAre(value: seq<Byte>, n: nat, owner: Owner)
    requires |value| >= 4 && n <= Entries(value)
    ensures owner in OwnersTo(value, n) <==> exists k: nat :: k < n && OwnerAt(value, k) == Some(owner)
  {
    if n > 0 {
      OwnersAre(value, n - 1, owner);
    }
  }

  /** An ACL is sent exactly when every id it names is the local user's. */
  lemma SentExactly(o: Owned, value: seq<Byte>)
    requires IsAcl(value)
    ensures o.Outgoing(value).Ok?
            <==> forall k: nat | k < Entries(value) && OwnerAt(value, k).Some? ::
                   OwnerAt(value, k).value.id == o.Local(OwnerAt(value, k).value.kind)
  {
    var named := Owners(value).value;
    forall k: nat | k < Entries(value) && OwnerAt(value, k).Some? ensures OwnerAt(value, k).value in named {
      OwnersAre(value, Entries(value), OwnerAt(value, k).value);
    }
    forall i | 0 <= i < |named| ensures exists k: nat :: k < Entries(value) && OwnerAt(value, k) == Some(named[i]) {
      assert named[i] in named;
      OwnersAre(value, Entries(value), named[i]);
    }
  }

  /** What was sent, read back, is what was given. */
  lemma RoundTrip(o: Owned, value: seq<Byte>)
    requires o.Outgoing(value).Ok?
    ensures o.Incoming(o.Outgoing(value).value) == value
  {
    if IsAcl(value) {
      SentExactly(o, value);
      var sent := o.Outgoing(value).value;
      MappedForm(value, o.ToServer());
      forall j | 0 <= j < |value| ensures Mapped(sent, o.ToLocal())[j] == value[j] {
        RoundTripAt(o, value, sent, j);
      }
    }
  }

  /** A byte past the version is byte `b` of some entry. */
  lemma InEntry(length: nat, j: nat) returns (k: nat, b: nat)
    requires 4 <= j < length && (length - 4) % ACL_ENTRY == 0
    ensures k < (length - 4) / ACL_ENTRY && b < ACL_ENTRY && j == 4 + ACL_ENTRY * k + b
  {
    k, b := (j - 4) / ACL_ENTRY, (j - 4) % ACL_ENTRY;
  }

  lemma RoundTripAt(o: Owned, value: seq<Byte>, sent: seq<Byte>, j: nat)
    requires IsAcl(value) && sent == Mapped(value, o.ToServer()) && IsAcl(sent) && j < |value|
    requires forall k: nat | k < Entries(value) && OwnerAt(value, k).Some? ::
               OwnerAt(value, k).value.id == o.Local(OwnerAt(value, k).value.kind)
    ensures Mapped(sent, o.ToLocal())[j] == value[j]
  {
    if j < 4 {
      assert Mapped(sent, o.ToLocal())[j] == MappedByte(sent, o.ToLocal(), j);
      assert sent[j] == MappedByte(value, o.ToServer(), j);
    } else {
      var k, b := InEntry(|value|, j);
      RoundTripByte(o, value, sent, k, b);
    }
  }

  lemma RoundTripByte(o: Owned, value: seq<Byte>, sent: seq<Byte>, k: nat, b: nat)
    requires IsAcl(value) && sent == Mapped(value, o.ToServer()) && IsAcl(sent) && k < Entries(value) && b < ACL_ENTRY
    requires OwnerAt(value, k).Some? ==> OwnerAt(value, k).value.id == o.Local(OwnerAt(value, k).value.kind)
    ensures Mapped(sent, o.ToLocal())[4 + ACL_ENTRY * k + b] == value[4 + ACL_ENTRY * k + b]
  {
    MappedOwner(value, o.ToServer(), k);
    MappedAt(value, o.ToServer(), k, b);
    MappedAt(sent, o.ToLocal(), k, b);
    if OwnerAt(value, k).Some? && b >= 4 {
      OwnBytes(value, k, b - 4);
    }
  }

  /** The bytes of the id an entry names are the entry's own. */
  lemma OwnBytes(value: seq<Byte>, k: nat, b: nat)
    requires |value| >= 4 && k < Entries(value) && b < 4 && OwnerAt(value, k).Some?
    ensures ByteOf(OwnerAt(value, k).value.id, b) == value[4 + ACL_ENTRY * k + 4 + b]
  {
    var e := 4 + ACL_ENTRY * k;
    WordOfBytes(value[e + 4], value[e + 5], value[e + 6], value[e + 7]);
  }

  /** What is shown names the local user where the server's was named, and nobody where another was. */
  lemma ShownOwner(o: Owned, value: seq<Byte>, k: nat)
    requires IsAcl(value) && k < Entries(value)
    ensures IsAcl(o.Incoming(value)) && Entries(o.Incoming(value)) == Entries(value)
    ensures var owner, shown := OwnerAt(value, k), OwnerAt(o.Incoming(value), k);
      && shown.Some? == owner.Some?
      && (owner.Some? ==> shown.value.kind == owner.value.kind
                          && shown.value.id == if owner.value.id == o.Server(owner.value.kind) then o.Local(owner.value.kind)
                                               else NOBODY)
  {
    MappedOwner(value, o.ToLocal(), k);
  }

  // ---- In bytes ----

  /** Entry `k` has the tag of a named user, or of a named group. */
  predicate NamesUser(value: seq<Byte>, k: nat)
    requires |value| >= 4 && k < Entries(value)
  {
    value[4 + 8 * k] == 2 && value[4 + 8 * k + 1] == 0
  }

  predicate NamesGroup(value: seq<Byte>, k: nat)
    requires |value| >= 4 && k < Entries(value)
  {
    value[4 + 8 * k] == 8 && value[4 + 8 * k + 1] == 0
  }

  /** The id in the last four bytes of entry `k`, lowest byte first. */
  function IdAt(value: seq<Byte>, k: nat): nat
    requires |value| >= 4 && k < Entries(value)
  {
    var e := 4 + 8 * k;
    LowestFirst(value[e + 4], value[e + 5], value[e + 6], value[e + 7])
  }

  function LowestFirst(a: nat, b: nat, c: nat, d: nat): nat {
    a + 256 * b + 65536 * c + 16777216 * d
  }

  /** The owner an entry names, in bytes: a user by tag 2, a group by tag 8, nobody by any other. */
  lemma OwnerInBytes(value: seq<Byte>, k: nat)
    requires |value| >= 4 && k < Entries(value)
    ensures NamesUser(value, k) ==> OwnerAt(value, k) == Some(Owner(User, IdAt(value, k)))
    ensures NamesGroup(value, k) ==> OwnerAt(value, k) == Some(Owner(Group, IdAt(value, k)))
    ensures !NamesUser(value, k) && !NamesGroup(value, k) ==> OwnerAt(value, k) == None
  {
  }

  /** An ACL, in bytes: version 2, and then entries of eight bytes. */
  lemma AclInBytes(value: seq<Byte>)
    ensures IsAcl(value)
            <==> |value| % 8 == 4 && value[0] == 2 && value[1] == 0 && value[2] == 0 && value[3] == 0
  {
  }

  /** Tags and permissions stay; the id of a named user, or group, becomes what it is changed to. */
  lemma MappedInBytes(value: seq<Byte>, change: Owner -> U32, k: nat)
    requires IsAcl(value) && k < Entries(value)
    ensures var mapped, e := Mapped(value, change), 4 + 8 * k;
      && IsAcl(mapped) && |mapped| == |value|
      && mapped[e..e + 4] == value[e..e + 4]
      && (NamesUser(value, k) ==> IdAt(mapped, k) == change(Owner(User, IdAt(value, k))))
      && (NamesGroup(value, k) ==> IdAt(mapped, k) == change(Owner(Group, IdAt(value, k))))
      && (!NamesUser(value, k) && !NamesGroup(value, k) ==> IdAt(mapped, k) == IdAt(value, k))
  {
    var mapped := Mapped(value, change);
    MappedOwner(value, change, k);
    TagsStay(value, change, k);
    OwnerInBytes(value, k);
    OwnerInBytes(mapped, k);
    if OwnerAt(value, k).None? {
      NobodyStays(value, change, k);
    }
  }

  lemma TagsStay(value: seq<Byte>, change: Owner -> U32, k: nat)
    requires IsAcl(value) && k < Entries(value)
    ensures var mapped, e := Mapped(value, change), 4 + 8 * k;
      mapped[e..e + 4] == value[e..e + 4] && mapped[e] == value[e] && mapped[e + 1] == value[e + 1]
  {
    var mapped, e := Mapped(value, change), 4 + 8 * k;
    forall j | e <= j < e + 4 ensures mapped[j] == value[j] {
      TagStays(value, change, k, j);
    }
  }

  lemma NobodyStays(value: seq<Byte>, change: Owner -> U32, k: nat)
    requires IsAcl(value) && k < Entries(value) && OwnerAt(value, k).None?
    ensures IdAt(Mapped(value, change), k) == IdAt(value, k)
  {
    var e := 4 + 8 * k;
    NobodyByte(value, change, k, e + 4);
    NobodyByte(value, change, k, e + 5);
    NobodyByte(value, change, k, e + 6);
    NobodyByte(value, change, k, e + 7);
    SameId(value, Mapped(value, change), k);
  }

  lemma NobodyByte(value: seq<Byte>, change: Owner -> U32, k: nat, j: nat)
    requires IsAcl(value) && k < Entries(value) && OwnerAt(value, k).None? && 8 * k + 8 <= j < 8 * k + 12
    ensures Mapped(value, change)[j] == value[j]
  {
    assert (j - 4) / ACL_ENTRY == k;
    assert Mapped(value, change)[j] == MappedByte(value, change, j);
  }

  lemma SameId(value: seq<Byte>, other: seq<Byte>, k: nat)
    requires |value| == |other| >= 4 && k < Entries(value)
    requires var e := 4 + 8 * k;
      other[e + 4] == value[e + 4] && other[e + 5] == value[e + 5] && other[e + 6] == value[e + 6] && other[e + 7] == value[e + 7]
    ensures IdAt(other, k) == IdAt(value, k)
  {
  }

  /** An ACL is refused exactly if it names a user or a group other than the local one. */
  lemma RefusedInBytes(o: Owned, value: seq<Byte>)
    ensures o.Outgoing(value).Unmapped?
            <==> IsAcl(value) && exists k: nat :: k < Entries(value) && Stranger(o, value, k)
  {
    if IsAcl(value) {
      SentExactly(o, value);
      forall k: nat | k < Entries(value)
        ensures Stranger(o, value, k)
                <==> OwnerAt(value, k).Some? && OwnerAt(value, k).value.id != o.Local(OwnerAt(value, k).value.kind)
      {
        OwnerInBytes(value, k);
      }
    }
  }

  predicate Stranger(o: Owned, value: seq<Byte>, k: nat)
    requires |value| >= 4 && k < Entries(value)
  {
    (NamesUser(value, k) && IdAt(value, k) != o.localUid) || (NamesGroup(value, k) && IdAt(value, k) != o.localGid)
  }

  /** One that is sent names the server's user where it named a user, and the server's group where it named a group; and is
      otherwise as it was. */
  lemma SentInBytes(o: Owned, value: seq<Byte>, k: nat)
    requires IsAcl(value) && k < Entries(value) && o.Outgoing(value).Ok?
    ensures var sent, e := o.Outgoing(value).value, 4 + 8 * k;
      && |sent| == |value| && sent[e..e + 4] == value[e..e + 4]
      && (NamesUser(value, k) ==> IdAt(sent, k) == o.serverUid)
      && (NamesGroup(value, k) ==> IdAt(sent, k) == o.serverGid)
      && (!NamesUser(value, k) && !NamesGroup(value, k) ==> IdAt(sent, k) == IdAt(value, k))
  {
    MappedInBytes(value, o.ToServer(), k);
  }

  /** One that is shown names the local user and group for the server's, and 65534 for any other. */
  lemma ShownInBytes(o: Owned, value: seq<Byte>, k: nat)
    requires IsAcl(value) && k < Entries(value)
    ensures var shown, e := o.Incoming(value), 4 + 8 * k;
      && |shown| == |value| && shown[e..e + 4] == value[e..e + 4]
      && (NamesUser(value, k) ==> IdAt(shown, k) == if IdAt(value, k) == o.serverUid then o.localUid else 65534)
      && (NamesGroup(value, k) ==> IdAt(shown, k) == if IdAt(value, k) == o.serverGid then o.localGid else 65534)
      && (!NamesUser(value, k) && !NamesGroup(value, k) ==> IdAt(shown, k) == IdAt(value, k))
  {
    MappedInBytes(value, o.ToLocal(), k);
  }
}
