/** What a reply says a file is (`types.rs`): its inode number and identity, the names it goes by, and paths of names. */
module Files {

  datatype Option<+T> = None | Some(value: T)

  type U64 = n: nat | n < 0x1_0000_0000_0000_0000

  /** A file's handle on the server, opaque and compared for equality only. */
  datatype Identity = Identity(handleType: bv32, handle: seq<bv8>)

  /** What tells one file from another: inode number and identity together. */
  datatype KeyNode = KeyNode(ino: nat, identity: Identity)

  datatype FileKind = Regular | Directory | Symlink | Fifo | Socket | CharDevice | BlockDevice

  const NAME_MAX := 255
  const PATH_MAX := 4096

  const DOT: bv8 := 0x2e
  const SLASH: bv8 := 0x2f

  predicate IsName(bytes: seq<bv8>) {
    0 < |bytes| <= NAME_MAX && SLASH !in bytes && 0 !in bytes && bytes != [DOT] && bytes != [DOT, DOT]
  }

  /** One path component. */
  type Name = bytes: seq<bv8> | IsName(bytes) witness [0x61]

  function NameBytes(names: seq<Name>): nat {
    if names == [] then 0 else NameBytes(names[..|names| - 1]) + |names[|names| - 1]|
  }

  /** The length of the names joined by slashes. */
  function ByteLen(names: seq<Name>): nat {
    NameBytes(names) + if names == [] then 0 else |names| - 1
  }

  /** Whether `names` are a path: it fits in `PATH_MAX`. */
  predicate IsPath(names: seq<Name>) {
    ByteLen(names) <= PATH_MAX
  }

  /** The names joined by slashes. */
  function Joined(names: seq<Name>): seq<bv8> {
    if names == [] then []
    else Joined(names[..|names| - 1]) + (if |names| == 1 then [] else [0x2f]) + names[|names| - 1]
  }

  /** Names are a path exactly if, joined by slashes, they take at most 4096 bytes. */
  lemma {:induction false} PathInBytes(names: seq<Name>)
    ensures |Joined(names)| == ByteLen(names)
    ensures IsPath(names) <==> |Joined(names)| <= 4096
  {
    if names != [] {
      PathInBytes(names[..|names| - 1]);
    }
  }

  /** A path has at most half `PATH_MAX` names. */
  lemma {:induction false} PathsAreShort(names: seq<Name>)
    ensures NameBytes(names) >= |names|
    ensures IsPath(names) ==> |names| <= PATH_MAX / 2
  {
    if names != [] {
      PathsAreShort(names[..|names| - 1]);
    }
  }
}
