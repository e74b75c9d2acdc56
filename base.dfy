/** The vocabulary every filesystem adapter shares: file metadata, directory
    listings, the permission bitmask, the server descriptor and the
    exceptions an operation can end with. The module that defines these in
    the repository (filesystem-base) is not part of this model; what the
    adapter relies on is written out here. */
module FilesystemBase {

  datatype Option<T> = None | Some(value: T)

  /** The exceptions an operation can deliver to its caller.
      `IllegalStateException` is what a Kotlin continuation throws when it is
      resumed a second time ("Already resumed"). */
  datatype FsError =
    | ConnectionException
    | AuthenticationException
    | FileNotFoundException(path: string)
    | UnsupportedOperationException
    | IllegalStateException

  datatype Result<T> = Ok(value: T) | Err(error: FsError)

  /** Permission bitmask (a Kotlin Int): nine flags, owner/group/others by
      read/write/execute, combined by bitwise OR. */
  type Mask = bv32

  const EMPTY: Mask := 0
  const OWNER_READ: Mask := 0x100
  const OWNER_WRITE: Mask := 0x80
  const OWNER_EXECUTE: Mask := 0x40
  const GROUP_READ: Mask := 0x20
  const GROUP_WRITE: Mask := 0x10
  const GROUP_EXECUTE: Mask := 0x8
  const OTHERS_READ: Mask := 0x4
  const OTHERS_WRITE: Mask := 0x2
  const OTHERS_EXECUTE: Mask := 0x1

  /** All nine permission flags together. */
  const ALL_FLAGS: Mask := 0x1FF

  function PlusFlag(permission: Mask, flag: Mask): Mask {
    permission | flag
  }

  const SCHEME_SEPARATOR := "://"

  /** `s[j..j + |d|] == d`, with the bounds spelled out. */
  predicate OccursAt(s: string, d: string, j: int) {
    0 <= j && j + |d| <= |s| && s[j..j + |d|] == d
  }

  /** Kotlin's `String.indexOf`: the first index at which `d` occurs in `s`,
      or -1 when it occurs nowhere. */
  function IndexOf(s: string, d: string): (r: int)
    ensures r == -1 || OccursAt(s, d, r)
    ensures forall j :: 0 <= j && (r == -1 || j < r) ==> !OccursAt(s, d, j)
    decreases |s|
  {
    if |s| < |d| then -1
    else if s[..|d|] == d then 0
    else
      var k := IndexOf(s[1..], d);
      assert !OccursAt(s, d, 0) by { assert s[0..|d|] == s[..|d|]; }
      assert forall j :: 1 <= j ==> (OccursAt(s[1..], d, j - 1) <==> OccursAt(s, d, j));
      if k == -1 then -1 else k + 1
  }

  /** Kotlin's `String.substringAfter(d)`: what follows the first `d`, or the
      whole string when `d` does not occur. */
  function SubstringAfter(s: string, d: string): string {
    var k := IndexOf(s, d);
    if k == -1 then s else s[k + |d|..]
  }

  /** File metadata. Identity is (filesystemUuid, path); a value, never
      updated in place. */
  datatype FileModel = FileModel(
    fileUri: string,
    filesystemUuid: string,
    size: int,
    lastModified: int,
    directory: bool,
    permission: Mask)
  {
    /** The path relative to the filesystem root: the URI after its scheme. */
    function Path(): string {
      SubstringAfter(fileUri, SCHEME_SEPARATOR)
    }
  }

  /** `FileModel(fileUri, filesystemUuid)` with the default arguments, assumed
      to be size 0, lastModified 0, not a directory and no permissions. */
  function Location(fileUri: string, filesystemUuid: string): FileModel {
    FileModel(fileUri, filesystemUuid, 0, 0, false, EMPTY)
  }

  /** One directory level: the listed directory and its entries in order. */
  datatype FileTree = FileTree(parent: FileModel, children: seq<FileModel>)

  /** Connection descriptor of a remote root; read-only input. */
  datatype ServerModel = ServerModel(
    uuid: string,
    address: string,
    port: int,
    username: string,
    password: string)

  /** Per-call parameters of a text transfer. */
  datatype FileParams = FileParams(charset: string)

  /** Once `d` occurs in `a`, appending never moves its first occurrence. */
  lemma {:induction false} IndexOfAppend(a: string, b: string, d: string)
    requires IndexOf(a, d) != -1
    ensures IndexOf(a + b, d) == IndexOf(a, d)
  {
    var k := IndexOf(a, d);
    assert (a + b)[k..k + |d|] == a[k..k + |d|];
    assert OccursAt(a + b, d, k);
    var r := IndexOf(a + b, d);
    assert r != -1 && r <= k;
    assert (a + b)[r..r + |d|] == a[r..r + |d|];
    assert OccursAt(a, d, r);
  }
}
