/** The FTPS metadata mapper: turns a server listing entry into a FileModel
    (child URI, copied attributes, nine-bit permission mask) and keeps the
    listing's valid names in order. */
module FtpsMapping {
  import opened FilesystemBase

  datatype Access = UserAccess | GroupAccess | WorldAccess
  datatype Mode = ReadPermission | WritePermission | ExecutePermission

  /** One entry of a server listing as the FTP client parses it. The
      timestamp is already in epoch milliseconds; `granted` holds the
      (access, permission) pairs the listing grants. */
  datatype FtpFile = FtpFile(
    name: string,
    size: int,
    timestampMillis: int,
    isDirectory: bool,
    granted: set<(Access, Mode)>)
  {
    predicate HasPermission(access: Access, mode: Mode) {
      (access, mode) in granted
    }
  }

  /** The Permission flag that stands for one (access, permission) pair. */
  function Flag(access: Access, mode: Mode): Mask {
    match (access, mode)
    case (UserAccess, ReadPermission) => OWNER_READ
    case (UserAccess, WritePermission) => OWNER_WRITE
    case (UserAccess, ExecutePermission) => OWNER_EXECUTE
    case (GroupAccess, ReadPermission) => GROUP_READ
    case (GroupAccess, WritePermission) => GROUP_WRITE
    case (GroupAccess, ExecutePermission) => GROUP_EXECUTE
    case (WorldAccess, ReadPermission) => OTHERS_READ
    case (WorldAccess, WritePermission) => OTHERS_WRITE
    case (WorldAccess, ExecutePermission) => OTHERS_EXECUTE
  }

  /** One `if (granted) permission = permission plusFlag flag` of the fold:
      the bits of `flag` are all set when granted and kept otherwise, and
      no other bit changes. */
  function Step(permission: Mask, granted: bool, flag: Mask): (r: Mask)
    ensures r & flag == if granted then flag else permission & flag
    ensures r & !flag == permission & !flag
  {
    if granted then PlusFlag(permission, flag) else permission
  }

  /** The mask `toFileModel` builds: starting from EMPTY, nine independent
      tests, each OR-ing in its flag. Bit (a, m) is set exactly when the
      entry grants (a, m), and no bit outside the nine flags is ever set. */
  function PermissionOf(f: FtpFile): (p: Mask)
    ensures forall a: Access, m: Mode :: (p & Flag(a, m) != 0) <==> f.HasPermission(a, m)
    ensures p & !ALL_FLAGS == 0
  {
    var p0 := EMPTY;
    var p1 := Step(p0, f.HasPermission(UserAccess, ReadPermission), OWNER_READ);
    var p2 := Step(p1, f.HasPermission(UserAccess, WritePermission), OWNER_WRITE);
    var p3 := Step(p2, f.HasPermission(UserAccess, ExecutePermission), OWNER_EXECUTE);
    var p4 := Step(p3, f.HasPermission(GroupAccess, ReadPermission), GROUP_READ);
    var p5 := Step(p4, f.HasPermission(GroupAccess, WritePermission), GROUP_WRITE);
    var p6 := Step(p5, f.HasPermission(GroupAccess, ExecutePermission), GROUP_EXECUTE);
    var p7 := Step(p6, f.HasPermission(WorldAccess, ReadPermission), OTHERS_READ);
    var p8 := Step(p7, f.HasPermission(WorldAccess, WritePermission), OTHERS_WRITE);
    var p9 := Step(p8, f.HasPermission(WorldAccess, ExecutePermission), OTHERS_EXECUTE);
    p9
  }

  /** An entry that grants nothing maps to Permission.EMPTY. */
  lemma NoPermissionIsEmpty(f: FtpFile)
    requires f.granted == {}
    ensures PermissionOf(f) == EMPTY
  {
  }

  /** Two entries with the same nine predicates get the same mask. */
  lemma PermissionDependsOnlyOnPredicates(f: FtpFile, g: FtpFile)
    requires forall a: Access, m: Mode :: f.HasPermission(a, m) == g.HasPermission(a, m)
    ensures PermissionOf(f) == PermissionOf(g)
  {
    forall x | x in f.granted ensures x in g.granted {
      assert f.HasPermission(x.0, x.1);
    }
    forall x | x in g.granted ensures x in f.granted {
      assert g.HasPermission(x.0, x.1);
    }
  }

  /** A mask within the nine flags is determined by which flags it has. */
  lemma MasksAgreeOnFlags(p: Mask, q: Mask)
    requires p & !ALL_FLAGS == 0 && q & !ALL_FLAGS == 0
    requires forall a: Access, m: Mode :: (p & Flag(a, m) != 0) == (q & Flag(a, m) != 0)
    ensures p == q
  {
    assert (p & OWNER_READ != 0) == (q & OWNER_READ != 0) by { assert Flag(UserAccess, ReadPermission) == OWNER_READ; }
    assert (p & OWNER_WRITE != 0) == (q & OWNER_WRITE != 0) by { assert Flag(UserAccess, WritePermission) == OWNER_WRITE; }
    assert (p & OWNER_EXECUTE != 0) == (q & OWNER_EXECUTE != 0) by { assert Flag(UserAccess, ExecutePermission) == OWNER_EXECUTE; }
    assert (p & GROUP_READ != 0) == (q & GROUP_READ != 0) by { assert Flag(GroupAccess, ReadPermission) == GROUP_READ; }
    assert (p & GROUP_WRITE != 0) == (q & GROUP_WRITE != 0) by { assert Flag(GroupAccess, WritePermission) == GROUP_WRITE; }
    assert (p & GROUP_EXECUTE != 0) == (q & GROUP_EXECUTE != 0) by { assert Flag(GroupAccess, ExecutePermission) == GROUP_EXECUTE; }
    assert (p & OTHERS_READ != 0) == (q & OTHERS_READ != 0) by { assert Flag(WorldAccess, ReadPermission) == OTHERS_READ; }
    assert (p & OTHERS_WRITE != 0) == (q & OTHERS_WRITE != 0) by { assert Flag(WorldAccess, WritePermission) == OTHERS_WRITE; }
    assert (p & OTHERS_EXECUTE != 0) == (q & OTHERS_EXECUTE != 0) by { assert Flag(WorldAccess, ExecutePermission) == OTHERS_EXECUTE; }
  }

  /** The entry `f` with the (a, m) predicate flipped. */
  function Toggled(f: FtpFile, a: Access, m: Mode): FtpFile {
    if (a, m) in f.granted then f.(granted := f.granted - {(a, m)})
    else f.(granted := f.granted + {(a, m)})
  }

  /** Distinct pairs have disjoint flags. */
  lemma FlagsOverlapOnlyWhenEqual(a: Access, m: Mode, a2: Access, m2: Mode)
    ensures (Flag(a, m) & Flag(a2, m2) != 0) == (a == a2 && m == m2)
  {
  }

  /** Each flag is a single bit, so XOR toggles it independently. */
  lemma XorOnFlag(p: Mask, x: Mask, a: Access, m: Mode)
    ensures ((p ^ x) & Flag(a, m) != 0) == ((p & Flag(a, m) != 0) != (x & Flag(a, m) != 0))
  {
  }

  /** A mask whose flags agree with `p` everywhere except at (a, m) is `p`
      with that flag toggled. */
  lemma FlipFromFlags(p: Mask, q: Mask, a: Access, m: Mode)
    requires p & !ALL_FLAGS == 0 && q & !ALL_FLAGS == 0
    requires forall a2: Access, m2: Mode ::
      (q & Flag(a2, m2) != 0) == ((p & Flag(a2, m2) != 0) != (a == a2 && m == m2))
    ensures q == p ^ Flag(a, m)
  {
    var r := p ^ Flag(a, m);
    assert Flag(a, m) & !ALL_FLAGS == 0;
    forall a2: Access, m2: Mode ensures (r & Flag(a2, m2) != 0) == (q & Flag(a2, m2) != 0) {
      FlagsOverlapOnlyWhenEqual(a, m, a2, m2);
      XorOnFlag(p, Flag(a, m), a2, m2);
    }
    MasksAgreeOnFlags(r, q);
  }

  /** Flipping (a, m) changes the (a2, m2) bit exactly when the pairs match. */
  lemma ToggledFlag(f: FtpFile, a: Access, m: Mode, a2: Access, m2: Mode)
    ensures (PermissionOf(Toggled(f, a, m)) & Flag(a2, m2) != 0)
         == ((PermissionOf(f) & Flag(a2, m2) != 0) != (a == a2 && m == m2))
  {
    assert Toggled(f, a, m).HasPermission(a2, m2) == (f.HasPermission(a2, m2) != (a == a2 && m == m2));
  }

  lemma ToggledFlags(f: FtpFile, a: Access, m: Mode)
    ensures forall a2: Access, m2: Mode ::
      (PermissionOf(Toggled(f, a, m)) & Flag(a2, m2) != 0)
      == ((PermissionOf(f) & Flag(a2, m2) != 0) != (a == a2 && m == m2))
  {
    forall a2: Access, m2: Mode
      ensures (PermissionOf(Toggled(f, a, m)) & Flag(a2, m2) != 0)
           == ((PermissionOf(f) & Flag(a2, m2) != 0) != (a == a2 && m == m2))
    {
      ToggledFlag(f, a, m, a2, m2);
    }
  }

  /** Flipping exactly one predicate flips exactly its own bit. */
  lemma FlipOnePermission(f: FtpFile, a: Access, m: Mode)
    ensures PermissionOf(Toggled(f, a, m)) == PermissionOf(f) ^ Flag(a, m)
  {
    ToggledFlags(f, a, m);
    FlipFromFlags(PermissionOf(f), PermissionOf(Toggled(f, a, m)), a, m);
  }

  /** Kotlin's `parent?.fileUri + "/"`: a missing parent prints as "null". */
  function ParentUri(parent: Option<FileModel>): string {
    match parent
    case None => "null"
    case Some(p) => p.fileUri
  }

  /** `toFileModel` with the mapper's current parent. */
  function EntryToFileModel(parent: Option<FileModel>, filesystemUuid: string, f: FtpFile): FileModel {
    FileModel(
      ParentUri(parent) + "/" + f.name,
      filesystemUuid,
      f.size,
      f.timestampMillis,
      f.isDirectory,
      PermissionOf(f))
  }

  /** A mapped entry keeps the listing's size, timestamp and directory flag,
      belongs to the server's filesystem, and its URI extends the parent's. */
  lemma EntryAttributes(parent: FileModel, filesystemUuid: string, f: FtpFile)
    ensures var c := EntryToFileModel(Some(parent), filesystemUuid, f);
      && c.fileUri == parent.fileUri + "/" + f.name
      && c.filesystemUuid == filesystemUuid
      && c.size == f.size && c.lastModified == f.timestampMillis
      && c.directory == f.isDirectory
      && (forall a: Access, m: Mode :: (c.permission & Flag(a, m) != 0) <==> f.HasPermission(a, m))
  {
  }

  /** When the mapper was never given a parent, the child URI starts "null/". */
  lemma OrphanEntryUri(filesystemUuid: string, f: FtpFile)
    ensures EntryToFileModel(None, filesystemUuid, f).fileUri == "null/" + f.name
  {
  }

  /** The child's path, relative to the root, is the parent's path, "/" and
      the entry name. */
  lemma ChildPath(parent: FileModel, filesystemUuid: string, f: FtpFile)
    requires IndexOf(parent.fileUri, SCHEME_SEPARATOR) != -1
    ensures EntryToFileModel(Some(parent), filesystemUuid, f).Path() == parent.Path() + "/" + f.name
  {
    var u := parent.fileUri;
    var k := IndexOf(u, SCHEME_SEPARATOR);
    IndexOfAppend(u, "/" + f.name, SCHEME_SEPARATOR);
    assert u + "/" + f.name == u + ("/" + f.name);
    assert (u + ("/" + f.name))[k + 3..] == u[k + 3..] + ("/" + f.name);
  }

  /** `.filter { it.name.isValidFileName() }`: the entries whose name passes,
      in listing order. */
  function Filter(listing: seq<FtpFile>, isValidFileName: string -> bool): (r: seq<FtpFile>)
    ensures |r| <= |listing|
    ensures forall f :: f in r <==> f in listing && isValidFileName(f.name)
  {
    if listing == [] then []
    else
      var rest := Filter(listing[1..], isValidFileName);
      assert listing == [listing[0]] + listing[1..];
      if isValidFileName(listing[0].name) then [listing[0]] + rest else rest
  }

  /** Filtering keeps relative order: it distributes over concatenation. */
  lemma {:induction false} FilterConcat(a: seq<FtpFile>, b: seq<FtpFile>, isValidFileName: string -> bool)
    ensures Filter(a + b, isValidFileName) == Filter(a, isValidFileName) + Filter(b, isValidFileName)
  {
    if a == [] {
      assert a + b == b;
    } else {
      assert (a + b)[1..] == a[1..] + b;
      FilterConcat(a[1..], b, isValidFileName);
    }
  }

  /** `.map(ftpsMapper::toFileModel)` with the given parent. */
  function MapModels(parent: Option<FileModel>, filesystemUuid: string, files: seq<FtpFile>): (r: seq<FileModel>)
    ensures |r| == |files|
    ensures forall i :: 0 <= i < |files| ==> r[i] == EntryToFileModel(parent, filesystemUuid, files[i])
  {
    if files == [] then []
    else [EntryToFileModel(parent, filesystemUuid, files[0])] + MapModels(parent, filesystemUuid, files[1..])
  }

  /** The children of a listed directory: exactly the valid entries, in
      listing order, each URI being the parent's URI, "/" and the name. */
  lemma ListingChildren(parent: FileModel, filesystemUuid: string, listing: seq<FtpFile>, isValidFileName: string -> bool)
    ensures var valid := Filter(listing, isValidFileName);
      var children := MapModels(Some(parent), filesystemUuid, valid);
      && |children| == |valid|
      && (forall i :: 0 <= i < |valid| ==>
            && valid[i] in listing && isValidFileName(valid[i].name)
            && children[i].fileUri == parent.fileUri + "/" + valid[i].name
            && children[i].filesystemUuid == filesystemUuid)
  {
    var valid := Filter(listing, isValidFileName);
    assert forall i :: 0 <= i < |valid| ==> valid[i] in valid;
  }

  /** The mapper inside the FTPS filesystem. It remembers the parent of the
      listing in progress, which `toFileModel` uses to build child URIs. */
  class FtpsMapper {
    const filesystemUuid: string
    var parent: Option<FileModel>

    constructor (filesystemUuid: string)
      ensures this.filesystemUuid == filesystemUuid && parent == None
    {
      this.filesystemUuid := filesystemUuid;
      parent := None;
    }

    /** The model of a listing entry under the current parent: its URI is
        the parent's URI (or "null"), "/" and the name; the attributes are
        copied and each permission bit is set exactly when granted. */
    function ToFileModel(f: FtpFile): (r: FileModel)
      reads this
      ensures r.fileUri == ParentUri(parent) + "/" + f.name
      ensures r.filesystemUuid == filesystemUuid
      ensures r.size == f.size && r.lastModified == f.timestampMillis && r.directory == f.isDirectory
      ensures forall a: Access, m: Mode :: (r.permission & Flag(a, m) != 0) <==> f.HasPermission(a, m)
    {
      EntryToFileModel(parent, filesystemUuid, f)
    }

    /** Mapping back to a listing entry is not supported. */
    function ToFileObject(fileModel: FileModel): (r: Result<FtpFile>)
      ensures r == Err(UnsupportedOperationException)
    {
      Err(UnsupportedOperationException)
    }

    /** Records `p` as the current parent and hands it back unchanged. */
    method Parent(p: FileModel) returns (r: FileModel)
      modifies this
      ensures r == p && parent == Some(p)
    {
      parent := Some(p);
      r := p;
    }
  }
}
