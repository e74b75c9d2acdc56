/** The FTPS filesystem adapter. The FTPS client is an oracle: every call
    that talks to the server takes the server's reply code (and, for a
    listing or a download, the data) as an input. The adapter's state is
    the client session (connected flag, last reply code, the calls made so
    far), the local cache directory used for transfer staging, and the
    mapper's current parent. */
module Ftps {
  import opened FilesystemBase
  import opened Coroutines
  import opened FtpsMapping
  import opened FtpsSession

  const FTPS_SCHEME := "ftps://"

  lemma AppendFour<T>(log: seq<T>, a: seq<T>, b: seq<T>, c: seq<T>, d: seq<T>)
    ensures log + a + b + c + d == log + (a + b + c + d)
  {
  }

  class FtpsFilesystem {
    const serverModel: ServerModel
    /** The filename filter of the filesystem-base module, which is not
        part of this model; every property holds for any filter. */
    const isValidFileName: string -> bool
    const mapper: FtpsMapper

    /** `ftpsClient.isConnected` */
    var connected: bool
    /** `ftpsClient.replyCode`: the last reply the adapter consults. */
    var replyCode: int
    /** Every call made on the client so far, oldest first. */
    var calls: seq<Call>
    /** The files of `cacheLocation`: name to content. */
    var cache: map<string, string>

    ghost predicate Valid() {
      mapper.filesystemUuid == serverModel.uuid
    }

    constructor (serverModel: ServerModel, cacheFiles: map<string, string>, isValidFileName: string -> bool)
      ensures Valid()
      ensures this.serverModel == serverModel && this.isValidFileName == isValidFileName
      ensures !connected && calls == [] && cache == cacheFiles
      ensures fresh(mapper) && mapper.parent == None
    {
      this.serverModel := serverModel;
      this.isValidFileName := isValidFileName;
      mapper := new FtpsMapper(serverModel.uuid);
      connected := false;
      replyCode := 0;
      calls := [];
      cache := cacheFiles;
    }

    /** The root of the server: scheme only, owned by this server, with an
        empty path. It reads no session state. */
    function DefaultLocation(): (r: FileModel)
      ensures r.fileUri == FTPS_SCHEME && r.filesystemUuid == serverModel.uuid
      ensures r.Path() == "" && r.size == 0 && r.lastModified == 0 && !r.directory && r.permission == EMPTY
    {
      assert IndexOf(FTPS_SCHEME, SCHEME_SEPARATOR) == 4 by {
        assert OccursAt(FTPS_SCHEME, SCHEME_SEPARATOR, 4);
        forall j | 0 <= j < 4
          ensures !OccursAt(FTPS_SCHEME, SCHEME_SEPARATOR, j)
        {
          assert FTPS_SCHEME[j..j + 3][0] == FTPS_SCHEME[j] != ':';
        }
      }
      Location(FTPS_SCHEME, serverModel.uuid)
    }

    /** Unsupported: the adapter throws before touching the session. */
    function Exists(fileModel: FileModel): (r: Result<bool>)
      ensures r == Err(UnsupportedOperationException)
    {
      Err(UnsupportedOperationException)
    }

    function CopyFile(source: FileModel, dest: FileModel): (r: Result<()>)
      ensures r == Err(UnsupportedOperationException)
    {
      Err(UnsupportedOperationException)
    }

    function CompressFiles(source: seq<FileModel>, dest: FileModel): (r: Result<seq<FileModel>>)
      ensures r == Err(UnsupportedOperationException)
    {
      Err(UnsupportedOperationException)
    }

    function ExtractFiles(source: FileModel, dest: FileModel): (r: Result<seq<FileModel>>)
      ensures r == Err(UnsupportedOperationException)
    {
      Err(UnsupportedOperationException)
    }

    /** One call on the client, answered by `reply`. */
    method Send(call: Call, reply: int)
      modifies this
      ensures calls == old(calls) + [call] && replyCode == reply
      ensures connected == old(connected) && cache == old(cache)
    {
      calls := calls + [call];
      replyCode := reply;
    }

    /** `connect`: nothing on a live session; otherwise open the connection
        (answered by `greeting`), and unless that reply is negative, enter
        passive mode and log in (answered by `login`). A negative reply
        resumes `cont` with its exception and returns normally. */
    method Connect<T>(cont: Continuation<T>, greeting: int, login: int)
      requires cont.state == Pending
      modifies this, cont
      ensures connected && cache == old(cache)
      ensures calls == old(calls) + ConnectCalls(serverModel, old(connected), greeting)
      ensures replyCode == if old(connected) then old(replyCode)
                           else if IsPositiveCompletion(greeting) then login else greeting
      ensures cont.state == AfterConnect(old(connected), greeting, login)
    {
      if connected {
        return;
      }
      connected := true;
      Send(Open(serverModel.address, serverModel.port), greeting);
      if !IsPositiveCompletion(replyCode) {
        var _ := cont.ResumeWith(Err(ConnectionException));
        return;
      }
      Send(PassiveMode, replyCode);
      Send(Login(serverModel.username, serverModel.password), login);
      if !IsPositiveCompletion(replyCode) {
        var _ := cont.ResumeWith(Err(AuthenticationException));
        return;
      }
    }

    /** `disconnect`: log out, then close; the session is down afterwards. */
    method Disconnect()
      modifies this
      ensures !connected && replyCode == old(replyCode) && cache == old(cache)
      ensures calls == old(calls) + TEARDOWN
    {
      calls := calls + [Logout];
      calls := calls + [Close];
      connected := false;
    }

    /** Lists `parent`. The server answers the connection with `greeting`
        and `login`, CWD with `cwdReply` and the listing with `listing`. */
    method ProvideDirectory(parent: FileModel, greeting: int, login: int, cwdReply: int, listing: seq<FtpFile>)
      returns (slot: Slot<FileTree>)
      requires Valid()
      modifies this, mapper
      ensures !connected && cache == old(cache)
      ensures calls == old(calls) + DirectoryCalls(serverModel, old(connected), greeting, login, cwdReply, parent.Path())
      ensures slot == DirectorySlot(old(connected), greeting, login, cwdReply, parent.Path(),
        FileTree(parent, MapModels(Some(parent), serverModel.uuid, Filter(listing, isValidFileName))))
      ensures mapper.parent == if DirectoryAborts(old(connected), greeting, login, cwdReply) then old(mapper.parent)
                               else Some(parent)
    {
      ghost var log := calls;
      var cont := new Continuation<FileTree>();
      Connect(cont, greeting, login);
      var threw := ChangeDirectory(cont, parent.Path(), cwdReply);
      if !threw {
        var tree := ListDirectory(parent, listing);
        var _ := cont.ResumeWith(Ok(tree));
      }
      Disconnect();
      slot := cont.state;
      assert calls == log + ConnectCalls(serverModel, old(connected), greeting) + [Cwd(parent.Path())]
        + (if threw then [] else [List(parent.Path())]) + TEARDOWN;
      AppendFour(log, ConnectCalls(serverModel, old(connected), greeting), [Cwd(parent.Path())],
        if threw then [] else [List(parent.Path())], TEARDOWN);
    }

    /** CWD to `path`, answered by `reply`; a negative reply resumes `cont`
        with FileNotFoundException, which throws if `cont` was already
        resumed. */
    method ChangeDirectory<T>(cont: Continuation<T>, path: string, reply: int) returns (threw: bool)
      modifies this, cont
      ensures connected == old(connected) && cache == old(cache)
      ensures calls == old(calls) + [Cwd(path)] && replyCode == reply
      ensures threw <==> !IsPositiveCompletion(reply) && !old(cont.state).Pending?
      ensures cont.state == if IsPositiveCompletion(reply) then old(cont.state)
                            else Commit(old(cont.state), Err(FileNotFoundException(path)))
    {
      Send(Cwd(path), reply);
      threw := false;
      if !IsPositiveCompletion(replyCode) {
        threw := cont.ResumeWith(Err(FileNotFoundException(path)));
      }
    }

    /** The tree provideDirectory builds: record `parent` in the mapper,
        list it, keep the valid names and map each entry under `parent`. */
    method ListDirectory(parent: FileModel, listing: seq<FtpFile>) returns (tree: FileTree)
      requires Valid()
      modifies this, mapper
      ensures connected == old(connected) && replyCode == old(replyCode) && cache == old(cache)
      ensures calls == old(calls) + [List(parent.Path())]
      ensures mapper.parent == Some(parent)
      ensures tree == FileTree(parent, MapModels(Some(parent), serverModel.uuid, Filter(listing, isValidFileName)))
    {
      var p := mapper.Parent(parent);
      calls := calls + [List(parent.Path())];
      var valid := Filter(listing, isValidFileName);
      var children := seq(|valid|, i requires 0 <= i < |valid| reads mapper => mapper.ToFileModel(valid[i]));
      tree := FileTree(p, children);
    }

    /** Creates an empty file (STOR of nothing) or a directory (MKD). */
    method CreateFile(fileModel: FileModel, greeting: int, login: int, reply: int) returns (slot: Slot<()>)
      modifies this
      ensures !connected && cache == old(cache)
      ensures calls == old(calls) + CommandCalls(serverModel, old(connected), greeting,
        if fileModel.directory then Mkd(fileModel.Path()) else Stor(fileModel.Path(), ""))
      ensures slot == CommandSlot(old(connected), greeting, login, reply, (), fileModel.Path())
    {
      var cont := new Continuation<()>();
      Connect(cont, greeting, login);
      if fileModel.directory {
        Send(Mkd(fileModel.Path()), reply);
      } else {
        Send(Stor(fileModel.Path(), ""), reply);
      }
      if !IsPositiveCompletion(replyCode) {
        var _ := cont.ResumeWith(Err(FileNotFoundException(fileModel.Path())));
      } else {
        var _ := cont.ResumeWith(Ok(()));
      }
      Disconnect();
      slot := cont.state;
    }

    /** Renames `source` to `dest`; a negative reply names the source. */
    method RenameFile(source: FileModel, dest: FileModel, greeting: int, login: int, reply: int) returns (slot: Slot<()>)
      modifies this
      ensures !connected && cache == old(cache)
      ensures calls == old(calls) + CommandCalls(serverModel, old(connected), greeting, Rename(source.Path(), dest.Path()))
      ensures slot == CommandSlot(old(connected), greeting, login, reply, (), source.Path())
    {
      var cont := new Continuation<()>();
      Connect(cont, greeting, login);
      Send(Rename(source.Path(), dest.Path()), reply);
      if !IsPositiveCompletion(replyCode) {
        var _ := cont.ResumeWith(Err(FileNotFoundException(source.Path())));
      } else {
        var _ := cont.ResumeWith(Ok(()));
      }
      Disconnect();
      slot := cont.state;
    }

    /** Deletes a file (DELE) or a directory (RMD). */
    method DeleteFile(fileModel: FileModel, greeting: int, login: int, reply: int) returns (slot: Slot<()>)
      modifies this
      ensures !connected && cache == old(cache)
      ensures calls == old(calls) + CommandCalls(serverModel, old(connected), greeting,
        if fileModel.directory then Rmd(fileModel.Path()) else Dele(fileModel.Path()))
      ensures slot == CommandSlot(old(connected), greeting, login, reply, (), fileModel.Path())
    {
      var cont := new Continuation<()>();
      Connect(cont, greeting, login);
      if fileModel.directory {
        Send(Rmd(fileModel.Path()), reply);
      } else {
        Send(Dele(fileModel.Path()), reply);
      }
      if !IsPositiveCompletion(replyCode) {
        var _ := cont.ResumeWith(Err(FileNotFoundException(fileModel.Path())));
      } else {
        var _ := cont.ResumeWith(Ok(()));
      }
      Disconnect();
      slot := cont.state;
    }

    /** Downloads `fileModel` through the temporary file `tempName` of the
        cache directory; the server sends `remote` and answers `reply`. On
        success the text delivered is what the server sent, and the cache
        directory ends as it began. */
    method LoadFile(fileModel: FileModel, fileParams: FileParams, tempName: string,
                    greeting: int, login: int, reply: int, remote: string) returns (slot: Slot<string>)
      requires tempName !in cache
      modifies this
      ensures !connected && cache == old(cache)
      ensures calls == old(calls) + CommandCalls(serverModel, old(connected), greeting, Retr(fileModel.Path()))
      ensures slot == CommandSlot(old(connected), greeting, login, reply, remote, fileModel.Path())
    {
      var cont := new Continuation<string>();
      Connect(cont, greeting, login);
      cache := cache[tempName := ""];
      Send(Retr(fileModel.Path()), reply);
      cache := cache[tempName := remote];
      var text := cache[tempName];
      if !IsPositiveCompletion(replyCode) {
        var _ := cont.ResumeWith(Err(FileNotFoundException(fileModel.Path())));
      } else {
        var _ := cont.ResumeWith(Ok(text));
      }
      cache := cache - {tempName};
      Disconnect();
      slot := cont.state;
    }

    /** Uploads `text` through the temporary file `tempName`: what the
        client stores is exactly `text`, and the cache directory ends as it
        began. */
    method SaveFile(fileModel: FileModel, text: string, fileParams: FileParams, tempName: string,
                    greeting: int, login: int, reply: int) returns (slot: Slot<()>)
      requires tempName !in cache
      modifies this
      ensures !connected && cache == old(cache)
      ensures calls == old(calls) + CommandCalls(serverModel, old(connected), greeting, Stor(fileModel.Path(), text))
      ensures slot == CommandSlot(old(connected), greeting, login, reply, (), fileModel.Path())
    {
      var cont := new Continuation<()>();
      Connect(cont, greeting, login);
      cache := cache[tempName := ""];
      cache := cache[tempName := text];
      Send(Stor(fileModel.Path(), cache[tempName]), reply);
      if !IsPositiveCompletion(replyCode) {
        var _ := cont.ResumeWith(Err(FileNotFoundException(fileModel.Path())));
      } else {
        var _ := cont.ResumeWith(Ok(()));
      }
      cache := cache - {tempName};
      Disconnect();
      slot := cont.state;
    }
  }
}
