/** The FTPS session as pure specification: which client calls an operation
    makes, which outcome its continuation commits first, and what its
    caller finally receives, all as functions of the server's replies. */
module FtpsSession {
  import opened FilesystemBase
  import opened Coroutines

  /** Section 4.2 of RFC 959: a reply 2yz is a positive completion. */
  predicate IsPositiveCompletion(reply: int) {
    200 <= reply <= 299
  }

  /** A call made on the FTPS client, in the order the adapter makes them. */
  datatype Call =
    | Open(address: string, port: int)
    | PassiveMode
    | Login(username: string, password: string)
    | Cwd(path: string)
    | List(path: string)
    | Mkd(path: string)
    | Stor(path: string, content: string)
    | Rename(from: string, to: string)
    | Rmd(path: string)
    | Dele(path: string)
    | Retr(path: string)
    | Logout
    | Close

  /** `disconnect`: log out, then drop the connection. */
  const TEARDOWN: seq<Call> := [Logout, Close]

  /** The calls `connect` makes: none on a live session; otherwise open,
      and only after a positive greeting, passive mode and login. */
  function ConnectCalls(server: ServerModel, wasConnected: bool, greeting: int): seq<Call> {
    if wasConnected then []
    else if !IsPositiveCompletion(greeting) then [Open(server.address, server.port)]
    else [Open(server.address, server.port), PassiveMode, Login(server.username, server.password)]
  }

  /** The exception `connect` commits, if any. */
  function ConnectFailure(wasConnected: bool, greeting: int, login: int): (r: Option<FsError>)
    ensures r == None <==> wasConnected || (IsPositiveCompletion(greeting) && IsPositiveCompletion(login))
    ensures r == Some(ConnectionException) <==> !wasConnected && !IsPositiveCompletion(greeting)
    ensures r == Some(AuthenticationException)
        <==> !wasConnected && IsPositiveCompletion(greeting) && !IsPositiveCompletion(login)
  {
    if wasConnected then None
    else if !IsPositiveCompletion(greeting) then Some(ConnectionException)
    else if !IsPositiveCompletion(login) then Some(AuthenticationException)
    else None
  }

  /** The continuation once `connect` has returned, starting from a fresh one. */
  function AfterConnect<T>(wasConnected: bool, greeting: int, login: int): Slot<T> {
    match ConnectFailure(wasConnected, greeting, login)
    case None => Pending
    case Some(e) => Resumed(Err(e))
  }

  /** The outcome the final reply of an operation selects. */
  function ReplyOutcome<T>(reply: int, value: T, path: string): Result<T> {
    if IsPositiveCompletion(reply) then Ok(value) else Err(FileNotFoundException(path))
  }

  /** The continuation at the end of createFile, renameFile, deleteFile,
      loadFile and saveFile: connect, one command, one resume chosen by
      its reply. */
  function CommandSlot<T>(wasConnected: bool, greeting: int, login: int, reply: int, value: T, path: string): Slot<T> {
    Commit(AfterConnect(wasConnected, greeting, login), ReplyOutcome(reply, value, path))
  }

  /** The client calls of such an operation: connect, the command, and the
      teardown that the `finally` block always runs. */
  function CommandCalls(server: ServerModel, wasConnected: bool, greeting: int, command: Call): seq<Call> {
    ConnectCalls(server, wasConnected, greeting) + [command] + TEARDOWN
  }

  /** The first outcome committed is the connect failure if there was one,
      and otherwise the one the command's reply selects. */
  lemma CommandFirstOutcome<T>(wasConnected: bool, greeting: int, login: int, reply: int, value: T, path: string)
    ensures !CommandSlot(wasConnected, greeting, login, reply, value, path).Pending?
    ensures !wasConnected && !IsPositiveCompletion(greeting) ==>
      CommandSlot(wasConnected, greeting, login, reply, value, path).first == Err(ConnectionException)
    ensures !wasConnected && IsPositiveCompletion(greeting) && !IsPositiveCompletion(login) ==>
      CommandSlot(wasConnected, greeting, login, reply, value, path).first == Err(AuthenticationException)
    ensures ConnectFailure(wasConnected, greeting, login) == None && !IsPositiveCompletion(reply) ==>
      CommandSlot(wasConnected, greeting, login, reply, value, path).first == Err(FileNotFoundException(path))
  {
  }

  /** What the caller receives: the value exactly when the session was
      usable and the reply was 2yz; FileNotFoundException on a negative
      reply after a good connect; and after a failed connect, the
      "Already resumed" IllegalStateException of the second resume. */
  lemma CommandDelivery<T>(wasConnected: bool, greeting: int, login: int, reply: int, value: T, path: string)
    ensures Delivered(CommandSlot(wasConnected, greeting, login, reply, value, path)) == Some(Ok(value)) <==>
      ConnectFailure(wasConnected, greeting, login) == None && IsPositiveCompletion(reply)
    ensures ConnectFailure(wasConnected, greeting, login) == None && !IsPositiveCompletion(reply) ==>
      Delivered(CommandSlot(wasConnected, greeting, login, reply, value, path)) == Some(Err(FileNotFoundException(path)))
    ensures ConnectFailure(wasConnected, greeting, login) != None ==>
      Delivered(CommandSlot(wasConnected, greeting, login, reply, value, path)) == Some(Err(IllegalStateException))
  {
  }

  /** provideDirectory stops early only when the FileNotFoundException
      resume throws, i.e. when connect had already resumed. */
  predicate DirectoryAborts(wasConnected: bool, greeting: int, login: int, cwdReply: int) {
    ConnectFailure(wasConnected, greeting, login) != None && !IsPositiveCompletion(cwdReply)
  }

  /** The continuation at the end of provideDirectory: connect, change
      directory (resuming with FileNotFoundException on a negative reply and
      carrying on), then resume with the listing. */
  function DirectorySlot(wasConnected: bool, greeting: int, login: int, cwdReply: int, path: string, tree: FileTree): Slot<FileTree> {
    var afterConnect := AfterConnect(wasConnected, greeting, login);
    var afterCwd :=
      if IsPositiveCompletion(cwdReply) then afterConnect
      else Commit(afterConnect, Err(FileNotFoundException(path)));
    if DirectoryAborts(wasConnected, greeting, login, cwdReply) then afterCwd
    else Commit(afterCwd, Ok(tree))
  }

  /** The client calls of provideDirectory: the listing is requested unless
      the early resume threw. */
  function DirectoryCalls(server: ServerModel, wasConnected: bool, greeting: int, login: int, cwdReply: int, path: string): seq<Call> {
    ConnectCalls(server, wasConnected, greeting)
      + [Cwd(path)]
      + (if DirectoryAborts(wasConnected, greeting, login, cwdReply) then [] else [List(path)])
      + TEARDOWN
  }

  /** provideDirectory delivers the tree exactly when connect succeeded and
      CWD was 2yz; a negative CWD reply after a good connect commits
      FileNotFoundException(path) first, and the caller then receives the
      IllegalStateException of the second resume. */
  lemma DirectoryOutcome(wasConnected: bool, greeting: int, login: int, cwdReply: int, path: string, tree: FileTree)
    ensures Delivered(DirectorySlot(wasConnected, greeting, login, cwdReply, path, tree)) == Some(Ok(tree)) <==>
      ConnectFailure(wasConnected, greeting, login) == None && IsPositiveCompletion(cwdReply)
    ensures ConnectFailure(wasConnected, greeting, login) == None && !IsPositiveCompletion(cwdReply) ==>
      DirectorySlot(wasConnected, greeting, login, cwdReply, path, tree) == ResumedTwice(Err(FileNotFoundException(path)))
    ensures ConnectFailure(wasConnected, greeting, login).Some? ==>
      DirectorySlot(wasConnected, greeting, login, cwdReply, path, tree)
      == ResumedTwice(Err(ConnectFailure(wasConnected, greeting, login).value))
  {
  }

  /** Every connecting operation ends with the teardown calls, so the
      session is closed whatever happened before. */
  lemma OperationsEndWithTeardown(server: ServerModel, wasConnected: bool, greeting: int, login: int, cwdReply: int, path: string, command: Call)
    ensures var c := CommandCalls(server, wasConnected, greeting, command);
      |c| >= 2 && c[|c| - 2..] == TEARDOWN
    ensures var d := DirectoryCalls(server, wasConnected, greeting, login, cwdReply, path);
      |d| >= 2 && d[|d| - 2..] == TEARDOWN
  {
  }

  /** Call `c` stores something at `path`. */
  predicate StoresAt(c: Call, path: string) {
    c.Stor? && c.path == path
  }

  /** The content of the last STOR to `path` in a call log, if any. */
  function StoredContent(log: seq<Call>, path: string): (r: Option<string>)
    ensures r.Some? ==> exists i :: 0 <= i < |log| && log[i] == Stor(path, r.value)
                                    && forall j :: i < j < |log| ==> !StoresAt(log[j], path)
    ensures r == None ==> forall i :: 0 <= i < |log| ==> !StoresAt(log[i], path)
  {
    if log == [] then None
    else
      var last := log[|log| - 1];
      var before := log[..|log| - 1];
      if StoresAt(last, path) then
        assert log[|log| - 1] == Stor(path, last.content);
        Some(last.content)
      else
        var r := StoredContent(before, path);
        assert forall i :: 0 <= i < |before| ==> before[i] == log[i];
        r
  }

  /** Appending calls that store nothing leaves the stored content alone. */
  lemma {:induction false} StoredContentSkips(log: seq<Call>, tail: seq<Call>, path: string)
    requires forall i :: 0 <= i < |tail| ==> !tail[i].Stor?
    ensures StoredContent(log + tail, path) == StoredContent(log, path)
    decreases |tail|
  {
    if tail != [] {
      var shorter := tail[..|tail| - 1];
      assert (log + tail)[..|log + tail| - 1] == log + shorter;
      assert (log + tail)[|log + tail| - 1] == tail[|tail| - 1];
      StoredContentSkips(log, shorter, path);
    } else {
      assert log + tail == log;
    }
  }

  /** After saveFile the client has stored exactly `text` at the path, and
      after createFile of a plain file, the empty content; whether the
      server kept it is the reply's business. */
  lemma {:induction false} StoreIsLastWrite(log: seq<Call>, server: ServerModel, wasConnected: bool, greeting: int, path: string, text: string)
    ensures StoredContent(log + CommandCalls(server, wasConnected, greeting, Stor(path, text)), path) == Some(text)
  {
    var sent := log + ConnectCalls(server, wasConnected, greeting) + [Stor(path, text)];
    assert log + CommandCalls(server, wasConnected, greeting, Stor(path, text)) == sent + TEARDOWN;
    StoredContentSkips(sent, TEARDOWN, path);
    assert sent[..|sent| - 1] + [sent[|sent| - 1]] == sent;
  }

  // ---------------------------------------------------------------------
  // What the caller was evidently meant to receive: the first outcome
  // committed, with the operation stopping there.

  /** The intended result of a single-command operation. */
  function IntendedCommandResult<T>(wasConnected: bool, greeting: int, login: int, reply: int, value: T, path: string): (r: Result<T>)
    ensures r == Ok(value) <==> ConnectFailure(wasConnected, greeting, login) == None && IsPositiveCompletion(reply)
    ensures !wasConnected && !IsPositiveCompletion(greeting) ==> r == Err(ConnectionException)
    ensures !wasConnected && IsPositiveCompletion(greeting) && !IsPositiveCompletion(login)
      ==> r == Err(AuthenticationException)
    ensures r.Err? ==> r.error != IllegalStateException
  {
    match ConnectFailure(wasConnected, greeting, login)
    case Some(e) => Err(e)
    case None => ReplyOutcome(reply, value, path)
  }

  /** The intended result is exactly the outcome the code commits first. */
  lemma IntendedCommandIsFirstCommitted<T>(wasConnected: bool, greeting: int, login: int, reply: int, value: T, path: string)
    ensures IntendedCommandResult(wasConnected, greeting, login, reply, value, path)
         == CommandSlot(wasConnected, greeting, login, reply, value, path).first
  {
  }

  /** A server that greets with 220 and rejects the login with 530 makes
      createFile deliver IllegalStateException instead of
      AuthenticationException. */
  lemma AuthenticationFailureIsMasked()
    ensures Delivered(CommandSlot(false, 220, 530, 530, (), "/docs")) == Some(Err(IllegalStateException))
    ensures IntendedCommandResult(false, 220, 530, 530, (), "/docs") == Err(AuthenticationException)
  {
  }

  /** The intended result of provideDirectory. */
  function IntendedDirectoryResult(wasConnected: bool, greeting: int, login: int, cwdReply: int, path: string, tree: FileTree): (r: Result<FileTree>)
    ensures r == Ok(tree) <==> ConnectFailure(wasConnected, greeting, login) == None && IsPositiveCompletion(cwdReply)
    ensures ConnectFailure(wasConnected, greeting, login) == None && !IsPositiveCompletion(cwdReply)
      ==> r == Err(FileNotFoundException(path))
    ensures r.Err? ==> r.error != IllegalStateException
  {
    match ConnectFailure(wasConnected, greeting, login)
    case Some(e) => Err(e)
    case None => ReplyOutcome(cwdReply, tree, path)
  }

  lemma IntendedDirectoryIsFirstCommitted(wasConnected: bool, greeting: int, login: int, cwdReply: int, path: string, tree: FileTree)
    ensures IntendedDirectoryResult(wasConnected, greeting, login, cwdReply, path, tree)
         == DirectorySlot(wasConnected, greeting, login, cwdReply, path, tree).first
  {
  }

  /** Listing a directory the server answers CWD with 550 for delivers
      IllegalStateException instead of FileNotFoundException. */
  lemma MissingDirectoryIsMasked(tree: FileTree)
    ensures Delivered(DirectorySlot(false, 220, 230, 550, "/gone", tree)) == Some(Err(IllegalStateException))
    ensures IntendedDirectoryResult(false, 220, 230, 550, "/gone", tree) == Err(FileNotFoundException("/gone"))
  {
  }
}
