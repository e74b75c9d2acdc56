# FTPS filesystem adapter and Lisp language descriptor

This project is a Dafny model of two pieces of the editor.

**The FTPS filesystem adapter.** `FTPSFilesystem` implements the shared
filesystem contract on top of an FTPS client.
- Every operation that talks to the server opens a session (`connect`), sends
  one command (provideDirectory: CWD, then LIST) and decides its outcome from
  the reply code (for provideDirectory, CWD's reply; LIST's is never read). Section 4.2 of
  RFC 959 defines a 2yz reply as a positive completion.
- The outcome is handed to a suspended coroutine, and the session is always
  torn down (`disconnect`: logout, then close).
- The inner `FTPSMapper` turns listing entries into `FileModel`s. Each child's
  URI is built from the parent's URI, and the nine FTP permission predicates
  are folded into a permission bitmask.

**The Lisp language descriptor.** `LispLanguage` says which file names are
Lisp (`.lisp`, `.lsp`, `.cl`, `.l`; matched case-sensitively, an assumption
listed under "## Left out") and names the language.

The modules:
- `FilesystemBase` holds the shared vocabulary: `FileModel`, `FileTree`,
  `ServerModel`, the errors, the permission flags and the `path` of a model.
- `Coroutines` models the continuation as a write-once slot. A second resume
  throws `IllegalStateException`, as Kotlin's `suspendCoroutine` does.
- `FtpsMapping` holds the mapper and the permission fold.
- `FtpsSession` holds the pure specification of each operation. It says which
  client calls are made, which outcome is committed first and what the caller
  receives, all as functions of the server's reply codes.
- `Ftps` is the adapter class. Its methods change the session state step by
  step and are proved against `FtpsSession`.
- `LispLanguage` is the descriptor.

The FTPS client is an oracle: each reply code, the listing and the
downloaded text are inputs of the method that receives them. The adapter's
state is the session (`connected`, `replyCode`, the log of client calls),
the cache directory used to stage transfers, and the mapper's current parent.

## Model

| member | source | states |
|---|---|---|
| Ftps.FtpsFilesystem.constructor | filesystems/filesystem-ftps/src/main/kotlin/com/blacksquircle/ui/filesystem/ftps/FTPSFilesystem.kt:38-48 | a new adapter is disconnected, has made no calls, owns a fresh mapper with no parent, and its mapper carries the server's uuid |
| Ftps.FtpsFilesystem.DefaultLocation | filesystems/filesystem-ftps/src/main/kotlin/com/blacksquircle/ui/filesystem/ftps/FTPSFilesystem.kt:50-52 | the root location has URI `ftps://`, the server's uuid, an empty path, size and timestamp 0, no directory flag and no permissions; it reads no session state |
| Ftps.FtpsFilesystem.Exists | filesystems/filesystem-ftps/src/main/kotlin/com/blacksquircle/ui/filesystem/ftps/FTPSFilesystem.kt:75-77 | always fails with UnsupportedOperationException and touches no state |
| Ftps.FtpsFilesystem.CopyFile | filesystems/filesystem-ftps/src/main/kotlin/com/blacksquircle/ui/filesystem/ftps/FTPSFilesystem.kt:135-137 | always fails with UnsupportedOperationException and touches no state |
| Ftps.FtpsFilesystem.CompressFiles | filesystems/filesystem-ftps/src/main/kotlin/com/blacksquircle/ui/filesystem/ftps/FTPSFilesystem.kt:139-141 | always fails with UnsupportedOperationException and touches no state |
| Ftps.FtpsFilesystem.ExtractFiles | filesystems/filesystem-ftps/src/main/kotlin/com/blacksquircle/ui/filesystem/ftps/FTPSFilesystem.kt:143-145 | always fails with UnsupportedOperationException and touches no state |
| Ftps.FtpsFilesystem.Connect | filesystems/filesystem-ftps/src/main/kotlin/com/blacksquircle/ui/filesystem/ftps/FTPSFilesystem.kt:195-209 | a live session is left alone; otherwise the transport is opened, and passive mode and login follow only a 2yz greeting; the continuation is resumed with ConnectionException or AuthenticationException exactly as `ConnectFailure` says, and the session counts as connected afterwards |
| Ftps.FtpsFilesystem.Disconnect | filesystems/filesystem-ftps/src/main/kotlin/com/blacksquircle/ui/filesystem/ftps/FTPSFilesystem.kt:211-214 | logs out, then closes; the session is disconnected afterwards |
| Ftps.FtpsFilesystem.ProvideDirectory | filesystems/filesystem-ftps/src/main/kotlin/com/blacksquircle/ui/filesystem/ftps/FTPSFilesystem.kt:54-73 | the calls made and the final continuation state equal `DirectoryCalls` and `DirectorySlot`; the tree offered has the argument as parent and the valid entries mapped under it; the mapper records the parent unless the CWD resume threw; the session is disconnected and the cache unchanged |
| Ftps.FtpsFilesystem.ChangeDirectory | filesystems/filesystem-ftps/src/main/kotlin/com/blacksquircle/ui/filesystem/ftps/FTPSFilesystem.kt:58-61 | sends CWD; a non-2yz reply commits FileNotFoundException(path), and that resume throws exactly when the continuation was already resumed |
| Ftps.FtpsFilesystem.ListDirectory | filesystems/filesystem-ftps/src/main/kotlin/com/blacksquircle/ui/filesystem/ftps/FTPSFilesystem.kt:62-67 | the mapper's parent becomes the argument, LIST is sent, and the tree is the argument with the filtered listing mapped under it |
| Ftps.FtpsFilesystem.CreateFile | filesystems/filesystem-ftps/src/main/kotlin/com/blacksquircle/ui/filesystem/ftps/FTPSFilesystem.kt:79-97 | a directory is created with MKD and a file with a STOR of empty content; the outcome is `CommandSlot` on the file's path; the session is disconnected afterwards |
| Ftps.FtpsFilesystem.RenameFile | filesystems/filesystem-ftps/src/main/kotlin/com/blacksquircle/ui/filesystem/ftps/FTPSFilesystem.kt:99-113 | sends a rename from source path to destination path; a failure names the source path; the session is disconnected afterwards |
| Ftps.FtpsFilesystem.DeleteFile | filesystems/filesystem-ftps/src/main/kotlin/com/blacksquircle/ui/filesystem/ftps/FTPSFilesystem.kt:115-133 | a directory is removed with RMD and a file with DELE; the outcome is `CommandSlot` on the file's path; the session is disconnected afterwards |
| Ftps.FtpsFilesystem.LoadFile | filesystems/filesystem-ftps/src/main/kotlin/com/blacksquircle/ui/filesystem/ftps/FTPSFilesystem.kt:147-169 | sends RETR; on a 2yz reply after a good connect, the value committed is exactly the text the server sent; the cache directory is the same before and after; the session is disconnected afterwards |
| Ftps.FtpsFilesystem.SaveFile | filesystems/filesystem-ftps/src/main/kotlin/com/blacksquircle/ui/filesystem/ftps/FTPSFilesystem.kt:171-193 | stores exactly `text` at the file's path; the cache directory is the same before and after; the session is disconnected afterwards |
| FtpsMapping.FtpsMapper.constructor | filesystems/filesystem-ftps/src/main/kotlin/com/blacksquircle/ui/filesystem/ftps/FTPSFilesystem.kt:216-218 | a new mapper has no parent |
| FtpsMapping.FtpsMapper.ToFileModel | filesystems/filesystem-ftps/src/main/kotlin/com/blacksquircle/ui/filesystem/ftps/FTPSFilesystem.kt:220-250 | the child URI is the parent's URI ("null" without a parent), "/" and the name; uuid, size, timestamp and directory flag are copied; each permission bit is set exactly when its predicate holds |
| FtpsMapping.FtpsMapper.ToFileObject | filesystems/filesystem-ftps/src/main/kotlin/com/blacksquircle/ui/filesystem/ftps/FTPSFilesystem.kt:252-254 | always fails with UnsupportedOperationException |
| FtpsMapping.FtpsMapper.Parent | filesystems/filesystem-ftps/src/main/kotlin/com/blacksquircle/ui/filesystem/ftps/FTPSFilesystem.kt:256-259 | returns its argument unchanged and records it as the current parent |
| FtpsMapping.PermissionOf | filesystems/filesystem-ftps/src/main/kotlin/com/blacksquircle/ui/filesystem/ftps/FTPSFilesystem.kt:227-248 | bit (access, mode) of the mask is set if and only if the entry grants (access, mode); no bit outside the nine flags is set |
| FtpsMapping.NoPermissionIsEmpty | filesystems/filesystem-ftps/src/main/kotlin/com/blacksquircle/ui/filesystem/ftps/FTPSFilesystem.kt:228-247 | an entry granting nothing maps to Permission.EMPTY |
| FtpsMapping.PermissionDependsOnlyOnPredicates | filesystems/filesystem-ftps/src/main/kotlin/com/blacksquircle/ui/filesystem/ftps/FTPSFilesystem.kt:227-248 | two entries with the same nine predicates get the same mask |
| FtpsMapping.MasksAgreeOnFlags | filesystems/filesystem-ftps/src/main/kotlin/com/blacksquircle/ui/filesystem/ftps/FTPSFilesystem.kt:227-248 | a mask within the nine flags is determined by which of them it has |
| FtpsMapping.FlipOnePermission | filesystems/filesystem-ftps/src/main/kotlin/com/blacksquircle/ui/filesystem/ftps/FTPSFilesystem.kt:227-248 | flipping one predicate of an entry flips exactly its own bit of the mask |
| FtpsMapping.EntryAttributes | filesystems/filesystem-ftps/src/main/kotlin/com/blacksquircle/ui/filesystem/ftps/FTPSFilesystem.kt:220-249 | under a known parent, a child's URI extends the parent's with "/" and the name; its attributes are copied and its permission bits match the predicates |
| FtpsMapping.OrphanEntryUri | filesystems/filesystem-ftps/src/main/kotlin/com/blacksquircle/ui/filesystem/ftps/FTPSFilesystem.kt:222 | with no parent recorded, the child URI is "null/" and the name |
| FtpsMapping.ChildPath | filesystems/filesystem-ftps/src/main/kotlin/com/blacksquircle/ui/filesystem/ftps/FTPSFilesystem.kt:222 | the child's path relative to the root is the parent's path, "/" and the name |
| FtpsMapping.Filter | filesystems/filesystem-ftps/src/main/kotlin/com/blacksquircle/ui/filesystem/ftps/FTPSFilesystem.kt:65 | keeps exactly the listed entries whose name is valid, and never grows the listing |
| FtpsMapping.FilterConcat | filesystems/filesystem-ftps/src/main/kotlin/com/blacksquircle/ui/filesystem/ftps/FTPSFilesystem.kt:65 | filtering keeps listing order: it distributes over concatenation |
| FtpsMapping.MapModels | filesystems/filesystem-ftps/src/main/kotlin/com/blacksquircle/ui/filesystem/ftps/FTPSFilesystem.kt:66 | one model per entry, in order, each the mapping of the entry at the same index |
| FtpsMapping.ListingChildren | filesystems/filesystem-ftps/src/main/kotlin/com/blacksquircle/ui/filesystem/ftps/FTPSFilesystem.kt:62-67 | the children are the valid listed entries, one each, with URI parent + "/" + name and the server's uuid |
| FtpsSession.ConnectFailure | filesystems/filesystem-ftps/src/main/kotlin/com/blacksquircle/ui/filesystem/ftps/FTPSFilesystem.kt:195-209 | no failure on a live session or after a 2yz greeting and a 2yz login; ConnectionException exactly after a non-2yz greeting; AuthenticationException exactly after a 2yz greeting and a non-2yz login |
| FtpsSession.CommandFirstOutcome | filesystems/filesystem-ftps/src/main/kotlin/com/blacksquircle/ui/filesystem/ftps/FTPSFilesystem.kt:79-97 | a single-command operation always resumes; the first outcome is the connect failure if there was one, otherwise FileNotFoundException(path) on a non-2yz reply |
| FtpsSession.CommandDelivery | filesystems/filesystem-ftps/src/main/kotlin/com/blacksquircle/ui/filesystem/ftps/FTPSFilesystem.kt:79-97 | the caller receives the value if and only if connect succeeded and the reply was 2yz; after a good connect, a failed reply delivers FileNotFoundException(path); after a failed connect it delivers the IllegalStateException of the second resume |
| FtpsSession.DirectoryOutcome | filesystems/filesystem-ftps/src/main/kotlin/com/blacksquircle/ui/filesystem/ftps/FTPSFilesystem.kt:54-73 | the tree is delivered if and only if connect succeeded and CWD was 2yz; otherwise the first outcome committed is the connect failure or FileNotFoundException(path), and the caller sees the second resume throw |
| FtpsSession.OperationsEndWithTeardown | filesystems/filesystem-ftps/src/main/kotlin/com/blacksquircle/ui/filesystem/ftps/FTPSFilesystem.kt:69-71 | every connecting operation's calls end with logout, then close, on every path |
| FtpsSession.StoredContent | filesystems/filesystem-ftps/src/main/kotlin/com/blacksquircle/ui/filesystem/ftps/FTPSFilesystem.kt:179-181 | the content found for a path is the one the last STOR to that path carried, with no later STOR to it; none is found only when the log stores nothing at that path |
| FtpsSession.StoreIsLastWrite | filesystems/filesystem-ftps/src/main/kotlin/com/blacksquircle/ui/filesystem/ftps/FTPSFilesystem.kt:171-193 | after saveFile (or createFile of a plain file, with empty text), the last content the client stored at the path is exactly the text given |
| FtpsSession.IntendedCommandResult | filesystems/filesystem-ftps/src/main/kotlin/com/blacksquircle/ui/filesystem/ftps/FTPSFilesystem.kt:195-209 | corrected outcome: success if and only if connect succeeded and the reply was 2yz; ConnectionException or AuthenticationException on connect failure; never IllegalStateException |
| FtpsSession.IntendedCommandIsFirstCommitted | filesystems/filesystem-ftps/src/main/kotlin/com/blacksquircle/ui/filesystem/ftps/FTPSFilesystem.kt:82-92 | the corrected outcome is exactly the one the code commits first |
| FtpsSession.AuthenticationFailureIsMasked | filesystems/filesystem-ftps/src/main/kotlin/com/blacksquircle/ui/filesystem/ftps/FTPSFilesystem.kt:204-207 | with greeting 220 and the login rejected with 530, createFile as written delivers IllegalStateException where AuthenticationException is intended |
| FtpsSession.IntendedDirectoryResult | filesystems/filesystem-ftps/src/main/kotlin/com/blacksquircle/ui/filesystem/ftps/FTPSFilesystem.kt:58-61 | corrected provideDirectory outcome: the tree if and only if connect succeeded and CWD was 2yz; FileNotFoundException(path) on a failed CWD; never IllegalStateException |
| FtpsSession.IntendedDirectoryIsFirstCommitted | filesystems/filesystem-ftps/src/main/kotlin/com/blacksquircle/ui/filesystem/ftps/FTPSFilesystem.kt:54-68 | the corrected outcome is exactly the one provideDirectory commits first |
| FtpsSession.MissingDirectoryIsMasked | filesystems/filesystem-ftps/src/main/kotlin/com/blacksquircle/ui/filesystem/ftps/FTPSFilesystem.kt:59-68 | with CWD answered 550, provideDirectory as written delivers IllegalStateException where FileNotFoundException is intended |
| Coroutines.Commit | filesystems/filesystem-ftps/src/main/kotlin/com/blacksquircle/ui/filesystem/ftps/FTPSFilesystem.kt:55 | a resume always leaves the slot committed; only the first resume sets the outcome, and later ones leave it as it was |
| Coroutines.Continuation.ResumeWith | filesystems/filesystem-ftps/src/main/kotlin/com/blacksquircle/ui/filesystem/ftps/FTPSFilesystem.kt:89-91 | commits the outcome; it reports a throw exactly when the continuation had already been resumed |
| LispLanguage.EndsWithAny | languages/language-lisp/src/main/kotlin/com/brackeys/ui/language/lisp/LispLanguage.kt:35 | true if and only if some listed suffix ends the name |
| LispLanguage.SupportFormat | languages/language-lisp/src/main/kotlin/com/brackeys/ui/language/lisp/LispLanguage.kt:32-36 | true if and only if the name ends in `.lisp`, `.lsp`, `.cl` or `.l` |
| LispLanguage.ListedExtensions | languages/language-lisp/src/main/kotlin/com/brackeys/ui/language/lisp/LispLanguage.kt:32 | the extension list is exactly the four extensions |
| LispLanguage.GetName | languages/language-lisp/src/main/kotlin/com/brackeys/ui/language/lisp/LispLanguage.kt:39-41 | the language name is "lisp" |
| LispLanguage.RecognisedNames | languages/language-lisp/src/main/kotlin/com/brackeys/ui/language/lisp/LispLanguage.kt:32-36 | names with each of the four extensions, and ".lisp" alone, are Lisp |
| LispLanguage.LispNameLastChar | languages/language-lisp/src/main/kotlin/com/brackeys/ui/language/lisp/LispLanguage.kt:32 | every Lisp name has at least two characters and ends in 'p' or 'l' |
| LispLanguage.UnrecognisedNames | languages/language-lisp/src/main/kotlin/com/brackeys/ui/language/lisp/LispLanguage.kt:32-36 | "a.txt", "MAIN.LISP" (under the assumed case-sensitive matching), "notes.lisp.bak" and the empty name are not Lisp |
| LispLanguage.BareNameIsNotLisp | languages/language-lisp/src/main/kotlin/com/brackeys/ui/language/lisp/LispLanguage.kt:32-41 | the bare name "lisp" has no extension and is not Lisp |
| LispLanguage.SupportFormatPrefixed | languages/language-lisp/src/main/kotlin/com/brackeys/ui/language/lisp/LispLanguage.kt:35 | adding any prefix to a Lisp name keeps it Lisp |
| LispLanguage.SupportFormatBySuffix | languages/language-lisp/src/main/kotlin/com/brackeys/ui/language/lisp/LispLanguage.kt:32-36 | the answer depends only on the last five characters of the name |

## Left out

- TLS, sockets, the connect timeout and passive mode are not modelled. The FTPS client is an oracle that supplies reply codes, and the passive-mode switch appears only as an entry of the call log.
- Exceptions thrown by the client itself (I/O errors, a dropped connection) are not modelled, nor are failures of the temporary file itself (`createNewFile`, `readText` or `writeText` on a missing or full cache directory), after which the source still runs its `finally` blocks. Only reply codes decide outcomes. In particular the client throws on a 421 reply ("service not available, closing control connection"), so a greeting of 421 ends `connect` with that exception rather than with the ConnectionException the model commits.
- The reply to QUIT is not consulted by the adapter, so it is not an input. The passive-mode switch is a local client setting that sends nothing and has no reply.
- Charset encoding and decoding are taken as the identity: the text written to or read from the temporary file is the text itself.
- The listing's `Calendar` timestamp is taken as already converted to epoch milliseconds.
- The random UUID of the temporary file is a parameter. The requirement that it is fresh is the precondition that the name is not already in the cache directory.
- Coroutine suspension, dispatch and cancellation are not modelled. The continuation is a write-once slot.
- `getParser`, `getProvider` and `getStyler` of the Lisp language return singletons of classes that are not part of this model.
- `isValidFileName` belongs to filesystem-base, which is not part of this model. It is a parameter of the adapter, and every property holds for any filter.
- Where filesystem-base is not part of this model, its behaviour is assumed: `FileModel.path` is the URI after its first "://", and the permission flags are the nine low bits 0x100 down to 0x1, combined by bitwise OR; `FileModel`'s default arguments, which `defaultLocation` relies on, are size 0, lastModified 0, directory false and permission EMPTY.
- `String.endsWith(Array)` belongs to language-base, which is not part of this model. It is assumed to try Kotlin's case-sensitive `String.endsWith` on each extension in turn, so `SupportFormat` and the Lisp name lemmas rest on that assumption.
- Whether a saved file can be loaded back depends on the server, which is an oracle. The model proves what the client stores (`StoreIsLastWrite`) and what it returns from a download, not a round trip through the server.
- Ftps.FtpsFilesystem.SaveFile: the fact that the last content stored is `text` is proved in `FtpsSession.StoreIsLastWrite` about the call log the method's contract states, not in the method's own contract.

## Findings

| source | as written | input that shows it | evidently intended | confidence | as-written member | corrected member |
|---|---|---|---|---|---|---|
| filesystems/filesystem-ftps/src/main/kotlin/com/blacksquircle/ui/filesystem/ftps/FTPSFilesystem.kt:195-209 | `connect` resumes the continuation with ConnectionException or AuthenticationException and returns normally. The operation then sends its command and resumes again. The second resume throws "Already resumed", so the caller receives IllegalStateException. | createFile on a disconnected adapter whose server greets with 220 and rejects the login with 530 (any final reply, e.g. 530) | the caller receives AuthenticationException (or ConnectionException after a negative greeting the client does not itself reject), and the operation stops | high, not executed | FtpsSession.AuthenticationFailureIsMasked | FtpsSession.IntendedCommandResult |
| filesystems/filesystem-ftps/src/main/kotlin/com/blacksquircle/ui/filesystem/ftps/FTPSFilesystem.kt:58-68 | after a non-2yz CWD reply, provideDirectory resumes with FileNotFoundException and carries on. It lists the directory and resumes a second time, which throws, so the caller receives IllegalStateException. | provideDirectory of "/gone" with greeting 220, login 230 and CWD answered 550 | the caller receives FileNotFoundException("/gone") | high, not executed | FtpsSession.MissingDirectoryIsMasked | FtpsSession.IntendedDirectoryResult |
