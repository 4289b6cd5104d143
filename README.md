# FTP web UI: connection registry and browser navigation, in Dafny

This project models the two pieces of logic in a small FTP web client that hold real state.

- **The server's connection registry** (`server.js`). A module-level map goes from connection id to FTP client. One helper looks a client up, or opens and registers a new one. The connect route checks its inputs and derives the id, port and TLS flag. Six operation routes (list, download, upload, mkdir, delete, rename) resolve the request's id against the map before calling the client. The disconnect route removes an entry. The shutdown handler closes every client.
- **The browser client's navigation** (`public/script.js`). It covers the path of an entry inside the current directory and the parent of the current directory. It also covers the directories-first order of the file table and its ".." row, and the breadcrumb bar with the directory each item loads. Last, it covers the session globals (connection id, current path, rename target) and the handlers that read and reset them.

Every call into the FTP library and every `fetch` is an input. The model never makes the call. It takes what the call reports back (`Remote<T>`: `Done(value)` or `Failed(cause)`) as a parameter. It returns the call it would issue (`Issued(client, call)` on the server, `Request` on the client), so the tests that guard the call can be stated.

Modules, one file each:

| file | module | models |
|---|---|---|
| common.dfy | `Common` | `Option`, `Result`, `Remote` |
| jsstring.dfy | `JsString` | `split('/')`, `join('/')`, `parseInt`, decimal rendering of a timestamp |
| wire.dfy | `Wire` | listed entries, library calls, route answers (`Outcome`) |
| shaping.dfy | `Shaping` | connect checks, id/port/secure derivation, path defaults, entry-type mapping, delete dispatch |
| registry.dfy | `Registry` | `Handle` (an FTP client with its `open` flag) and `ConnectionRegistry` (the map and the routes) |
| paths.dfy | `Paths` | child path, parent path, path segments |
| breadcrumb.dfy | `Breadcrumb` | `updateBreadcrumb` |
| listing.dfy | `Listing` | the file table's sort order and the in-place sort |
| client.dfy | `Client` | the session globals, the file-table rows and the handlers |

Things the code does that a reader might not expect:
- The connection id is `host_username_timestamp`. It is neither random nor unique. `Shaping.ConnectionIdCollides` exhibits two accounts that share an id, and a repeated id reuses the registered client.
- A closed id can be registered again by a later connect that produces the same id.
- Listing order comes from the browser's `localeCompare`, not a case-sensitive comparison on the server.
- Upload paths are not checked for `..` segments, and no remote call has a timeout.
- A rename's new name is typed by the user and not checked for "/" or `..`. `Client.RenameCanLeaveDirectory` shows such a name moving the entry out of the directory shown.
- Requests on one session are not serialized.

## Model

| member | source | states |
|---|---|---|
| JsString.Split | public/script.js:205 | `split('/')` always yields at least one piece and no piece contains the separator |
| JsString.JoinSplit | public/script.js:205 | joining the pieces of a split with "/" gives back the original string |
| JsString.SplitAround | public/script.js:199 | a separator between two strings splits into the pieces of each, concatenated |
| JsString.SplitJoin | public/script.js:504 | joining separator-free pieces and splitting again gives back the pieces |
| JsString.SplitNoSeparator | public/script.js:205 | a string without "/" splits into itself alone |
| JsString.DecimalString | server.js:86 | the timestamp in the id is rendered as decimal digits with no leading zero |
| JsString.DigitPrefix | server.js:90 | `parseInt` reads the longest run of digits of the radix, stopping at the first non-digit |
| JsString.ParseDecimal | server.js:90 | `parseInt` of the decimal rendering of `n` is `n` |
| JsString.DecimalInjective | server.js:86 | distinct timestamps render as distinct strings |
| Shaping.CheckCredentials | server.js:79-84 | connect proceeds iff host, username and password are all present and non-empty, else fails with "Host, username, and password are required" |
| Shaping.ConnectionIdDeterminesTimestamp | server.js:86 | for a fixed host and username, two equal ids have equal timestamps |
| Shaping.ConnectionIdCollides | server.js:86 | two different host/username pairs can produce the same id at the same millisecond |
| Shaping.PortChoice | server.js:90 | the port is never 0: it is 21 when parsing gives NaN or 0, else the parsed number |
| Shaping.PortOfDecimal | server.js:90 | a port sent as the decimal digits of a positive number is used as that number |
| Shaping.AccessOptionsOf | server.js:88-94 | the library receives the host, the username, the password, the defaulted port, and `secure` true iff the field is `true` or `"true"` |
| Shaping.DefaultPaths | server.js:114 | for every field value, the list path is the given one whenever present (even ""), and "/" only when absent; the upload target (server.js:203) is the given one whenever non-empty, and "/" when absent or "" |
| Shaping.FormatItem | server.js:126-132 | an entry is "file" iff the library's type code is 1 (everything else becomes "directory"), with name, size, date and permissions copied |
| Shaping.FormatList | server.js:126-132 | the listing is translated entry by entry, same length and order |
| Shaping.DeleteFollowsListing | server.js:264-268 | deleting an entry by the type its listing reported removes a directory iff the library's type code was not 1 |
| Registry.Handle.constructor | server.js:48 | a new client is not connected |
| Registry.Handle.Access | server.js:53-60 | a new client is open exactly when the remote side accepts |
| Registry.Handle.Close | server.js:316 | a closed client is not open |
| Registry.ConnectionRegistry.constructor | server.js:40 | the registry starts empty, and valid: no client is registered under two ids |
| Registry.ConnectionRegistry.GetFtpConnection | server.js:43-69 | a registered id returns its client with no remote call and no change; otherwise a fresh client is created, open exactly when access succeeds, and the map gains exactly `id -> client` on success, or stays unchanged with "FTP connection failed: " + cause on failure |
| Registry.ConnectionRegistry.Connect | server.js:74-109 | missing credentials fail before any remote call with the map unchanged; otherwise the id is `host_username_timestamp`, the options are derived as above, and the answer, the map and the new client's open flag follow `GetFtpConnection` |
| Registry.ConnectionRegistry.List | server.js:112-145 | an unknown id fails with "No active connection found" and issues nothing; otherwise the session's own client is asked for the defaulted path, and the answer echoes that path with the translated entries, or carries the library's error |
| Registry.ConnectionRegistry.Download | server.js:148-181 | an unknown id fails with no call; otherwise the session's client downloads into ./downloads/ under the base name, and the answer is that file or the library's error |
| Registry.ConnectionRegistry.Upload | server.js:184-221 | the session is checked before the file; a missing file fails with "No file uploaded"; otherwise the staged file goes to its original name under `targetPath` or "/" |
| Registry.ConnectionRegistry.MakeDir | server.js:224-248 | an unknown id fails with no call; otherwise the session's client ensures the directory, and success says "Directory created successfully" |
| Registry.ConnectionRegistry.Delete | server.js:251-280 | an unknown id fails with no call; otherwise directory removal is called iff the type is "directory", else file removal, and success says "<type> deleted successfully" (an absent type reads "undefined") |
| Registry.ConnectionRegistry.Rename | server.js:283-307 | an unknown id fails with no call; otherwise one remote rename from the old to the new path |
| Registry.ConnectionRegistry.Disconnect | server.js:310-330 | always answers "Disconnected successfully"; afterwards the id is absent; a registered client is closed and only its entry removed; an unknown id changes nothing |
| Registry.ConnectionRegistry.CloseAll | server.js:352-356 | after shutdown every registered client is closed, whatever its state before |
| Registry.Handle.Drop | server.js:124 | a connection the server ends while a command runs is no longer open |
| Registry.DroppedStaysRegistered | server.js:139-144 | a failed listing leaves the map as it was, so a client whose connection the server dropped stays registered and the next request on that id is issued on the closed client |
| Registry.DisconnectTwice | server.js:310-330 | disconnecting twice gives the same answer both times, removes exactly that id, and a later list finds no connection |
| Paths.ParentIsPrefix | public/script.js:205 | the parent is the text before the last "/", or "/" when that is empty or there is no "/" |
| Paths.ParentOfChild | public/script.js:197-206 | for a non-empty directory and a name without "/", the parent of the child path is the directory |
| Paths.ChildOfParent | public/script.js:199-205 | going up and then into the last segment returns to the path, unless the parent is a non-root "/" |
| Paths.Segments | public/script.js:504 | breadcrumb segments are non-empty and contain no "/" |
| Paths.SegmentsOfChild | public/script.js:199 | opening an entry appends its name to the segments of the current path |
| Paths.RootedJoinSegments | public/script.js:516-528 | "/" followed by the join of separator-free, non-empty segments has exactly those segments |
| Breadcrumb.JoinSnoc | public/script.js:522 | appending a segment to the accumulated path appends "/" and the segment |
| Breadcrumb.UpdateBreadcrumb | public/script.js:501-534 | the accumulating loop builds a root item plus one item per segment, and item i targets "/" + the join of the first i+1 segments |
| Breadcrumb.CrumbsShape | public/script.js:504-533 | there is one item per segment plus the root; an item is inert iff it is highlighted; only the last item can be highlighted; the root is highlighted iff the path is "/" |
| Breadcrumb.CrumbsNavigate | public/script.js:516-530 | clicking item i loads a directory whose segments are the first i segments of the current path |
| Listing.NameLeTotal | public/script.js:176 | any two names are ordered one way or the other |
| Listing.NameLeTransitive | public/script.js:176 | name order is transitive |
| Listing.PrecedesTotal | public/script.js:172-177 | the comparator orders any two entries one way or the other |
| Listing.PrecedesTransitive | public/script.js:172-177 | the comparator's order is transitive |
| Listing.SortedShape | public/script.js:172-177 | in a sorted listing no file comes before a directory, and entries of one kind are in name order |
| Listing.SortListing | public/script.js:172-177 | the in-place sort leaves the array sorted and a permutation of what it held |
| Client.RowsShape | public/script.js:160-182 | the table has a ".." row, first, iff the directory is not "/", then one row per entry in order, carrying its name and kind |
| Client.RowsNavigateBack | public/script.js:196-207 | while the table is the one drawn for the current directory, the ".." row of the directory any directory row opens leads back to the current directory |
| Client.ClientState.OpenRow | public/script.js:196-207 | a double click reads the current directory at click time: ".." loads its parent, a directory row loads the child path, a file row sends nothing; the load then follows `LoadDirectory` |
| Client.NavigateAndBack | public/script.js:196-207 | double-clicking a directory row and then ".." in the listing that opens asks for the directory the user started from |
| Client.RenameStaysInDirectory | public/script.js:382-383 | for an old and a new name without "/", the old and new paths of a rename both have the current directory as parent |
| Client.RenameCanLeaveDirectory | public/script.js:380-383 | a typed new name containing "/" is not rejected: renaming to "../x" in "/a" targets a path whose parent is "/a/..", not "/a" |
| Client.ClientState.constructor | public/script.js:2-4 | at page load there is no connection id, the path is "/", and no rename target |
| Client.ClientState.RenderFileList | public/script.js:156-183 | the listing array is sorted in place (a sorted permutation) and the table is drawn from it for the current directory |
| Client.ClientState.LoadDirectory | public/script.js:123-154 | while not connected nothing is sent and nothing changes; otherwise the listing is requested, and a successful listing becomes current, redrawn, while a failure keeps the view |
| Client.ClientState.ShowDisconnectedState | public/script.js:487-499 | the connection id is cleared and the path reset to "/" |
| Client.ClientState.HandleConnect | public/script.js:63-101 | the form is posted with `secure` iff the box reads "on"; on success the answered id is kept and the root is loaded; otherwise nothing changes |
| Client.ClientState.HandleDisconnect | public/script.js:103-120 | while not connected nothing is sent; otherwise any answer from the server resets the id and the path; a network failure changes nothing |
| Client.ClientState.DownloadFile | public/script.js:256-296 | while not connected nothing is sent; otherwise the child path of the file in the current directory is requested |
| Client.ClientState.UploadFiles | public/script.js:298-328 | nothing happens while not connected or for no files; otherwise only the first file is sent, to the current directory, which is reloaded on success |
| Client.ClientState.HandleCreateFolder | public/script.js:330-366 | mkdir of the child path is sent without a connection check, and the directory is reloaded on success |
| Client.ClientState.RenameItem | public/script.js:368-372 | the rename target becomes the chosen entry |
| Client.ClientState.HandleRename | public/script.js:374-415 | with no rename target nothing happens; otherwise old and new child paths under the same directory are sent, and the target is cleared only on success |
| Client.ClientState.DeleteItem | public/script.js:417-450 | nothing happens unless confirmed; otherwise delete of the child path with its type is sent, and the directory is reloaded on success |

## Left out

- The FTP library's calls (`access`, `list`, `downloadTo`, `uploadFrom`, `ensureDir`, `remove`, `removeDir`, `rename`, `close`) are network I/O. Their outcome is a parameter, and only a client's open/closed flag is modelled. The server ending a connection is the separate event `Handle.Drop`. A route's failed outcome does not itself say whether the connection survived.
- Express routing, CORS, JSON parsing, request logging, the 500 handler and static files are HTTP plumbing. Every failure in the source answers with status 400. The model keeps only `success`, which carries the same information.
- Multer's disk staging and the fs-extra work (creating `./downloads`, deleting temporary files) are local file-system I/O. A failure there is not modelled separately from the library call's failure.
- Node's `path.join` and `path.basename` are foreign functions with their own normalisation rules. They are parameters of `Upload` and `Download`.
- `Date.now()` is the `timestamp` parameter of `Connect`. Id uniqueness is not claimed, because the source does not guarantee it.
- Async interleaving between the map check and the later lookup is not modelled, and neither is the SIGINT handler's `process.exit`. Both are concurrency or process control.
- The connection id, the connect fields, the list path and the upload target are modelled as optional strings (connect also has a JSON scalar for `secure`). Numbers, booleans or objects sent in place of string fields are not modelled. Neither is a JSON `null` list path, which the destructuring default does not replace. The browser client sends strings only.
- Registry.ConnectionRegistry.Download, MakeDir, Delete and Rename take their path fields (`filePath`, `dirPath`, `itemPath`, `oldPath`, `newPath`) as plain strings. An absent field, which the browser client never sends, is not modelled. For download, `path.basename(undefined)` then throws a TypeError before any FTP call, and the route answers 400 with Node's message. For the others the FTP library receives `undefined`.
- The browser's handlers are modelled as one atomic step each, with the server's answers as inputs. In the source they are asynchronous and can interleave. A rename target chosen while an earlier rename is in flight is cleared when that rename succeeds. Overlapping directory loads take effect in the order their answers arrive.
- Secure connections are opened with certificate verification off (`rejectUnauthorized: false`, server.js:59). The setting never varies, so `AccessOptions` has no field for it.
- `parseInt` results are unbounded integers. Loss of precision beyond 2^53 is not modelled.
- `Listing.NameLe`: `localeCompare` is locale-dependent, and plain lexicographic order on character codes stands in for it.
- Listing.SortListing: the sort's stability (entries with equal names and kinds keep their order) is not stated.
- DOM rendering, modals, notifications, the loading overlay, the upload progress timer, the download blob handling and `formatFileSize` (floating point) are presentation. Of a table row, only its name, kind and parent flag are kept. Its double-click target is computed from the current directory when it is clicked.
- `handleDrop` and `handleFileSelect` only forward a non-empty file list to `uploadFiles`, which checks for an empty list itself. They are not modelled separately.
- Client.ClientState.LoadDirectory: a successful answer without a listing, which the server never sends, leaves the view unchanged. The source would make the current path `undefined`.
- Client.ClientState.HandleConnect: a successful answer without an id leaves the id unset (`None`). The source would store `undefined`, which is falsy in the same way.
- A failure of `client.close()` inside the disconnect route is not modelled. The library's `close` does not report errors.
