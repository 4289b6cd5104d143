/** The browser client's session state and the handlers that read and
    update it: the connection id it holds, the directory it shows, the entry
    being renamed, and what it has drawn (breadcrumb bar and file table).
    Each handler returns the requests it sends to the server, in order; the
    server's answers are inputs. */
module Client {
  import opened Common
  import opened Wire
  import opened JsString
  import opened Paths
  import opened Breadcrumb
  import opened Listing

  /** The connection form's fields; the secure checkbox reads "on" when
      ticked and is absent otherwise. */
  datatype ConnectForm = ConnectForm(host: string, port: string, username: string,
                                     password: string, secureBox: Option<string>)

  /** A file the user picked or dropped. */
  datatype LocalFile = LocalFile(name: string)

  /** The entry whose rename dialog is open. */
  datatype RenameTarget = RenameTarget(name: string, itemType: string)

  /** A request body the client posts to the server. */
  datatype Request =
    | ConnectRequest(host: string, port: string, username: string, password: string, secure: bool)
    | ListRequest(connectionId: Option<string>, path: string)
    | DisconnectRequest(connectionId: Option<string>)
    | DownloadRequest(connectionId: Option<string>, filePath: string)
    | UploadRequest(file: LocalFile, connectionId: Option<string>, targetPath: string)
    | MkdirRequest(connectionId: Option<string>, dirPath: string)
    | DeleteRequest(connectionId: Option<string>, itemPath: string, itemType: string)
    | RenameRequest(connectionId: Option<string>, oldPath: string, newPath: string)

  /** One row of the file table: the name shown, its kind, and whether it
      is the ".." row. */
  datatype Row = Row(name: string, kind: Kind, isParent: bool)

  const ParentRow := Row("..", Directory, true)

  function EntryRow(item: ListItem): Row
  {
    Row(item.name, item.kind, false)
  }

  /** The table for `items` shown in directory `cur`: a ".." row first
      unless `cur` is the root, then one row per item in the given order. */
  function Rows(cur: string, items: seq<ListItem>): seq<Row>
  {
    (if cur != "/" then [ParentRow] else [])
    + seq(|items|, i requires 0 <= i < |items| => EntryRow(items[i]))
  }

  /** The directory a double click on `row` loads when the current
      directory is `cur` at the time of the click: the parent for the ".."
      row, the entry itself for a directory, nothing for a file. */
  function RowTarget(cur: string, row: Row): Option<string>
  {
    if row.isParent then Some(ParentPath(cur))
    else if row.kind == Directory then Some(ChildPath(cur, row.name))
    else None
  }

  /** The ".." row is there exactly when the directory is not the root, and
      every other row stands for one item, in order. */
  lemma RowsShape(cur: string, items: seq<ListItem>)
    ensures var rows := Rows(cur, items);
      var offset := if cur != "/" then 1 else 0;
      && |rows| == |items| + offset
      && (cur != "/" <==> (|rows| > 0 && rows[0].isParent))
      && (forall i :: 0 <= i < |items| ==> rows[i + offset] == EntryRow(items[i]))
  {
  }

  /** While the table is the one drawn for the current directory `cur`,
      double-clicking a directory row and then the ".." row of the listing
      that opens returns to `cur`. */
  lemma {:induction false} RowsNavigateBack(cur: string, items: seq<ListItem>)
    requires cur != ""
    ensures var rows := Rows(cur, items);
      forall i :: 0 <= i < |rows| && !rows[i].isParent && RowTarget(cur, rows[i]).Some?
                  && '/' !in rows[i].name ==>
        RowTarget(RowTarget(cur, rows[i]).value, ParentRow) == Some(cur)
  {
    var rows := Rows(cur, items);
    forall i | 0 <= i < |rows| && !rows[i].isParent && RowTarget(cur, rows[i]).Some?
                 && '/' !in rows[i].name
      ensures RowTarget(RowTarget(cur, rows[i]).value, ParentRow) == Some(cur)
    {
      ParentOfChild(cur, rows[i].name);
    }
  }

  /** For names without a separator, the old and the new path of a rename
      lie in the same directory, the one the table shows. */
  lemma RenameStaysInDirectory(cur: string, oldName: string, newName: string)
    requires cur != "" && '/' !in oldName && '/' !in newName
    ensures ParentPath(ChildPath(cur, oldName)) == ParentPath(ChildPath(cur, newName)) == cur
  {
    ParentOfChild(cur, oldName);
    ParentOfChild(cur, newName);
  }

  /** The new name of a rename is typed by the user and not checked, so a
      name with a separator moves the entry out of the directory shown. */
  lemma RenameCanLeaveDirectory()
    ensures ParentPath(ChildPath("/a", "../x")) == "/a/.." != "/a"
  {
    var p := ChildPath("/a", "../x");
    assert p == "/a" + "/" + "../x";
    assert Split("/a") == ["", "a"] by {
      assert "/a" == "" + "/" + "a";
      SplitAround("", "a");
      SplitNoSeparator("");
      SplitNoSeparator("a");
    }
    assert Split("../x") == ["..", "x"] by {
      assert "../x" == ".." + "/" + "x";
      SplitAround("..", "x");
      SplitNoSeparator("..");
      SplitNoSeparator("x");
    }
    SplitAround("/a", "../x");
    var parts := Split(p);
    assert parts == ["", "a", "..", "x"];
    var init := ["", "a", ".."];
    assert parts[..|parts| - 1] == init;
    assert init[1..] == ["a", ".."] && ["a", ".."][1..] == [".."];
    assert Join(["a", ".."]) == "a" + "/" + "..";
    assert Join(init) == "" + "/" + "a/..";
  }

  /** Whether an answer from the server reports success. */
  predicate Accepted(reply: Remote<Outcome>)
  {
    reply.Done? && reply.value.success
  }

  /** The listing a reply carries, when it is a successful listing. */
  function ListingOf(reply: Remote<Outcome>): (l: Option<Payload>)
    ensures l.Some? ==> l.value.Listing?
  {
    if Accepted(reply) && reply.value.payload.Listing? then Some(reply.value.payload) else None
  }

  /** The connection id a successful connect answer carries; an answer
      without one leaves the id unset. */
  function IdOf(o: Outcome): Option<string>
  {
    if o.payload.ConnectionId? then Some(o.payload.id) else None
  }

  class ClientState {
    var connectionId: Option<string>
    var currentPath: string
    var renameTarget: Option<RenameTarget>
    var crumbs: seq<Crumb>
    var rows: seq<Row>

    /** The state at page load. */
    constructor ()
      ensures connectionId == None && currentPath == "/" && renameTarget == None
      ensures crumbs == [] && rows == []
    {
      connectionId := None;
      currentPath := "/";
      renameTarget := None;
      crumbs := [];
      rows := [];
    }

    /** The guard `if (!currentConnectionId) return`: an unset or empty id
        means not connected. */
    predicate Connected()
      reads this
    {
      connectionId.Some? && connectionId.value != ""
    }

    /** The directory, breadcrumb bar and table are as they were. */
    ghost predicate SameView(path: string, bar: seq<Crumb>, table: seq<Row>)
      reads this
    {
      currentPath == path && crumbs == bar && rows == table
    }

    /** The client shows `listing`: its path is current, the bar is drawn for
        it, and the table holds its entries in sorted order. */
    ghost predicate Shows(listing: Payload)
      reads this
      requires listing.Listing?
    {
      && currentPath == listing.path
      && crumbs == Crumbs(listing.path)
      && exists s :: Sorted(s) && multiset(s) == multiset(listing.contents)
                     && rows == Rows(listing.path, s)
    }

    /** After a directory load answered by `reply`: the new listing when the
        reply is a successful listing, the view from before otherwise. */
    ghost predicate Refreshed(reply: Remote<Outcome>, path: string, bar: seq<Crumb>,
                              table: seq<Row>)
      reads this
    {
      if ListingOf(reply).Some? then Shows(ListingOf(reply).value) else SameView(path, bar, table)
    }

    /** `renderFileList(files)`: sorts the listing in place and draws the
        table for the current directory. */
    method RenderFileList(files: array<ListItem>)
      modifies this`rows, files
      ensures Sorted(files[..]) && multiset(files[..]) == old(multiset(files[..]))
      ensures rows == Rows(currentPath, files[..])
    {
      SortListing(files);
      rows := Rows(currentPath, files[..]);
    }

    /** `loadDirectory(path)`: when connected, asks for the listing of `path`
        and, on success, makes the answered path current and redraws. */
    method LoadDirectory(path: string, reply: Remote<Outcome>) returns (sent: Option<Request>)
      modifies this
      ensures connectionId == old(connectionId) && renameTarget == old(renameTarget)
      ensures !old(Connected()) ==> sent == None && SameView(old(currentPath), old(crumbs), old(rows))
      ensures old(Connected()) ==>
        sent == Some(ListRequest(connectionId, path))
        && Refreshed(reply, old(currentPath), old(crumbs), old(rows))
    {
      if !Connected() {
        return None;
      }
      sent := Some(ListRequest(connectionId, path));
      var listing := ListingOf(reply);
      if listing.Some? {
        currentPath := listing.value.path;
        crumbs := UpdateBreadcrumb(currentPath);
        var files := new ListItem[|listing.value.contents|](i requires 0 <= i < |listing.value.contents| => listing.value.contents[i]);
        assert files[..] == listing.value.contents;
        RenderFileList(files);
      }
    }

    /** A double click on `row`: reads the current directory at the time
        of the click and loads the parent for the ".." row or the entry for
        a directory row; a file row does nothing. */
    method OpenRow(row: Row, reply: Remote<Outcome>) returns (sent: Option<Request>)
      modifies this
      ensures connectionId == old(connectionId) && renameTarget == old(renameTarget)
      ensures RowTarget(old(currentPath), row).None? || !old(Connected()) ==>
        sent == None && SameView(old(currentPath), old(crumbs), old(rows))
      ensures RowTarget(old(currentPath), row).Some? && old(Connected()) ==>
        sent == Some(ListRequest(connectionId, RowTarget(old(currentPath), row).value))
        && Refreshed(reply, old(currentPath), old(crumbs), old(rows))
    {
      if row.isParent {
        sent := LoadDirectory(ParentPath(currentPath), reply);
      } else if row.kind == Directory {
        sent := LoadDirectory(ChildPath(currentPath, row.name), reply);
      } else {
        sent := None;
      }
    }

    /** `showDisconnectedState()`: forgets the connection and returns to the
        root. */
    method ShowDisconnectedState()
      modifies this`connectionId, this`currentPath
      ensures connectionId == None && currentPath == "/" && !Connected()
    {
      connectionId := None;
      currentPath := "/";
    }

    /** `handleConnect`: posts the form; on success keeps the id the server
        answered and loads the root. */
    method HandleConnect(form: ConnectForm, reply: Remote<Outcome>, listReply: Remote<Outcome>)
      returns (sent: seq<Request>)
      modifies this
      ensures renameTarget == old(renameTarget)
      ensures |sent| >= 1 && sent[0] == ConnectRequest(form.host, form.port, form.username,
                                                         form.password, form.secureBox == Some("on"))
      ensures !Accepted(reply) ==>
        sent == [sent[0]] && connectionId == old(connectionId)
        && SameView(old(currentPath), old(crumbs), old(rows))
      ensures Accepted(reply) ==> connectionId == IdOf(reply.value)
      ensures Accepted(reply) && !Connected() ==>
        sent == [sent[0]] && SameView(old(currentPath), old(crumbs), old(rows))
      ensures Accepted(reply) && Connected() ==>
        sent == [sent[0], ListRequest(connectionId, "/")]
        && Refreshed(listReply, old(currentPath), old(crumbs), old(rows))
    {
      sent := [ConnectRequest(form.host, form.port, form.username, form.password,
                              form.secureBox == Some("on"))];
      if Accepted(reply) {
        connectionId := IdOf(reply.value);
        var listed := LoadDirectory("/", listReply);
        if listed.Some? {
          sent := sent + [listed.value];
        }
      }
    }

    /** `handleDisconnect`: when connected, posts the disconnect and, once
        the server has answered at all, shows the disconnected state. */
    method HandleDisconnect(reply: Remote<Outcome>) returns (sent: Option<Request>)
      modifies this
      ensures renameTarget == old(renameTarget) && crumbs == old(crumbs) && rows == old(rows)
      ensures !old(Connected()) ==>
        sent == None && connectionId == old(connectionId) && currentPath == old(currentPath)
      ensures old(Connected()) ==> sent == Some(DisconnectRequest(old(connectionId)))
      ensures old(Connected()) && reply.Done? ==> connectionId == None && currentPath == "/"
      ensures reply.Failed? ==> connectionId == old(connectionId) && currentPath == old(currentPath)
    {
      if !Connected() {
        return None;
      }
      sent := Some(DisconnectRequest(connectionId));
      if reply.Done? {
        ShowDisconnectedState();
      }
    }

    /** `downloadFile(filename)`: when connected, asks for the file of that
        name in the current directory. Nothing in the state changes. */
    method DownloadFile(filename: string) returns (sent: Option<Request>)
      ensures !Connected() ==> sent == None
      ensures Connected() ==>
        sent == Some(DownloadRequest(connectionId, ChildPath(currentPath, filename)))
    {
      if !Connected() {
        return None;
      }
      sent := Some(DownloadRequest(connectionId, ChildPath(currentPath, filename)));
    }

    /** `uploadFiles(files)`: when connected and given at least one file,
        sends the first file only, to the current directory, and reloads it
        on success. */
    method UploadFiles(files: seq<LocalFile>, reply: Remote<Outcome>, listReply: Remote<Outcome>)
      returns (sent: seq<Request>)
      modifies this
      ensures connectionId == old(connectionId) && renameTarget == old(renameTarget)
      ensures !old(Connected()) || |files| == 0 ==>
        sent == [] && SameView(old(currentPath), old(crumbs), old(rows))
      ensures old(Connected()) && |files| > 0 ==>
        |sent| >= 1 && sent[0] == UploadRequest(files[0], connectionId, old(currentPath))
      ensures old(Connected()) && |files| > 0 && !Accepted(reply) ==>
        sent == [sent[0]] && SameView(old(currentPath), old(crumbs), old(rows))
      ensures old(Connected()) && |files| > 0 && Accepted(reply) ==>
        sent == [sent[0], ListRequest(connectionId, old(currentPath))]
        && Refreshed(listReply, old(currentPath), old(crumbs), old(rows))
    {
      if !Connected() || |files| == 0 {
        return [];
      }
      sent := [UploadRequest(files[0], connectionId, currentPath)];
      if Accepted(reply) {
        var listed := LoadDirectory(currentPath, listReply);
        sent := sent + [listed.value];
      }
    }

    /** `handleCreateFolder`: asks for a folder of that name in the current
        directory (without checking the connection first) and reloads the
        directory on success. */
    method HandleCreateFolder(folderName: string, reply: Remote<Outcome>,
                              listReply: Remote<Outcome>)
      returns (sent: seq<Request>)
      modifies this
      ensures connectionId == old(connectionId) && renameTarget == old(renameTarget)
      ensures |sent| >= 1
      ensures sent[0] == MkdirRequest(connectionId, ChildPath(old(currentPath), folderName))
      ensures !(Accepted(reply) && Connected()) ==>
        sent == [sent[0]] && SameView(old(currentPath), old(crumbs), old(rows))
      ensures Accepted(reply) && Connected() ==>
        sent == [sent[0], ListRequest(connectionId, old(currentPath))]
        && Refreshed(listReply, old(currentPath), old(crumbs), old(rows))
    {
      sent := [MkdirRequest(connectionId, ChildPath(currentPath, folderName))];
      if Accepted(reply) {
        var listed := LoadDirectory(currentPath, listReply);
        if listed.Some? {
          sent := sent + [listed.value];
        }
      }
    }

    /** `renameItem(name, type)`: opens the rename dialog for that entry. */
    method RenameItem(name: string, itemType: string)
      modifies this`renameTarget
      ensures renameTarget == Some(RenameTarget(name, itemType))
    {
      renameTarget := Some(RenameTarget(name, itemType));
    }

    /** `handleRename`: with a rename dialog open, renames the entry to
        `newName` inside the current directory; on success reloads the
        directory and only then closes the dialog. */
    method HandleRename(newName: string, reply: Remote<Outcome>, listReply: Remote<Outcome>)
      returns (sent: seq<Request>)
      modifies this
      ensures connectionId == old(connectionId)
      ensures old(renameTarget).None? ==>
        sent == [] && renameTarget == None && SameView(old(currentPath), old(crumbs), old(rows))
      ensures old(renameTarget).Some? ==>
        |sent| >= 1
        && sent[0] == RenameRequest(connectionId,
                                    ChildPath(old(currentPath), old(renameTarget).value.name),
                                    ChildPath(old(currentPath), newName))
      ensures old(renameTarget).Some? && !Accepted(reply) ==>
        sent == [sent[0]] && renameTarget == old(renameTarget)
        && SameView(old(currentPath), old(crumbs), old(rows))
      ensures old(renameTarget).Some? && Accepted(reply) ==> renameTarget == None
      ensures old(renameTarget).Some? && Accepted(reply) && !Connected() ==>
        sent == [sent[0]] && SameView(old(currentPath), old(crumbs), old(rows))
      ensures old(renameTarget).Some? && Accepted(reply) && Connected() ==>
        sent == [sent[0], ListRequest(connectionId, old(currentPath))]
        && Refreshed(listReply, old(currentPath), old(crumbs), old(rows))
    {
      if renameTarget.None? {
        return [];
      }
      var oldPath := ChildPath(currentPath, renameTarget.value.name);
      var newPath := ChildPath(currentPath, newName);
      sent := [RenameRequest(connectionId, oldPath, newPath)];
      if Accepted(reply) {
        var listed := LoadDirectory(currentPath, listReply);
        if listed.Some? {
          sent := sent + [listed.value];
        }
        renameTarget := None;
      }
    }

    /** `deleteItem(name, type)`: once the user confirms, deletes the entry
        of that name in the current directory (without checking the
        connection first) and reloads the directory on success. */
    method DeleteItem(name: string, itemType: string, confirmed: bool,
                      reply: Remote<Outcome>, listReply: Remote<Outcome>)
      returns (sent: seq<Request>)
      modifies this
      ensures connectionId == old(connectionId) && renameTarget == old(renameTarget)
      ensures !confirmed ==> sent == [] && SameView(old(currentPath), old(crumbs), old(rows))
      ensures confirmed ==>
        |sent| >= 1
        && sent[0] == DeleteRequest(connectionId, ChildPath(old(currentPath), name), itemType)
      ensures confirmed && !(Accepted(reply) && Connected()) ==>
        sent == [sent[0]] && SameView(old(currentPath), old(crumbs), old(rows))
      ensures confirmed && Accepted(reply) && Connected() ==>
        sent == [sent[0], ListRequest(connectionId, old(currentPath))]
        && Refreshed(listReply, old(currentPath), old(crumbs), old(rows))
    {
      if !confirmed {
        return [];
      }
      sent := [DeleteRequest(connectionId, ChildPath(currentPath, name), itemType)];
      if Accepted(reply) {
        var listed := LoadDirectory(currentPath, listReply);
        if listed.Some? {
          sent := sent + [listed.value];
        }
      }
    }
  }

  /** Double-clicking a directory row and then, once its listing is shown,
      the ".." row asks for the directory the user started from. */
  method NavigateAndBack(client: ClientState, name: string, reply: Remote<Outcome>,
                         backReply: Remote<Outcome>)
    returns (into: Option<Request>, back: Option<Request>)
    requires client.Connected() && client.currentPath != ""
    requires name != "" && '/' !in name
    requires ListingOf(reply).Some?
    requires ListingOf(reply).value.path == ChildPath(client.currentPath, name)
    modifies client
    ensures into == Some(ListRequest(client.connectionId, ChildPath(old(client.currentPath), name)))
    ensures back == Some(ListRequest(client.connectionId, old(client.currentPath)))
  {
    var start := client.currentPath;
    into := client.OpenRow(Row(name, Directory, false), reply);
    ParentOfChild(start, name);
    back := client.OpenRow(ParentRow, backReply);
  }
}
