/** The server's connection registry: one module-level map from connection id
    to FTP client, the helper that looks a client up or opens and registers a
    new one, and the route handlers that resolve a request's id against the
    map before calling into the client. */
module Registry {
  import opened Common
  import opened Wire
  import opened Shaping

  /** An FTP client object. Only whether its control connection is open is
      modelled; what it does on the wire is the FTP library's business. The
      connection closes when the server closes it as well as on `close()`. */
  class Handle {
    var open: bool

    /** `new Client()`: not connected yet. */
    constructor ()
      ensures !open
    {
      open := false;
    }

    /** `client.access(...)` on a new client: the connection is open
        exactly when the remote side accepted it. */
    method Access(accepted: bool)
      requires !open
      modifies this
      ensures open == accepted
    {
      open := accepted;
    }

    /** `client.close()`. */
    method Close()
      modifies this
      ensures !open
    {
      open := false;
    }

    /** The server ends the control connection: an idle timeout, a 421
        reply or a socket error while a command runs. */
    method Drop()
      modifies this
      ensures !open
    {
      open := false;
    }
  }

  /** A call the server issues, and the client it issues it on. */
  datatype Issued = Issued(client: Handle, call: RemoteCall)

  class ConnectionRegistry {
    var conns: map<string, Handle>

    /** No client is registered under two ids. */
    predicate Distinct()
      reads this
    {
      forall i, j :: i in conns && j in conns && i != j ==> conns[i] != conns[j]
    }

    /** What the registry keeps. A registered client need not be open: a
        connection the server drops stays registered until the disconnect
        route removes it. */
    ghost predicate Valid()
      reads this
    {
      Distinct()
    }

    /** Whether a request's connection id names a registered client. An
        absent id never does. */
    predicate Live(id: Option<string>)
      reads this
    {
      id.Some? && id.value in conns
    }

    constructor ()
      ensures Valid() && conns == map[]
    {
      conns := map[];
    }

    /** Returns the client registered under `id`, without any remote call,
        when there is one; otherwise opens a new client with `options` and
        registers it only if the remote side accepts. `access` is what the
        remote side answers. */
    method GetFtpConnection(id: string, options: AccessOptions, access: Remote<()>)
      returns (r: Result<Handle>, issued: Option<Issued>)
      requires Valid()
      modifies this
      ensures Valid()
      ensures id in old(conns) ==>
        r == Ok(old(conns)[id]) && issued == None && conns == old(conns)
      ensures id !in old(conns) ==>
        issued.Some? && fresh(issued.value.client) &&
        issued.value.call == Access(AccessOptions(options.host,
                                                  if options.port == 0 then 21 else options.port,
                                                  options.user, options.password, options.secure))
      ensures id !in old(conns) ==> issued.value.client.open == access.Done?
      ensures id !in old(conns) && access.Done? ==>
        r == Ok(issued.value.client) && conns == old(conns)[id := issued.value.client]
      ensures id !in old(conns) && access.Failed? ==>
        r == Err("FTP connection failed: " + access.cause) && conns == old(conns)
    {
      if id in conns {
        return Ok(conns[id]), None;
      }
      var client := new Handle();
      var call := Access(AccessOptions(options.host, if options.port == 0 then 21 else options.port,
                                       options.user, options.password, options.secure));
      issued := Some(Issued(client, call));
      client.Access(access.Done?);
      if access.Done? {
        conns := conns[id := client];
        r := Ok(client);
      } else {
        r := Err("FTP connection failed: " + access.cause);
      }
    }

    /** The connect route. Missing credentials fail before any remote call;
        otherwise the id is derived from host, username and `timestamp`
        (the request time in milliseconds) and the client is looked up or
        opened. */
    method Connect(host: Option<string>, port: Option<string>, username: Option<string>,
                   password: Option<string>, secure: Json, timestamp: nat, access: Remote<()>)
      returns (out: Outcome, issued: Option<Issued>)
      requires Valid()
      modifies this
      ensures Valid()
      ensures !(Truthy(host) && Truthy(username) && Truthy(password)) ==>
        out == Failure(MissingCredentials) && issued == None && conns == old(conns)
      ensures Truthy(host) && Truthy(username) && Truthy(password) ==>
        var id := ConnectionIdOf(host.value, username.value, timestamp);
        && (id in old(conns) ==>
              out == Outcome(true, "Connected successfully", ConnectionId(id))
              && issued == None && conns == old(conns))
        && (id !in old(conns) ==>
              issued.Some? && fresh(issued.value.client)
              && issued.value.call == Access(AccessOptionsOf(host.value, port, username.value,
                                                              password.value, secure))
              && issued.value.client.open == access.Done?)
        && (id !in old(conns) && access.Done? ==>
              out == Outcome(true, "Connected successfully", ConnectionId(id))
              && conns == old(conns)[id := issued.value.client])
        && (id !in old(conns) && access.Failed? ==>
              out == Failure("FTP connection failed: " + access.cause) && conns == old(conns))
    {
      var checked := CheckCredentials(host, username, password);
      if checked.Err? {
        return Failure(checked.message), None;
      }
      var (h, u, p) := checked.value;
      var id := ConnectionIdOf(h, u, timestamp);
      var client;
      client, issued := GetFtpConnection(id, AccessOptionsOf(h, port, u, p, secure), access);
      if client.Ok? {
        out := Outcome(true, "Connected successfully", ConnectionId(id));
      } else {
        out := Failure(client.message);
      }
    }

    /** The list route: the listing of `path` (or of "/" when the field is
        absent) with every entry translated, echoing the path. */
    method List(id: Option<string>, path: Option<string>, listed: Remote<seq<RawItem>>)
      returns (out: Outcome, issued: Option<Issued>)
      ensures !Live(id) ==> out == Failure(NoConnection) && issued == None
      ensures Live(id) ==> issued == Some(Issued(conns[id.value], ListDir(ListPath(path))))
      ensures Live(id) && listed.Done? ==>
        out == Outcome(true, "", Listing(ListPath(path), FormatList(listed.value)))
      ensures Live(id) && listed.Failed? ==> out == Failure(listed.cause)
    {
      if !Live(id) {
        return Failure(NoConnection), None;
      }
      var dirPath := ListPath(path);
      issued := Some(Issued(conns[id.value], ListDir(dirPath)));
      match listed
      case Done(items) => out := Outcome(true, "", Listing(dirPath, FormatList(items)));
      case Failed(cause) => out := Failure(cause);
    }

    /** The download route: fetches `filePath` into the local downloads
        folder under its base name and answers with that file. `basename`
        is the host platform's path function. */
    method Download(id: Option<string>, filePath: string, basename: string -> string,
                    fetched: Remote<()>)
      returns (out: Outcome, issued: Option<Issued>)
      ensures !Live(id) ==> out == Failure(NoConnection) && issued == None
      ensures Live(id) ==>
        issued == Some(Issued(conns[id.value],
                              DownloadTo("./downloads/" + basename(filePath), filePath)))
      ensures Live(id) && fetched.Done? ==>
        out == Outcome(true, "", Attachment("./downloads/" + basename(filePath), basename(filePath)))
      ensures Live(id) && fetched.Failed? ==> out == Failure(fetched.cause)
    {
      if !Live(id) {
        return Failure(NoConnection), None;
      }
      var filename := basename(filePath);
      var localPath := "./downloads/" + filename;
      issued := Some(Issued(conns[id.value], DownloadTo(localPath, filePath)));
      if fetched.Done? {
        out := Outcome(true, "", Attachment(localPath, filename));
      } else {
        out := Failure(fetched.cause);
      }
    }

    /** The upload route: the session is checked before the file, and the
        staged file goes to its original name under the target directory.
        `join` is the host platform's path function. */
    method Upload(id: Option<string>, targetPath: Option<string>, file: Option<UploadedFile>,
                  join: (string, string) -> string, stored: Remote<()>)
      returns (out: Outcome, issued: Option<Issued>)
      ensures !Live(id) ==> out == Failure(NoConnection) && issued == None
      ensures Live(id) && file.None? ==> out == Failure(NoFile) && issued == None
      ensures Live(id) && file.Some? ==>
        issued == Some(Issued(conns[id.value],
                              UploadFrom(file.value.tempPath,
                                         join(UploadDir(targetPath), file.value.originalName))))
      ensures Live(id) && file.Some? && stored.Done? ==>
        out == Outcome(true, "File uploaded successfully", UploadedName(file.value.originalName))
      ensures Live(id) && file.Some? && stored.Failed? ==> out == Failure(stored.cause)
    {
      if !Live(id) {
        return Failure(NoConnection), None;
      }
      if file.None? {
        return Failure(NoFile), None;
      }
      var remotePath := join(UploadDir(targetPath), file.value.originalName);
      issued := Some(Issued(conns[id.value], UploadFrom(file.value.tempPath, remotePath)));
      if stored.Done? {
        out := Outcome(true, "File uploaded successfully", UploadedName(file.value.originalName));
      } else {
        out := Failure(stored.cause);
      }
    }

    /** The mkdir route: ensures the directory exists. */
    method MakeDir(id: Option<string>, dirPath: string, made: Remote<()>)
      returns (out: Outcome, issued: Option<Issued>)
      ensures !Live(id) ==> out == Failure(NoConnection) && issued == None
      ensures Live(id) ==> issued == Some(Issued(conns[id.value], EnsureDir(dirPath)))
      ensures Live(id) && made.Done? ==>
        out == Outcome(true, "Directory created successfully", NoPayload)
      ensures Live(id) && made.Failed? ==> out == Failure(made.cause)
    {
      if !Live(id) {
        return Failure(NoConnection), None;
      }
      issued := Some(Issued(conns[id.value], EnsureDir(dirPath)));
      if made.Done? {
        out := Outcome(true, "Directory created successfully", NoPayload);
      } else {
        out := Failure(made.cause);
      }
    }

    /** The delete route: removes a directory when the request's type is
        "directory" and a file otherwise. */
    method Delete(id: Option<string>, itemPath: string, itemType: Option<string>,
                  removed: Remote<()>)
      returns (out: Outcome, issued: Option<Issued>)
      ensures !Live(id) ==> out == Failure(NoConnection) && issued == None
      ensures Live(id) && itemType == Some("directory") ==>
        issued == Some(Issued(conns[id.value], RemoveDir(itemPath)))
      ensures Live(id) && itemType != Some("directory") ==>
        issued == Some(Issued(conns[id.value], RemoveFile(itemPath)))
      ensures Live(id) && removed.Done? ==>
        out == Outcome(true, TypeText(itemType) + " deleted successfully", NoPayload)
      ensures Live(id) && removed.Failed? ==> out == Failure(removed.cause)
    {
      if !Live(id) {
        return Failure(NoConnection), None;
      }
      issued := Some(Issued(conns[id.value], DeleteCall(itemPath, itemType)));
      if removed.Done? {
        out := Outcome(true, DeleteMessage(itemType), NoPayload);
      } else {
        out := Failure(removed.cause);
      }
    }

    /** The rename route: one remote rename from `oldPath` to `newPath`. */
    method Rename(id: Option<string>, oldPath: string, newPath: string, renamed: Remote<()>)
      returns (out: Outcome, issued: Option<Issued>)
      ensures !Live(id) ==> out == Failure(NoConnection) && issued == None
      ensures Live(id) ==> issued == Some(Issued(conns[id.value], Wire.Rename(oldPath, newPath)))
      ensures Live(id) && renamed.Done? ==>
        out == Outcome(true, "Item renamed successfully", NoPayload)
      ensures Live(id) && renamed.Failed? ==> out == Failure(renamed.cause)
    {
      if !Live(id) {
        return Failure(NoConnection), None;
      }
      issued := Some(Issued(conns[id.value], Wire.Rename(oldPath, newPath)));
      if renamed.Done? {
        out := Outcome(true, "Item renamed successfully", NoPayload);
      } else {
        out := Failure(renamed.cause);
      }
    }

    /** The disconnect route: closes and unregisters the client when the id
        is registered, does nothing otherwise, and always succeeds. */
    method Disconnect(id: Option<string>) returns (out: Outcome, issued: Option<Issued>)
      requires Valid()
      modifies this, if Live(id) then {conns[id.value]} else {}
      ensures Valid()
      ensures out == Outcome(true, "Disconnected successfully", NoPayload)
      ensures !Live(id)
      ensures old(Live(id)) ==>
        conns == old(conns) - {id.value} && !old(conns[id.value]).open
        && issued == Some(Issued(old(conns[id.value]), Close))
      ensures !old(Live(id)) ==> conns == old(conns) && issued == None
    {
      issued := None;
      if Live(id) {
        var client := conns[id.value];
        client.Close();
        issued := Some(Issued(client, Close));
        conns := conns - {id.value};
      }
      out := Outcome(true, "Disconnected successfully", NoPayload);
    }

    /** Process shutdown: closes every registered client. The map itself is
        left as it is, since the process exits right after. */
    method CloseAll()
      modifies conns.Values
      ensures forall id :: id in conns ==> !conns[id].open
    {
      var pending := conns.Keys;
      while pending != {}
        invariant pending <= conns.Keys
        invariant forall id :: id in conns && id !in pending ==> !conns[id].open
        decreases pending
      {
        var id :| id in pending;
        conns[id].Close();
        pending := pending - {id};
      }
    }
  }

  /** Disconnecting twice answers the same both times, and afterwards every
      route that needs the session reports that there is none. */
  method DisconnectTwice(registry: ConnectionRegistry, id: string)
    returns (first: Outcome, second: Outcome, listed: Outcome)
    requires registry.Valid()
    modifies registry, registry.conns.Values
    ensures first == second == Outcome(true, "Disconnected successfully", NoPayload)
    ensures listed == Failure(NoConnection)
    ensures registry.conns == old(registry.conns) - {id}
  {
    var issued;
    first, issued := registry.Disconnect(Some(id));
    second, issued := registry.Disconnect(Some(id));
    listed, issued := registry.List(Some(id), None, Done([]));
  }

  /** A connection the server drops during a listing stays registered: the
      failed listing leaves the map as it was, and the next request on the
      same id is still issued on the closed client. */
  method DroppedStaysRegistered(registry: ConnectionRegistry, id: string, cause: string,
                                next: Remote<seq<RawItem>>)
    returns (first: Outcome, second: Outcome, issued: Option<Issued>)
    requires id in registry.conns
    modifies registry.conns[id]
    ensures first == Failure(cause)
    ensures registry.conns == old(registry.conns) && !registry.conns[id].open
    ensures issued == Some(Issued(registry.conns[id], ListDir("/")))
    ensures next.Failed? ==> second == Failure(next.cause)
  {
    first, issued := registry.List(Some(id), None, Failed(cause));
    registry.conns[id].Drop();
    second, issued := registry.List(Some(id), None, next);
  }
}
