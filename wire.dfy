/** The shapes that cross the boundaries of the core: what the FTP library
    reports, what the server asks of it, and what the server answers. */
module Wire {
  import opened Common

  /** A scalar JSON value, as it can arrive in a request body. Numbers are
      integers here. */
  datatype Json = JUndefined | JNull | JBool(b: bool) | JNumber(n: int) | JString(s: string)

  /** Unix permission digits of a listed entry, as the FTP library reports
      them. */
  datatype Permissions = Permissions(user: int, group: int, world: int)

  /** One entry as the FTP library's `list` reports it. `fileType` is the
      library's numeric type code: 0 unknown, 1 file, 2 directory,
      3 symbolic link. */
  datatype RawItem = RawItem(name: string, fileType: int, size: int, date: string,
                             permissions: Option<Permissions>)

  /** The two entry types the server reports, spelled "file" and
      "directory" on the wire. */
  datatype Kind = File | Directory

  function KindName(k: Kind): string
  {
    match k
    case File => "file"
    case Directory => "directory"
  }

  /** One entry of a listing as the server sends it to the browser. */
  datatype ListItem = ListItem(name: string, kind: Kind, size: int, date: string,
                               permissions: Option<Permissions>)

  /** The options handed to the FTP library when opening a connection. A
      secure connection is always made with certificate verification off
      (`rejectUnauthorized: false`); that setting never varies, so it is
      not a field. */
  datatype AccessOptions = AccessOptions(host: string, port: int, user: string,
                                         password: string, secure: bool)

  /** A call into the FTP library. */
  datatype RemoteCall =
    | Access(options: AccessOptions)
    | ListDir(path: string)
    | DownloadTo(localPath: string, remotePath: string)
    | UploadFrom(localPath: string, remotePath: string)
    | EnsureDir(path: string)
    | RemoveDir(path: string)
    | RemoveFile(path: string)
    | Rename(oldPath: string, newPath: string)
    | Close

  /** The file that the upload middleware staged locally for a request. */
  datatype UploadedFile = UploadedFile(originalName: string, tempPath: string)

  /** What a successful response carries beside its message. A listing
      answer carries no message and a download answers with the file itself;
      both have the empty string as `message`. */
  datatype Payload =
    | NoPayload
    | ConnectionId(id: string)
    | Listing(path: string, contents: seq<ListItem>)
    | Attachment(localPath: string, filename: string)
    | UploadedName(filename: string)

  /** The uniform answer of every server route. */
  datatype Outcome = Outcome(success: bool, message: string, payload: Payload)

  function Failure(message: string): Outcome
  {
    Outcome(false, message, NoPayload)
  }

  const NoConnection: string := "No active connection found"
  const MissingCredentials: string := "Host, username, and password are required"
  const NoFile: string := "No file uploaded"
}
