/** The pure request and result shaping the server routes do around the
    registry: checking and deriving the connect parameters, defaulting
    paths, translating listed entries and choosing the delete primitive. */
module Shaping {
  import opened Common
  import opened JsString
  import opened Wire

  /** JavaScript truthiness of an optional string field: absent, null and
      the empty string are falsy. */
  predicate Truthy(v: Option<string>)
  {
    v.Some? && v.value != ""
  }

  /** The connect route's presence check on host, username and password. */
  function CheckCredentials(host: Option<string>, username: Option<string>,
                            password: Option<string>): (r: Result<(string, string, string)>)
    ensures r.Ok? <==> Truthy(host) && Truthy(username) && Truthy(password)
    ensures r.Ok? ==> r.value == (host.value, username.value, password.value)
    ensures r.Err? ==> r.message == MissingCredentials
  {
    if !Truthy(host) || !Truthy(username) || !Truthy(password) then Err(MissingCredentials)
    else Ok((host.value, username.value, password.value))
  }

  /** The connection id: host, username and the millisecond timestamp of the
      request, separated by underscores. */
  function ConnectionIdOf(host: string, username: string, timestamp: nat): string
  {
    host + "_" + username + "_" + DecimalString(timestamp)
  }

  /** For a fixed host and username, the id determines the timestamp. */
  lemma ConnectionIdDeterminesTimestamp(host: string, username: string, t1: nat, t2: nat)
    requires ConnectionIdOf(host, username, t1) == ConnectionIdOf(host, username, t2)
    ensures t1 == t2
  {
    var prefix := host + "_" + username + "_";
    assert ConnectionIdOf(host, username, t1)[|prefix|..] == DecimalString(t1);
    assert ConnectionIdOf(host, username, t2)[|prefix|..] == DecimalString(t2);
    DecimalInjective(t1, t2);
  }

  /** The id is not unique across accounts: underscores inside the host or
      the username let two different pairs produce the same id at the same
      millisecond. */
  lemma ConnectionIdCollides(t: nat)
    ensures ConnectionIdOf("ftp_a", "b", t) == ConnectionIdOf("ftp", "a_b", t)
  {
    assert "ftp_a" + "_" + "b" == "ftp" + "_" + "a_b";
  }

  /** `parseInt(port) || 21`: a port that parses to `NaN` or to zero is
      replaced by 21. An absent port reads as the string "undefined". */
  function PortOf(port: Option<string>): int
  {
    var parsed := ParseInt(if port.Some? then port.value else "undefined");
    if parsed.None? || parsed.value == 0 then 21 else parsed.value
  }

  /** The port is never zero: it is 21 or the non-zero number parsed from
      the request. */
  lemma PortChoice(port: Option<string>)
    ensures PortOf(port) != 0
    ensures PortOf(port) == 21 || (port.Some? && ParseInt(port.value) == Some(PortOf(port)))
    ensures port.Some? && ParseInt(port.value).Some? && ParseInt(port.value).value != 0
            ==> PortOf(port) == ParseInt(port.value).value
  {
  }

  /** A port sent as the decimal digits of a positive number is used as
      that number. */
  lemma PortOfDecimal(n: nat)
    requires n > 0
    ensures PortOf(Some(DecimalString(n))) == n
  {
    ParseDecimal(n);
  }

  /** `secure === 'true' || secure === true`: only these two values ask for
      a secure connection; other truthy values do not. */
  predicate SecureOf(secure: Json)
  {
    secure == JString("true") || secure == JBool(true)
  }

  /** The options the connect route hands to the FTP library. The library
      call itself applies `port || 21` and `secure || false` once more. */
  function AccessOptionsOf(host: string, port: Option<string>, username: string,
                           password: string, secure: Json): (o: AccessOptions)
    ensures o.host == host && o.user == username && o.password == password
    ensures o.port != 0 && o.port == PortOf(port)
    ensures o.secure <==> SecureOf(secure)
  {
    var p := PortOf(port);
    PortChoice(port);
    AccessOptions(host, if p == 0 then 21 else p, username, password, SecureOf(secure))
  }

  /** The list route's path: a destructuring default, so it applies only
      when the field is absent (an empty path is kept). */
  function ListPath(path: Option<string>): string
  {
    if path.Some? then path.value else "/"
  }

  /** The upload route's target directory: `targetPath || '/'`, so an empty
      path is replaced too. */
  function UploadDir(targetPath: Option<string>): string
  {
    if Truthy(targetPath) then targetPath.value else "/"
  }

  /** The list route uses the path it is given whenever the field is
      present, even an empty one; the upload route uses its target whenever
      it is non-empty. Both fall back to the root otherwise. */
  lemma DefaultPaths(p: Option<string>)
    ensures p.Some? ==> ListPath(p) == p.value
    ensures p.None? ==> ListPath(p) == "/"
    ensures p.Some? && p.value != "" ==> UploadDir(p) == p.value
    ensures p.None? || p.value == "" ==> UploadDir(p) == "/"
  {
  }

  /** One listed entry as the server reports it: type code 1 is a file, and
      every other code (directory, symbolic link, unknown) is a directory. */
  function FormatItem(raw: RawItem): (item: ListItem)
    ensures item.kind == File <==> raw.fileType == 1
    ensures item.name == raw.name && item.size == raw.size && item.date == raw.date
    ensures item.permissions == raw.permissions
  {
    ListItem(raw.name, if raw.fileType == 1 then File else Directory,
             raw.size, raw.date, raw.permissions)
  }

  /** The whole listing, entry by entry, in the library's order. */
  function FormatList(raws: seq<RawItem>): (items: seq<ListItem>)
    ensures |items| == |raws|
    ensures forall i :: 0 <= i < |raws| ==> items[i] == FormatItem(raws[i])
  {
    seq(|raws|, i requires 0 <= i < |raws| => FormatItem(raws[i]))
  }

  /** The delete route's choice of primitive: directory removal when the
      request says "directory", file removal for every other type, including
      an absent one. */
  function DeleteCall(itemPath: string, itemType: Option<string>): RemoteCall
  {
    if itemType == Some("directory") then RemoveDir(itemPath) else RemoveFile(itemPath)
  }

  /** The type as a template literal renders it: an absent type reads
      "undefined". */
  function TypeText(itemType: Option<string>): string
  {
    if itemType.Some? then itemType.value else "undefined"
  }

  function DeleteMessage(itemType: Option<string>): string
  {
    TypeText(itemType) + " deleted successfully"
  }

  /** Deleting a listed entry by the type the listing reported removes a
      directory exactly when the library did not call the entry a file. */
  lemma DeleteFollowsListing(raw: RawItem, itemPath: string)
    ensures DeleteCall(itemPath, Some(KindName(FormatItem(raw).kind)))
            == if raw.fileType == 1 then RemoveFile(itemPath) else RemoveDir(itemPath)
  {
  }
}
