/**
  The storage client (QAzureStorageRestApi): its credentials, the URL and Shared Key
  helpers, the request each asynchronous call hands to the network, and the synchronous
  calls that wait for the answer or for a timer.

  The network, the clock and the file system are outside the model: the current date is
  a parameter, the request a call would send is returned as a value, a file arrives as
  its read result, and the synchronous calls take the event their event loop sees first.
*/
module StorageClient {
  import opened Platform
  import QtText
  import SharedKey
  import BlobUrl
  import ObjectList

  /** The QNetworkReply::NetworkError values the client names; every other code is OtherError. */
  datatype NetworkError = NoError | ContentAccessDenied | TimeoutError | UnknownNetworkError | OtherError(code: nat)

  /**
    isErrorCodeSuccess: NoError or ContentAccessDenied. The comment at line 385 of the source
    takes the latter for the answer to a successful upload; Qt reports it for an HTTP 403.
  */
  function IsErrorCodeSuccess(e: NetworkError): (r: bool)
    ensures r ==> e != TimeoutError && e != UnknownNetworkError
    ensures r <==> !(e.TimeoutError? || e.UnknownNetworkError? || e.OtherError?)
  {
    e == NoError || e == ContentAccessDenied
  }

  /** The QNetworkAccessManager operation a request goes out with. */
  datatype Verb = Get | Put | Delete

  /** The method name the verb is signed under. */
  function VerbName(v: Verb): (r: string)
    ensures SharedKey.OneLine(r) && r != ""
  {
    match v
    case Get => "GET"
    case Put => "PUT"
    case Delete => "DELETE"
  }

  /** A raw header set on a QNetworkRequest. */
  datatype Header = Header(name: string, value: seq<byte>)

  /**
    A request handed to the network. The URL is None where the client passes generateUrl
    arguments that do not match its parameters, so that no URL can be derived from the code.
  */
  datatype Request = Request(verb: Verb, url: Option<string>, headers: seq<Header>, body: seq<byte>)

  /** What opening and reading a local file gives. */
  datatype FileRead = Readable(content: seq<byte>) | Unreadable

  /** What the event loop of a synchronous call sees first: the reply finishing, or the timer. */
  datatype Event = Finished(error: NetworkError, data: seq<byte>) | TimerFired

  type Record = map<string, string>

  /** A QString handed over as `toStdString().c_str()`: its UTF-8 bytes up to the first NUL. */
  function CString(lib: Library, s: string): seq<byte> {
    QtText.UpToNul(lib.utf8(s))
  }

  /** The bytes of the literal "0". */
  const ZeroLength: seq<byte> := [48]

  /** Some header of the list has the given name. */
  predicate HasHeader(hs: seq<Header>, name: string) {
    exists i :: 0 <= i < |hs| && hs[i].name == name
  }

  lemma HasHeaderAppend(a: seq<Header>, b: seq<Header>, name: string)
    ensures HasHeader(a + b, name) <==> HasHeader(a, name) || HasHeader(b, name)
  {
    if HasHeader(a + b, name) {
      var i :| 0 <= i < |a + b| && (a + b)[i].name == name;
      if i >= |a| {
        assert b[i - |a|].name == name;
      }
    }
    if HasHeader(a, name) {
      var i :| 0 <= i < |a| && a[i].name == name;
      assert (a + b)[i] == a[i];
    }
    if HasHeader(b, name) {
      var i :| 0 <= i < |b| && b[i].name == name;
      assert (a + b)[|a| + i] == b[i];
    }
  }

  lemma Associate(a: string, b: string, c: string)
    ensures a + b + c == a + (b + c)
  {
  }

  lemma AppendEmpty(a: string)
    ensures a + "" == a
  {
  }

  /** The result of a synchronous call: no request means UnknownNetworkError, the timer means TimeoutError. */
  function SyncResult(request: Option<Request>, ev: Event): NetworkError {
    if request.None? then UnknownNetworkError
    else if ev.Finished? then ev.error
    else TimeoutError
  }

  /** A synchronous call only succeeds when a request went out and its reply finished with a success code. */
  lemma SuccessMeansAnswered(request: Option<Request>, ev: Event)
    ensures IsErrorCodeSuccess(SyncResult(request, ev)) <==> request.Some? && ev.Finished? && IsErrorCodeSuccess(ev.error)
  {
  }

  /** The extra canonical resources of "List Containers". */
  function ListContainersResources(marker: string): seq<string> {
    ["comp:list"] + (if marker != "" then ["marker:" + marker] else [])
  }

  /** The extra canonical resources of "List Blobs". */
  function ListFilesResources(marker: string): seq<string> {
    ["comp:list"] + (if marker != "" then ["marker:" + marker] else []) + ["restype:container"]
  }

  /** The extra canonical resources of the container calls. */
  const ContainerResources: seq<string> := ["restype:container"]

  /** The listing resources are in the ascending order the service canonicalizes them in. */
  lemma ListResourcesAscending(marker: string)
    ensures SharedKey.Ascending(ListContainersResources(marker))
    ensures SharedKey.Ascending(ListFilesResources(marker))
  {
    SharedKey.ListFilesResourcesAscending(marker);
    if marker != "" {
      assert ListFilesResources(marker) == ["comp:list", "marker:" + marker, "restype:container"];
      var c, m := "comp:list", "marker:" + marker;
      assert SharedKey.LexLess(c, m) by { assert c[0] < m[0]; }
      assert ListContainersResources(marker) == [c, m];
    } else {
      assert ListFilesResources(marker) == ["comp:list", "restype:container"];
    }
  }

  /** A request whose other headers carry no Authorization is signed exactly when its signed part is. */
  lemma SignedFirst(signed: seq<Header>, rest: seq<Header>)
    requires !HasHeader(rest, "Authorization")
    ensures HasHeader(signed + rest, "Authorization") <==> HasHeader(signed, "Authorization")
  {
    HasHeaderAppend(signed, rest, "Authorization");
  }

  /** The reply of a request that went out; deleteLater() is counted, not performed. */
  class Reply {
    const event: Event
    var deletions: nat

    constructor(event: Event)
      ensures this.event == event && deletions == 0
    {
      this.event := event;
      deletions := 0;
    }

    method DeleteLater()
      modifies this
      ensures deletions == old(deletions) + 1
    {
      deletions := deletions + 1;
    }
  }

  /**
    The part every synchronous call shares: no reply when the request is missing; otherwise
    TimeoutError, unless the reply finishes first, in which case its error code and body are
    taken and the reply released; a reply still held after the loop is released then.
  */
  method Await(request: Option<Request>, ev: Event) returns (result: NetworkError, body: Option<seq<byte>>, deletions: nat)
    ensures result == SyncResult(request, ev)
    ensures body == (if request.Some? && ev.Finished? then Some(ev.data) else None)
    ensures deletions == (if request.Some? then 1 else 0)
  {
    if request.None? {
      return UnknownNetworkError, None, 0;
    }
    var reply := new Reply(ev);
    var current: Reply? := reply;
    result := TimeoutError;
    body := None;
    if reply.event.Finished? {
      result := current.event.error;
      body := Some(current.event.data);
      current.DeleteLater();
      current := null;
    }
    if current != null {
      current.DeleteLater();
    }
    deletions := reply.deletions;
  }

  class Client {
    const lib: Library
    const version: string := "2021-04-10"
    var accountName: string
    var accountKey: string
    var sasKey: string

    /** The account name is set and the credential is held as a key or as a SAS, never both. */
    predicate Credentials(name: string, credential: string, isAccountKey: bool)
      reads this
    {
      && accountName == name
      && accountKey == (if isAccountKey then credential else "")
      && sasKey == (if isAccountKey then "" else credential)
    }

    lemma CredentialsExclusive(name: string, credential: string, isAccountKey: bool)
      requires Credentials(name, credential, isAccountKey)
      ensures accountKey == "" || sasKey == ""
      ensures accountKey != "" || sasKey != "" <==> credential != ""
    {
    }

    constructor(lib: Library, accountName: string, credential: string, isAccountKey: bool)
      ensures this.lib == lib
      ensures Credentials(accountName, credential, isAccountKey)
    {
      this.lib := lib;
      new;
      UpdateCredentials(accountName, credential, isAccountKey);
    }

    method UpdateCredentials(accountName: string, credential: string, isAccountKey: bool)
      modifies this
      ensures Credentials(accountName, credential, isAccountKey)
    {
      this.accountName := accountName;
      accountKey := if isAccountKey then credential else "";
      sasKey := if isAccountKey then "" else credential;
    }

    // ---------------------------------------------------------------- helpers

    /** generateUrl. The parameter list it collects stays empty and adds nothing to the URL. */
    method GenerateUrl(container: string, blob: string, additional: string, marker: string, timeout: int, sas: string)
      returns (url: string)
      ensures url == BlobUrl.Url(lib, accountName, container, blob, additional, marker, timeout, sas)
    {
      var endpoint := "https://" + accountName + ".blob.core.windows.net/";
      url := endpoint + container;
      if blob != "" {
        url := url + ("/" + QtText.EncodePath(lib, blob));
      }
      var allParams := "";
      ghost var path := url;
      assert path == BlobUrl.UrlPath(lib, accountName, container, blob);
      if additional != "" || marker != "" || timeout > 0 || sas != "" {
        ghost var p1 := if additional != "" then additional else "";
        ghost var p2 := BlobUrl.MarkerPiece(marker);
        ghost var p3 := BlobUrl.TimeoutPiece(timeout);
        ghost var p4 := BlobUrl.SasPart(lib, sas);
        if additional != "" {
          if allParams != "" {
            allParams := allParams + "&";
          }
          url := url + additional;
        }
        AppendEmpty(path);
        ghost var pieces := p1;
        assert url == path + pieces;
        if marker != "" {
          if allParams != "" {
            allParams := allParams + "&";
          }
          url := url + (BlobUrl.MarkerKey + marker);
        }
        Associate(path, pieces, p2);
        pieces := pieces + p2;
        assert url == path + pieces;
        if timeout > 0 {
          if allParams != "" {
            allParams := allParams + "&";
          }
          url := url + (BlobUrl.TimeoutKey + QtText.Number(timeout));
        }
        Associate(path, pieces, p3);
        pieces := pieces + p3;
        assert url == path + pieces;
        if sas != "" {
          if allParams != "" {
            allParams := allParams + "&";
          }
          url := url + BlobUrl.SasPiece(lib, sas);
        }
        Associate(path, pieces, p4);
        pieces := pieces + p4;
        assert url == path + pieces;
        assert pieces == BlobUrl.QueryPieces(lib, additional, marker, timeout, sas);
        assert allParams == "";
        Associate(path, pieces, "?");
        url := url + "?";
        AppendEmpty(url);
        url := url + allParams;
      }
    }

    /** generateHeader: the fourteen fields of the string to sign, each but the last followed by a newline. */
    static method GenerateHeader(
      verb: string, contentEncoding: string, contentLanguage: string, contentLength: string,
      contentMd5: string, contentType: string, date: string, ifModifiedSince: string,
      ifMatch: string, ifNoneMatch: string, ifUnmodifiedSince: string, range: string,
      canonicalizedHeaders: string, canonicalizedResource: string)
      returns (result: string)
      ensures var fields := [verb, contentEncoding, contentLanguage, contentLength, contentMd5, contentType, date,
                             ifModifiedSince, ifMatch, ifNoneMatch, ifUnmodifiedSince, range,
                             canonicalizedHeaders, canonicalizedResource];
        && result == SharedKey.JoinLines(fields)
        && (SharedKey.AllOneLine(fields) ==> SharedKey.SplitLines(result) == fields)
    {
      result := "";
      ghost var done: seq<string> := [];
      SharedKey.TerminatedSnoc(done, verb);
      done := done + [verb];
      result := result + verb + "\n";
      SharedKey.TerminatedSnoc(done, contentEncoding);
      done := done + [contentEncoding];
      result := result + contentEncoding + "\n";
      SharedKey.TerminatedSnoc(done, contentLanguage);
      done := done + [contentLanguage];
      result := result + contentLanguage + "\n";
      SharedKey.TerminatedSnoc(done, contentLength);
      done := done + [contentLength];
      result := result + contentLength + "\n";
      SharedKey.TerminatedSnoc(done, contentMd5);
      done := done + [contentMd5];
      result := result + contentMd5 + "\n";
      SharedKey.TerminatedSnoc(done, contentType);
      done := done + [contentType];
      result := result + contentType + "\n";
      SharedKey.TerminatedSnoc(done, date);
      done := done + [date];
      result := result + date + "\n";
      SharedKey.TerminatedSnoc(done, ifModifiedSince);
      done := done + [ifModifiedSince];
      result := result + ifModifiedSince + "\n";
      SharedKey.TerminatedSnoc(done, ifMatch);
      done := done + [ifMatch];
      result := result + ifMatch + "\n";
      SharedKey.TerminatedSnoc(done, ifNoneMatch);
      done := done + [ifNoneMatch];
      result := result + ifNoneMatch + "\n";
      SharedKey.TerminatedSnoc(done, ifUnmodifiedSince);
      done := done + [ifUnmodifiedSince];
      result := result + ifUnmodifiedSince + "\n";
      SharedKey.TerminatedSnoc(done, range);
      done := done + [range];
      result := result + range + "\n";
      SharedKey.TerminatedSnoc(done, canonicalizedHeaders);
      done := done + [canonicalizedHeaders];
      result := result + canonicalizedHeaders + "\n";
      ghost var fields := [verb, contentEncoding, contentLanguage, contentLength, contentMd5, contentType, date,
                           ifModifiedSince, ifMatch, ifNoneMatch, ifUnmodifiedSince, range,
                           canonicalizedHeaders, canonicalizedResource];
      assert fields == done + [canonicalizedResource];
      SharedKey.JoinSnoc(done, canonicalizedResource);
      result := result + canonicalizedResource;
      if SharedKey.AllOneLine(fields) {
        SharedKey.SplitJoin(fields);
      }
    }

    /** The string the client signs: the verb, the length, its canonicalized headers and resource. */
    function StringToSignFor(verb: string, container: string, blob: string, date: string, contentLength: int,
                             extraHeaders: seq<string>, extraResources: seq<string>): string
      reads this
    {
      SharedKey.StringToSign(verb, contentLength,
        SharedKey.CanonicalHeaders(extraHeaders, date, version),
        SharedKey.CanonicalResource(lib, accountName, container, blob, extraResources))
    }

    /**
      The string the client signs reads back as the twelve fixed lines, the extra header lines,
      the date and version lines, the resource path and the extra resource lines, in that order.
    */
    lemma SignedLines(verb: string, container: string, blob: string, date: string, contentLength: int,
                      extraHeaders: seq<string>, extraResources: seq<string>)
      requires SharedKey.OneLine(verb) && SharedKey.OneLine(date)
      requires SharedKey.OneLine(accountName) && SharedKey.OneLine(container)
      requires SharedKey.AllOneLine(extraHeaders) && SharedKey.AllOneLine(extraResources)
      ensures SharedKey.SplitLines(StringToSignFor(verb, container, blob, date, contentLength, extraHeaders, extraResources))
           == SharedKey.FixedLines(verb, contentLength) + extraHeaders + ["x-ms-date:" + date, "x-ms-version:" + version]
              + [SharedKey.ResourcePath(lib, accountName, container, blob)] + extraResources
    {
      assert SharedKey.OneLine(version) by {
        assert forall i :: 0 <= i < |version| ==> version[i] != '\n';
      }
      var headers := SharedKey.CanonicalHeaders(extraHeaders, date, version);
      var resource := SharedKey.CanonicalResource(lib, accountName, container, blob, extraResources);
      SharedKey.StringToSignLines(verb, contentLength, headers, resource);
      SharedKey.CanonicalHeaderLines(extraHeaders, date, version);
      SharedKey.CanonicalResourceLines(lib, accountName, container, blob, extraResources);
    }

    /**
      An upload signs the length of its content on the fourth line: empty for no content,
      otherwise the decimal length, which reads back as the size the Content-Length header states.
    */
    lemma UploadSignsItsLength(content: seq<byte>, container: string, blob: string, blobType: string, date: string)
      requires SharedKey.OneLine(date) && SharedKey.OneLine(accountName) && SharedKey.OneLine(container)
      requires SharedKey.OneLine(blobType)
      ensures var lines := SharedKey.SplitLines(StringToSignFor("PUT", container, blob, date, |content|, ["x-ms-blob-type:" + blobType], []));
        && |lines| == 16
        && lines[0] == "PUT"
        && (content == [] <==> lines[3] == "")
        && (content != [] ==> lines[3] == QtText.Number(|content|) && QtText.ReadNumber(lines[3]) == Some(|content|))
        && lines[12..15] == ["x-ms-blob-type:" + blobType, "x-ms-date:" + date, "x-ms-version:" + version]
        && SharedKey.Ascending(lines[12..15])
    {
      var extra := ["x-ms-blob-type:" + blobType];
      assert SharedKey.AllOneLine(extra) by {
        assert SharedKey.OneLine("x-ms-blob-type:" + blobType) by {
          assert forall c :: c in "x-ms-blob-type:" + blobType ==> c in "x-ms-blob-type:" || c in blobType;
        }
      }
      SignedLines("PUT", container, blob, date, |content|, extra, []);
      SharedKey.ContentLengthFieldMeaning(|content|);
      SharedKey.UploadHeadersAscending(blobType, date, version);
    }

    /** The canonicalized headers of generateAutorizationHeader: each extra header and a newline, then the date and the version. */
    method CanonicalizeHeaders(extraHeaders: seq<string>, date: string) returns (canonicalizedHeaders: string)
      ensures canonicalizedHeaders == SharedKey.CanonicalHeaders(extraHeaders, date, version)
    {
      canonicalizedHeaders := "";
      for i := 0 to |extraHeaders|
        invariant canonicalizedHeaders == SharedKey.Terminated(extraHeaders[..i])
      {
        SharedKey.TerminatedSnoc(extraHeaders[..i], extraHeaders[i]);
        assert extraHeaders[..i + 1] == extraHeaders[..i] + [extraHeaders[i]];
        Associate(canonicalizedHeaders, extraHeaders[i], "\n");
        canonicalizedHeaders := canonicalizedHeaders + (extraHeaders[i] + "\n");
      }
      assert extraHeaders[..|extraHeaders|] == extraHeaders;
      ghost var terminated := canonicalizedHeaders;
      var dateAndVersion := "x-ms-date:" + date + "\n" + "x-ms-version:" + version;
      canonicalizedHeaders := canonicalizedHeaders + dateAndVersion;
      assert canonicalizedHeaders == SharedKey.CanonicalHeaders(extraHeaders, date, version) by {
        Associate(terminated, "x-ms-date:" + date + "\n", "x-ms-version:" + version);
        Associate(terminated, "x-ms-date:" + date, "\n");
        Associate(terminated, "x-ms-date:", date);
      }
    }

    /** The canonicalized resource of generateAutorizationHeader: the path, then a newline and each extra resource. */
    method CanonicalizeResource(container: string, blob: string, extraResources: seq<string>) returns (canonicalizedResource: string)
      ensures canonicalizedResource == SharedKey.CanonicalResource(lib, accountName, container, blob, extraResources)
    {
      if blob == "" {
        canonicalizedResource := "/" + accountName + "/" + container;
      } else {
        canonicalizedResource := "/" + accountName + "/" + container + "/" + QtText.EncodePath(lib, blob);
      }
      ghost var path := canonicalizedResource;
      assert path + SharedKey.Prefixed(extraResources[..0]) == path;
      for i := 0 to |extraResources|
        invariant canonicalizedResource == path + SharedKey.Prefixed(extraResources[..i])
      {
        ghost var prefixed := SharedKey.Prefixed(extraResources[..i]);
        SharedKey.PrefixedSnoc(extraResources[..i], extraResources[i]);
        assert extraResources[..i + 1] == extraResources[..i] + [extraResources[i]];
        Associate(path, prefixed, "\n" + extraResources[i]);
        Associate(prefixed, "\n", extraResources[i]);
        canonicalizedResource := canonicalizedResource + ("\n" + extraResources[i]);
      }
      assert extraResources[..|extraResources|] == extraResources;
    }

    /**
      generateAutorizationHeader: the canonicalized headers and resource, the string to sign
      from generateHeader, and the Shared Key header value over it.
    */
    method GenerateAuthorizationHeader(verb: string, container: string, blob: string, date: string, contentLength: int,
                                       extraHeaders: seq<string>, extraResources: seq<string>)
      returns (r: string)
      ensures r == SharedKey.Authorization(lib, accountName, accountKey,
                     StringToSignFor(verb, container, blob, date, contentLength, extraHeaders, extraResources))
    {
      var canonicalizedHeaders := CanonicalizeHeaders(extraHeaders, date);
      var canonicalizedResource := CanonicalizeResource(container, blob, extraResources);
      var contentLengthText := if contentLength == 0 then "" else QtText.Number(contentLength);
      var signature := GenerateHeader(verb, "", "", contentLengthText, "", "", "", "", "", "", "", "",
                                      canonicalizedHeaders, canonicalizedResource);
      assert [verb, "", "", contentLengthText, "", "", "", "", "", "", "", "", canonicalizedHeaders, canonicalizedResource]
          == SharedKey.FixedLines(verb, contentLength) + [canonicalizedHeaders, canonicalizedResource];
      var mac := lib.hmacSha256(lib.utf8(signature), lib.fromBase64(CString(lib, accountKey)));
      r := "SharedKey " + accountName + ":" + lib.toBase64(mac);
    }

    // ---------------------------------------------------------------- the requests

    /** The Authorization header, set first and only when an account key is held. */
    function Signed(verb: Verb, container: string, blob: string, date: string, contentLength: int,
                    extraHeaders: seq<string>, extraResources: seq<string>): (hs: seq<Header>)
      reads this
      ensures HasHeader(hs, "Authorization") <==> accountKey != ""
      ensures |hs| <= 1
    {
      if accountKey == "" then []
      else
        var signature := SharedKey.Authorization(lib, accountName, accountKey,
          StringToSignFor(VerbName(verb), container, blob, date, contentLength, extraHeaders, extraResources));
        var hs := [Header("Authorization", CString(lib, signature))];
        assert hs[0].name == "Authorization";
        hs
    }

    /** The date and version headers every request carries. */
    function Dated(date: string): (hs: seq<Header>)
      ensures !HasHeader(hs, "Authorization")
    {
      [Header("x-ms-date", CString(lib, date)), Header("x-ms-version", CString(lib, version))]
    }

    /** The request listContainers sends. */
    function ListContainersRequest(marker: string, timeout: int, date: string): (r: Request)
      reads this
      ensures r.url.Some?
      ensures HasHeader(r.headers, "Authorization") <==> accountKey != ""
    {
      var signed := Signed(Get, "", "", date, 0, [], ListContainersResources(marker));
      var rest := Dated(date) + [Header("Content-Length", ZeroLength)];
      HasHeaderAppend(Dated(date), [Header("Content-Length", ZeroLength)], "Authorization");
      SignedFirst(signed, rest);
      Request(Get, Some(BlobUrl.Url(lib, accountName, "", "", "comp=list", marker, timeout, sasKey)), signed + rest, [])
    }

    /** The request listFiles sends. */
    function ListFilesRequest(container: string, marker: string, prefix: string, maxResults: int, timeout: int, date: string): (r: Request)
      reads this
      ensures r.url.Some?
      ensures HasHeader(r.headers, "Authorization") <==> accountKey != ""
    {
      var signed := Signed(Get, container, "", date, 0, [], ListFilesResources(marker));
      var rest := Dated(date) + [Header("Content-Length", ZeroLength)];
      HasHeaderAppend(Dated(date), [Header("Content-Length", ZeroLength)], "Authorization");
      SignedFirst(signed, rest);
      var url := BlobUrl.Url(lib, accountName, container, "", BlobUrl.ListFilesParams(prefix, maxResults), marker, timeout, sasKey);
      Request(Get, Some(url), signed + rest, [])
    }

    /** The request downloadFile sends. */
    function DownloadFileRequest(container: string, blob: string, date: string): (r: Request)
      reads this
      ensures HasHeader(r.headers, "Authorization") <==> accountKey != ""
    {
      var signed := Signed(Get, container, blob, date, 0, [], []);
      var rest := Dated(date) + [Header("Content-Length", ZeroLength)];
      HasHeaderAppend(Dated(date), [Header("Content-Length", ZeroLength)], "Authorization");
      SignedFirst(signed, rest);
      Request(Get, None, signed + rest, [])
    }

    /** The request createContainer sends, none for an empty container name. */
    function CreateContainerRequest(container: string, date: string): (r: Option<Request>)
      reads this
      ensures r.Some? <==> container != ""
      ensures r.Some? ==> (HasHeader(r.value.headers, "Authorization") <==> accountKey != "")
    {
      if container == "" then None
      else
        var signed := Signed(Put, container, "", date, 0, [], ContainerResources);
        SignedFirst(signed, Dated(date));
        Some(Request(Put, None, signed + Dated(date), []))
    }

    /** The lease header, set only for a non-empty lease id. */
    function LeaseHeader(leaseId: string): (hs: seq<Header>)
      ensures !HasHeader(hs, "Authorization")
    {
      if leaseId == "" then [] else [Header("x-ms-lease-id", CString(lib, leaseId))]
    }

    /** The request deleteContainer sends, none for an empty container name. The lease header is not signed. */
    function DeleteContainerRequest(container: string, leaseId: string, date: string): (r: Option<Request>)
      reads this
      ensures r.Some? <==> container != ""
      ensures r.Some? ==> (HasHeader(r.value.headers, "Authorization") <==> accountKey != "")
    {
      if container == "" then None
      else
        var signed := Signed(Delete, container, "", date, 0, [], ContainerResources);
        var rest := LeaseHeader(leaseId) + Dated(date);
        HasHeaderAppend(LeaseHeader(leaseId), Dated(date), "Authorization");
        SignedFirst(signed, rest);
        Some(Request(Delete, None, signed + rest, []))
    }

    /** The headers an upload sends after the Authorization header. */
    function UploadHeaders(content: seq<byte>, blobType: string, date: string): (hs: seq<Header>)
      ensures !HasHeader(hs, "Authorization")
      ensures |hs| == 4 && hs[0] == Header("Content-Length", CString(lib, QtText.Number(|content|)))
    {
      var length := [Header("Content-Length", CString(lib, QtText.Number(|content|)))];
      var kind := [Header("x-ms-blob-type", CString(lib, blobType))];
      HasHeaderAppend(length, Dated(date), "Authorization");
      HasHeaderAppend(length + Dated(date), kind, "Authorization");
      length + Dated(date) + kind
    }

    /** The request uploadFileQByteArray sends: the content is the body and its length is signed. */
    function UploadRequest(content: seq<byte>, container: string, blob: string, blobType: string, date: string): (r: Request)
      reads this
      ensures r.body == content
      ensures HasHeader(r.headers, "Authorization") <==> accountKey != ""
    {
      var signed := Signed(Put, container, blob, date, |content|, ["x-ms-blob-type:" + blobType], []);
      SignedFirst(signed, UploadHeaders(content, blobType, date));
      Request(Put, None, signed + UploadHeaders(content, blobType, date), content)
    }

    /** The request uploadFile sends, none when the file cannot be read. */
    function UploadFileRequest(file: FileRead, container: string, blob: string, blobType: string, date: string): (r: Option<Request>)
      reads this
      ensures r.Some? <==> file.Readable?
      ensures r.Some? ==> r.value.body == file.content
    {
      match file
      case Unreadable => None
      case Readable(content) => Some(UploadRequest(content, container, blob, blobType, date))
    }

    /** The request deleteFile sends. */
    function DeleteFileRequest(container: string, blob: string, date: string): (r: Request)
      reads this
      ensures HasHeader(r.headers, "Authorization") <==> accountKey != ""
    {
      var signed := Signed(Delete, container, blob, date, 0, [], []);
      SignedFirst(signed, Dated(date));
      Request(Delete, None, signed + Dated(date), [])
    }

    // ---------------------------------------------------------------- the asynchronous calls

    /** listContainers: GET with "comp=list", signed with the listing resources when a key is held. */
    method ListContainers(marker: string, timeout: int, date: string) returns (req: Request)
      ensures req == ListContainersRequest(marker, timeout, date)
    {
      var additionalUrlParams := "comp=list";
      var url := GenerateUrl("", "", additionalUrlParams, marker, timeout, sasKey);
      var headers: seq<Header> := [];
      if accountKey != "" {
        var resources := ["comp:list"];
        if marker != "" {
          resources := resources + ["marker:" + marker];
        }
        assert resources == ListContainersResources(marker);
        var authorization := GenerateAuthorizationHeader("GET", "", "", date, 0, [], resources);
        headers := headers + [Header("Authorization", CString(lib, authorization))];
      }
      assert headers == Signed(Get, "", "", date, 0, [], ListContainersResources(marker));
      ghost var signed := headers;
      headers := headers + [Header("x-ms-date", CString(lib, date))];
      headers := headers + [Header("x-ms-version", CString(lib, version))];
      headers := headers + [Header("Content-Length", ZeroLength)];
      assert headers == signed + (Dated(date) + [Header("Content-Length", ZeroLength)]);
      req := Request(Get, Some(url), headers, []);
    }

    /** listFiles: GET on the container with its listing parameters. */
    method ListFiles(container: string, marker: string, prefix: string, maxResults: int, timeout: int, date: string)
      returns (req: Request)
      ensures req == ListFilesRequest(container, marker, prefix, maxResults, timeout, date)
    {
      var additionalUrlParams := BlobUrl.ListFilesQuery;
      if prefix != "" {
        additionalUrlParams := additionalUrlParams + (BlobUrl.PrefixParam + prefix);
      }
      if maxResults > 0 {
        additionalUrlParams := additionalUrlParams + (BlobUrl.MaxResultsParam + prefix);
      }
      assert additionalUrlParams == BlobUrl.ListFilesParams(prefix, maxResults);
      var url := GenerateUrl(container, "", additionalUrlParams, marker, timeout, sasKey);
      var headers: seq<Header> := [];
      if accountKey != "" {
        var resources := ["comp:list"];
        if marker != "" {
          resources := resources + ["marker:" + marker];
        }
        resources := resources + ["restype:container"];
        assert resources == ListFilesResources(marker);
        var authorization := GenerateAuthorizationHeader("GET", container, "", date, 0, [], resources);
        headers := headers + [Header("Authorization", CString(lib, authorization))];
      }
      assert headers == Signed(Get, container, "", date, 0, [], ListFilesResources(marker));
      ghost var signed := headers;
      headers := headers + [Header("x-ms-date", CString(lib, date))];
      headers := headers + [Header("x-ms-version", CString(lib, version))];
      headers := headers + [Header("Content-Length", ZeroLength)];
      assert headers == signed + (Dated(date) + [Header("Content-Length", ZeroLength)]);
      req := Request(Get, Some(url), headers, []);
    }

    /** downloadFile: GET on the blob. */
    method DownloadFile(container: string, blob: string, timeout: int, date: string) returns (req: Request)
      ensures req == DownloadFileRequest(container, blob, date)
    {
      var headers: seq<Header> := [];
      if accountKey != "" {
        var authorization := GenerateAuthorizationHeader("GET", container, blob, date, 0, [], []);
        headers := headers + [Header("Authorization", CString(lib, authorization))];
      }
      assert headers == Signed(Get, container, blob, date, 0, [], []);
      ghost var signed := headers;
      headers := headers + [Header("x-ms-date", CString(lib, date))];
      headers := headers + [Header("x-ms-version", CString(lib, version))];
      headers := headers + [Header("Content-Length", ZeroLength)];
      assert headers == signed + (Dated(date) + [Header("Content-Length", ZeroLength)]);
      req := Request(Get, None, headers, []);
    }

    /** createContainer: nothing for an empty name, otherwise PUT with "restype=container" and an empty body. */
    method CreateContainer(container: string, timeout: int, date: string) returns (req: Option<Request>)
      ensures req == CreateContainerRequest(container, date)
    {
      if container == "" {
        return None;
      }
      var headers: seq<Header> := [];
      if accountKey != "" {
        var resources := ["restype:container"];
        assert resources == ContainerResources;
        var authorization := GenerateAuthorizationHeader("PUT", container, "", date, 0, [], resources);
        headers := headers + [Header("Authorization", CString(lib, authorization))];
      }
      assert headers == Signed(Put, container, "", date, 0, [], ContainerResources);
      ghost var signed := headers;
      headers := headers + [Header("x-ms-date", CString(lib, date))];
      headers := headers + [Header("x-ms-version", CString(lib, version))];
      assert headers == signed + Dated(date);
      req := Some(Request(Put, None, headers, []));
    }

    /** deleteContainer: nothing for an empty name, otherwise DELETE with the lease id, if any, unsigned. */
    method DeleteContainer(container: string, leaseId: string, timeout: int, date: string) returns (req: Option<Request>)
      ensures req == DeleteContainerRequest(container, leaseId, date)
    {
      if container == "" {
        return None;
      }
      var headers: seq<Header> := [];
      if accountKey != "" {
        var resources := ["restype:container"];
        var authorization := GenerateAuthorizationHeader("DELETE", container, "", date, 0, [], resources);
        assert resources == ContainerResources;
        headers := headers + [Header("Authorization", CString(lib, authorization))];
      }
      assert headers == Signed(Delete, container, "", date, 0, [], ContainerResources);
      ghost var signed := headers;
      if leaseId != "" {
        headers := headers + [Header("x-ms-lease-id", CString(lib, leaseId))];
      }
      assert headers == signed + LeaseHeader(leaseId);
      headers := headers + [Header("x-ms-date", CString(lib, date))];
      headers := headers + [Header("x-ms-version", CString(lib, version))];
      assert headers == signed + (LeaseHeader(leaseId) + Dated(date));
      req := Some(Request(Delete, None, headers, []));
    }

    /** uploadFileQByteArray: PUT of the content, signed with its length and blob type. */
    method UploadFileQByteArray(content: seq<byte>, container: string, blob: string, blobType: string, timeout: int, date: string)
      returns (req: Request)
      ensures req == UploadRequest(content, container, blob, blobType, date)
    {
      var contentLength := |content|;
      var headers: seq<Header> := [];
      if accountKey != "" {
        var canonicalHeaders := ["x-ms-blob-type:" + blobType];
        var authorization := GenerateAuthorizationHeader("PUT", container, blob, date, contentLength, canonicalHeaders, []);
        headers := headers + [Header("Authorization", CString(lib, authorization))];
      }
      assert headers == Signed(Put, container, blob, date, |content|, ["x-ms-blob-type:" + blobType], []);
      ghost var signed := headers;
      headers := headers + [Header("Content-Length", CString(lib, QtText.Number(contentLength)))];
      headers := headers + [Header("x-ms-date", CString(lib, date))];
      headers := headers + [Header("x-ms-version", CString(lib, version))];
      headers := headers + [Header("x-ms-blob-type", CString(lib, blobType))];
      assert headers == signed + UploadHeaders(content, blobType, date);
      req := Request(Put, None, headers, content);
    }

    /** uploadFile: nothing when the file cannot be read, otherwise the upload of its content. */
    method UploadFile(file: FileRead, container: string, blob: string, blobType: string, timeout: int, date: string)
      returns (req: Option<Request>)
      ensures req == UploadFileRequest(file, container, blob, blobType, date)
    {
      if file.Unreadable? {
        return None;
      }
      var upload := UploadFileQByteArray(file.content, container, blob, blobType, timeout, date);
      req := Some(upload);
    }

    /** deleteFile: DELETE on the blob. */
    method DeleteFile(container: string, blob: string, timeout: int, date: string) returns (req: Request)
      ensures req == DeleteFileRequest(container, blob, date)
    {
      var headers: seq<Header> := [];
      if accountKey != "" {
        var authorization := GenerateAuthorizationHeader("DELETE", container, blob, date, 0, [], []);
        headers := headers + [Header("Authorization", CString(lib, authorization))];
      }
      assert headers == Signed(Delete, container, blob, date, 0, [], []);
      ghost var signed := headers;
      headers := headers + [Header("x-ms-date", CString(lib, date))];
      headers := headers + [Header("x-ms-version", CString(lib, version))];
      assert headers == signed + Dated(date);
      req := Request(Delete, None, headers, []);
    }

    // ---------------------------------------------------------------- the synchronous calls
    // Each hands the API timeout to the request only when `force` is set, and otherwise -1.

    /** listContainersSynchronous: the caller's list is replaced by the decoded answer only when the reply finishes in time. */
    method ListContainersSynchronous(found: seq<Record>, marker: string, timeout: int, force: bool, date: string, ev: Event)
      returns (result: NetworkError, foundOut: seq<Record>, sent: Option<Request>)
      ensures sent == Some(ListContainersRequest(marker, if force then timeout else -1, date))
      ensures result == SyncResult(sent, ev)
      ensures foundOut == if ev.Finished? then ObjectList.DecodeListing("Container", lib.xmlTokens(QtText.UpToNul(ev.data)), None).objs else found
    {
      var req := ListContainers(marker, if force then timeout else -1, date);
      sent := Some(req);
      var body, deletions;
      result, body, deletions := Await(sent, ev);
      foundOut := found;
      if body.Some? {
        var objs, _ := ObjectList.ParseContainerList(lib, QtText.UpToNul(body.value), None);
        foundOut := objs;
      }
    }

    /** listFilesSynchronous: as listContainersSynchronous, for the blobs of a container. */
    method ListFilesSynchronous(container: string, found: seq<Record>, marker: string, prefix: string, maxResults: int,
                                timeout: int, force: bool, date: string, ev: Event)
      returns (result: NetworkError, foundOut: seq<Record>, sent: Option<Request>)
      ensures sent == Some(ListFilesRequest(container, marker, prefix, maxResults, if force then timeout else -1, date))
      ensures result == SyncResult(sent, ev)
      ensures foundOut == if ev.Finished? then ObjectList.DecodeListing("Blob", lib.xmlTokens(QtText.UpToNul(ev.data)), None).objs else found
    {
      var req := ListFiles(container, marker, prefix, maxResults, if force then timeout else -1, date);
      sent := Some(req);
      var body, deletions;
      result, body, deletions := Await(sent, ev);
      foundOut := found;
      if body.Some? {
        var objs, _ := ObjectList.ParseFileList(lib, QtText.UpToNul(body.value), None);
        foundOut := objs;
      }
    }

    /**
      uploadFileSynchronous: UnknownNetworkError without a request when the file cannot be
      read, otherwise the synchronous upload of its content. That call passes five arguments
      to a six-parameter method; the missing `force` is taken as false.
    */
    method UploadFileSynchronous(file: FileRead, container: string, blob: string, blobType: string,
                                 timeout: int, force: bool, date: string, ev: Event)
      returns (result: NetworkError, sent: Option<Request>)
      ensures sent == UploadFileRequest(file, container, blob, blobType, date)
      ensures result == SyncResult(sent, ev)
    {
      if file.Unreadable? {
        return UnknownNetworkError, None;
      }
      result, sent := UploadFileQByteArraySynchronous(file.content, container, blob, blobType,
                                                      if force then timeout else -1, false, date, ev);
    }

    /** uploadFileQByteArraySynchronous: the result of the upload request. */
    method UploadFileQByteArraySynchronous(content: seq<byte>, container: string, blob: string, blobType: string,
                                           timeout: int, force: bool, date: string, ev: Event)
      returns (result: NetworkError, sent: Option<Request>)
      ensures sent == Some(UploadRequest(content, container, blob, blobType, date))
      ensures result == SyncResult(sent, ev)
    {
      var req := UploadFileQByteArray(content, container, blob, blobType, if force then timeout else -1, date);
      sent := Some(req);
      var body, deletions;
      result, body, deletions := Await(sent, ev);
    }

    /** deleteFileSynchronous: the result of the delete request. */
    method DeleteFileSynchronous(container: string, blob: string, timeout: int, force: bool, date: string, ev: Event)
      returns (result: NetworkError, sent: Option<Request>)
      ensures sent == Some(DeleteFileRequest(container, blob, date))
      ensures result == SyncResult(sent, ev)
    {
      var req := DeleteFile(container, blob, if force then timeout else -1, date);
      sent := Some(req);
      var body, deletions;
      result, body, deletions := Await(sent, ev);
    }

    /**
      downloadFileSynchronous: the caller's buffer receives the reply body, read as a C string,
      only when the reply finishes in time.
    */
    method DownloadFileSynchronous(container: string, blob: string, downloaded: seq<byte>,
                                   timeout: int, force: bool, date: string, ev: Event)
      returns (result: NetworkError, downloadedOut: seq<byte>, sent: Option<Request>)
      ensures sent == Some(DownloadFileRequest(container, blob, date))
      ensures result == SyncResult(sent, ev)
      ensures downloadedOut == if ev.Finished? then QtText.UpToNul(ev.data) else downloaded
    {
      var req := DownloadFile(container, blob, if force then timeout else -1, date);
      sent := Some(req);
      var body, deletions;
      result, body, deletions := Await(sent, ev);
      downloadedOut := downloaded;
      if body.Some? {
        downloadedOut := QtText.UpToNul(body.value);
      }
    }

    /** createContainerSynchronous: UnknownNetworkError at once for an empty name, otherwise the result of the request. */
    method CreateContainerSynchronous(container: string, timeout: int, force: bool, date: string, ev: Event)
      returns (result: NetworkError, sent: Option<Request>)
      ensures sent == CreateContainerRequest(container, date)
      ensures result == SyncResult(sent, ev)
    {
      sent := CreateContainer(container, if force then timeout else -1, date);
      var body, deletions;
      result, body, deletions := Await(sent, ev);
    }

    /** deleteContainerSynchronous: UnknownNetworkError at once for an empty name, otherwise the result of the request. */
    method DeleteContainerSynchronous(container: string, leaseId: string, timeout: int, force: bool, date: string, ev: Event)
      returns (result: NetworkError, sent: Option<Request>)
      ensures sent == DeleteContainerRequest(container, leaseId, date)
      ensures result == SyncResult(sent, ev)
    {
      sent := DeleteContainer(container, leaseId, if force then timeout else -1, date);
      var body, deletions;
      result, body, deletions := Await(sent, ev);
    }
  }
}
