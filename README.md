# QAzureStorageRestApi in Dafny

This project models the core of QAzureStorageRestApi, a Qt client for the Azure Blob
Storage REST API (`lib/src/QAzureStorageRestApi.cpp`). It covers the library's own logic:

- the credentials the client holds;
- the URLs it builds;
- the Shared Key string to sign, its canonicalized headers and resource, and the Authorization
  value over it;
- the request each asynchronous call sends;
- the synchronous wrappers, which wait for the reply or the timer;
- the decoder of the XML listings the service returns.

Files and modules:

- `platform.dfy` (`Platform`): bytes, `Option`, the XML token type, and `Library`. `Library`
  holds as uninterpreted values the functions the library calls but does not define: UTF-8
  encoding, base64 in both directions, HMAC-SHA256, the tokens a `QXmlStreamReader` delivers,
  and the text `QString::append` yields for a `bool`.
- `qt_text.dfy` (`QtText`): how Qt writes numbers (`QString::number`), percent-encodes a blob
  name (`QUrl::toPercentEncoding(name, "/")`) and cuts a C string at its first NUL.
- `shared_key.dfy` (`SharedKey`): the Shared Key string to sign and its canonical parts.
  Lemmas read a string back into its lines and check their ordering.
- `blob_url.dfy` (`BlobUrl`): the URL `generateUrl` builds.
- `object_list.dfy` (`ObjectList`): `parseObjectList` as an imperative method, proved against
  a recursive specification that follows its loops.
- `object_list_properties.dfy` (`ObjectListProperties`): what the decoder does with a
  well-formed listing (a round trip over a document generator) and with bad or truncated input.
  A `Leaf` entry is a field, written as a path of nested start elements over one text: the
  decoder stores the text under the innermost name, and an entry with no text is closed at
  once.
- `storage_client.dfy` (`StorageClient`): the `QAzureStorageRestApi` object as a class
  `Client`. A request is a value: verb, URL, raw headers and body. The synchronous wrappers take
  the event that ends their wait as an input.

The model keeps the code's behaviour where it differs from what the service documents:

- The query pieces are written without "&" and followed by "?".
- A SAS credential contributes the appended `bool`, not its text (line 82).
- `listFiles` writes the prefix where the page size belongs (line 149).
- Five calls pass five arguments to the six-parameter `generateUrl`, and those arguments do
  not line up with its parameters. The code as written does not fix the URL they send, so the
  model leaves those URLs open (`url == None`): see "Left out".
- `uploadFileSynchronous` passes five arguments to the six-parameter
  `uploadFileQByteArraySynchronous`. The missing `forceTimeoutOnApi` is taken as false.
- Header values and reply bodies pass through `toStdString().c_str()` or `.data()`. They are
  cut at the first NUL byte (`QtText.UpToNul`). So is the account key text, before it is
  base64-decoded (line 860).

## Model

| member | source | states |
|---|---|---|
| StorageClient.Client.constructor | lib/src/QAzureStorageRestApi.cpp:19-24 | The new client holds the account name, and the credential as key or as SAS, as updateCredentials sets them. |
| StorageClient.Client.UpdateCredentials | lib/src/QAzureStorageRestApi.cpp:26-31 | The name is stored. The credential becomes the account key when isAccountKey is set, else the SAS key; the other is emptied. |
| StorageClient.Client.CredentialsExclusive | lib/src/QAzureStorageRestApi.cpp:26-31 | After updateCredentials at most one of key and SAS is set, and one is set exactly when the credential is non-empty. |
| StorageClient.Client.GenerateUrl | lib/src/QAzureStorageRestApi.cpp:35-92 | The URL is `BlobUrl.Url`: endpoint, container and encoded blob, then the query pieces and "?" when any applies. The parameter string it keeps stays empty. |
| BlobUrl.UrlLayout | lib/src/QAzureStorageRestApi.cpp:38-47 | The URL starts with endpoint and container. With a blob named, "/" and the encoded blob follow; with none, the path is endpoint and container alone. It extends past the path and ends in "?" iff the query condition holds. |
| BlobUrl.UrlIgnoresSasText | lib/src/QAzureStorageRestApi.cpp:76-83 | Any two non-empty SAS credentials give the same URL: the credential text never reaches it. |
| BlobUrl.SasPieceIsTrue | lib/src/QAzureStorageRestApi.cpp:82 | The SAS piece is the text appended for `true`, whatever the credential. |
| BlobUrl.TimeoutReadsBack | lib/src/QAzureStorageRestApi.cpp:38-86 | For any additional parameters, marker and SAS, a positive timeout follows the path, the additional parameters and the marker piece as "timeout=" and decimal digits that read back as the timeout. Then come the SAS piece, if any, and the final "?". |
| BlobUrl.EncodedBlobHasNoQuestionMark | lib/src/QAzureStorageRestApi.cpp:40-43 | An encoded blob name holds no "?", so the query cannot start inside it. |
| BlobUrl.BlobNameRoundTrip | lib/src/QAzureStorageRestApi.cpp:42 | Percent-decoding the encoded blob name gives back its UTF-8 bytes. |
| BlobUrl.ListFilesPageSizeIgnored | lib/src/QAzureStorageRestApi.cpp:138-150 | Every positive page size gives the same listFiles parameters, which end in "&maxresults=" and the prefix. |
| QtText.NumberRoundTrip | lib/src/QAzureStorageRestApi.cpp:73 | QString::number writes every integer so that reading it back gives the number; a positive one is all digits with no leading zero. |
| QtText.PercentRoundTrip | lib/src/QAzureStorageRestApi.cpp:42 | Percent-decoding undoes toPercentEncoding for every byte string and exclude set. |
| QtText.PercentEncodeAlphabet | lib/src/QAzureStorageRestApi.cpp:42 | Every character of the encoding is unreserved, excluded, "%" or an upper-case hex digit. |
| QtText.EncodePathOneLine | lib/src/QAzureStorageRestApi.cpp:843-844 | An encoded blob name has no line break, so it stays on one line of the canonical resource. |
| QtText.UpToNulPrefix | lib/src/QAzureStorageRestApi.cpp:860 | The C-string view is a prefix with no NUL; it equals the whole iff there is no NUL, and is cut at the first NUL otherwise. |
| QtText.UpToNulCut | lib/src/QAzureStorageRestApi.cpp:860 | Everything after the first NUL is dropped. |
| StorageClient.Client.GenerateHeader | lib/src/QAzureStorageRestApi.cpp:796-820 | The result holds the fourteen fields, each but the last followed by a newline. Fields without line breaks split back into exactly those fields. |
| SharedKey.SplitJoin | lib/src/QAzureStorageRestApi.cpp:802-817 | Joined one-line fields split back into the same fields. |
| SharedKey.JoinSnoc | lib/src/QAzureStorageRestApi.cpp:804-817 | Joining fields plus a last one is the terminated fields followed by the last. |
| SharedKey.TerminatedSplit | lib/src/QAzureStorageRestApi.cpp:829-833 | Newline-terminated one-line fields, then any text, split into the fields followed by the text's lines. |
| SharedKey.PrefixedSplit | lib/src/QAzureStorageRestApi.cpp:847-850 | Text followed by newline-prefixed one-line fields splits into the text's lines followed by the fields. |
| SharedKey.SplitAppend | lib/src/QAzureStorageRestApi.cpp:833 | Two strings joined by a newline split into the lines of the first, then those of the second. |
| StorageClient.Client.CanonicalizeHeaders | lib/src/QAzureStorageRestApi.cpp:827-833 | The canonicalized headers: each extra header and a newline, in order, then the date line, a newline and the version line. |
| SharedKey.CanonicalHeaderLines | lib/src/QAzureStorageRestApi.cpp:827-833 | The canonicalized headers read back as the extra header lines, then "x-ms-date:" + date, then "x-ms-version:" + version. |
| StorageClient.Client.CanonicalizeResource | lib/src/QAzureStorageRestApi.cpp:835-850 | The canonicalized resource: "/account/container", "/" and the encoded blob when one is named, then a newline and each extra resource. |
| SharedKey.CanonicalResourceLines | lib/src/QAzureStorageRestApi.cpp:835-850 | The canonicalized resource reads back as the path line, then the extra resource lines in order. |
| SharedKey.ContentLengthFieldMeaning | lib/src/QAzureStorageRestApi.cpp:853 | The signed length is empty iff the length is 0, and otherwise reads back as the length. |
| SharedKey.StringToSignLines | lib/src/QAzureStorageRestApi.cpp:853-855 | The string to sign reads back as the verb, eleven fixed fields (the length in the third), then the header and resource lines. |
| StorageClient.Client.GenerateAuthorizationHeader | lib/src/QAzureStorageRestApi.cpp:822-865 | The result is `SharedKey.Authorization` over `StringToSignFor`: "SharedKey account:" and the base64 HMAC-SHA256 of the client's string to sign, keyed by fromBase64 of the account key text cut at its first NUL. |
| SharedKey.KeyCutAtNul | lib/src/QAzureStorageRestApi.cpp:860 | A key whose UTF-8 form holds a NUL signs exactly like the part before the NUL. |
| StorageClient.Client.SignedLines | lib/src/QAzureStorageRestApi.cpp:822-855 | With one-line inputs, the signed string reads back as the fixed lines, the extra headers, the date and version lines, the resource path and the extra resources. |
| StorageClient.Client.UploadSignsItsLength | lib/src/QAzureStorageRestApi.cpp:294-330 | An upload signs sixteen lines. "PUT" is first and the content length fourth (empty iff there is no content, else readable as the length). Then come blob type, date and version in ascending order. |
| SharedKey.UploadHeadersAscending | lib/src/QAzureStorageRestApi.cpp:308-313 | The upload's canonical header lines (blob type, date, version) are in ascending order. |
| SharedKey.ListFilesResourcesAscending | lib/src/QAzureStorageRestApi.cpp:160-167 | The listFiles canonical resources are ascending, with and without a marker. |
| StorageClient.ListResourcesAscending | lib/src/QAzureStorageRestApi.cpp:110-116 | The canonical resources listContainers and listFiles sign are in ascending order. |
| StorageClient.Client.Signed | lib/src/QAzureStorageRestApi.cpp:108-120 | A request carries an Authorization header iff an account key is held, and at most one. |
| StorageClient.Client.Dated | lib/src/QAzureStorageRestApi.cpp:124-125 | The date and version headers are not an Authorization header. |
| StorageClient.SignedFirst | lib/src/QAzureStorageRestApi.cpp:119-126 | Headers set after the Authorization header add none, so the request is signed iff its first part is. |
| StorageClient.Client.ListContainersRequest | lib/src/QAzureStorageRestApi.cpp:96-131 | The listContainers request has a URL, and it is signed iff an account key is held. |
| StorageClient.Client.ListContainers | lib/src/QAzureStorageRestApi.cpp:96-131 | listContainers sends a GET to the "comp=list" URL. When a key is held it is signed over the listing resources. Date, version and a zero Content-Length follow. |
| StorageClient.Client.ListFilesRequest | lib/src/QAzureStorageRestApi.cpp:133-182 | The listFiles request has a URL, and it is signed iff an account key is held. |
| StorageClient.Client.ListFiles | lib/src/QAzureStorageRestApi.cpp:133-182 | listFiles sends a GET to the container URL with its listing parameters. When a key is held it is signed with "restype:container" after the listing resources. |
| StorageClient.Client.DownloadFileRequest | lib/src/QAzureStorageRestApi.cpp:184-210 | The downloadFile request is signed iff an account key is held. |
| StorageClient.Client.DownloadFile | lib/src/QAzureStorageRestApi.cpp:184-210 | downloadFile sends a GET, signed for the blob when a key is held, with date, version and a zero Content-Length. |
| StorageClient.Client.CreateContainerRequest | lib/src/QAzureStorageRestApi.cpp:212-249 | A request is sent iff the container name is non-empty, and it is signed iff an account key is held. |
| StorageClient.Client.CreateContainer | lib/src/QAzureStorageRestApi.cpp:212-249 | createContainer sends nothing for an empty name, else a PUT signed with "restype:container" when a key is held. |
| StorageClient.Client.LeaseHeader | lib/src/QAzureStorageRestApi.cpp:278-281 | The lease header is set only for a non-empty lease id and is not an Authorization header. |
| StorageClient.Client.DeleteContainerRequest | lib/src/QAzureStorageRestApi.cpp:251-292 | A request is sent iff the container name is non-empty, and it is signed iff an account key is held. The lease id is not signed. |
| StorageClient.Client.DeleteContainer | lib/src/QAzureStorageRestApi.cpp:251-292 | deleteContainer sends nothing for an empty name. Otherwise it sends a DELETE: signed when a key is held, then the lease header when a lease is given, then date and version. |
| StorageClient.Client.UploadHeaders | lib/src/QAzureStorageRestApi.cpp:317-325 | An upload sets four headers after any Authorization. The first is Content-Length with the decimal content length. |
| StorageClient.Client.UploadRequest | lib/src/QAzureStorageRestApi.cpp:294-330 | The upload's body is the content, and the request is signed iff an account key is held. |
| StorageClient.Client.UploadFileQByteArray | lib/src/QAzureStorageRestApi.cpp:294-330 | uploadFileQByteArray sends a PUT carrying the content. When a key is held it is signed with the content length and the blob type header. |
| StorageClient.Client.UploadFileRequest | lib/src/QAzureStorageRestApi.cpp:332-350 | A request is sent iff the file can be read, and then its body is the file's content. |
| StorageClient.Client.UploadFile | lib/src/QAzureStorageRestApi.cpp:332-350 | uploadFile sends nothing when the file cannot be opened, else the upload of its content. |
| StorageClient.Client.DeleteFileRequest | lib/src/QAzureStorageRestApi.cpp:352-378 | The deleteFile request is signed iff an account key is held. |
| StorageClient.Client.DeleteFile | lib/src/QAzureStorageRestApi.cpp:352-378 | deleteFile sends a DELETE, signed for the blob when a key is held, with date and version. |
| StorageClient.IsErrorCodeSuccess | lib/src/QAzureStorageRestApi.cpp:382-386 | Success is exactly NoError or ContentAccessDenied; a timeout or an unknown error is never success. |
| StorageClient.Await | lib/src/QAzureStorageRestApi.cpp:503-538 | No request gives UnknownNetworkError. Otherwise the result is the reply's error if it finishes before the timer, else TimeoutError, and the reply is released exactly once. |
| StorageClient.SuccessMeansAnswered | lib/src/QAzureStorageRestApi.cpp:382-433 | A synchronous call succeeds iff a request went out, its reply finished before the timer, and the reply's code is a success. |
| StorageClient.Client.ListContainersSynchronous | lib/src/QAzureStorageRestApi.cpp:388-434 | It sends the listContainers request, with the timeout only when forced. The caller's list is replaced by the decoded reply iff the reply finishes in time. |
| StorageClient.Client.ListFilesSynchronous | lib/src/QAzureStorageRestApi.cpp:436-481 | It sends the listFiles request, with the timeout only when forced. The caller's list is replaced by the decoded "Blob" records iff the reply finishes in time. |
| StorageClient.Client.UploadFileSynchronous | lib/src/QAzureStorageRestApi.cpp:483-501 | An unreadable file gives UnknownNetworkError and no request. Otherwise it is the synchronous upload of the file's content. |
| StorageClient.Client.UploadFileQByteArraySynchronous | lib/src/QAzureStorageRestApi.cpp:503-538 | It sends the upload request, and its result is the reply's code or TimeoutError. |
| StorageClient.Client.DeleteFileSynchronous | lib/src/QAzureStorageRestApi.cpp:540-576 | It sends the deleteFile request, and its result is the reply's code or TimeoutError. |
| StorageClient.Client.DownloadFileSynchronous | lib/src/QAzureStorageRestApi.cpp:578-623 | It sends the download request. The caller's buffer receives the reply body, up to its first NUL, iff the reply finishes in time. |
| StorageClient.Client.CreateContainerSynchronous | lib/src/QAzureStorageRestApi.cpp:625-661 | An empty name gives UnknownNetworkError with nothing sent. Otherwise the result is the reply's code or TimeoutError. |
| StorageClient.Client.DeleteContainerSynchronous | lib/src/QAzureStorageRestApi.cpp:663-699 | An empty name gives UnknownNetworkError with nothing sent. Otherwise the result is the reply's code or TimeoutError. |
| ObjectList.DecodeListing | lib/src/QAzureStorageRestApi.cpp:717-789 | The decoder's specification is `ObjectList.Outer`, one call per iteration of its outer loop, from no tokens read. The decoded listing carries a marker iff the caller passed somewhere to put one. |
| ObjectList.ParseObjectList | lib/src/QAzureStorageRestApi.cpp:717-789 | The imperative decoder (its three nested loops, the early return on a bad field, the NextMarker loop) computes exactly the specification's listing. |
| ObjectList.ParseContainerList | lib/src/QAzureStorageRestApi.cpp:703-707 | parseContainerList decodes the records named "Container". |
| ObjectList.ParseFileList | lib/src/QAzureStorageRestApi.cpp:709-713 | parseFileList decodes the records named "Blob". |
| ObjectListProperties.ListingRoundTrip | lib/src/QAzureStorageRestApi.cpp:722-786 | A well-formed listing decodes to one map per record, in document order. Before the records it may hold any head elements (Prefix, Marker, MaxResults and the like) that are neither Invalid, nor a start of the record tag, nor a NextMarker start. The NextMarker out-parameter, when given, ends up holding the marker's text, or keeps its value when the element is empty. |
| ObjectListProperties.LastFieldWins | lib/src/QAzureStorageRestApi.cpp:744-764 | In a record, a key keeps the text of its last field, and a field closed at once stores "". |
| ObjectListProperties.ApplyAppend | lib/src/QAzureStorageRestApi.cpp:764 | Inserting the fields of two parts of a record is inserting those of the first, then those of the second. |
| ObjectListProperties.ApplyKeeps | lib/src/QAzureStorageRestApi.cpp:764 | Fields under other keys leave a key's presence and value unchanged. |
| ObjectListProperties.ApplySnoc | lib/src/QAzureStorageRestApi.cpp:764 | One more field is one more insertion. |
| ObjectListProperties.NoTagNoRecords | lib/src/QAzureStorageRestApi.cpp:726-730 | Without a start element for the tag, no record is added. |
| ObjectListProperties.NoMarkerKeepsValue | lib/src/QAzureStorageRestApi.cpp:771-784 | Without a NextMarker start element, the out-parameter keeps the caller's value. |
| ObjectListProperties.BadFieldDiscardsAll | lib/src/QAzureStorageRestApi.cpp:726-762 | After any complete records and the fields of a partial one, a field start, any nested starts, then an Invalid or other non-text, non-end token discards every record decoded so far: the list is empty. |
| ObjectListProperties.OuterRecord | lib/src/QAzureStorageRestApi.cpp:726-769 | A start element for the record tag makes the decoder read one object. If the object loop aborts, the whole list is empty; otherwise the object is appended and decoding goes on after its end. |
| ObjectListProperties.BadFieldAborts | lib/src/QAzureStorageRestApi.cpp:740-762 | Inside an open object, a field start, any nested starts, then an Invalid or other token abort the object loop. |
| ObjectListProperties.ReadFieldStops | lib/src/QAzureStorageRestApi.cpp:747-762 | A field read whose nested starts end at a token that is neither text nor an end tag fails. |
| ObjectListProperties.InvalidKeepsPartialRecord | lib/src/QAzureStorageRestApi.cpp:726-740 | After any complete records and the fields of a partial one, an Invalid token ends the record and the decoding: the list is the complete records' maps followed by the partial record's map. |

## Left out

- Networking: the QNetworkAccessManager and the sending of a request are not modelled. A call
  returns the request it would send.
- The clock: generateCurrentTimeUTC (lines 791-794) is not modelled. The date is a parameter
  of every call.
- The event loop and the timer: which of the finished signal and the timer comes first is an
  input (`Event`). The timer's duration, including the `timeoutInSec * 1000` multiplication
  and its possible overflow, is not modelled.
- A finished signal arriving after the wait ends is not modelled. The reply has then been
  released and the lambda's captured locals are gone.
- File I/O: `QFile::open` and `readAll` in uploadFile and uploadFileSynchronous become a
  `FileRead` input.
- Cryptography, base64, UTF-8 and the XML tokenizer are uninterpreted functions of `Library`.
  The decoded account key is not checked for valid base64, as in the source.
- StorageClient.Client.DownloadFileRequest and StorageClient.Client.DownloadFile: the URL is
  left open (`url == None`), because the five-argument generateUrl call at line 189 does not
  line up with its six parameters. The timeout has no effect.
- StorageClient.Client.CreateContainerRequest and StorageClient.Client.CreateContainer: the URL
  is left open (`url == None`), because of the five-argument generateUrl call at line 223. The
  timeout has no effect.
- StorageClient.Client.DeleteContainerRequest and StorageClient.Client.DeleteContainer: the URL
  is left open (`url == None`), because of the five-argument generateUrl call at line 262. The
  timeout has no effect.
- StorageClient.Client.UploadRequest and StorageClient.Client.UploadFileQByteArray: the URL is
  left open (`url == None`), because of the five-argument generateUrl call at line 299. The
  timeout has no effect.
- StorageClient.Client.UploadFileRequest and StorageClient.Client.UploadFile: the URL is left
  open (`url == None`), as for UploadRequest, which they send.
- StorageClient.Client.DeleteFileRequest and StorageClient.Client.DeleteFile: the URL is left
  open (`url == None`), because of the five-argument generateUrl call at line 358. The timeout
  has no effect.
- The header lib/include/QAzureStorageRestApi.h (lines 142-143) declares a four-parameter
  generateUrl, so what those five-argument calls bind to is not fixed by the sources.
- The x-ms-lease-id header is sent but not signed, as in the source. The resulting signature
  mismatch at the service is not modelled.
- Logging (qDebug, qWarning) is not modelled.
- The try/catch around the listing decoders: the model's decoder does not throw, so that path
  does not exist in it.
- The declarations in lib/include/QAzureStorageRestApi.h differ from the .cpp (return types,
  timeout units, default arguments). The model follows the .cpp and takes only the API version
  constant from the header (line 177).
- QObject parenting, object lifetime and the manager's ownership are not modelled, apart from
  the count of deleteLater calls in StorageClient.Await.
