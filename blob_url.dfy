/**
  The URLs the client addresses: the blob endpoint of the account, the container, the
  percent-encoded blob name and the query the client appends. The query is modelled as the
  client writes it, not as the service documents it: its pieces follow each other with no
  separator, a "?" comes after them, and a SAS credential contributes the text QString::append
  produces for a bool rather than the credential itself.
*/
module BlobUrl {
  import opened Platform
  import QtText

  /** "https://<account>.blob.core.windows.net/" */
  function Endpoint(account: string): string {
    "https://" + account + ".blob.core.windows.net/"
  }

  /** The endpoint, the container and, when a blob is named, "/" and its encoded name. */
  function UrlPath(lib: Library, account: string, container: string, blob: string): string {
    Endpoint(account) + container + (if blob == "" then "" else "/" + QtText.EncodePath(lib, blob))
  }

  /** The condition under which generateUrl writes a query at all. */
  predicate HasQuery(additional: string, marker: string, timeout: int, sas: string) {
    additional != "" || marker != "" || timeout > 0 || sas != ""
  }

  /** QString::contains: t occurs somewhere in s. */
  predicate Contains(s: string, t: string)
    decreases |s|
  {
    t <= s || (s != [] && Contains(s[1..], t))
  }

  /** The SAS piece: the bool `sas.contains(sas)` handed to QString::append. */
  function SasPiece(lib: Library, sas: string): string {
    lib.appendBool(Contains(sas, sas))
  }

  const MarkerKey := "marker="
  const TimeoutKey := "timeout="

  /** The marker piece: "marker=" and the marker, when there is one. */
  function MarkerPiece(marker: string): string {
    if marker != "" then MarkerKey + marker else ""
  }

  /** The timeout piece: "timeout=" and the decimal timeout, when it is positive. */
  function TimeoutPiece(timeout: int): string {
    if timeout > 0 then TimeoutKey + QtText.Number(timeout) else ""
  }

  /** The SAS piece, when a SAS credential is held. */
  function SasPart(lib: Library, sas: string): string {
    if sas != "" then SasPiece(lib, sas) else ""
  }

  /** The query pieces in the order generateUrl appends them, without separators. */
  function QueryPieces(lib: Library, additional: string, marker: string, timeout: int, sas: string): string {
    (if additional != "" then additional else "") + MarkerPiece(marker) + TimeoutPiece(timeout) + SasPart(lib, sas)
  }

  /** The URL generateUrl returns. */
  function Url(lib: Library, account: string, container: string, blob: string,
               additional: string, marker: string, timeout: int, sas: string): string
  {
    UrlPath(lib, account, container, blob)
      + (if HasQuery(additional, marker, timeout, sas) then QueryPieces(lib, additional, marker, timeout, sas) + "?" else "")
  }

  /** The parameters listFiles hands to generateUrl: the prefix is written a second time where the page size belongs. */
  const ListFilesQuery := "restype=container&comp=list"
  const PrefixParam := "&prefix="
  const MaxResultsParam := "&maxresults="

  function ListFilesParams(prefix: string, maxResults: int): string {
    ListFilesQuery
      + (if prefix != "" then PrefixParam + prefix else "")
      + (if maxResults > 0 then MaxResultsParam + prefix else "")
  }

  // ---------------------------------------------------------------- what the URL holds

  lemma ContainsSelf(s: string)
    ensures Contains(s, s)
  {
  }

  /** Every non-empty SAS credential contributes the same piece: the text of `true`. */
  lemma SasPieceIsTrue(lib: Library, sas: string)
    ensures SasPiece(lib, sas) == lib.appendBool(true)
  {
    ContainsSelf(sas);
  }

  /** The SAS text never reaches the URL: two non-empty credentials give the same URL. */
  lemma UrlIgnoresSasText(lib: Library, account: string, container: string, blob: string,
                          additional: string, marker: string, timeout: int, sas1: string, sas2: string)
    requires sas1 != "" && sas2 != ""
    ensures Url(lib, account, container, blob, additional, marker, timeout, sas1)
         == Url(lib, account, container, blob, additional, marker, timeout, sas2)
  {
    SasPieceIsTrue(lib, sas1);
    SasPieceIsTrue(lib, sas2);
  }

  /**
    The URL starts with the endpoint and the container, then the encoded blob exactly when
    one is named, and has a query, closed by "?", exactly when there is something to put in it.
  */
  lemma UrlLayout(lib: Library, account: string, container: string, blob: string,
                  additional: string, marker: string, timeout: int, sas: string)
    ensures var url := Url(lib, account, container, blob, additional, marker, timeout, sas);
      && Endpoint(account) + container <= url
      && (blob != "" ==> Endpoint(account) + container + "/" + QtText.EncodePath(lib, blob) <= url)
      && (blob == "" ==> UrlPath(lib, account, container, blob) == Endpoint(account) + container)
      && (HasQuery(additional, marker, timeout, sas) <==> |url| > |UrlPath(lib, account, container, blob)|)
      && (HasQuery(additional, marker, timeout, sas) ==> url[|url| - 1] == '?')
      && (!HasQuery(additional, marker, timeout, sas) ==> url == UrlPath(lib, account, container, blob))
  {
    var path := UrlPath(lib, account, container, blob);
    var url := Url(lib, account, container, blob, additional, marker, timeout, sas);
    assert path <= url;
    assert Endpoint(account) + container <= path;
    if blob != "" {
      assert path == Endpoint(account) + container + "/" + QtText.EncodePath(lib, blob);
    }
  }

  /**
    A positive timeout is written after the path, the additional parameters and the marker
    piece as "timeout=" and decimal digits that read back as the timeout; what follows is the
    SAS piece, if any, and the final "?".
  */
  lemma TimeoutReadsBack(lib: Library, account: string, container: string, blob: string,
                         additional: string, marker: string, timeout: int, sas: string)
    requires timeout > 0
    ensures var url := Url(lib, account, container, blob, additional, marker, timeout, sas);
      var start := |UrlPath(lib, account, container, blob)| + |additional| + |MarkerPiece(marker)| + |TimeoutKey|;
      var end := |url| - |SasPart(lib, sas)| - 1;
      && start <= end
      && url[start - |TimeoutKey|..start] == TimeoutKey
      && QtText.ReadNumber(url[start..end]) == Some(timeout)
      && url[end..] == SasPart(lib, sas) + "?"
  {
    var front := UrlPath(lib, account, container, blob) + additional + MarkerPiece(marker);
    var digits, tail := QtText.Number(timeout), SasPart(lib, sas) + "?";
    TimeoutLayout(lib, account, container, blob, additional, marker, timeout, sas);
    ThreeSlices(front, TimeoutKey, digits, tail);
    QtText.NumberRoundTrip(timeout);
  }

  /** With a positive timeout, the URL is the path followed by the four query pieces and "?". */
  lemma TimeoutLayout(lib: Library, account: string, container: string, blob: string,
                      additional: string, marker: string, timeout: int, sas: string)
    requires timeout > 0
    ensures Url(lib, account, container, blob, additional, marker, timeout, sas)
         == UrlPath(lib, account, container, blob) + additional + MarkerPiece(marker)
            + TimeoutKey + QtText.Number(timeout) + (SasPart(lib, sas) + "?")
  {
    var path, m, digits, sp := UrlPath(lib, account, container, blob), MarkerPiece(marker), QtText.Number(timeout), SasPart(lib, sas);
    assert QueryPieces(lib, additional, marker, timeout, sas) == additional + m + (TimeoutKey + digits) + sp;
    Regroup(path, additional, m, TimeoutKey, digits, sp, "?");
  }

  /** Regrouping a seven-part concatenation. */
  lemma Regroup(p: string, a: string, m: string, k: string, n: string, s: string, q: string)
    ensures p + (a + m + (k + n) + s) + q == p + a + m + k + n + (s + q)
  {
  }

  /** The slices of a four-part string. */
  lemma ThreeSlices(a: string, b: string, c: string, d: string)
    ensures var s := a + b + c + d;
      && |s| == |a| + |b| + |c| + |d|
      && s[|a|..|a| + |b|] == b
      && s[|a| + |b|..|s| - |d|] == c
      && s[|s| - |d|..] == d
  {
    var s := a + b + c + d;
    assert s == (a + b) + c + d;
    assert s[|a|..|a| + |b|] == b;
    assert s[|a| + |b|..|s| - |d|] == c;
  }

  /** The middle part of a three-part string sits where its length says. */
  lemma Middle(a: string, b: string, c: string)
    ensures (a + b + c)[|a|..|a| + |b|] == b
    ensures a + (b + c) == a + b + c
  {
  }

  /** An encoded blob name never holds a "?", so the query cannot start inside it. */
  lemma EncodedBlobHasNoQuestionMark(lib: Library, blob: string)
    ensures '?' !in QtText.EncodePath(lib, blob)
  {
    QtText.PercentEncodeAlphabet(lib.utf8(blob), {QtText.Slash});
  }

  /** The encoded blob name decodes back to the UTF-8 bytes of the name. */
  lemma BlobNameRoundTrip(lib: Library, blob: string)
    ensures QtText.PercentDecode(QtText.EncodePath(lib, blob)) == Some(lib.utf8(blob))
  {
    QtText.PercentRoundTrip(lib.utf8(blob), {QtText.Slash});
  }

  /**
    The listFiles parameters carry the prefix where the page size belongs: any positive page
    size gives the same string, which ends in "&maxresults=" and the prefix.
  */
  lemma ListFilesPageSizeIgnored(prefix: string, m1: int, m2: int)
    requires m1 > 0 && m2 > 0
    ensures ListFilesParams(prefix, m1) == ListFilesParams(prefix, m2)
    ensures var p := ListFilesParams(prefix, m1);
      |p| >= |MaxResultsParam + prefix| && p[|p| - |MaxResultsParam + prefix|..] == MaxResultsParam + prefix
  {
    var p := ListFilesParams(prefix, m1);
    var tail := MaxResultsParam + prefix;
    var head := ListFilesQuery + (if prefix != "" then PrefixParam + prefix else "");
    assert p == head + tail;
    assert p[|head|..] == tail;
  }
}
