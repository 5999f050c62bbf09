/**
  The Shared Key authorization scheme of Azure Storage as the client applies it: the
  canonicalized headers, the canonicalized resource, the fourteen-line string to sign and
  the "SharedKey <account>:<signature>" header value. These functions are the reference
  the client's signing methods are proved against; the lemmas say how the service can
  read the string to sign back line by line.
*/
module SharedKey {
  import opened Platform
  import QtText

  // ---------------------------------------------------------------- lines

  /** The lines joined by "\n", with no newline after the last one. */
  function JoinLines(fs: seq<string>): string
    decreases |fs|
  {
    if |fs| == 0 then "" else if |fs| == 1 then fs[0] else fs[0] + "\n" + JoinLines(fs[1..])
  }

  /** Every line followed by "\n". */
  function Terminated(xs: seq<string>): string
    decreases |xs|
  {
    if xs == [] then "" else Terminated(xs[..|xs| - 1]) + xs[|xs| - 1] + "\n"
  }

  /** Every line preceded by "\n". */
  function Prefixed(xs: seq<string>): string
    decreases |xs|
  {
    if xs == [] then "" else Prefixed(xs[..|xs| - 1]) + "\n" + xs[|xs| - 1]
  }

  /** The reader's view: a string cut at every "\n" (always at least one line). */
  function SplitLines(s: string): (r: seq<string>)
    ensures |r| >= 1
    decreases |s|
  {
    if s == [] then [""]
    else if s[0] == '\n' then [""] + SplitLines(s[1..])
    else
      var t := SplitLines(s[1..]);
      [[s[0]] + t[0]] + t[1..]
  }

  predicate OneLine(s: string) {
    '\n' !in s
  }

  predicate AllOneLine(xs: seq<string>) {
    forall i :: 0 <= i < |xs| ==> OneLine(xs[i])
  }

  lemma {:induction false} SplitOneLine(s: string)
    requires OneLine(s)
    ensures SplitLines(s) == [s]
    decreases |s|
  {
    if s != [] {
      assert OneLine(s[1..]) by { assert forall c :: c in s[1..] ==> c in s; }
      SplitOneLine(s[1..]);
      assert [s[0]] + s[1..] == s;
    }
  }

  lemma {:induction false} SplitAppend(a: string, b: string)
    ensures SplitLines(a + "\n" + b) == SplitLines(a) + SplitLines(b)
    decreases |a|
  {
    var s := a + "\n" + b;
    if a == [] {
      assert s == "\n" + b;
      assert s[1..] == b;
    } else {
      assert s[0] == a[0];
      assert s[1..] == a[1..] + "\n" + b;
      SplitAppend(a[1..], b);
    }
  }

  lemma {:induction false} JoinSnoc(xs: seq<string>, y: string)
    ensures JoinLines(xs + [y]) == Terminated(xs) + y
    decreases |xs|
  {
    if xs != [] {
      var t := xs[1..];
      assert (xs + [y])[1..] == t + [y];
      JoinSnoc(t, y);
      TerminatedCons(xs[0], t);
      assert xs == [xs[0]] + t;
    }
  }

  /** Appending one line and its newline extends the terminated lines by that line. */
  lemma TerminatedSnoc(xs: seq<string>, x: string)
    ensures Terminated(xs + [x]) == Terminated(xs) + x + "\n"
  {
    assert (xs + [x])[..|xs|] == xs;
  }

  /** Appending one line after a newline extends the prefixed lines by that line. */
  lemma PrefixedSnoc(xs: seq<string>, x: string)
    ensures Prefixed(xs + [x]) == Prefixed(xs) + "\n" + x
  {
    assert (xs + [x])[..|xs|] == xs;
  }

  lemma {:induction false} TerminatedCons(x: string, xs: seq<string>)
    ensures Terminated([x] + xs) == x + "\n" + Terminated(xs)
    decreases |xs|
  {
    if xs != [] {
      var last := xs[|xs| - 1];
      var init := xs[..|xs| - 1];
      assert ([x] + xs)[..|xs|] == [x] + init;
      TerminatedCons(x, init);
    }
  }

  lemma {:induction false} TerminatedSplit(xs: seq<string>, s: string)
    requires AllOneLine(xs)
    ensures SplitLines(Terminated(xs) + s) == xs + SplitLines(s)
    decreases |xs|
  {
    if xs != [] {
      var init, x := xs[..|xs| - 1], xs[|xs| - 1];
      assert AllOneLine(init);
      assert Terminated(xs) + s == Terminated(init) + (x + "\n" + s);
      TerminatedSplit(init, x + "\n" + s);
      SplitAppend(x, s);
      SplitOneLine(x);
      var rest := SplitLines(s);
      assert SplitLines(Terminated(xs) + s) == init + ([x] + rest);
      assert init + ([x] + rest) == xs + rest by {
        assert xs == init + [x];
        assert init + ([x] + rest) == (init + [x]) + rest;
      }
    } else {
      assert Terminated(xs) + s == s;
    }
  }

  lemma {:induction false} PrefixedSplit(p: string, xs: seq<string>)
    requires AllOneLine(xs)
    ensures SplitLines(p + Prefixed(xs)) == SplitLines(p) + xs
    decreases |xs|
  {
    if xs != [] {
      var init, x := xs[..|xs| - 1], xs[|xs| - 1];
      assert AllOneLine(init);
      assert p + Prefixed(xs) == (p + Prefixed(init)) + "\n" + x;
      SplitAppend(p + Prefixed(init), x);
      PrefixedSplit(p, init);
      SplitOneLine(x);
      assert SplitLines(p + Prefixed(xs)) == (SplitLines(p) + init) + [x];
      assert init + [x] == xs;
    } else {
      assert p + Prefixed(xs) == p;
    }
  }

  /** Joined lines without line breaks of their own are recovered exactly. */
  lemma {:induction false} SplitJoin(fs: seq<string>)
    requires |fs| >= 1 && AllOneLine(fs)
    ensures SplitLines(JoinLines(fs)) == fs
  {
    var init, last := fs[..|fs| - 1], fs[|fs| - 1];
    assert fs == init + [last];
    JoinSnoc(init, last);
    assert AllOneLine(init);
    TerminatedSplit(init, last);
    SplitOneLine(last);
  }

  // ---------------------------------------------------------------- the canonical strings

  /** The canonicalized headers: each extra header and a newline, then the date and the version. */
  function CanonicalHeaders(extra: seq<string>, date: string, version: string): string {
    Terminated(extra) + "x-ms-date:" + date + "\n" + "x-ms-version:" + version
  }

  /** "/<account>/<container>", then "/<encoded blob>" when a blob is named. */
  function ResourcePath(lib: Library, account: string, container: string, blob: string): string {
    if blob == "" then "/" + account + "/" + container
    else "/" + account + "/" + container + "/" + QtText.EncodePath(lib, blob)
  }

  /** The canonicalized resource: the path, then "\n" and each extra resource in the caller's order. */
  function CanonicalResource(lib: Library, account: string, container: string, blob: string, extra: seq<string>): string {
    ResourcePath(lib, account, container, blob) + Prefixed(extra)
  }

  /** The content-length line: empty for zero, the decimal length otherwise. */
  function ContentLengthField(n: int): string {
    if n == 0 then "" else QtText.Number(n)
  }

  /** The twelve fixed lines: the verb, the content length and ten empty standard headers. */
  function FixedLines(verb: string, contentLength: int): seq<string> {
    [verb, "", "", ContentLengthField(contentLength), "", "", "", "", "", "", "", ""]
  }

  /** The string to sign: the fourteen fields, one per line, no newline at the end. */
  function StringToSign(verb: string, contentLength: int, headers: string, resource: string): string {
    JoinLines(FixedLines(verb, contentLength) + [headers, resource])
  }

  /**
    The header value: the account name and the base64 of HMAC-SHA256 over the UTF-8 string to
    sign, keyed by the base64-decoded account key. The key reaches the decoder as a C string,
    so only its bytes before the first NUL count.
  */
  function Authorization(lib: Library, account: string, key: string, stringToSign: string): (r: string)
    ensures "SharedKey " + account + ":" <= r
  {
    "SharedKey " + account + ":" + lib.toBase64(lib.hmacSha256(lib.utf8(stringToSign), lib.fromBase64(QtText.UpToNul(lib.utf8(key)))))
  }

  /** A key whose UTF-8 form holds a NUL signs as the part before it. */
  lemma {:induction false} KeyCutAtNul(lib: Library, account: string, key: string, cut: string, rest: seq<byte>, stringToSign: string)
    requires lib.utf8(key) == lib.utf8(cut) + [0] + rest && 0 !in lib.utf8(cut)
    ensures Authorization(lib, account, key, stringToSign) == Authorization(lib, account, cut, stringToSign)
  {
    QtText.UpToNulCut(lib.utf8(cut), rest);
    QtText.UpToNulPrefix(lib.utf8(cut));
  }

  // ---------------------------------------------------------------- what the service reads back

  lemma {:induction false} ContentLengthFieldMeaning(n: int)
    ensures ContentLengthField(n) == "" <==> n == 0
    ensures n != 0 ==> QtText.ReadNumber(ContentLengthField(n)) == Some(n)
    ensures n > 0 ==> QtText.AllDigits(ContentLengthField(n))
  {
    if n != 0 {
      QtText.NumberRoundTrip(n);
    }
  }

  /** The canonicalized headers read back as the extra header lines, then the date line, then the version line. */
  lemma CanonicalHeaderLines(extra: seq<string>, date: string, version: string)
    requires AllOneLine(extra) && OneLine(date) && OneLine(version)
    ensures SplitLines(CanonicalHeaders(extra, date, version)) == extra + ["x-ms-date:" + date, "x-ms-version:" + version]
  {
    var d, v := "x-ms-date:" + date, "x-ms-version:" + version;
    assert OneLine(d) && OneLine(v);
    assert CanonicalHeaders(extra, date, version) == Terminated(extra) + (d + "\n" + v);
    TerminatedSplit(extra, d + "\n" + v);
    SplitAppend(d, v);
    SplitOneLine(d);
    SplitOneLine(v);
  }

  /** The canonicalized resource reads back as the path line followed by the extra resources, in order. */
  lemma CanonicalResourceLines(lib: Library, account: string, container: string, blob: string, extra: seq<string>)
    requires OneLine(account) && OneLine(container) && AllOneLine(extra)
    ensures SplitLines(CanonicalResource(lib, account, container, blob, extra)) == [ResourcePath(lib, account, container, blob)] + extra
  {
    var p := ResourcePath(lib, account, container, blob);
    QtText.EncodePathOneLine(lib, blob);
    assert OneLine(p);
    PrefixedSplit(p, extra);
    SplitOneLine(p);
  }

  /** The string to sign reads back as the twelve fixed lines, the header lines and the resource lines. */
  lemma StringToSignLines(verb: string, contentLength: int, headers: string, resource: string)
    requires OneLine(verb)
    ensures SplitLines(StringToSign(verb, contentLength, headers, resource))
         == FixedLines(verb, contentLength) + SplitLines(headers) + SplitLines(resource)
  {
    var fixed := FixedLines(verb, contentLength);
    assert OneLine(ContentLengthField(contentLength)) by {
      if contentLength > 0 {
        ContentLengthFieldMeaning(contentLength);
      } else if contentLength < 0 {
        QtText.NaturalDigitsValue(-contentLength);
        assert QtText.AllDigits(ContentLengthField(contentLength)[1..]);
      }
    }
    assert AllOneLine(fixed);
    assert fixed + [headers, resource] == (fixed + [headers]) + [resource];
    JoinSnoc(fixed + [headers], resource);
    assert Terminated(fixed + [headers]) == Terminated(fixed) + headers + "\n" by {
      assert (fixed + [headers])[..|fixed|] == fixed;
    }
    assert StringToSign(verb, contentLength, headers, resource) == Terminated(fixed) + (headers + "\n" + resource);
    TerminatedSplit(fixed, headers + "\n" + resource);
    SplitAppend(headers, resource);
  }

  // ---------------------------------------------------------------- ordering of canonical lines

  /** Lexicographic order on strings, by character code. */
  predicate LexLess(a: string, b: string)
    decreases |a|
  {
    if a == [] then b != []
    else b != [] && (a[0] < b[0] || (a[0] == b[0] && LexLess(a[1..], b[1..])))
  }

  /** The service expects canonical header and resource lines in ascending order. */
  predicate Ascending(xs: seq<string>) {
    forall i, j :: 0 <= i < j < |xs| ==> LexLess(xs[i], xs[j])
  }

  lemma {:induction false} LexLessAfterCommonPrefix(p: string, a: string, b: string)
    requires a != [] && b != [] && a[0] < b[0]
    ensures LexLess(p + a, p + b)
    decreases |p|
  {
    if p != [] {
      assert (p + a)[1..] == p[1..] + a;
      assert (p + b)[1..] == p[1..] + b;
      LexLessAfterCommonPrefix(p[1..], a, b);
    }
  }

  /** The canonical resource lines of a blob listing, with and without a marker, are in ascending order. */
  lemma ListFilesResourcesAscending(marker: string)
    ensures Ascending(["comp:list", "marker:" + marker, "restype:container"])
    ensures Ascending(["comp:list", "restype:container"])
  {
    var c, m, r := "comp:list", "marker:" + marker, "restype:container";
    assert LexLess(c, m) by { assert c[0] < m[0]; }
    assert LexLess(m, r) by { assert m[0] < r[0]; }
    assert LexLess(c, r) by { assert c[0] < r[0]; }
  }

  /** The three canonical header lines of an upload are in the order the service requires. */
  lemma UploadHeadersAscending(blobType: string, date: string, version: string)
    ensures Ascending(["x-ms-blob-type:" + blobType, "x-ms-date:" + date, "x-ms-version:" + version])
  {
    var b, d, v := "x-ms-blob-type:" + blobType, "x-ms-date:" + date, "x-ms-version:" + version;
    assert b == "x-ms-" + ("blob-type:" + blobType);
    assert d == "x-ms-" + ("date:" + date);
    assert v == "x-ms-" + ("version:" + version);
    LexLessAfterCommonPrefix("x-ms-", "blob-type:" + blobType, "date:" + date);
    LexLessAfterCommonPrefix("x-ms-", "blob-type:" + blobType, "version:" + version);
    LexLessAfterCommonPrefix("x-ms-", "date:" + date, "version:" + version);
  }
}
