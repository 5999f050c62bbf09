/**
  The decoder of the XML listings the service answers to "List Containers" and "List Blobs"
  (parseObjectList, reached through parseContainerList and parseFileList).

  The stream reader is the token sequence a QXmlStreamReader delivers: all of it, up to and
  including the token after which atEnd() holds. Reading further yields Invalid, as the reader
  does once it is at the end or has failed. A cursor `n` counts the tokens read so far, so the
  reader's tokenType() is the token at index n - 1.

  The functions below follow the loops of the decoder one iteration per call; they are the
  specification the imperative decoder is proved against.
*/
module ObjectList {
  import opened Platform

  const PropertiesName := "Properties"
  const NextMarkerName := "NextMarker"

  /** The token at index i, or Invalid when the reader has run out. */
  function Tok(toks: seq<Token>, i: int): Token {
    if 0 <= i < |toks| then toks[i] else Invalid
  }

  /** atEnd(): every token has been delivered. */
  predicate AtEnd(toks: seq<Token>, n: nat) {
    n >= |toks|
  }

  /** hasError(): the last token read was Invalid. */
  predicate HasError(toks: seq<Token>, n: nat) {
    n > 0 && Tok(toks, n - 1) == Invalid
  }

  /** The condition of the loops that run to a closing tag: neither that tag nor Invalid is current. */
  predicate Open(t: Token, name: string) {
    t != EndElement(name) && t != Invalid
  }

  /** What reading one field yields. */
  datatype FieldStep = Field(key: string, content: string, next: nat) | BadField

  /** What reading one object yields. */
  datatype ObjectStep = Closed(obj: map<string, string>, next: nat) | Aborted

  /** The result of the decoder: the records and the NextMarker out-parameter (None when the caller passes no place for it). */
  datatype Listing = Listing(objs: seq<map<string, string>>, marker: Option<string>)

  /** Start elements that follow each other before any text: the innermost name becomes the key. */
  function Nested(toks: seq<Token>, n: nat, key: string): (r: (string, nat))
    requires n >= 1
    ensures r.1 >= n
    ensures r.1 > n ==> r.1 <= |toks| + 1
    decreases |toks| + 1 - n
  {
    var t := Tok(toks, n - 1);
    if t.StartElement? then Nested(toks, n + 1, t.name) else (key, n)
  }

  /**
    A field whose start element for `key` is the current token: read one token, take the
    innermost of any nested start elements as the key, then the text, or "" for an element
    closed at once. Any other token makes the whole decode fail.
  */
  function ReadField(toks: seq<Token>, n: nat, key: string): (r: FieldStep)
    requires n >= 1
    ensures r.Field? ==> n < r.next <= |toks|
  {
    var (k, m) := Nested(toks, n + 1, key);
    var t := Tok(toks, m - 1);
    if t.Characters? then Field(k, t.text, m)
    else if t.EndElement? then Field(k, "", m)
    else BadField
  }

  /** The loop over the inside of one object, from the current token up to the object's end tag. */
  function ObjectLoop(toks: seq<Token>, n: nat, tag: string, obj: map<string, string>): (r: ObjectStep)
    requires n >= 1
    ensures r.Closed? ==> n <= r.next
    ensures r.Closed? && n <= |toks| + 1 ==> r.next <= |toks| + 1
    decreases |toks| + 1 - n
  {
    if !Open(Tok(toks, n - 1), tag) then Closed(obj, n)
    else
      var t := Tok(toks, n);
      if t.StartElement? && t.name != PropertiesName then
        match ReadField(toks, n + 1, t.name)
        case BadField => Aborted
        case Field(k, c, m) => ObjectLoop(toks, m, tag, obj[k := c])
      else ObjectLoop(toks, n + 1, tag, obj)
  }

  /** The loop inside a NextMarker element: the last text before its end tag wins. */
  function MarkerLoop(toks: seq<Token>, n: nat, marker: string): (r: (string, nat))
    requires n >= 1
    ensures n <= r.1
    ensures n <= |toks| + 1 ==> r.1 <= |toks| + 1
    decreases |toks| + 1 - n
  {
    if !Open(Tok(toks, n - 1), NextMarkerName) then (marker, n)
    else
      var t := Tok(toks, n);
      MarkerLoop(toks, n + 1, if t.Characters? then t.text else marker)
  }

  /** The outer loop over the document, from n tokens read, with the records decoded so far. */
  function Outer(toks: seq<Token>, n: nat, tag: string, objs: seq<map<string, string>>, marker: Option<string>): (r: Listing)
    ensures r.marker.Some? <==> marker.Some?
    decreases |toks| - n
  {
    if AtEnd(toks, n) || HasError(toks, n) then Listing(objs, marker)
    else
      var t := toks[n];
      if t == StartElement(tag) then
        match ObjectLoop(toks, n + 1, tag, map[])
        case Aborted => Listing([], marker)
        case Closed(obj, m) => Outer(toks, m, tag, objs + [obj], marker)
      else if marker.Some? && t == StartElement(NextMarkerName) then
        var (v, m) := MarkerLoop(toks, n + 1, marker.value);
        Outer(toks, m, tag, objs, Some(v))
      else Outer(toks, n + 1, tag, objs, marker)
  }

  /** The whole decode of a token sequence for records named `tag`. */
  function DecodeListing(tag: string, toks: seq<Token>, marker: Option<string>): (r: Listing)
    ensures r.marker.Some? <==> marker.Some?
  {
    Outer(toks, 0, tag, [], marker)
  }

  /**
    parseObjectList: the records named `tag` of an XML listing, one map per record, and the
    NextMarker text when the caller passes somewhere to put it.
  */
  method ParseObjectList(lib: Library, tag: string, data: seq<byte>, nextMarker: Option<string>)
    returns (objs: seq<map<string, string>>, marker: Option<string>)
    ensures Listing(objs, marker) == DecodeListing(tag, lib.xmlTokens(data), nextMarker)
  {
    var toks := lib.xmlTokens(data);
    objs, marker := [], nextMarker;
    var n: nat := 0;
    while !AtEnd(toks, n) && !HasError(toks, n)
      invariant n <= |toks| + 1
      invariant Outer(toks, n, tag, objs, marker) == DecodeListing(tag, toks, nextMarker)
      decreases |toks| + 1 - n
    {
      ghost var n0 := n;
      var token := toks[n];
      n := n + 1;
      if token == StartElement(tag) {
        var obj: map<string, string> := map[];
        while Open(Tok(toks, n - 1), tag)
          invariant n0 + 1 <= n <= |toks| + 1
          invariant ObjectLoop(toks, n, tag, obj) == ObjectLoop(toks, n0 + 1, tag, map[])
          decreases |toks| + 1 - n
        {
          ghost var n1 := n;
          var t := Tok(toks, n);
          n := n + 1;
          if t.StartElement? && t.name != PropertiesName {
            var key := t.name;
            var content := "";
            n := n + 1;
            while Tok(toks, n - 1).StartElement?
              invariant n1 + 2 <= n <= |toks| + 1
              invariant Nested(toks, n, key) == Nested(toks, n1 + 2, t.name)
              decreases |toks| + 1 - n
            {
              key := Tok(toks, n - 1).name;
              n := n + 1;
            }
            var cur := Tok(toks, n - 1);
            if cur.Characters? {
              content := cur.text;
            } else if !cur.EndElement? {
              assert ReadField(toks, n1 + 1, t.name) == BadField;
              return [], marker;
            }
            assert ReadField(toks, n1 + 1, t.name) == Field(key, content, n);
            obj := obj[key := content];
          }
        }
        objs := objs + [obj];
      } else if marker.Some? && token == StartElement(NextMarkerName) {
        var text := marker.value;
        while Open(Tok(toks, n - 1), NextMarkerName)
          invariant n0 + 1 <= n <= |toks| + 1
          invariant MarkerLoop(toks, n, text) == MarkerLoop(toks, n0 + 1, marker.value)
          decreases |toks| + 1 - n
        {
          var t := Tok(toks, n);
          n := n + 1;
          if t.Characters? {
            text := t.text;
          }
        }
        marker := Some(text);
      }
    }
  }

  /** parseContainerList: the records of a "List Containers" answer. */
  method ParseContainerList(lib: Library, data: seq<byte>, nextMarker: Option<string>)
    returns (objs: seq<map<string, string>>, marker: Option<string>)
    ensures Listing(objs, marker) == DecodeListing("Container", lib.xmlTokens(data), nextMarker)
  {
    objs, marker := ParseObjectList(lib, "Container", data, nextMarker);
  }

  /** parseFileList: the records of a "List Blobs" answer. */
  method ParseFileList(lib: Library, data: seq<byte>, nextMarker: Option<string>)
    returns (objs: seq<map<string, string>>, marker: Option<string>)
    ensures Listing(objs, marker) == DecodeListing("Blob", lib.xmlTokens(data), nextMarker)
  {
    objs, marker := ParseObjectList(lib, "Blob", data, nextMarker);
  }
}
