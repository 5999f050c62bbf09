/**
  What the listing decoder promises, stated against documents built from records.

  A record is a sequence of entries: a leaf field (a path of nested element names closing
  over one text, "" for an element closed at once), whitespace text, or the start or end tag
  of a Properties element. A listing document wraps the records in the service's own frame,
  with any head elements before the collection (Prefix, Marker, MaxResults and the like), and
  ends with a NextMarker element. The main lemma says the decoder returns one map per
  record, in document order, with the innermost name of each leaf as its key, the last
  value of a repeated key, and the NextMarker text when the caller asked for it.
*/
module ObjectListProperties {
  import opened Platform
  import opened ObjectList

  // ---------------------------------------------------------------- token layout

  /** The tokens ts sit in toks from index n on. */
  predicate At(toks: seq<Token>, n: nat, ts: seq<Token>)
    decreases |ts|
  {
    n + |ts| <= |toks| && (ts == [] || (toks[n] == ts[0] && At(toks, n + 1, ts[1..])))
  }

  lemma {:induction false} AtWhole(toks: seq<Token>, n: nat)
    requires n <= |toks|
    ensures At(toks, n, toks[n..])
    decreases |toks| - n
  {
    if n < |toks| {
      AtWhole(toks, n + 1);
      assert toks[n..][1..] == toks[n + 1..];
    }
  }

  lemma {:induction false} AtSplit(toks: seq<Token>, n: nat, a: seq<Token>, b: seq<Token>)
    requires At(toks, n, a + b)
    ensures At(toks, n, a) && At(toks, n + |a|, b)
    decreases |a|
  {
    if a == [] {
      assert a + b == b;
    } else {
      assert (a + b)[0] == a[0];
      assert (a + b)[1..] == a[1..] + b;
      AtSplit(toks, n + 1, a[1..], b);
    }
  }

  lemma TwoParts(toks: seq<Token>, n: nat, a: seq<Token>, b: seq<Token>, pb: nat)
    requires At(toks, n, a + b) && pb == n + |a|
    ensures At(toks, n, a) && At(toks, pb, b)
  {
    AtSplit(toks, n, a, b);
  }

  lemma {:induction false} AtIndex(toks: seq<Token>, n: nat, ts: seq<Token>, i: nat)
    requires At(toks, n, ts) && i < |ts|
    ensures toks[n + i] == ts[i] && Tok(toks, n + i) == ts[i]
    decreases i
  {
    if i > 0 {
      AtIndex(toks, n + 1, ts[1..], i - 1);
    }
  }

  function Starts(names: seq<string>): (r: seq<Token>)
    ensures |r| == |names|
    decreases |names|
  {
    if names == [] then [] else [StartElement(names[0])] + Starts(names[1..])
  }

  /** The end tags of nested elements, innermost first. */
  function Ends(names: seq<string>): (r: seq<Token>)
    ensures |r| == |names|
    decreases |names|
  {
    if names == [] then [] else [EndElement(names[|names| - 1])] + Ends(names[..|names| - 1])
  }

  function TextTokens(text: string): seq<Token> {
    if text == "" then [] else [Characters(text)]
  }

  datatype Entry =
    | Leaf(path: seq<string>, text: string)
    | Space(blank: string)
    | OpenProperties
    | CloseProperties

  function LeafTokens(path: seq<string>, text: string): seq<Token> {
    Starts(path) + TextTokens(text) + Ends(path)
  }

  function EntryTokens(e: Entry): seq<Token> {
    match e
    case Leaf(path, text) => LeafTokens(path, text)
    case Space(blank) => [Characters(blank)]
    case OpenProperties => [StartElement(PropertiesName)]
    case CloseProperties => [EndElement(PropertiesName)]
  }

  function EntriesTokens(es: seq<Entry>): seq<Token>
    decreases |es|
  {
    if es == [] then [] else EntryTokens(es[0]) + EntriesTokens(es[1..])
  }

  function RecordTokens(tag: string, es: seq<Entry>): seq<Token> {
    [StartElement(tag)] + EntriesTokens(es) + [EndElement(tag)]
  }

  function RecordsTokens(tag: string, rs: seq<seq<Entry>>): seq<Token>
    decreases |rs|
  {
    if rs == [] then [] else RecordTokens(tag, rs[0]) + RecordsTokens(tag, rs[1..])
  }

  function MarkerTokens(marker: string): seq<Token> {
    [StartElement(NextMarkerName)] + TextTokens(marker) + [EndElement(NextMarkerName)]
  }

  const ResultsName := "EnumerationResults"

  /**
    A token the outer loop passes over whatever the caller asked for: the elements the service
    writes before the collection (Prefix, Marker, MaxResults, their text) are of this kind.
  */
  predicate FrameToken(t: Token, tag: string) {
    t != Invalid && t != StartElement(tag) && t != StartElement(NextMarkerName)
  }

  predicate GoodHead(head: seq<Token>, tag: string) {
    forall i :: 0 <= i < |head| ==> FrameToken(head[i], tag)
  }

  /** The start of a listing: the document start, the results element, any head elements, the collection. */
  function Opening(collection: string, head: seq<Token>): seq<Token> {
    [Other, StartElement(ResultsName)] + head + [StartElement(collection)]
  }

  /** A listing as the service writes it: the records inside a collection element, then NextMarker. */
  function Document(tag: string, collection: string, head: seq<Token>, rs: seq<seq<Entry>>, marker: string): seq<Token> {
    Opening(collection, head)
      + RecordsTokens(tag, rs)
      + [EndElement(collection)]
      + MarkerTokens(marker)
      + [EndElement(ResultsName), Other]
  }

  // ---------------------------------------------------------------- expected records

  /** Inserting one entry into a map: a leaf sets its innermost name to its text. */
  function Insert(obj: map<string, string>, e: Entry): map<string, string> {
    if e.Leaf? && |e.path| > 0 then obj[e.path[|e.path| - 1] := e.text] else obj
  }

  function Apply(obj: map<string, string>, es: seq<Entry>): map<string, string>
    decreases |es|
  {
    if es == [] then obj else Apply(Insert(obj, es[0]), es[1..])
  }

  function RecordMap(es: seq<Entry>): map<string, string> {
    Apply(map[], es)
  }

  function Maps(rs: seq<seq<Entry>>): (r: seq<map<string, string>>)
    ensures |r| == |rs|
    decreases |rs|
  {
    if rs == [] then [] else [RecordMap(rs[0])] + Maps(rs[1..])
  }

  /** Leaves have a path, no name inside a record is the record tag, and a leaf does not open Properties. */
  predicate GoodEntry(e: Entry, tag: string) {
    e.Leaf? ==>
      |e.path| >= 1 && e.path[0] != PropertiesName && forall i :: 0 <= i < |e.path| ==> e.path[i] != tag
  }

  predicate GoodRecord(es: seq<Entry>, tag: string) {
    forall i :: 0 <= i < |es| ==> GoodEntry(es[i], tag)
  }

  predicate GoodRecords(rs: seq<seq<Entry>>, tag: string) {
    forall i :: 0 <= i < |rs| ==> GoodRecord(rs[i], tag)
  }

  /** The names of the frame differ from the record tag and from each other where it matters. */
  predicate GoodFrame(tag: string, collection: string) {
    tag != PropertiesName && tag != NextMarkerName && tag != ResultsName && tag != collection
    && collection != NextMarkerName
  }

  // ---------------------------------------------------------------- inside one record

  /** Tokens the object loop reads past without effect. */
  predicate Inert(t: Token, tag: string) {
    match t
    case StartElement(name) => name == PropertiesName
    case EndElement(name) => name != tag
    case Characters(_) => true
    case Invalid => false
    case Other => true
  }

  lemma {:induction false} NestedStarts(toks: seq<Token>, m: nat, key: string, names: seq<string>)
    requires m >= 1 && At(toks, m - 1, Starts(names))
    requires !Tok(toks, m - 1 + |names|).StartElement?
    ensures Nested(toks, m, key) == (if names == [] then key else names[|names| - 1], m + |names|)
    decreases |names|
  {
    if names != [] {
      AtIndex(toks, m - 1, Starts(names), 0);
      assert Starts(names) == [StartElement(names[0])] + Starts(names[1..]);
      AtSplit(toks, m - 1, [StartElement(names[0])], Starts(names[1..]));
      NestedStarts(toks, m + 1, names[0], names[1..]);
    }
  }

  lemma {:induction false} SkipInert(toks: seq<Token>, n: nat, end: nat, tag: string, obj: map<string, string>, ts: seq<Token>)
    requires n >= 1 && Open(Tok(toks, n - 1), tag)
    requires At(toks, n, ts) && end == n + |ts|
    requires forall i :: 0 <= i < |ts| ==> Inert(ts[i], tag)
    ensures ObjectLoop(toks, n, tag, obj) == ObjectLoop(toks, end, tag, obj)
    ensures Open(Tok(toks, end - 1), tag)
    decreases |ts|
  {
    if ts != [] {
      AtIndex(toks, n, ts, 0);
      assert Inert(ts[0], tag);
      assert [ts[0]] + ts[1..] == ts;
      AtSplit(toks, n, [ts[0]], ts[1..]);
      SkipInert(toks, n + 1, end, tag, obj, ts[1..]);
    }
  }

  /** The start tags of a leaf, up to its text or its first end tag, make one field. */
  lemma LeafField(toks: seq<Token>, n: nat, m: nat, tag: string, obj: map<string, string>, path: seq<string>, text: string)
    requires n >= 1 && Open(Tok(toks, n - 1), tag)
    requires |path| >= 1 && path[0] != PropertiesName && path[|path| - 1] != tag
    requires At(toks, n, Starts(path)) && m == n + 1 + |path|
    requires Tok(toks, m - 1) == (if text == "" then EndElement(path[|path| - 1]) else Characters(text))
    ensures ObjectLoop(toks, n, tag, obj) == ObjectLoop(toks, m, tag, obj[path[|path| - 1] := text])
    ensures Open(Tok(toks, m - 1), tag)
  {
    var key := path[|path| - 1];
    AtIndex(toks, n, Starts(path), 0);
    assert Starts(path) == [StartElement(path[0])] + Starts(path[1..]);
    AtSplit(toks, n, [StartElement(path[0])], Starts(path[1..]));
    NestedStarts(toks, n + 2, path[0], path[1..]);
    assert Nested(toks, n + 2, path[0]) == (key, m);
    assert ReadField(toks, n + 1, path[0]) == Field(key, text, m);
  }

  lemma EndsInert(path: seq<string>, tag: string)
    requires forall i :: 0 <= i < |path| ==> path[i] != tag
    ensures forall i :: 0 <= i < |Ends(path)| ==> Inert(Ends(path)[i], tag)
  {
    var ends := Ends(path);
    forall i | 0 <= i < |ends|
      ensures Inert(ends[i], tag)
    {
      EndsIndex(path, i);
    }
  }

  lemma {:induction false} EndsIndex(names: seq<string>, i: nat)
    requires i < |names|
    ensures Ends(names)[i] == EndElement(names[|names| - 1 - i])
    decreases |names|
  {
    if i > 0 {
      EndsIndex(names[..|names| - 1], i - 1);
    }
  }

  lemma LeafStep(toks: seq<Token>, n: nat, end: nat, tag: string, obj: map<string, string>, path: seq<string>, text: string)
    requires n >= 1 && Open(Tok(toks, n - 1), tag)
    requires At(toks, n, LeafTokens(path, text)) && end == n + |LeafTokens(path, text)|
    requires GoodEntry(Leaf(path, text), tag)
    ensures ObjectLoop(toks, n, tag, obj) == ObjectLoop(toks, end, tag, obj[path[|path| - 1] := text])
    ensures Open(Tok(toks, end - 1), tag)
  {
    var k := |path|;
    var starts, body, ends := Starts(path), TextTokens(text), Ends(path);
    var obj' := obj[path[k - 1] := text];
    var m := n + 1 + k;
    AtSplit(toks, n, starts + body, ends);
    AtSplit(toks, n, starts, body);
    if text == "" {
      AtIndex(toks, n + k, ends, 0);
    } else {
      AtIndex(toks, n + k, body, 0);
    }
    LeafField(toks, n, m, tag, obj, path, text);
    EndsInert(path, tag);
    if text == "" {
      assert [ends[0]] + ends[1..] == ends;
      AtSplit(toks, n + k, [ends[0]], ends[1..]);
      SkipInert(toks, m, end, tag, obj', ends[1..]);
    } else {
      SkipInert(toks, m, end, tag, obj', ends);
    }
  }

  lemma EntryStep(toks: seq<Token>, n: nat, end: nat, tag: string, obj: map<string, string>, e: Entry)
    requires n >= 1 && Open(Tok(toks, n - 1), tag)
    requires At(toks, n, EntryTokens(e)) && end == n + |EntryTokens(e)|
    requires GoodEntry(e, tag) && tag != PropertiesName
    ensures ObjectLoop(toks, n, tag, obj) == ObjectLoop(toks, end, tag, Insert(obj, e))
    ensures Open(Tok(toks, end - 1), tag)
  {
    if e.Leaf? {
      LeafStep(toks, n, end, tag, obj, e.path, e.text);
    } else {
      SkipInert(toks, n, end, tag, obj, EntryTokens(e));
    }
  }

  /** Where the first entry and the rest of the entries sit. */
  lemma EntriesLayout(toks: seq<Token>, n: nat, mid: nat, tag: string, es: seq<Entry>)
    requires es != [] && At(toks, n, EntriesTokens(es)) && mid == n + |EntryTokens(es[0])|
    requires GoodRecord(es, tag)
    ensures At(toks, n, EntryTokens(es[0])) && At(toks, mid, EntriesTokens(es[1..]))
    ensures |EntriesTokens(es)| == |EntryTokens(es[0])| + |EntriesTokens(es[1..])|
    ensures GoodEntry(es[0], tag) && GoodRecord(es[1..], tag)
  {
    var e, rest := EntryTokens(es[0]), EntriesTokens(es[1..]);
    assert EntriesTokens(es) == e + rest;
    TwoParts(toks, n, e, rest, mid);
    GoodRecordTail(es, tag);
  }

  lemma GoodRecordTail(es: seq<Entry>, tag: string)
    requires es != [] && GoodRecord(es, tag)
    ensures GoodRecord(es[1..], tag)
  {
    forall i | 0 <= i < |es[1..]|
      ensures GoodEntry(es[1..][i], tag)
    {
      assert es[1..][i] == es[i + 1];
    }
  }

  lemma {:induction false} EntriesStep(toks: seq<Token>, n: nat, end: nat, tag: string, obj: map<string, string>, es: seq<Entry>)
    requires n >= 1 && Open(Tok(toks, n - 1), tag)
    requires At(toks, n, EntriesTokens(es)) && end == n + |EntriesTokens(es)|
    requires GoodRecord(es, tag) && tag != PropertiesName
    ensures ObjectLoop(toks, n, tag, obj) == ObjectLoop(toks, end, tag, Apply(obj, es))
    ensures Open(Tok(toks, end - 1), tag)
    decreases |es|
  {
    if es != [] {
      var mid := n + |EntryTokens(es[0])|;
      var obj' := Insert(obj, es[0]);
      EntriesLayout(toks, n, mid, tag, es);
      EntryStep(toks, n, mid, tag, obj, es[0]);
      EntriesStep(toks, mid, end, tag, obj', es[1..]);
      assert Apply(obj, es) == Apply(obj', es[1..]);
    } else {
      assert EntriesTokens(es) == [];
    }
  }

  // ---------------------------------------------------------------- the outer loop

  /** Tokens the outer loop reads past without effect. */
  predicate OuterInert(t: Token, tag: string, marker: Option<string>) {
    t != Invalid && t != StartElement(tag) && (marker.Some? ==> t != StartElement(NextMarkerName))
  }

  lemma {:induction false} OuterSkip(toks: seq<Token>, n: nat, end: nat, tag: string, objs: seq<map<string, string>>, marker: Option<string>, ts: seq<Token>)
    requires !HasError(toks, n) && At(toks, n, ts) && end == n + |ts|
    requires forall i :: 0 <= i < |ts| ==> OuterInert(ts[i], tag, marker)
    ensures Outer(toks, n, tag, objs, marker) == Outer(toks, end, tag, objs, marker)
    ensures !HasError(toks, end)
    decreases |ts|
  {
    if ts != [] {
      AtIndex(toks, n, ts, 0);
      assert OuterInert(ts[0], tag, marker);
      assert [ts[0]] + ts[1..] == ts;
      AtSplit(toks, n, [ts[0]], ts[1..]);
      OuterSkip(toks, n + 1, end, tag, objs, marker, ts[1..]);
    }
  }

  lemma RecordStep(toks: seq<Token>, n: nat, end: nat, tag: string, objs: seq<map<string, string>>, marker: Option<string>, es: seq<Entry>)
    requires !HasError(toks, n) && At(toks, n, RecordTokens(tag, es)) && end == n + |RecordTokens(tag, es)|
    requires GoodRecord(es, tag) && tag != PropertiesName
    ensures Outer(toks, n, tag, objs, marker) == Outer(toks, end, tag, objs + [RecordMap(es)], marker)
    ensures !HasError(toks, end)
  {
    var close := n + 1 + |EntriesTokens(es)|;
    RecordLayout(toks, n, close, tag, es);
    RecordInside(toks, n + 1, close, end, tag, es);
    OuterObject(toks, n, end, tag, objs, marker, RecordMap(es));
  }

  /** The object loop over the entries of a record and its end tag. */
  lemma RecordInside(toks: seq<Token>, n: nat, close: nat, end: nat, tag: string, es: seq<Entry>)
    requires n >= 1 && Tok(toks, n - 1) == StartElement(tag)
    requires At(toks, n, EntriesTokens(es)) && close == n + |EntriesTokens(es)| && Tok(toks, close) == EndElement(tag)
    requires end == close + 1
    requires GoodRecord(es, tag) && tag != PropertiesName
    ensures ObjectLoop(toks, n, tag, map[]) == Closed(RecordMap(es), end)
    ensures !HasError(toks, end)
  {
    EntriesStep(toks, n, close, tag, map[], es);
    CloseObject(toks, close, tag, RecordMap(es));
  }

  /** Where the parts of one record sit. */
  lemma RecordLayout(toks: seq<Token>, n: nat, close: nat, tag: string, es: seq<Entry>)
    requires At(toks, n, RecordTokens(tag, es)) && close == n + 1 + |EntriesTokens(es)|
    ensures n < |toks| && toks[n] == StartElement(tag) && Tok(toks, n + 1 - 1) == StartElement(tag)
    ensures At(toks, n + 1, EntriesTokens(es))
    ensures Tok(toks, close) == EndElement(tag)
    ensures |RecordTokens(tag, es)| == |EntriesTokens(es)| + 2
  {
    ThreeParts(toks, n, [StartElement(tag)], EntriesTokens(es), [EndElement(tag)], n + 1, close);
    AtIndex(toks, n, [StartElement(tag)], 0);
    AtIndex(toks, close, [EndElement(tag)], 0);
  }

  lemma ThreeParts(toks: seq<Token>, n: nat, a: seq<Token>, b: seq<Token>, c: seq<Token>, pb: nat, pc: nat)
    requires At(toks, n, a + b + c) && pb == n + |a| && pc == pb + |b|
    ensures At(toks, n, a) && At(toks, pb, b) && At(toks, pc, c)
  {
    AtSplit(toks, n, a + b, c);
    AtSplit(toks, n, a, b);
  }

  /** The end tag of an object, reached with the loop still open, closes it. */
  lemma CloseObject(toks: seq<Token>, close: nat, tag: string, obj: map<string, string>)
    requires close >= 1 && Open(Tok(toks, close - 1), tag) && Tok(toks, close) == EndElement(tag)
    ensures ObjectLoop(toks, close, tag, obj) == Closed(obj, close + 1)
    ensures !HasError(toks, close + 1)
  {
    assert ObjectLoop(toks, close, tag, obj) == ObjectLoop(toks, close + 1, tag, obj);
  }

  /** A start tag for the record name makes the outer loop append the decoded object. */
  lemma OuterObject(toks: seq<Token>, n: nat, end: nat, tag: string, objs: seq<map<string, string>>, marker: Option<string>, obj: map<string, string>)
    requires !HasError(toks, n) && n < |toks| && toks[n] == StartElement(tag)
    requires ObjectLoop(toks, n + 1, tag, map[]) == Closed(obj, end)
    ensures Outer(toks, n, tag, objs, marker) == Outer(toks, end, tag, objs + [obj], marker)
  {
  }

  lemma {:induction false} RecordsStep(toks: seq<Token>, n: nat, end: nat, tag: string, objs: seq<map<string, string>>, marker: Option<string>, rs: seq<seq<Entry>>)
    requires !HasError(toks, n) && At(toks, n, RecordsTokens(tag, rs)) && end == n + |RecordsTokens(tag, rs)|
    requires GoodRecords(rs, tag) && tag != PropertiesName
    ensures Outer(toks, n, tag, objs, marker) == Outer(toks, end, tag, objs + Maps(rs), marker)
    ensures !HasError(toks, end)
    decreases |rs|
  {
    if rs == [] {
      assert RecordsTokens(tag, rs) == [];
      assert objs + Maps(rs) == objs;
    } else {
      var mid := n + |RecordTokens(tag, rs[0])|;
      var objs' := objs + [RecordMap(rs[0])];
      RecordsLayout(toks, n, mid, tag, rs);
      RecordStep(toks, n, mid, tag, objs, marker, rs[0]);
      RecordsStep(toks, mid, end, tag, objs', marker, rs[1..]);
      MapsCons(objs, rs);
    }
  }

  /** The maps of the records after some decoded objects: the first record's, then the rest's. */
  lemma MapsCons(objs: seq<map<string, string>>, rs: seq<seq<Entry>>)
    requires rs != []
    ensures objs + [RecordMap(rs[0])] + Maps(rs[1..]) == objs + Maps(rs)
  {
    assert Maps(rs) == [RecordMap(rs[0])] + Maps(rs[1..]);
  }

  /** Where the first record and the rest of the records sit. */
  lemma RecordsLayout(toks: seq<Token>, n: nat, mid: nat, tag: string, rs: seq<seq<Entry>>)
    requires rs != [] && At(toks, n, RecordsTokens(tag, rs)) && mid == n + |RecordTokens(tag, rs[0])|
    requires GoodRecords(rs, tag)
    ensures At(toks, n, RecordTokens(tag, rs[0])) && At(toks, mid, RecordsTokens(tag, rs[1..]))
    ensures |RecordsTokens(tag, rs)| == |RecordTokens(tag, rs[0])| + |RecordsTokens(tag, rs[1..])|
    ensures GoodRecord(rs[0], tag) && GoodRecords(rs[1..], tag)
  {
    var r, rest := RecordTokens(tag, rs[0]), RecordsTokens(tag, rs[1..]);
    assert RecordsTokens(tag, rs) == r + rest;
    TwoParts(toks, n, r, rest, mid);
    GoodRecordsTail(rs, tag);
  }

  lemma GoodRecordsTail(rs: seq<seq<Entry>>, tag: string)
    requires rs != [] && GoodRecords(rs, tag)
    ensures GoodRecords(rs[1..], tag)
  {
    forall i | 0 <= i < |rs[1..]|
      ensures GoodRecord(rs[1..][i], tag)
    {
      assert rs[1..][i] == rs[i + 1];
    }
  }

  /** The text the NextMarker loop keeps: the last text among the tokens, or the old value. */
  function LastText(ts: seq<Token>, marker: string): string
    decreases |ts|
  {
    if ts == [] then marker else LastText(ts[1..], if ts[0].Characters? then ts[0].text else marker)
  }

  /** Inside NextMarker, the out-parameter ends up holding the last text before the end tag. */
  lemma {:induction false} MarkerLast(toks: seq<Token>, n: nat, end: nat, marker: string, ts: seq<Token>)
    requires n >= 1 && Open(Tok(toks, n - 1), NextMarkerName)
    requires At(toks, n, ts + [EndElement(NextMarkerName)]) && end == n + |ts| + 1
    requires forall i :: 0 <= i < |ts| ==> Open(ts[i], NextMarkerName)
    ensures MarkerLoop(toks, n, marker) == (LastText(ts, marker), end)
    decreases |ts|
  {
    AtIndex(toks, n, ts + [EndElement(NextMarkerName)], 0);
    if ts != [] {
      assert Open(ts[0], NextMarkerName);
      assert [ts[0]] + (ts[1..] + [EndElement(NextMarkerName)]) == ts + [EndElement(NextMarkerName)];
      AtSplit(toks, n, [ts[0]], ts[1..] + [EndElement(NextMarkerName)]);
      MarkerLast(toks, n + 1, end, if ts[0].Characters? then ts[0].text else marker, ts[1..]);
    }
  }

  /** The NextMarker element updates a non-null out-parameter only when it holds text. */
  function MarkerAfter(marker: Option<string>, text: string): Option<string> {
    if marker.Some? then Some(if text == "" then marker.value else text) else None
  }

  lemma MarkerStep(toks: seq<Token>, n: nat, end: nat, tag: string, objs: seq<map<string, string>>, marker: Option<string>, text: string)
    requires !HasError(toks, n) && At(toks, n, MarkerTokens(text)) && end == n + |MarkerTokens(text)|
    requires tag != NextMarkerName
    ensures Outer(toks, n, tag, objs, marker) == Outer(toks, end, tag, objs, MarkerAfter(marker, text))
    ensures !HasError(toks, end)
  {
    var body := TextTokens(text);
    var ts := MarkerTokens(text);
    AtIndex(toks, n, ts, 0);
    AtIndex(toks, n, ts, |ts| - 1);
    if marker.Some? {
      assert [StartElement(NextMarkerName)] + (body + [EndElement(NextMarkerName)]) == ts;
      AtSplit(toks, n, [StartElement(NextMarkerName)], body + [EndElement(NextMarkerName)]);
      MarkerLast(toks, n + 1, end, marker.value, body);
      assert LastText(body, marker.value) == MarkerAfter(marker, text).value;
    } else {
      OuterSkip(toks, n, end, tag, objs, marker, ts);
    }
  }

  // ---------------------------------------------------------------- the whole listing

  /**
    A listing document decodes to one map per record, in document order, and the NextMarker
    out-parameter, when there is one, ends up holding the marker's text (left as it was when
    the element is empty). Whatever head elements precede the collection are passed over.
  */
  lemma ListingRoundTrip(tag: string, collection: string, head: seq<Token>, rs: seq<seq<Entry>>, text: string, marker: Option<string>)
    requires GoodFrame(tag, collection) && GoodHead(head, tag) && GoodRecords(rs, tag)
    ensures DecodeListing(tag, Document(tag, collection, head, rs, text), marker) == Listing(Maps(rs), MarkerAfter(marker, text))
  {
    var toks := Document(tag, collection, head, rs, text);
    var p3 := |Opening(collection, head)| + |RecordsTokens(tag, rs)| + 1;
    ListingFront(toks, tag, collection, head, rs, text, marker, p3);
    ListingBack(toks, tag, collection, head, rs, text, marker, Maps(rs), p3);
  }

  /** Where the parts of a listing document sit. */
  lemma DocumentLayout(toks: seq<Token>, tag: string, collection: string, head: seq<Token>, rs: seq<seq<Entry>>, text: string,
                       p1: nat, p2: nat, p4: nat)
    requires toks == Document(tag, collection, head, rs, text)
    requires p1 == |Opening(collection, head)| && p2 == p1 + |RecordsTokens(tag, rs)| && p4 == p2 + 1 + |MarkerTokens(text)|
    ensures |toks| == p4 + 2
    ensures toks[p2] == EndElement(collection) && toks[p4] == EndElement(ResultsName) && toks[p4 + 1] == Other
    ensures At(toks, 0, Opening(collection, head)) && At(toks, p1, RecordsTokens(tag, rs)) && At(toks, p2 + 1, MarkerTokens(text))
  {
    var mid, tail := [EndElement(collection)], [EndElement(ResultsName), Other];
    DocumentParts(toks, tag, collection, head, rs, text, p1, p2, p4);
    AtIndex(toks, p2, mid, 0);
    AtIndex(toks, p4, tail, 0);
    AtIndex(toks, p4, tail, 1);
  }

  /** The five parts of a listing document, each where the lengths before it say. */
  lemma DocumentParts(toks: seq<Token>, tag: string, collection: string, head: seq<Token>, rs: seq<seq<Entry>>, text: string,
                      p1: nat, p2: nat, p4: nat)
    requires toks == Document(tag, collection, head, rs, text)
    requires p1 == |Opening(collection, head)| && p2 == p1 + |RecordsTokens(tag, rs)| && p4 == p2 + 1 + |MarkerTokens(text)|
    ensures |toks| == p4 + 2
    ensures At(toks, 0, Opening(collection, head)) && At(toks, p1, RecordsTokens(tag, rs)) && At(toks, p2 + 1, MarkerTokens(text))
    ensures At(toks, p2, [EndElement(collection)]) && At(toks, p4, [EndElement(ResultsName), Other])
  {
    var opening, records, mid := Opening(collection, head), RecordsTokens(tag, rs), [EndElement(collection)];
    var mark, tail := MarkerTokens(text), [EndElement(ResultsName), Other];
    assert toks == opening + records + mid + mark + tail;
    FiveParts(opening, records, mid, mark, tail, p1, p2, p2 + 1, p4);
  }

  lemma FiveParts(a: seq<Token>, b: seq<Token>, c: seq<Token>, d: seq<Token>, e: seq<Token>, pb: nat, pc: nat, pd: nat, pe: nat)
    requires pb == |a| && pc == pb + |b| && pd == pc + |c| && pe == pd + |d|
    ensures At(a + b + c + d + e, 0, a)
    ensures At(a + b + c + d + e, pb, b)
    ensures At(a + b + c + d + e, pc, c)
    ensures At(a + b + c + d + e, pd, d)
    ensures At(a + b + c + d + e, pe, e)
  {
    var toks := a + b + c + d + e;
    AtWhole(toks, 0);
    assert toks[0..] == toks;
    AtSplit(toks, 0, a + b + c + d, e);
    AtSplit(toks, 0, a + b + c, d);
    AtSplit(toks, 0, a + b, c);
    AtSplit(toks, 0, a, b);
  }

  /** The outer loop passes over the whole opening of a listing. */
  lemma OpeningInert(collection: string, head: seq<Token>, tag: string, marker: Option<string>)
    requires GoodFrame(tag, collection) && GoodHead(head, tag)
    ensures forall i :: 0 <= i < |Opening(collection, head)| ==> OuterInert(Opening(collection, head)[i], tag, marker)
  {
    var opening := Opening(collection, head);
    forall i | 0 <= i < |opening|
      ensures OuterInert(opening[i], tag, marker)
    {
      if 2 <= i < 2 + |head| {
        assert opening[i] == head[i - 2];
      } else if i == 2 + |head| {
        assert opening[i] == StartElement(collection);
      } else {
        assert opening[i] == [Other, StartElement(ResultsName)][i];
      }
    }
  }

  /** One token the outer loop reads past without effect. */
  lemma OuterSkipOne(toks: seq<Token>, n: nat, tag: string, objs: seq<map<string, string>>, marker: Option<string>)
    requires !HasError(toks, n) && n < |toks| && OuterInert(toks[n], tag, marker)
    ensures Outer(toks, n, tag, objs, marker) == Outer(toks, n + 1, tag, objs, marker)
    ensures !HasError(toks, n + 1)
  {
  }

  /** The opening of the frame and the records. */
  lemma ListingFront(toks: seq<Token>, tag: string, collection: string, head: seq<Token>, rs: seq<seq<Entry>>, text: string,
                     marker: Option<string>, p3: nat)
    requires GoodFrame(tag, collection) && GoodHead(head, tag) && GoodRecords(rs, tag)
    requires toks == Document(tag, collection, head, rs, text)
    requires p3 == |Opening(collection, head)| + |RecordsTokens(tag, rs)| + 1
    ensures Outer(toks, 0, tag, [], marker) == Outer(toks, p3, tag, Maps(rs), marker)
    ensures !HasError(toks, p3)
  {
    var p1 := |Opening(collection, head)|;
    var p2 := p3 - 1;
    DocumentLayout(toks, tag, collection, head, rs, text, p1, p2, p2 + 1 + |MarkerTokens(text)|);
    OpeningInert(collection, head, tag, marker);
    OuterSkip(toks, 0, p1, tag, [], marker, Opening(collection, head));
    RecordsStep(toks, p1, p2, tag, [], marker, rs);
    assert [] + Maps(rs) == Maps(rs);
    OuterSkipOne(toks, p2, tag, Maps(rs), marker);
  }

  /** The NextMarker element and the frame's end tags. */
  lemma ListingBack(toks: seq<Token>, tag: string, collection: string, head: seq<Token>, rs: seq<seq<Entry>>, text: string,
                    marker: Option<string>, objs: seq<map<string, string>>, p3: nat)
    requires GoodFrame(tag, collection)
    requires toks == Document(tag, collection, head, rs, text)
    requires p3 == |Opening(collection, head)| + |RecordsTokens(tag, rs)| + 1 && !HasError(toks, p3)
    ensures Outer(toks, p3, tag, objs, marker) == Listing(objs, MarkerAfter(marker, text))
  {
    var p4 := p3 + |MarkerTokens(text)|;
    DocumentLayout(toks, tag, collection, head, rs, text, |Opening(collection, head)|, p3 - 1, p4);
    ListingEnd(toks, tag, objs, text, marker, p3, p4);
  }

  /** From the NextMarker element on, given where it and the end tags sit. */
  lemma ListingEnd(toks: seq<Token>, tag: string, objs: seq<map<string, string>>, text: string, marker: Option<string>, p3: nat, p4: nat)
    requires tag != NextMarkerName && tag != ResultsName
    requires !HasError(toks, p3) && p4 == p3 + |MarkerTokens(text)| && |toks| == p4 + 2
    requires toks[p4] == EndElement(ResultsName) && toks[p4 + 1] == Other
    requires At(toks, p3, MarkerTokens(text))
    ensures Outer(toks, p3, tag, objs, marker) == Listing(objs, MarkerAfter(marker, text))
  {
    var after := MarkerAfter(marker, text);
    MarkerStep(toks, p3, p4, tag, objs, marker, text);
    OuterSkipOne(toks, p4, tag, objs, after);
    OuterSkipOne(toks, p4 + 1, tag, objs, after);
    assert Outer(toks, p4 + 2, tag, objs, after) == Listing(objs, after);
  }

  // ---------------------------------------------------------------- what the records hold

  lemma {:induction false} ApplySnoc(obj: map<string, string>, es: seq<Entry>, e: Entry)
    ensures Apply(obj, es + [e]) == Insert(Apply(obj, es), e)
    decreases |es|
  {
    if es != [] {
      assert (es + [e])[1..] == es[1..] + [e];
      ApplySnoc(Insert(obj, es[0]), es[1..], e);
    }
  }

  lemma {:induction false} ApplyKeeps(obj: map<string, string>, es: seq<Entry>, k: string)
    requires forall i :: 0 <= i < |es| ==> !(es[i].Leaf? && |es[i].path| > 0 && es[i].path[|es[i].path| - 1] == k)
    ensures (k in Apply(obj, es)) == (k in obj)
    ensures k in obj ==> Apply(obj, es)[k] == obj[k]
    decreases |es|
  {
    if es != [] {
      assert !(es[0].Leaf? && |es[0].path| > 0 && es[0].path[|es[0].path| - 1] == k);
      ApplyKeeps(Insert(obj, es[0]), es[1..], k);
    }
  }

  /** A repeated key keeps the value of its last field; a field closed at once stores "". */
  lemma LastFieldWins(before: seq<Entry>, path: seq<string>, text: string, after: seq<Entry>)
    requires |path| >= 1
    requires forall i :: 0 <= i < |after| ==>
      !(after[i].Leaf? && |after[i].path| > 0 && after[i].path[|after[i].path| - 1] == path[|path| - 1])
    ensures path[|path| - 1] in RecordMap(before + [Leaf(path, text)] + after)
    ensures RecordMap(before + [Leaf(path, text)] + after)[path[|path| - 1]] == text
  {
    var k := path[|path| - 1];
    ApplyAppend(map[], before + [Leaf(path, text)], after);
    ApplySnoc(map[], before, Leaf(path, text));
    ApplyKeeps(Apply(map[], before + [Leaf(path, text)]), after, k);
  }

  lemma {:induction false} ApplyAppend(obj: map<string, string>, a: seq<Entry>, b: seq<Entry>)
    ensures Apply(obj, a + b) == Apply(Apply(obj, a), b)
    decreases |a|
  {
    if a == [] {
      assert a + b == b;
    } else {
      assert (a + b)[1..] == a[1..] + b;
      ApplyAppend(Insert(obj, a[0]), a[1..], b);
    }
  }

  /** A document with no start element for the tag yields no record. */
  lemma {:induction false} NoTagNoRecords(toks: seq<Token>, n: nat, tag: string, objs: seq<map<string, string>>, marker: Option<string>)
    requires forall i :: n <= i < |toks| ==> toks[i] != StartElement(tag)
    ensures Outer(toks, n, tag, objs, marker).objs == objs
    decreases |toks| - n
  {
    if !(AtEnd(toks, n) || HasError(toks, n)) {
      if marker.Some? && toks[n] == StartElement(NextMarkerName) {
        var (v, m) := MarkerLoop(toks, n + 1, marker.value);
        NoTagNoRecords(toks, m, tag, objs, Some(v));
      } else {
        NoTagNoRecords(toks, n + 1, tag, objs, marker);
      }
    }
  }

  /** Without a NextMarker start element, a non-null out-parameter keeps the caller's value. */
  lemma {:induction false} NoMarkerKeepsValue(toks: seq<Token>, n: nat, tag: string, objs: seq<map<string, string>>, marker: Option<string>)
    requires forall i :: n <= i < |toks| ==> toks[i] != StartElement(NextMarkerName)
    ensures Outer(toks, n, tag, objs, marker).marker == marker
    decreases |toks| - n
  {
    if !(AtEnd(toks, n) || HasError(toks, n)) {
      if toks[n] == StartElement(tag) {
        match ObjectLoop(toks, n + 1, tag, map[])
        case Aborted =>
        case Closed(obj, m) => NoMarkerKeepsValue(toks, m, tag, objs + [obj], marker);
      } else {
        NoMarkerKeepsValue(toks, n + 1, tag, objs, marker);
      }
    }
  }

  // ---------------------------------------------------------------- the failure paths

  /**
    After complete records, the start tag of a record and some of its entries: the outer loop
    is inside that record's object loop, with the records decoded so far and the entries' map.
  */
  lemma PartialRecord(toks: seq<Token>, tag: string, rs: seq<seq<Entry>>, es: seq<Entry>, tail: seq<Token>, marker: Option<string>, close: nat)
    requires tag != PropertiesName && GoodRecords(rs, tag) && GoodRecord(es, tag)
    requires toks == RecordsTokens(tag, rs) + [StartElement(tag)] + EntriesTokens(es) + tail
    requires close == |RecordsTokens(tag, rs)| + 1 + |EntriesTokens(es)|
    ensures close >= 1 && Open(Tok(toks, close - 1), tag) && At(toks, close, tail)
    ensures ObjectLoop(toks, close, tag, RecordMap(es)).Aborted? ==> Outer(toks, 0, tag, [], marker) == Listing([], marker)
    ensures ObjectLoop(toks, close, tag, RecordMap(es)).Closed? ==>
      Outer(toks, 0, tag, [], marker)
        == Outer(toks, ObjectLoop(toks, close, tag, RecordMap(es)).next, tag, Maps(rs) + [ObjectLoop(toks, close, tag, RecordMap(es)).obj], marker)
  {
    var n := |RecordsTokens(tag, rs)|;
    PartialLayout(toks, tag, rs, es, tail, close);
    RecordsStep(toks, 0, n, tag, [], marker, rs);
    assert [] + Maps(rs) == Maps(rs);
    OuterRecord(toks, n, tag, Maps(rs), marker);
    EntriesStep(toks, n + 1, close, tag, map[], es);
  }

  /** Where the complete records, the start tag of the partial one, its entries and the rest sit. */
  lemma PartialLayout(toks: seq<Token>, tag: string, rs: seq<seq<Entry>>, es: seq<Entry>, tail: seq<Token>, close: nat)
    requires toks == RecordsTokens(tag, rs) + [StartElement(tag)] + EntriesTokens(es) + tail
    requires close == |RecordsTokens(tag, rs)| + 1 + |EntriesTokens(es)|
    ensures var n := |RecordsTokens(tag, rs)|;
      && At(toks, 0, RecordsTokens(tag, rs)) && n < |toks| && toks[n] == StartElement(tag)
      && At(toks, n + 1, EntriesTokens(es)) && At(toks, close, tail)
  {
    var records, entries := RecordsTokens(tag, rs), EntriesTokens(es);
    var n := |records|;
    AtWhole(toks, 0);
    assert toks[0..] == toks;
    ThreeParts(toks, 0, records + [StartElement(tag)], entries, tail, n + 1, close);
    AtSplit(toks, 0, records, [StartElement(tag)]);
    AtIndex(toks, n, [StartElement(tag)], 0);
  }

  /** A start tag for the record name makes the outer loop read one object, and drop everything if it is aborted. */
  lemma OuterRecord(toks: seq<Token>, n: nat, tag: string, objs: seq<map<string, string>>, marker: Option<string>)
    requires !HasError(toks, n) && n < |toks| && toks[n] == StartElement(tag)
    ensures ObjectLoop(toks, n + 1, tag, map[]).Aborted? ==> Outer(toks, n, tag, objs, marker) == Listing([], marker)
    ensures ObjectLoop(toks, n + 1, tag, map[]).Closed? ==>
      Outer(toks, n, tag, objs, marker)
        == Outer(toks, ObjectLoop(toks, n + 1, tag, map[]).next, tag, objs + [ObjectLoop(toks, n + 1, tag, map[]).obj], marker)
  {
  }

  /**
    A field whose start element is followed by neither text nor an end tag, after any nested
    start elements, discards the whole list, including the records already decoded.
  */
  lemma BadFieldDiscardsAll(tag: string, rs: seq<seq<Entry>>, es: seq<Entry>, name: string, path: seq<string>,
                            bad: Token, rest: seq<Token>, marker: Option<string>)
    requires tag != PropertiesName && GoodRecords(rs, tag) && GoodRecord(es, tag) && name != PropertiesName
    requires bad == Invalid || bad == Other
    ensures DecodeListing(tag, RecordsTokens(tag, rs) + [StartElement(tag)] + EntriesTokens(es)
                               + ([StartElement(name)] + Starts(path) + ([bad] + rest)), marker).objs == []
  {
    var tail := [StartElement(name)] + Starts(path) + ([bad] + rest);
    var toks := RecordsTokens(tag, rs) + [StartElement(tag)] + EntriesTokens(es) + tail;
    var close := |RecordsTokens(tag, rs)| + 1 + |EntriesTokens(es)|;
    PartialRecord(toks, tag, rs, es, tail, marker, close);
    BadFieldAborts(toks, close, tag, RecordMap(es), name, path, bad, rest);
  }

  /** A field start, nested start elements, then a token that is neither text nor an end tag. */
  lemma BadFieldAborts(toks: seq<Token>, n: nat, tag: string, obj: map<string, string>, name: string, path: seq<string>,
                       bad: Token, rest: seq<Token>)
    requires n >= 1 && Open(Tok(toks, n - 1), tag) && name != PropertiesName
    requires At(toks, n, [StartElement(name)] + Starts(path) + ([bad] + rest))
    requires bad == Invalid || bad == Other
    ensures ObjectLoop(toks, n, tag, obj) == Aborted
  {
    ThreeParts(toks, n, [StartElement(name)], Starts(path), [bad] + rest, n + 1, n + 1 + |path|);
    AtIndex(toks, n, [StartElement(name)], 0);
    BadFieldRead(toks, n + 1, name, path, bad, rest);
  }

  /** The field read that stops at such a token fails. */
  lemma BadFieldRead(toks: seq<Token>, n: nat, name: string, path: seq<string>, bad: Token, rest: seq<Token>)
    requires n >= 1 && At(toks, n, Starts(path)) && At(toks, n + |path|, [bad] + rest)
    requires bad == Invalid || bad == Other
    ensures ReadField(toks, n, name) == BadField
  {
    AtIndex(toks, n + |path|, [bad] + rest, 0);
    NestedStarts(toks, n + 1, name, path);
    ReadFieldStops(toks, n, name, n + 1 + |path|);
  }

  /** A field read whose nested start elements end at a token that is neither text nor an end tag fails. */
  lemma ReadFieldStops(toks: seq<Token>, n: nat, key: string, m: nat)
    requires n >= 1 && Nested(toks, n + 1, key).1 == m
    requires !Tok(toks, m - 1).Characters? && !Tok(toks, m - 1).EndElement?
    ensures ReadField(toks, n, key) == BadField
  {
  }

  /**
    An Invalid token between fields ends the object loop: the partial record is kept after the
    complete ones, and the outer loop stops.
  */
  lemma InvalidKeepsPartialRecord(tag: string, rs: seq<seq<Entry>>, es: seq<Entry>, rest: seq<Token>, marker: Option<string>)
    requires tag != PropertiesName && GoodRecords(rs, tag) && GoodRecord(es, tag)
    ensures DecodeListing(tag, RecordsTokens(tag, rs) + [StartElement(tag)] + EntriesTokens(es) + ([Invalid] + rest), marker)
         == Listing(Maps(rs) + [RecordMap(es)], marker)
  {
    var tail := [Invalid] + rest;
    var toks := RecordsTokens(tag, rs) + [StartElement(tag)] + EntriesTokens(es) + tail;
    var close := |RecordsTokens(tag, rs)| + 1 + |EntriesTokens(es)|;
    PartialRecord(toks, tag, rs, es, tail, marker, close);
    AtIndex(toks, close, tail, 0);
    assert ObjectLoop(toks, close, tag, RecordMap(es)) == Closed(RecordMap(es), close + 1);
    assert HasError(toks, close + 1);
  }
}
