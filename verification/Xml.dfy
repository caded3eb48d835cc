/** The XML printer that renders tool output for the model, and a reader that undoes it. */
module Xml {

  import opened Wrappers

  /** Attribute values and CDATA bodies are stored already escaped, as the builders leave them. */
  datatype Body =
    | Empty
    | PlainText(text: string)
    | Cdata(escaped: string)
    | Children(kids: seq<Element>)

  datatype Element = Element(name: string, attrs: seq<(string, string)>, body: Body) {

    static function New(name: string): Element {
      Element(name, [], Empty)
    }

    function Attr(key: string, value: string): Element {
      this.(attrs := attrs + [(key, EscapeAttr(value))])
    }

    function AttrIfSome(key: string, value: Option<string>): Element {
      match value
      case Some(v) => Attr(key, v)
      case None => this
    }

    function WithCdata(text: string): Element {
      this.(body := Cdata(EscapeCdata(text)))
    }

    function WithPlainText(text: string): Element {
      this.(body := PlainText(text))
    }

    function Child(child: Element): Element {
      match body
      case Children(kids) => this.(body := Children(kids + [child]))
      case _ => this.(body := Children([child]))
    }
  }

  // ---------------------------------------------------------------- escaping

  function EscapeChar(c: char): string {
    match c
    case '&' => "&amp;"
    case '<' => "&lt;"
    case '"' => "&quot;"
    case _ => [c]
  }

  function EscapeAttr(s: string): string {
    if s == "" then "" else EscapeChar(s[0]) + EscapeAttr(s[1..])
  }

  lemma {:induction false} EscapeAttrSnoc(s: string, c: char)
    ensures EscapeAttr(s + [c]) == EscapeAttr(s) + EscapeChar(c)
  {
    if s == "" {
      assert s + [c] == [c] && [c][1..] == "";
    } else {
      EscapeAttrSnoc(s[1..], c);
      assert (s + [c])[1..] == s[1..] + [c];
    }
  }

  method EscapeAttrLoop(s: string) returns (out: string)
    ensures out == EscapeAttr(s)
  {
    out := "";
    for i := 0 to |s|
      invariant out == EscapeAttr(s[..i])
    {
      EscapeAttrSnoc(s[..i], s[i]);
      assert s[..i] + [s[i]] == s[..i + 1];
      match s[i] {
        case '&' => out := out + "&amp;";
        case '<' => out := out + "&lt;";
        case '"' => out := out + "&quot;";
        case other => out := out + [other];
      }
    }
    assert s[..|s|] == s;
  }

  /** Replaces the three entities of section 4.6 of XML 1.0 that the printer uses. */
  function Unescape(s: string): string {
    if s == "" then ""
    else if "&amp;" <= s then "&" + Unescape(s[5..])
    else if "&lt;" <= s then "<" + Unescape(s[4..])
    else if "&quot;" <= s then "\"" + Unescape(s[6..])
    else [s[0]] + Unescape(s[1..])
  }

  lemma {:induction false} AttrUnescapes(s: string)
    ensures Unescape(EscapeAttr(s)) == s
    ensures '<' !in EscapeAttr(s) && '"' !in EscapeAttr(s)
  {
    if s != "" {
      AttrUnescapes(s[1..]);
      UnescapeOne(s[0], EscapeAttr(s[1..]));
      assert s == [s[0]] + s[1..];
    }
  }

  lemma {:induction false} UnescapeOne(c: char, tail: string)
    ensures Unescape(EscapeChar(c) + tail) == [c] + Unescape(tail)
  {
    var head := EscapeChar(c);
    assert (head + tail)[|head|..] == tail && head <= head + tail;
    if |head| == 1 {
      assert (head + tail)[0] == c != '&';
    } else {
      assert (head + tail)[1] == head[1];
    }
  }

  function EscapeCdata(s: string): string {
    if s == "" then ""
    else if "]]>" <= s then "]]]]><![CDATA[>" + EscapeCdata(s[3..])
    else [s[0]] + EscapeCdata(s[1..])
  }

  /** Reads adjacent CDATA sections from just after an opening `<![CDATA[`: each section ends at
      its first `]]>` (section 2.7 of XML 1.0), and their contents are joined. */
  function ReadSections(s: string): (r: Option<(string, string)>)
    ensures r.Some? ==> |r.value.1| < |s|
  {
    if s == "" then None
    else if "]]>" <= s then
      if "<![CDATA[" <= s[3..] then ReadSections(s[12..]) else Some(("", s[3..]))
    else match ReadSections(s[1..])
      case Some((text, rest)) => Some(([s[0]] + text, rest))
      case None => None
  }

  lemma {:induction false} PlainReads(c: char, t: string)
    requires !("]]>" <= [c] + t)
    ensures ReadSections([c] + t)
         == match ReadSections(t)
            case Some((text, rest)) => Some(([c] + text, rest))
            case None => None
  {
    assert ([c] + t)[1..] == t;
  }

  lemma {:induction false} SectionEnds(t: string)
    ensures ReadSections("]]><![CDATA[" + t) == ReadSections(t)
  {
    var s := "]]><![CDATA[" + t;
    assert s[..3] == "]]>" && s[3..] == "<![CDATA[" + t && s[12..] == t;
  }

  lemma SplitShape(t: string)
    ensures "]]]]><![CDATA[>" + t == "]" + ("]" + ("]]><![CDATA[" + (">" + t)))
  {
    assert "]]]]><![CDATA[>" == "]" + "]]]><![CDATA[>";
    Assoc("]", "]]]><![CDATA[>", t);
    assert "]]]><![CDATA[>" == "]" + "]]><![CDATA[>";
    Assoc("]", "]]><![CDATA[>", t);
    assert "]]><![CDATA[>" == "]]><![CDATA[" + ">";
    Assoc("]]><![CDATA[", ">", t);
  }

  /** A split terminator is read as the terminator. */
  lemma {:induction false} SplitReads(t: string)
    ensures ReadSections("]]]]><![CDATA[>" + t)
         == match ReadSections(t)
            case Some((text, rest)) => Some(("]]>" + text, rest))
            case None => None
  {
    var s3 := ">" + t;
    var s2 := "]]><![CDATA[" + s3;
    var s1 := "]" + s2;
    SplitShape(t);
    assert s1[2] == ']' && ("]" + s1)[2] == ']' && s3[0] == '>';
    PlainReads(']', s1);
    PlainReads(']', s2);
    SectionEnds(s3);
    PlainReads('>', t);
    if ReadSections(t).Some? {
      var text := ReadSections(t).value.0;
      assert "]" + ("]" + (">" + text)) == "]]>" + text;
    }
  }

  /** Whatever the text, runs of `]` and a trailing `]` or `]]` included, the sections read back
      as the text. */
  lemma {:induction false} CdataReads(s: string, rest: string)
    requires !("<![CDATA[" <= rest)
    ensures ReadSections(EscapeCdata(s) + "]]>" + rest) == Some((s, rest))
  {
    var end := "]]>" + rest;
    if s == "" {
      assert EscapeCdata(s) + "]]>" + rest == end && end[3..] == rest;
    } else if "]]>" <= s {
      CdataReads(s[3..], rest);
      SplitReads(EscapeCdata(s[3..]) + "]]>" + rest);
      Prepend("]]]]><![CDATA[>", EscapeCdata(s[3..]), "]]>", rest);
      assert s == "]]>" + s[3..];
    } else {
      CdataReads(s[1..], rest);
      EscapeKeepsNoTerminator(s);
      Prepend([s[0]], EscapeCdata(s[1..]), "]]>", rest);
      NoEarlyEnd(EscapeCdata(s), rest);
      PlainReads(s[0], EscapeCdata(s[1..]) + "]]>" + rest);
      assert s == [s[0]] + s[1..];
    }
  }

  lemma Prepend(p: string, e: string, x: string, rest: string)
    ensures p + e + x + rest == p + (e + x + rest)
  {
  }

  lemma NoEarlyEnd(e: string, rest: string)
    requires e != "" && !("]]>" <= e)
    ensures !("]]>" <= e + "]]>" + rest)
  {
    var t := e + "]]>" + rest;
    if |e| >= 3 {
      assert t[..3] == e[..3];
    } else {
      assert t[2] == ']';
    }
  }

  lemma {:induction false} EscapeKeepsNoTerminator(s: string)
    requires s != "" && !("]]>" <= s)
    ensures EscapeCdata(s) != "" && !("]]>" <= EscapeCdata(s))
  {
    var e := EscapeCdata(s);
    assert e == [s[0]] + EscapeCdata(s[1..]);
    if |s| >= 2 {
      assert e[1] == EscapeCdata(s[1..])[0] == s[1];
      if "]]>" <= s[1..] {
        assert e[2] == EscapeCdata(s[1..])[1] == ']';
      } else {
        assert EscapeCdata(s[1..]) == [s[1]] + EscapeCdata(s[1..][1..]);
        assert s[1..][1..] == s[2..];
        if |s| >= 3 { assert e[2] == EscapeCdata(s[2..])[0] == s[2]; }
      }
    }
  }

  // ---------------------------------------------------------------- printing

  function WriteAttrs(attrs: seq<(string, string)>): string {
    if attrs == [] then ""
    else "\n  " + attrs[0].0 + "=\"" + attrs[0].1 + "\"" + WriteAttrs(attrs[1..])
  }

  function Write(e: Element): string {
    "<" + e.name + WriteAttrs(e.attrs) + (if e.attrs == [] then ">" else "\n>")
    + WriteBody(e.body) + ("</" + e.name) + ">"
  }

  function WriteBody(body: Body): string {
    match body
    case Empty => ""
    case PlainText(text) => text
    case Cdata(escaped) => "<![CDATA[" + escaped + "]]>"
    case Children(kids) => WriteKids(kids) + "\n"
  }

  function WriteKids(kids: seq<Element>): string {
    if kids == [] then "" else "\n" + Write(kids[0]) + WriteKids(kids[1..])
  }

  // ---------------------------------------------------------------- reading

  /** What a printed element says, with no escaping left. */
  datatype Content = NoContent | Plain(text: string) | Raw(raw: string) | Nodes(docs: seq<Doc>)
  datatype Doc = Doc(name: string, attrs: seq<(string, string)>, content: Content)

  function ReadUntil(s: string, stops: set<char>): (r: (string, string))
    ensures s == r.0 + r.1
    ensures |r.1| <= |s|
  {
    if s == "" || s[0] in stops then ("", s)
    else var (text, rest) := ReadUntil(s[1..], stops); ([s[0]] + text, rest)
  }

  function ReadAttrs(s: string): (r: Option<(seq<(string, string)>, string)>)
    ensures r.Some? ==> |r.value.1| <= |s|
    decreases |s|
  {
    if !("\n  " <= s) then Some(([], s))
    else
      var (key, s1) := ReadUntil(s[3..], {'='});
      if !("=\"" <= s1) then None
      else
        var (value, s2) := ReadUntil(s1[2..], {'"'});
        if s2 == "" then None
        else match ReadAttrs(s2[1..])
          case Some((attrs, rest)) => Some(([(key, Unescape(value))] + attrs, rest))
          case None => None
  }

  function ReadDoc(s: string): (r: Option<(Doc, string)>)
    ensures r.Some? ==> |r.value.1| < |s|
    decreases |s|, 0
  {
    if !("<" <= s) then None
    else
      var (name, s1) := ReadUntil(s[1..], {'\n', '>'});
      match ReadAttrs(s1)
      case None => None
      case Some((attrs, s2)) =>
        var open := if attrs == [] then ">" else "\n>";
        if !(open <= s2) then None
        else match ReadContent(s2[|open|..])
          case None => None
          case Some((content, s3)) =>
            var close := "</" + name + ">";
            if close <= s3 then Some((Doc(name, attrs, content), s3[|close|..])) else None
  }

  function ReadContent(s: string): (r: Option<(Content, string)>)
    ensures r.Some? ==> |r.value.1| <= |s|
    decreases |s|, 2
  {
    if "<![CDATA[" <= s then
      match ReadSections(s[9..])
      case Some((text, rest)) => Some((Raw(text), rest))
      case None => None
    else if "\n<" <= s && !("\n</" <= s) then
      match ReadNodes(s)
      case Some((docs, rest)) => Some((Nodes(docs), rest))
      case None => None
    else
      var (text, rest) := ReadUntil(s, {'<'});
      Some((if text == "" then NoContent else Plain(text), rest))
  }

  function ReadNodes(s: string): (r: Option<(seq<Doc>, string)>)
    ensures r.Some? ==> |r.value.1| <= |s|
    decreases |s|, 1
  {
    if "\n</" <= s then Some(([], s[1..]))
    else if !("\n" <= s) then None
    else match ReadDoc(s[1..])
      case None => None
      case Some((doc, s1)) =>
        match ReadNodes(s1)
        case None => None
        case Some((docs, rest)) => Some(([doc] + docs, rest))
  }

  // ---------------------------------------------------------------- what an element means

  ghost predicate AttrDenotes(attr: (string, string), plain: (string, string)) {
    attr.0 == plain.0 && attr.1 == EscapeAttr(plain.1)
  }

  ghost predicate AttrsDenote(attrs: seq<(string, string)>, plain: seq<(string, string)>) {
    |attrs| == |plain|
    && (attrs != [] ==> AttrDenotes(attrs[0], plain[0]) && AttrsDenote(attrs[1..], plain[1..]))
  }

  /** `d` is the content that the builder calls behind `e` were given.  Empty plain text is
      identified with no content. */
  ghost predicate Denotes(e: Element, d: Doc) {
    && e.name == d.name
    && AttrsDenote(e.attrs, d.attrs)
    && match e.body
       case Empty => d.content == NoContent
       case PlainText(text) => d.content == if text == "" then NoContent else Plain(text)
       case Cdata(escaped) => d.content.Raw? && escaped == EscapeCdata(d.content.raw)
       case Children(kids) => d.content.Nodes? && kids != [] && AllDenote(kids, d.content.docs)
  }

  ghost predicate AllDenote(kids: seq<Element>, docs: seq<Doc>) {
    |kids| == |docs|
    && (kids != [] ==> Denotes(kids[0], docs[0]) && AllDenote(kids[1..], docs[1..]))
  }

  /** Names and keys carry no markup and plain text no `<`. */
  ghost predicate Clean(d: Doc) {
    && CleanName(d.name)
    && CleanKeys(d.attrs)
    && match d.content
       case Plain(text) => '<' !in text
       case Nodes(docs) => AllClean(docs)
       case _ => true
  }

  ghost predicate CleanKeys(attrs: seq<(string, string)>) {
    attrs != [] ==> '=' !in attrs[0].0 && CleanKeys(attrs[1..])
  }

  ghost predicate AllClean(docs: seq<Doc>) {
    docs != [] ==> Clean(docs[0]) && AllClean(docs[1..])
  }

  ghost predicate CleanName(name: string) {
    '\n' !in name && '>' !in name && !("/" <= name)
  }

  lemma {:induction false} AllDenoteSnoc(kids: seq<Element>, docs: seq<Doc>, e: Element, d: Doc)
    requires AllDenote(kids, docs) && Denotes(e, d)
    ensures AllDenote(kids + [e], docs + [d])
  {
    if kids == [] {
      assert kids + [e] == [e] && docs + [d] == [d];
      assert AllDenote([e][1..], [d][1..]);
    } else {
      AllDenoteSnoc(kids[1..], docs[1..], e, d);
      assert (kids + [e])[1..] == kids[1..] + [e] && (docs + [d])[1..] == docs[1..] + [d];
    }
  }

  lemma {:induction false} AttrsDenoteSnoc(
      attrs: seq<(string, string)>, plain: seq<(string, string)>, attr: (string, string), p: (string, string))
    requires AttrsDenote(attrs, plain) && AttrDenotes(attr, p)
    ensures AttrsDenote(attrs + [attr], plain + [p])
  {
    if attrs == [] {
      assert attrs + [attr] == [attr] && plain + [p] == [p];
      assert AttrsDenote([attr][1..], [p][1..]);
    } else {
      AttrsDenoteSnoc(attrs[1..], plain[1..], attr, p);
      assert (attrs + [attr])[1..] == attrs[1..] + [attr] && (plain + [p])[1..] == plain[1..] + [p];
    }
  }

  /** The builder calls on documents: what each call of the public interface does to the meaning. */
  function DocChild(d: Doc, kid: Doc): Doc {
    match d.content
    case Nodes(docs) => d.(content := Nodes(docs + [kid]))
    case _ => d.(content := Nodes([kid]))
  }

  // Every element the public interface can build denotes the document the same calls describe; in
  // particular the last body wins, and attributes may come before or after it.

  lemma {:induction false} AttrBuilt(e: Element, d: Doc, key: string, value: string)
    requires Denotes(e, d)
    ensures Denotes(e.Attr(key, value), d.(attrs := d.attrs + [(key, value)]))
  {
    AttrsDenoteSnoc(e.attrs, d.attrs, (key, EscapeAttr(value)), (key, value));
  }

  lemma BodyBuilt(e: Element, d: Doc, text: string)
    requires Denotes(e, d)
    ensures Denotes(Element.New(text), Doc(text, [], NoContent))
    ensures Denotes(e.WithCdata(text), d.(content := Raw(text)))
    ensures Denotes(e.WithPlainText(text), d.(content := if text == "" then NoContent else Plain(text)))
  {
  }

  lemma {:induction false} ChildBuilt(e: Element, d: Doc, kid: Element, kidDoc: Doc)
    requires Denotes(e, d) && Denotes(kid, kidDoc)
    ensures Denotes(e.Child(kid), DocChild(d, kidDoc))
  {
    if e.body.Children? {
      AllDenoteSnoc(e.body.kids, d.content.docs, kid, kidDoc);
    } else {
      AllDenoteSnoc([], [], kid, kidDoc);
      assert [] + [kid] == [kid] && [] + [kidDoc] == [kidDoc];
    }
  }

  lemma {:induction false} AllDenoteAt(kids: seq<Element>, docs: seq<Doc>, i: nat)
    requires AllDenote(kids, docs) && i < |kids|
    ensures Denotes(kids[i], docs[i])
  {
    if i > 0 { AllDenoteAt(kids[1..], docs[1..], i - 1); }
  }

  lemma {:induction false} AllDenoteSplit(a: seq<Element>, b: seq<Element>, docs: seq<Doc>)
    requires AllDenote(a + b, docs)
    ensures AllDenote(a, docs[..|a|]) && AllDenote(b, docs[|a|..])
  {
    if a == [] {
      assert a + b == b && docs[0..] == docs;
    } else {
      assert (a + b)[1..] == a[1..] + b;
      AllDenoteSplit(a[1..], b, docs[1..]);
      assert docs[..|a|][1..] == docs[1..][..|a| - 1] && docs[|a|..] == docs[1..][|a| - 1..];
    }
  }

  // ---------------------------------------------------------------- printing then reading

  lemma Cut(p: string, s: string)
    ensures p <= p + s && (p + s)[|p|..] == s
  {
  }

  lemma Assoc(a: string, b: string, c: string)
    ensures a + b + c == a + (b + c)
  {
  }

  lemma Nest3(a: string, b: string, c: string, d: string)
    ensures a + b + c + d == a + (b + (c + d))
  {
  }

  lemma {:induction false} ReadUntilStops(text: string, rest: string, stops: set<char>)
    requires forall c | c in text :: c !in stops
    requires rest != "" && rest[0] in stops
    ensures ReadUntil(text + rest, stops) == (text, rest)
  {
    if text == "" {
      assert text + rest == rest;
    } else {
      ReadUntilStops(text[1..], rest, stops);
      assert (text + rest)[1..] == text[1..] + rest;
      assert text == [text[0]] + text[1..];
    }
  }

  lemma {:induction false} AttrLine(attr: (string, string), plain: (string, string), tail: string,
                 more: seq<(string, string)>, rest: string)
    requires AttrDenotes(attr, plain) && '=' !in plain.0
    requires ReadAttrs(tail) == Some((more, rest))
    ensures ReadAttrs("\n  " + (attr.0 + ("=\"" + (attr.1 + ("\"" + tail))))) == Some(([plain] + more, rest))
  {
    var (key, value) := attr;
    var s3 := "\"" + tail;
    var s2 := value + s3;
    var s1 := "=\"" + s2;
    Cut("\n  ", key + s1);
    ReadUntilStops(key, s1, {'='});
    Cut("=\"", s2);
    AttrUnescapes(plain.1);
    ReadUntilStops(value, s3, {'"'});
    Cut("\"", tail);
  }

  lemma {:induction false} AttrsShape(attrs: seq<(string, string)>, rest: string)
    requires attrs != []
    ensures WriteAttrs(attrs) + rest
         == "\n  " + (attrs[0].0 + ("=\"" + (attrs[0].1 + ("\"" + (WriteAttrs(attrs[1..]) + rest)))))
  {
    var (k, v) := attrs[0];
    var w := WriteAttrs(attrs[1..]);
    Nest3("\n  " + k + "=\"" + v, "\"", w, rest);
    Nest3("\n  " + k, "=\"", v, "\"" + (w + rest));
    Assoc("\n  ", k, "=\"" + (v + ("\"" + (w + rest))));
  }

  lemma {:induction false} ReadWrittenAttrs(attrs: seq<(string, string)>, plain: seq<(string, string)>, rest: string)
    requires AttrsDenote(attrs, plain) && CleanKeys(plain)
    requires !("\n  " <= rest)
    ensures ReadAttrs(WriteAttrs(attrs) + rest) == Some((plain, rest))
  {
    if attrs == [] {
      assert WriteAttrs(attrs) + rest == rest;
    } else {
      var more := WriteAttrs(attrs[1..]) + rest;
      assert ReadAttrs(more) == Some((plain[1..], rest)) by { ReadWrittenAttrs(attrs[1..], plain[1..], rest); }
      assert plain == [plain[0]] + plain[1..];
      AttrsShape(attrs, rest);
      AttrLine(attrs[0], plain[0], more, plain[1..], rest);
    }
  }

  function Opener(e: Element): string {
    if e.attrs == [] then ">" else "\n>"
  }

  lemma {:induction false} WriteShape(e: Element, rest: string)
    ensures Write(e) + rest
         == "<" + (e.name + (WriteAttrs(e.attrs) + (Opener(e) + (WriteBody(e.body) + ("</" + e.name + ">" + rest)))))
  {
    var (n, a, o, b) := (e.name, WriteAttrs(e.attrs), Opener(e), WriteBody(e.body));
    var tail := "</" + n + ">" + rest;
    Nest3("<" + n + a + o + b, "</" + n, ">", rest);
    Assoc("</" + n, ">", rest);
    Nest3("<" + n + a, o, b, tail);
    Nest3("<", n, a, o + (b + tail));
  }

  /** Printing is undone by reading: the document comes back, and so does whatever follows it. */
  lemma {:induction false} ReadWritten(e: Element, d: Doc, rest: string)
    requires Denotes(e, d) && Clean(d)
    ensures ReadDoc(Write(e) + rest) == Some((d, rest))
    decreases e
  {
    var tail := "</" + e.name + ">" + rest;
    var s3 := WriteBody(e.body) + tail;
    var s2 := Opener(e) + s3;
    var s1 := WriteAttrs(e.attrs) + s2;
    WriteShape(e, rest);
    Cut("<", e.name + s1);
    TagEnds(e, s3);
    ReadUntilStops(e.name, s1, {'\n', '>'});
    ReadWrittenAttrs(e.attrs, d.attrs, s2);
    Cut(Opener(e), s3);
    ReadWrittenContent(e, d, tail);
    Cut("</" + e.name + ">", rest);
  }

  lemma TagEnds(e: Element, s3: string)
    ensures var s1 := WriteAttrs(e.attrs) + (Opener(e) + s3);
            s1 != "" && s1[0] in {'\n', '>'}
    ensures !("\n  " <= Opener(e) + s3)
  {
    var s1 := WriteAttrs(e.attrs) + (Opener(e) + s3);
    if e.attrs == [] {
      assert s1[0] == '>';
    } else {
      AttrsShape(e.attrs, Opener(e) + s3);
      assert (Opener(e) + s3)[1] == '>';
    }
  }

  lemma {:induction false} ReadWrittenContent(e: Element, d: Doc, tail: string)
    requires Denotes(e, d) && Clean(d)
    requires "</" <= tail
    ensures ReadContent(WriteBody(e.body) + tail) == Some((d.content, tail))
    decreases e, 0
  {
    var body := WriteBody(e.body);
    match e.body {
      case Empty =>
        assert body + tail == "" + tail;
        PlainOpens("", tail);
        ReadUntilStops("", tail, {'<'});
      case PlainText(text) =>
        PlainOpens(text, tail);
        ReadUntilStops(text, tail, {'<'});
      case Cdata(escaped) =>
        assert tail[1] == '/';
        CdataReads(d.content.raw, tail);
        SectionShape(escaped, tail);
      case Children(kids) =>
        ReadWrittenKids(kids, d.content.docs, tail);
        Assoc(WriteKids(kids), "\n", tail);
        assert body + tail == WriteKids(kids) + ("\n" + tail);
        KidsOpen(kids, d.content.docs, "\n" + tail);
    }
  }

  lemma SectionShape(escaped: string, tail: string)
    ensures var s := "<![CDATA[" + escaped + "]]>" + tail;
            "<![CDATA[" <= s && s[9..] == escaped + "]]>" + tail
  {
    Assoc("<![CDATA[" + escaped, "]]>", tail);
    Assoc("<![CDATA[", escaped, "]]>" + tail);
    Assoc(escaped, "]]>", tail);
    Cut("<![CDATA[", escaped + "]]>" + tail);
  }

  lemma PlainOpens(text: string, tail: string)
    requires '<' !in text && "</" <= tail
    ensures !("<![CDATA[" <= text + tail)
    ensures "\n<" <= text + tail ==> "\n</" <= text + tail
  {
    var s := text + tail;
    if text == "" {
      assert s == tail && s[0] == '<' && s[1] == '/';
    } else {
      assert s[0] == text[0] && text[0] in text;
      if |text| == 1 {
        assert s[1] == tail[0] && s[2] == tail[1];
      } else {
        assert s[1] == text[1] && text[1] in text;
      }
    }
  }

  /** A printed child opens with a newline and a tag that is not a closing tag. */
  lemma {:induction false} KidsOpen(kids: seq<Element>, docs: seq<Doc>, tail: string)
    requires kids != [] && AllDenote(kids, docs) && AllClean(docs)
    ensures "\n<" <= WriteKids(kids) + tail && !("\n</" <= WriteKids(kids) + tail)
  {
    var kid := kids[0];
    var s := WriteKids(kids) + tail;
    var after := WriteAttrs(kid.attrs) + (if kid.attrs == [] then ">" else "\n>");
    assert Write(kid)[0] == '<';
    assert after[0] == if kid.attrs == [] then '>' else '\n';
    assert Write(kid)[1] == (kid.name + after)[0];
    assert s[0] == '\n' && s[1] == '<' && s[2] == (kid.name + after)[0];
  }

  lemma {:induction false} ReadWrittenKids(kids: seq<Element>, docs: seq<Doc>, tail: string)
    requires AllDenote(kids, docs) && AllClean(docs)
    requires "</" <= tail
    ensures ReadNodes(WriteKids(kids) + ("\n" + tail)) == Some((docs, tail))
    decreases kids
  {
    if kids == [] {
      NodesEnd(tail);
    } else {
      var more := WriteKids(kids[1..]) + ("\n" + tail);
      assert ReadNodes(more) == Some((docs[1..], tail)) by {
        ReadWrittenKids(kids[1..], docs[1..], tail);
      }
      assert ReadDoc(Write(kids[0]) + more) == Some((docs[0], more)) by {
        ReadWritten(kids[0], docs[0], more);
      }
      KidsRead(kids, docs, more, tail);
    }
  }

  lemma {:induction false} KidsRead(kids: seq<Element>, docs: seq<Doc>, more: string, tail: string)
    requires kids != [] && AllDenote(kids, docs) && AllClean(docs)
    requires more == WriteKids(kids[1..]) + ("\n" + tail)
    requires ReadNodes(more) == Some((docs[1..], tail))
    requires ReadDoc(Write(kids[0]) + more) == Some((docs[0], more))
    ensures ReadNodes(WriteKids(kids) + ("\n" + tail)) == Some((docs, tail))
  {
    KidsOpen(kids, docs, "\n" + tail);
    KidsShape(kids, "\n" + tail);
    NodesStep(WriteKids(kids) + ("\n" + tail), docs[0], more, docs[1..], tail);
    assert docs == [docs[0]] + docs[1..];
  }

  lemma {:induction false} NodesEnd(tail: string)
    requires "</" <= tail
    ensures ReadNodes("" + ("\n" + tail)) == Some(([], tail))
  {
    var s := "\n" + tail;
    assert "" + s == s;
    assert s[1] == tail[0] && s[2] == tail[1] && s[1..] == tail;
  }

  lemma {:induction false} KidsShape(kids: seq<Element>, tail: string)
    requires kids != []
    ensures WriteKids(kids) + tail != ""
    ensures (WriteKids(kids) + tail)[1..] == Write(kids[0]) + (WriteKids(kids[1..]) + tail)
  {
    Nest3("\n", Write(kids[0]), WriteKids(kids[1..]), tail);
    Cut("\n", Write(kids[0]) + (WriteKids(kids[1..]) + tail));
  }

  lemma {:induction false} NodesStep(s: string, doc: Doc, more: string, docs: seq<Doc>, tail: string)
    requires "\n<" <= s && !("\n</" <= s)
    requires ReadDoc(s[1..]) == Some((doc, more)) && ReadNodes(more) == Some((docs, tail))
    ensures ReadNodes(s) == Some(([doc] + docs, tail))
  {
    assert "\n" <= s;
  }

  /** The printed text determines the document. */
  lemma {:induction false} PrintingIsFaithful(e1: Element, d1: Doc, e2: Element, d2: Doc)
    requires Denotes(e1, d1) && Clean(d1) && Denotes(e2, d2) && Clean(d2)
    requires Write(e1) == Write(e2)
    ensures d1 == d2
  {
    ReadWritten(e1, d1, "");
    ReadWritten(e2, d2, "");
  }
}
