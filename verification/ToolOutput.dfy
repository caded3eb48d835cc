/** The pipeline that turns a plugin's tool result into the text the model reads: byte budgets,
    truncation with spill files, and the element tree rebuilt with explicit stacks. */
module ToolOutput {
  import opened Utf8
  import opened Wrappers
  import opened Xml

  const MAX_STREAM_PAYLOAD_BYTES: nat := 50 * 1024
  const MIN_NODE_PAYLOAD_BYTES: nat := 1024

  datatype NodeBody = NoBody | Text(text: string) | Binary(mime: string, data: seq<byte>) | Branch(nodes: seq<ToolContent>)
  datatype ToolContent = ToolContent(tag: string, attributes: seq<(string, string)>, body: NodeBody) {
    function Kids(): seq<ToolContent> {
      match body
      case Branch(nodes) => nodes
      case _ => []
    }
  }

  /** What one rendering is given besides the tree.  `total` is set only when the whole result is
      over budget; `disk(k)` is the path of the k-th spill file, or nothing if writing it fails. */
  datatype Rendering = Rendering(total: Option<nat>, disk: nat -> Option<string>) {
    predicate WellFormed() {
      total.Some? ==> total.value > 0
    }
  }

  /** A file that was written: its part's name, the path it ended up at, and the whole text. */
  datatype SpillFile = SpillFile(name: string, path: string, content: string)

  // ---------------------------------------------------------------- reference definitions

  /** All nodes, each before its children and siblings left to right. */
  function PreOrder(forest: seq<ToolContent>): (nodes: seq<ToolContent>)
    ensures forest == [] <==> nodes == []
    ensures forest != [] ==> nodes[0] == forest[0]
  {
    if forest == [] then []
    else
      [forest[0]]
      + (match forest[0].body case Branch(nodes) => PreOrder(nodes) case _ => [])
      + PreOrder(forest[1..])
  }

  function NodeBytes(node: ToolContent): nat {
    if node.body.Text? then |Encode(node.body.text)| else 0
  }

  /** Bytes of text below a list of trees. */
  function TextBytes(forest: seq<ToolContent>): nat
    decreases |PreOrder(forest)|
  {
    if forest == [] then 0
    else NodeBytes(forest[0]) + TextBytes(forest[0].Kids()) + TextBytes(forest[1..])
  }

  function TextNodes(forest: seq<ToolContent>): nat
    decreases |PreOrder(forest)|
  {
    if forest == [] then 0
    else (if forest[0].body.Text? then 1 else 0) + TextNodes(forest[0].Kids()) + TextNodes(forest[1..])
  }

  function Budget(bytes: nat, total: nat): nat
    requires total > 0
  {
    var share := bytes * MAX_STREAM_PAYLOAD_BYTES / total;
    if share >= MIN_NODE_PAYLOAD_BYTES then share else MIN_NODE_PAYLOAD_BYTES
  }

  predicate Truncates(text: string, total: Option<nat>)
    requires total.Some? ==> total.value > 0
  {
    total.Some? && |Encode(text)| > Budget(|Encode(text)|, total.value)
  }

  /** The part of a text shown inline: the longest run of leading characters within its budget. */
  function Kept(text: string, total: Option<nat>): string
    requires total.Some? ==> total.value > 0
  {
    if Truncates(text, total) then text[..Fitting(text, Budget(|Encode(text)|, total.value))] else text
  }

  function PartName(k: nat): string {
    "part-" + Decimal(k)
  }

  /** The document a tree stands for.  Spill parts are numbered by `start`, right to left. */
  function NodeDoc(node: ToolContent, kids: seq<Doc>, r: Rendering, part: nat): Doc
    requires r.WellFormed()
  {
    if node.body.Text? then
      var text := node.body.text;
      if Truncates(text, r.total) then
        Doc(node.tag,
            node.attributes + [("total_bytes", Decimal(|Encode(text)|)), ("truncated", "true")]
            + (if r.disk(part).Some? then [("full_output", r.disk(part).value)] else []),
            Raw(Kept(text, r.total) + "..."))
      else Doc(node.tag, node.attributes, Raw(text))
    else Doc(node.tag, node.attributes, if kids == [] then NoContent else Nodes(kids))
  }

  function Parts(node: ToolContent, r: Rendering): nat
    requires r.WellFormed()
  {
    if node.body.Text? && Truncates(node.body.text, r.total) then 1 else 0
  }

  /** The obvious recursive rendering: same tags and attributes, children left to right.  Returns
      the documents and the next unused part number. */
  function ForestDocs(forest: seq<ToolContent>, r: Rendering, start: nat): (out: (seq<Doc>, nat))
    requires r.WellFormed()
    ensures |out.0| == |forest|
    decreases |PreOrder(forest)|
  {
    if forest == [] then ([], start)
    else
      var (rest, mid) := ForestDocs(forest[1..], r, start);
      var (kids, part) := ForestDocs(forest[0].Kids(), r, mid);
      ([NodeDoc(forest[0], kids, r, part)] + rest, part + Parts(forest[0], r))
  }

  /** The texts cut short, in document order. */
  function Oversized(forest: seq<ToolContent>, total: Option<nat>): seq<string>
    requires total.Some? ==> total.value > 0
    decreases |PreOrder(forest)|
  {
    if forest == [] then []
    else (if forest[0].body.Text? && Truncates(forest[0].body.text, total) then [forest[0].body.text] else [])
         + Oversized(forest[0].Kids(), total) + Oversized(forest[1..], total)
  }

  // ---------------------------------------------------------------- the total

  lemma {:induction false} TextBytesConcat(a: seq<ToolContent>, b: seq<ToolContent>)
    ensures TextBytes(a + b) == TextBytes(a) + TextBytes(b)
    ensures |PreOrder(a + b)| == |PreOrder(a)| + |PreOrder(b)|
  {
    if a == [] {
      assert a + b == b;
    } else {
      var node, rest := a[0], a[1..];
      assert a == [node] + rest && a + b == [node] + (rest + b);
      TextBytesCons(node, rest);
      TextBytesCons(node, rest + b);
      TextBytesConcat(rest, b);
    }
  }

  lemma {:induction false} TextBytesCons(node: ToolContent, rest: seq<ToolContent>)
    ensures TextBytes([node] + rest) == NodeBytes(node) + TextBytes(node.Kids()) + TextBytes(rest)
    ensures |PreOrder([node] + rest)| == 1 + |PreOrder(node.Kids())| + |PreOrder(rest)|
  {
    assert ([node] + rest)[1..] == rest;
  }

  /** The stack-based sum, whatever order it visits the nodes in, is the sum over the tree. */
  method TotalTextBytes(content: ToolContent) returns (total: nat)
    ensures total == TextBytes([content])
  {
    total := 0;
    var stack := [content];
    while stack != []
      invariant total + TextBytes(stack) == TextBytes([content])
      decreases |PreOrder(stack)|
    {
      var node := stack[|stack| - 1];
      var below := stack[..|stack| - 1];
      assert stack == below + [node];
      TextBytesConcat(below, [node]);
      TextBytesConcat(below, node.Kids());
      assert TextBytes([node]) == NodeBytes(node) + TextBytes(node.Kids()) by { assert [node][1..] == []; }
      assert |PreOrder([node])| == 1 + |PreOrder(node.Kids())| by { assert [node][1..] == []; }
      if node.body.Text? {
        total := total + |Encode(node.body.text)|;
      }
      stack := below + node.Kids();
    }
  }

  // ---------------------------------------------------------------- the stacks

  function Reverse<T>(s: seq<T>): seq<T> {
    seq(|s|, i requires 0 <= i < |s| => s[|s| - 1 - i])
  }

  lemma ReverseConcat<T>(a: seq<T>, b: seq<T>)
    ensures Reverse(a + b) == Reverse(b) + Reverse(a)
    ensures Reverse(Reverse(a)) == a
  {
  }

  /** The unfinished trees after visiting `i` nodes: each visited tree is replaced by its children. */
  ghost function Frontier(forest: seq<ToolContent>, i: nat): seq<ToolContent>
    requires i <= |PreOrder(forest)|
    decreases i
  {
    if i == 0 then forest
    else
      FrontierPops(forest);
      Frontier(forest[0].Kids() + forest[1..], i - 1)
  }

  lemma SeqAssoc<T>(a: seq<T>, b: seq<T>, c: seq<T>)
    ensures a + b + c == a + (b + c)
  {
  }

  lemma {:induction false} PreOrderConcat(a: seq<ToolContent>, b: seq<ToolContent>)
    ensures PreOrder(a + b) == PreOrder(a) + PreOrder(b)
  {
    if a == [] {
      assert a + b == b;
    } else {
      PreOrderConcat(a[1..], b);
      assert (a + b)[1..] == a[1..] + b && (a + b)[0] == a[0];
      SeqAssoc([a[0]] + PreOrder(a[0].Kids()), PreOrder(a[1..]), PreOrder(b));
    }
  }

  lemma {:induction false} FrontierPops(forest: seq<ToolContent>)
    requires forest != []
    ensures PreOrder(forest)[1..] == PreOrder(forest[0].Kids() + forest[1..])
  {
    PreOrderConcat(forest[0].Kids(), forest[1..]);
  }

  lemma {:induction false} FrontierStep(forest: seq<ToolContent>, i: nat)
    requires i < |PreOrder(forest)|
    ensures Frontier(forest, i) != [] && Frontier(forest, i)[0] == PreOrder(forest)[i]
    ensures Frontier(forest, i + 1) == Frontier(forest, i)[0].Kids() + Frontier(forest, i)[1..]
    ensures PreOrder(Frontier(forest, i)) == PreOrder(forest)[i..]
    decreases i
  {
    FrontierPops(forest);
    if i > 0 {
      FrontierStep(forest[0].Kids() + forest[1..], i - 1);
    } else {
      assert Frontier(forest, 1) == Frontier(forest[0].Kids() + forest[1..], 0);
    }
  }

  lemma PopTop(stack: seq<ToolContent>, nodes: seq<ToolContent>)
    requires stack != []
    ensures var node, below := stack[|stack| - 1], stack[..|stack| - 1];
            nodes + PreOrder(Reverse(stack)) == nodes + [node] + PreOrder(Reverse(below + Reverse(node.Kids())))
  {
    var node, below := stack[|stack| - 1], stack[..|stack| - 1];
    var rest := Reverse(below);
    assert Reverse(stack) == [node] + rest && ([node] + rest)[1..] == rest;
    assert Reverse(below + Reverse(node.Kids())) == node.Kids() + rest;
    FrontierPops([node] + rest);
    assert PreOrder(Reverse(stack)) == [node] + PreOrder(node.Kids() + rest);
    SeqAssoc(nodes, [node], PreOrder(node.Kids() + rest));
  }

  /** The explicit stack lists the nodes in pre-order. */
  method CollectNodes(content: ToolContent) returns (nodes: seq<ToolContent>)
    ensures nodes == PreOrder([content])
  {
    nodes := [];
    var stack := [content];
    assert Reverse(stack) == [content];
    while stack != []
      invariant nodes + PreOrder(Reverse(stack)) == PreOrder([content])
      decreases |PreOrder(Reverse(stack))|
    {
      var node := stack[|stack| - 1];
      PopTop(stack, nodes);
      nodes := nodes + [node];
      stack := stack[..|stack| - 1] + Reverse(node.Kids());
    }
  }

  // ---------------------------------------------------------------- building

  /** What is left on disk for the k-th text cut short: nothing when it cannot be written. */
  function Spilled(k: nat, text: string, disk: nat -> Option<string>): seq<SpillFile> {
    match disk(k)
    case Some(path) => [SpillFile(PartName(k), path, text)]
    case None => []
  }

  function Spills(texts: seq<string>, disk: nat -> Option<string>): seq<SpillFile> {
    if texts == [] then []
    else Spills(texts[..|texts| - 1], disk) + Spilled(|texts| - 1, texts[|texts| - 1], disk)
  }

  /** `children` arrive rightmost first, as the reverse sweep leaves them. */
  method BuildElement(node: ToolContent, children: seq<Element>, r: Rendering, spilled: nat, ghost kids: seq<Doc>)
    returns (element: Element, next: nat, files: seq<SpillFile>)
    requires r.WellFormed()
    requires AllDenote(Reverse(children), kids) && (node.body.Text? ==> kids == [])
    ensures Denotes(element, NodeDoc(node, kids, r, spilled))
    ensures next == spilled + Parts(node, r)
    ensures files == if Parts(node, r) == 1 then Spilled(spilled, node.body.text, r.disk) else []
  {
    element, next, files := Element.New(node.tag), spilled, [];
    ghost var doc := Doc(node.tag, [], NoContent);
    for i := 0 to |node.attributes|
      invariant doc == Doc(node.tag, node.attributes[..i], NoContent)
      invariant Denotes(element, doc)
    {
      var (key, value) := node.attributes[i];
      AttrBuilt(element, doc, key, value);
      element := element.Attr(key, value);
      doc := doc.(attrs := doc.attrs + [(key, value)]);
    }
    assert node.attributes[..|node.attributes|] == node.attributes;
    if node.body.Text? {
      element, next, files, doc := BuildText(node, r, spilled, element);
    }
    assert node.body.Text? ==> children == [];
    var order := Reverse(children);
    for i := 0 to |order|
      invariant node.body.Text? ==> order == [] && doc == NodeDoc(node, kids, r, spilled)
      invariant !node.body.Text? ==>
        doc == Doc(node.tag, node.attributes, if i == 0 then NoContent else Nodes(kids[..i]))
      invariant Denotes(element, doc)
    {
      AllDenoteAt(order, kids, i);
      ChildBuilt(element, doc, order[i], kids[i]);
      element := element.Child(order[i]);
      doc := DocChild(doc, kids[i]);
      assert kids[..i] + [kids[i]] == kids[..i + 1];
    }
    assert kids[..|kids|] == kids;
  }

  method BuildText(node: ToolContent, r: Rendering, spilled: nat, plain: Element)
    returns (element: Element, next: nat, files: seq<SpillFile>, ghost doc: Doc)
    requires r.WellFormed() && node.body.Text?
    requires Denotes(plain, Doc(node.tag, node.attributes, NoContent))
    ensures doc == NodeDoc(node, [], r, spilled) && Denotes(element, doc)
    ensures next == spilled + Parts(node, r)
    ensures files == if Parts(node, r) == 1 then Spilled(spilled, node.body.text, r.disk) else []
  {
    var text := node.body.text;
    var length := |Encode(text)|;
    next, files, doc := spilled, [], NodeDoc(node, [], r, spilled);
    if r.total.Some? && length > Budget(length, r.total.value) {
      var path := r.disk(spilled);
      if path.Some? { files := [SpillFile("part-" + Decimal(spilled), path.value, text)]; }
      next := spilled + 1;
      var end := FloorCharBoundary(text, Budget(length, r.total.value));
      var shown := SliceTo(text, end) + "...";
      TruncatedDenotes(plain, Doc(node.tag, node.attributes, NoContent), Decimal(length), path, shown);
      element := plain.Attr("total_bytes", Decimal(length)).Attr("truncated", "true")
                 .AttrIfSome("full_output", path).WithCdata(shown);
    } else {
      BodyBuilt(plain, Doc(node.tag, node.attributes, NoContent), text);
      element := plain.WithCdata(text);
    }
  }

  lemma TruncatedDenotes(e: Element, d: Doc, length: string, path: Option<string>, shown: string)
    requires Denotes(e, d)
    ensures Denotes(e.Attr("total_bytes", length).Attr("truncated", "true")
                     .AttrIfSome("full_output", path).WithCdata(shown),
                    Doc(d.name,
                        d.attrs + [("total_bytes", length), ("truncated", "true")]
                        + (if path.Some? then [("full_output", path.value)] else []),
                        Raw(shown)))
  {
    var e1, d1 := e.Attr("total_bytes", length), d.(attrs := d.attrs + [("total_bytes", length)]);
    AttrBuilt(e, d, "total_bytes", length);
    var e2, d2 := e1.Attr("truncated", "true"), d1.(attrs := d1.attrs + [("truncated", "true")]);
    AttrBuilt(e1, d1, "truncated", "true");
    assert d2.attrs == d.attrs + [("total_bytes", length), ("truncated", "true")];
    if path.Some? {
      AttrBuilt(e2, d2, "full_output", path.value);
      BodyBuilt(e2.AttrIfSome("full_output", path), d2.(attrs := d2.attrs + [("full_output", path.value)]), shown);
    } else {
      BodyBuilt(e2, d2, shown);
      assert d2.attrs + [] == d2.attrs;
    }
  }

  lemma {:induction false} ForestConcat(a: seq<ToolContent>, b: seq<ToolContent>, r: Rendering, start: nat)
    requires r.WellFormed()
    ensures var (right, mid) := ForestDocs(b, r, start);
            var (left, next) := ForestDocs(a, r, mid);
            ForestDocs(a + b, r, start) == (left + right, next)
  {
    var (right, mid) := ForestDocs(b, r, start);
    if a == [] {
      assert a + b == b && [] + right == right;
    } else {
      var node, rest := a[0], a[1..];
      assert a == [node] + rest && a + b == [node] + (rest + b);
      var (left, next) := ForestDocs(rest, r, mid);
      var (kids, part) := ForestDocs(node.Kids(), r, next);
      ForestConcat(rest, b, r, start);
      ForestCons(node, rest, r, mid);
      ForestCons(node, rest + b, r, start);
      SeqAssoc([NodeDoc(node, kids, r, part)], left, right);
    }
  }

  lemma {:induction false} ForestCons(node: ToolContent, rest: seq<ToolContent>, r: Rendering, start: nat)
    requires r.WellFormed()
    ensures var (docs, mid) := ForestDocs(rest, r, start);
            var (kids, part) := ForestDocs(node.Kids(), r, mid);
            ForestDocs([node] + rest, r, start) == ([NodeDoc(node, kids, r, part)] + docs, part + Parts(node, r))
  {
    assert ([node] + rest)[1..] == rest;
  }

  lemma {:induction false} OversizedConcat(a: seq<ToolContent>, b: seq<ToolContent>, total: Option<nat>)
    requires total.Some? ==> total.value > 0
    ensures Oversized(a + b, total) == Oversized(a, total) + Oversized(b, total)
  {
    if a == [] {
      assert a + b == b;
    } else {
      OversizedConcat(a[1..], b, total);
      assert (a + b)[1..] == a[1..] + b && (a + b)[0] == a[0];
      var own := if a[0].body.Text? && Truncates(a[0].body.text, total) then [a[0].body.text] else [];
      SeqAssoc(own + Oversized(a[0].Kids(), total), Oversized(a[1..], total), Oversized(b, total));
    }
  }

  /** Exactly one part number is used for each text cut short. */
  lemma {:induction false} PartsCounted(forest: seq<ToolContent>, r: Rendering, start: nat)
    requires r.WellFormed()
    ensures ForestDocs(forest, r, start).1 == start + |Oversized(forest, r.total)|
    decreases |PreOrder(forest)|
  {
    if forest != [] {
      var (_, mid) := ForestDocs(forest[1..], r, start);
      PartsCounted(forest[1..], r, start);
      PartsCounted(forest[0].Kids(), r, mid);
    }
  }

  ghost predicate Swept(forest: seq<ToolContent>, r: Rendering, built: seq<Element>, spilled: nat, files: seq<SpillFile>)
    requires r.WellFormed()
  {
    && AllDenote(Reverse(built), ForestDocs(forest, r, 0).0)
    && spilled == ForestDocs(forest, r, 0).1
    && files == Spills(Reverse(Oversized(forest, r.total)), r.disk)
  }

  /** One step of the reverse sweep: the node's children are the top of `built`. */
  method SweepNode(node: ToolContent, r: Rendering, top: seq<Element>, spilled: nat, files0: seq<SpillFile>,
                   ghost below: seq<Element>, ghost rest: seq<ToolContent>)
    returns (element: Element, next: nat, files: seq<SpillFile>)
    requires r.WellFormed()
    requires |top| == |node.Kids()| && Swept(node.Kids() + rest, r, below + top, spilled, files0)
    ensures Swept([node] + rest, r, below + [element], next, files)
  {
    TopDenotes(node, rest, r, below, top, spilled, files0);
    ghost var mid := ForestDocs(rest, r, 0).1;
    var more;
    element, next, more := BuildElement(node, top, r, spilled, ForestDocs(node.Kids(), r, mid).0);
    files := files0 + more;
    NodeSwept(node, rest, r, below, element, spilled);
    SpillsGrow(node, rest, r, spilled, files0, more);
  }

  lemma {:induction false} NodeSwept(node: ToolContent, rest: seq<ToolContent>, r: Rendering,
                  below: seq<Element>, element: Element, part: nat)
    requires r.WellFormed()
    requires var (right, mid) := ForestDocs(rest, r, 0);
             && AllDenote(Reverse(below), right)
             && part == ForestDocs(node.Kids(), r, mid).1
             && Denotes(element, NodeDoc(node, ForestDocs(node.Kids(), r, mid).0, r, part))
    ensures AllDenote(Reverse(below + [element]), ForestDocs([node] + rest, r, 0).0)
    ensures ForestDocs([node] + rest, r, 0).1 == part + Parts(node, r)
  {
    var (right, mid) := ForestDocs(rest, r, 0);
    var (kids, _) := ForestDocs(node.Kids(), r, mid);
    PushDenotes(element, NodeDoc(node, kids, r, part), Reverse(below), right);
    assert Reverse(below + [element]) == [element] + Reverse(below);
    assert ([node] + rest)[1..] == rest;
  }

  lemma {:induction false} TopDenotes(node: ToolContent, rest: seq<ToolContent>, r: Rendering,
                   below: seq<Element>, top: seq<Element>, spilled: nat, files0: seq<SpillFile>)
    requires r.WellFormed()
    requires |top| == |node.Kids()| && Swept(node.Kids() + rest, r, below + top, spilled, files0)
    ensures var (right, mid) := ForestDocs(rest, r, 0);
            var (kids, part) := ForestDocs(node.Kids(), r, mid);
            AllDenote(Reverse(top), kids) && AllDenote(Reverse(below), right) && spilled == part
  {
    var (right, mid) := ForestDocs(rest, r, 0);
    var (kids, part) := ForestDocs(node.Kids(), r, mid);
    ForestConcat(node.Kids(), rest, r, 0);
    ReverseConcat(below, top);
    AllDenoteSplit(Reverse(top), Reverse(below), kids + right);
    assert (kids + right)[..|kids|] == kids && (kids + right)[|kids|..] == right;
  }

  lemma {:induction false} PushDenotes(e: Element, d: Doc, kids: seq<Element>, docs: seq<Doc>)
    requires Denotes(e, d) && AllDenote(kids, docs)
    ensures AllDenote([e] + kids, [d] + docs)
  {
    assert ([e] + kids)[1..] == kids && ([d] + docs)[1..] == docs;
  }

  lemma {:induction false} OversizedNode(node: ToolContent, rest: seq<ToolContent>, r: Rendering)
    requires r.WellFormed()
    ensures Oversized([node] + rest, r.total)
         == (if Parts(node, r) == 1 then [node.body.text] else []) + Oversized(node.Kids() + rest, r.total)
  {
    assert ([node] + rest)[1..] == rest;
    OversizedConcat(node.Kids(), rest, r.total);
    SeqAssoc(if Parts(node, r) == 1 then [node.body.text] else [],
             Oversized(node.Kids(), r.total), Oversized(rest, r.total));
  }

  lemma SpillsSnoc(texts: seq<string>, text: string, disk: nat -> Option<string>)
    ensures Spills(Reverse([text] + texts), disk) == Spills(Reverse(texts), disk) + Spilled(|texts|, text, disk)
  {
    var front := Reverse(texts);
    assert Reverse([text] + texts) == front + [text];
    assert (front + [text])[..|front|] == front;
  }

  lemma {:induction false} SpillsGrow(node: ToolContent, rest: seq<ToolContent>, r: Rendering, spilled: nat,
                   files0: seq<SpillFile>, more: seq<SpillFile>)
    requires r.WellFormed()
    requires spilled == ForestDocs(node.Kids() + rest, r, 0).1
    requires files0 == Spills(Reverse(Oversized(node.Kids() + rest, r.total)), r.disk)
    requires more == if Parts(node, r) == 1 then Spilled(spilled, node.body.text, r.disk) else []
    ensures files0 + more == Spills(Reverse(Oversized([node] + rest, r.total)), r.disk)
  {
    var inner := Oversized(node.Kids() + rest, r.total);
    assert spilled == |inner| by { PartsCounted(node.Kids() + rest, r, 0); }
    OversizedNode(node, rest, r);
    if Parts(node, r) == 1 {
      SpillsSnoc(inner, node.body.text, r.disk);
    } else {
      NothingAdded(inner, files0);
    }
  }

  lemma NothingAdded(texts: seq<string>, files: seq<SpillFile>)
    ensures [] + texts == texts && files + [] == files
  {
  }

  /** The reverse sweep over the pre-order list builds the recursive rendering.  `split_off` never
      takes more than `built` holds, and the texts cut short are parts 0, 1, ... with the last text
      first; on disk are exactly the parts that could be written. */
  method ToolContentToElement(content: ToolContent, r: Rendering) returns (element: Element, files: seq<SpillFile>)
    requires r.WellFormed()
    ensures Denotes(element, ForestDocs([content], r, 0).0[0])
    ensures var parts := Reverse(Oversized([content], r.total));
            && files == Spills(parts, r.disk)
            && AllRepresent(ForestDocs([content], r, 0).0, [content], r, parts, files)
  {
    var nodes := CollectNodes(content);
    var spilled, built := 0, [];
    files := [];
    var i := |nodes|;
    FrontierEnd([content]);
    while i > 1
      invariant 1 <= i <= |nodes|
      invariant Swept(Frontier([content], i), r, built, spilled, files)
    {
      i := i - 1;
      var node := nodes[i];
      ghost var rest := Remaining(content, i);
      assert |built| == |node.Kids()| + |rest|;
      var keep := |built| - |node.Kids()|;
      var below, top := built[..keep], built[keep..];
      assert built == below + top;
      var element;
      element, spilled, files := SweepNode(node, r, top, spilled, files, below, rest);
      built := below + [element];
    }
    ghost var rest := Remaining(content, 0);
    assert rest == [] && built == [] + built;
    element, spilled, files := SweepNode(content, r, built, spilled, files, [], []);
    assert [content] + [] == [content] && [] + [element] == [element];
    RootSwept(content, r, element, spilled, files);
  }

  lemma {:induction false} RootSwept(content: ToolContent, r: Rendering, element: Element, spilled: nat, files: seq<SpillFile>)
    requires r.WellFormed() && Swept([content], r, [element], spilled, files)
    ensures Denotes(element, ForestDocs([content], r, 0).0[0])
    ensures AllRepresent(ForestDocs([content], r, 0).0, [content], r, Reverse(Oversized([content], r.total)), files)
  {
    WholeRepresents(content, r);
    assert Reverse([element])[0] == element;
  }

  lemma {:induction false} WholeRepresents(content: ToolContent, r: Rendering)
    requires r.WellFormed()
    ensures var parts := Reverse(Oversized([content], r.total));
            AllRepresent(ForestDocs([content], r, 0).0, [content], r, parts, Spills(parts, r.disk))
  {
    var parts := Reverse(Oversized([content], r.total));
    assert parts[0..0 + |parts|] == parts;
    ForestRepresents([content], r, 0, parts);
  }

  lemma Remaining(content: ToolContent, i: nat) returns (rest: seq<ToolContent>)
    requires i < |PreOrder([content])|
    ensures var node := PreOrder([content])[i];
            Frontier([content], i) == [node] + rest && Frontier([content], i + 1) == node.Kids() + rest
  {
    FrontierStep([content], i);
    var frontier := Frontier([content], i);
    rest := frontier[1..];
    assert frontier == [frontier[0]] + rest;
  }

  lemma {:induction false} FrontierEnd(forest: seq<ToolContent>)
    ensures Frontier(forest, |PreOrder(forest)|) == []
    decreases |PreOrder(forest)|
  {
    if forest != [] {
      FrontierPops(forest);
      FrontierEnd(forest[0].Kids() + forest[1..]);
    }
  }

  // ---------------------------------------------------------------- the budget

  lemma MulMonotone(a: int, b: int, t: nat)
    requires a <= b
    ensures a * t <= b * t
  {
  }

  lemma MulCancel(a: int, b: int, t: nat)
    requires a * t <= b * t && t > 0
    ensures a <= b
  {
    if b + 1 <= a { MulMonotone(b + 1, a, t); }
  }

  lemma ShareBounds(bytes: nat, total: nat)
    requires total > MAX_STREAM_PAYLOAD_BYTES
    ensures bytes * MAX_STREAM_PAYLOAD_BYTES / total * total <= bytes * MAX_STREAM_PAYLOAD_BYTES
    ensures bytes > 0 ==> bytes * MAX_STREAM_PAYLOAD_BYTES / total < bytes
  {
    var share := bytes * MAX_STREAM_PAYLOAD_BYTES / total;
    if bytes > 0 && bytes <= share {
      MulMonotone(bytes, share, total);
      MulMonotone(MAX_STREAM_PAYLOAD_BYTES + 1, total, bytes);
    }
  }

  /** In a result over the cap, a text is cut short exactly when it is longer than the floor. */
  lemma {:induction false} TruncatedIffAboveFloor(text: string, total: nat)
    requires total > MAX_STREAM_PAYLOAD_BYTES
    ensures Truncates(text, Some(total)) <==> |Encode(text)| > MIN_NODE_PAYLOAD_BYTES
  {
    ShareBounds(|Encode(text)|, total);
  }

  /** The kept part is a prefix of whole characters, fits its budget, and cannot be longer. */
  lemma {:induction false} KeptIsLongest(text: string, total: nat)
    requires total > MAX_STREAM_PAYLOAD_BYTES
    ensures Kept(text, Some(total)) <= text
    ensures |Encode(Kept(text, Some(total)))| <= Budget(|Encode(text)|, total)
    ensures forall k | 0 <= k <= |text| && |Encode(text[..k])| <= Budget(|Encode(text)|, total) ::
              k <= |Kept(text, Some(total))|
  {
    FittingIsLongest(text, Budget(|Encode(text)|, total));
  }

  function KeptBytes(forest: seq<ToolContent>, total: Option<nat>): nat
    requires total.Some? ==> total.value > 0
    decreases |PreOrder(forest)|
  {
    if forest == [] then 0
    else (if forest[0].body.Text? then |Encode(Kept(forest[0].body.text, total))| else 0)
         + KeptBytes(forest[0].Kids(), total) + KeptBytes(forest[1..], total)
  }

  /** Kept bytes beyond one floor for each text. */
  ghost function Excess(forest: seq<ToolContent>, total: nat): int
    requires total > 0
  {
    KeptBytes(forest, Some(total)) - MIN_NODE_PAYLOAD_BYTES * TextNodes(forest)
  }

  /** Summed over a tree, what exceeds the floors is a share of the cap proportional to its bytes. */
  lemma {:induction false} KeptIsProportional(forest: seq<ToolContent>, total: nat)
    requires total > MAX_STREAM_PAYLOAD_BYTES
    ensures Excess(forest, total) * total <= TextBytes(forest) * MAX_STREAM_PAYLOAD_BYTES
    decreases |PreOrder(forest)|
  {
    if forest != [] {
      KeptIsProportional(forest[0].Kids(), total);
      KeptIsProportional(forest[1..], total);
      var own := if forest[0].body.Text? then |Encode(Kept(forest[0].body.text, Some(total)))| - MIN_NODE_PAYLOAD_BYTES else 0;
      NodeIsProportional(forest[0], total);
      Distribute(own, Excess(forest[0].Kids(), total), Excess(forest[1..], total), total);
      Distribute(NodeBytes(forest[0]), TextBytes(forest[0].Kids()), TextBytes(forest[1..]), MAX_STREAM_PAYLOAD_BYTES);
      assert Excess(forest, total) == own + Excess(forest[0].Kids(), total) + Excess(forest[1..], total);
    }
  }

  lemma Distribute(a: int, b: int, c: int, t: int)
    ensures (a + b + c) * t == a * t + b * t + c * t
  {
  }

  lemma NodeIsProportional(node: ToolContent, total: nat)
    requires total > MAX_STREAM_PAYLOAD_BYTES
    ensures node.body.Text? ==>
      (|Encode(Kept(node.body.text, Some(total)))| - MIN_NODE_PAYLOAD_BYTES) * total
        <= NodeBytes(node) * MAX_STREAM_PAYLOAD_BYTES
  {
    if node.body.Text? {
      KeptIsLongest(node.body.text, total);
      ShareOf(|Encode(Kept(node.body.text, Some(total)))| - MIN_NODE_PAYLOAD_BYTES, NodeBytes(node), total);
    }
  }

  lemma ShareOf(excess: int, bytes: nat, total: nat)
    requires total > MAX_STREAM_PAYLOAD_BYTES
    requires excess <= Budget(bytes, total) - MIN_NODE_PAYLOAD_BYTES
    ensures excess * total <= bytes * MAX_STREAM_PAYLOAD_BYTES
  {
    var share := bytes * MAX_STREAM_PAYLOAD_BYTES / total;
    ShareBounds(bytes, total);
    MulMonotone(excess, share, total);
  }

  /** An over-budget result keeps at most the cap plus one floor for each text. */
  lemma KeptWithinCap(content: ToolContent)
    requires TextBytes([content]) > MAX_STREAM_PAYLOAD_BYTES
    ensures KeptBytes([content], Some(TextBytes([content])))
         <= MAX_STREAM_PAYLOAD_BYTES + MIN_NODE_PAYLOAD_BYTES * TextNodes([content])
  {
    var total := TextBytes([content]);
    KeptIsProportional([content], total);
    MulCancel(Excess([content], total), MAX_STREAM_PAYLOAD_BYTES, total);
  }

  /** Which part a spill file is; it holds that text in full. */
  lemma {:induction false} SpillPart(texts: seq<string>, disk: nat -> Option<string>, j: nat) returns (k: nat)
    requires j < |Spills(texts, disk)|
    ensures k < |texts| && disk(k).Some? && Spills(texts, disk)[j] == SpillFile(PartName(k), disk(k).value, texts[k])
  {
    var front := texts[..|texts| - 1];
    if j < |Spills(front, disk)| {
      k := SpillPart(front, disk, j);
    } else {
      k := |texts| - 1;
    }
  }

  /** No two spill files of one result share a name. */
  lemma {:induction false} SpillNamesDistinct(texts: seq<string>, disk: nat -> Option<string>, i: nat, j: nat)
    requires i < j < |Spills(texts, disk)|
    ensures Spills(texts, disk)[i].name != Spills(texts, disk)[j].name
  {
    var front := texts[..|texts| - 1];
    if j < |Spills(front, disk)| {
      SpillNamesDistinct(front, disk, i, j);
    } else {
      var k := SpillPart(front, disk, i);
      PartNamesDiffer(k, |texts| - 1);
    }
  }

  lemma PartNamesDiffer(k: nat, m: nat)
    requires k != m
    ensures PartName(k) != PartName(m)
  {
    if PartName(k) == PartName(m) {
      assert PartName(k)[5..] == Decimal(k) && PartName(m)[5..] == Decimal(m);
      DecimalInjective(k, m);
    }
  }

  // ---------------------------------------------------------------- the rendered text

  /** Tags and attribute keys free of markup. */
  ghost predicate CleanTree(forest: seq<ToolContent>)
    decreases |PreOrder(forest)|
  {
    forest != [] ==>
      && CleanName(forest[0].tag) && CleanKeys(forest[0].attributes)
      && CleanTree(forest[0].Kids()) && CleanTree(forest[1..])
  }

  lemma {:induction false} KeysConcat(a: seq<(string, string)>, b: seq<(string, string)>)
    requires CleanKeys(a) && CleanKeys(b)
    ensures CleanKeys(a + b)
  {
    if a == [] {
      assert a + b == b;
    } else {
      KeysConcat(a[1..], b);
      assert (a + b)[1..] == a[1..] + b;
    }
  }

  lemma {:induction false} NodeClean(node: ToolContent, kids: seq<Doc>, r: Rendering, part: nat)
    requires r.WellFormed()
    requires CleanName(node.tag) && CleanKeys(node.attributes) && AllClean(kids)
    ensures Clean(NodeDoc(node, kids, r, part))
  {
    var marks := [("total_bytes", Decimal(NodeBytes(node))), ("truncated", "true")];
    var path := if r.disk(part).Some? then [("full_output", r.disk(part).value)] else [];
    assert marks[1..] == [("truncated", "true")] && marks[1..][1..] == [];
    assert path != [] ==> path[1..] == [];
    KeysConcat(node.attributes, marks);
    KeysConcat(node.attributes + marks, path);
  }

  lemma {:induction false} ForestClean(forest: seq<ToolContent>, r: Rendering, start: nat)
    requires r.WellFormed() && CleanTree(forest)
    ensures AllClean(ForestDocs(forest, r, start).0)
    decreases |PreOrder(forest)|
  {
    if forest != [] {
      var (rest, mid) := ForestDocs(forest[1..], r, start);
      var (kids, part) := ForestDocs(forest[0].Kids(), r, mid);
      ForestClean(forest[1..], r, start);
      ForestClean(forest[0].Kids(), r, mid);
      NodeClean(forest[0], kids, r, part);
      var docs := [NodeDoc(forest[0], kids, r, part)] + rest;
      assert docs[1..] == rest;
    }
  }

  // ---------------------------------------------------------------- what the documents say

  /** The budget of a text: its share of the cap, rounded down, and never below the floor. */
  lemma BudgetExact(bytes: nat, total: nat)
    requires total > 0
    ensures var budget := Budget(bytes, total);
            && budget >= 1024 && (budget + 1) * total > bytes * 51200
            && (budget == 1024 || budget * total <= bytes * 51200)
  {
    var share := bytes * MAX_STREAM_PAYLOAD_BYTES / total;
    assert share * total <= bytes * MAX_STREAM_PAYLOAD_BYTES < (share + 1) * total;
    MulMonotone(share + 1, Budget(bytes, total) + 1, total);
  }

  function SumOfTexts(nodes: seq<ToolContent>): nat {
    if nodes == [] then 0
    else (match nodes[0].body case Text(text) => |Encode(text)| case _ => 0) + SumOfTexts(nodes[1..])
  }

  /** The total is the bytes of every text of the tree, each once. */
  lemma {:induction false} TextBytesIsSum(forest: seq<ToolContent>)
    ensures TextBytes(forest) == SumOfTexts(PreOrder(forest))
    decreases |PreOrder(forest)|
  {
    if forest != [] {
      var node, below, beside := forest[0], PreOrder(forest[0].Kids()), PreOrder(forest[1..]);
      TextBytesIsSum(node.Kids());
      TextBytesIsSum(forest[1..]);
      assert PreOrder(forest) == [node] + (below + beside) by { SeqAssoc([node], below, beside); }
      assert ([node] + (below + beside))[1..] == below + beside;
      SumConcat(below, beside);
    }
  }

  lemma {:induction false} SumConcat(a: seq<ToolContent>, b: seq<ToolContent>)
    ensures SumOfTexts(a + b) == SumOfTexts(a) + SumOfTexts(b)
  {
    if a == [] {
      assert a + b == b;
    } else {
      SumConcat(a[1..], b);
      assert (a + b)[1..] == a[1..] + b && (a + b)[0] == a[0];
    }
  }

  function DocsOf(d: Doc): seq<Doc> {
    if d.content.Nodes? then d.content.docs else []
  }

  /** The marks of a text cut short: its length, that it was cut, and the path of the file that holds all
      of it, unless the part it became could not be written. */
  ghost predicate Marks(extra: seq<(string, string)>, text: string, disk: nat -> Option<string>,
                        parts: seq<string>, files: seq<SpillFile>) {
    && |extra| >= 2
    && extra[0].0 == "total_bytes" && DecimalValue(extra[0].1) == |Encode(text)|
    && (forall i | 0 <= i < |extra[0].1| :: '0' <= extra[0].1[i] <= '9')
    && extra[1] == ("truncated", "true")
    && exists k :: 0 <= k < |parts| && parts[k] == text &&
         if disk(k).None? then |extra| == 2
         else extra[2..] == [("full_output", disk(k).value)] && SpillFile(PartName(k), disk(k).value, text) in files
  }

  ghost predicate Shows(shown: string, text: string, budget: nat) {
    |shown| >= 3 && shown[|shown| - 3..] == "..." && LongestWithin(shown[..|shown| - 3], text, budget)
  }

  /** The document says what the node says: its tag and attributes, in order, and its text, whole or, past
      its budget, cut and marked.  Binary content is not shown. */
  ghost predicate Represents(d: Doc, node: ToolContent, r: Rendering, parts: seq<string>, files: seq<SpillFile>)
    requires r.WellFormed()
  {
    && d.name == node.tag
    && match node.body
       case Text(text) =>
         if r.total.Some? && |Encode(text)| > Budget(|Encode(text)|, r.total.value) then
           && node.attributes <= d.attrs
           && Marks(d.attrs[|node.attributes|..], text, r.disk, parts, files)
           && d.content.Raw? && Shows(d.content.raw, text, Budget(|Encode(text)|, r.total.value))
         else d.attrs == node.attributes && d.content == Raw(text)
       case Branch(nodes) =>
         d.attrs == node.attributes && if nodes == [] then d.content == NoContent else d.content.Nodes?
       case _ => d.attrs == node.attributes && d.content == NoContent
  }

  ghost predicate AllRepresent(docs: seq<Doc>, forest: seq<ToolContent>, r: Rendering,
                               parts: seq<string>, files: seq<SpillFile>)
    requires r.WellFormed()
    decreases |PreOrder(forest)|
  {
    && |docs| == |forest|
    && (forest != [] ==>
         && Represents(docs[0], forest[0], r, parts, files)
         && AllRepresent(DocsOf(docs[0]), forest[0].Kids(), r, parts, files)
         && AllRepresent(docs[1..], forest[1..], r, parts, files))
  }

  predicate At<T(==)>(all: seq<T>, start: nat, part: seq<T>) {
    start + |part| <= |all| && all[start..start + |part|] == part
  }

  lemma AtSplit<T>(all: seq<T>, start: nat, a: seq<T>, b: seq<T>)
    requires At(all, start, a + b)
    ensures At(all, start, a) && At(all, start + |a|, b)
  {
    var whole := all[start..start + |a + b|];
    assert whole[..|a|] == a && whole[|a|..] == b;
  }

  /** The parts from `start` on are the texts cut short in this forest, last one first. */
  predicate PartsAt(forest: seq<ToolContent>, r: Rendering, start: nat, parts: seq<string>)
    requires r.WellFormed()
  {
    At(parts, start, Reverse(Oversized(forest, r.total)))
  }

  lemma {:induction false} ForestRepresents(forest: seq<ToolContent>, r: Rendering, start: nat, parts: seq<string>)
    requires r.WellFormed() && PartsAt(forest, r, start, parts)
    ensures AllRepresent(ForestDocs(forest, r, start).0, forest, r, parts, Spills(parts, r.disk))
    decreases |PreOrder(forest)|
  {
    if forest != [] {
      var node, rest := forest[0], forest[1..];
      var (right, mid) := ForestDocs(rest, r, start);
      var (kids, part) := ForestDocs(node.Kids(), r, mid);
      PartsSplit(forest, r, start, parts);
      ForestRepresents(rest, r, start, parts);
      ForestRepresents(node.Kids(), r, mid, parts);
      NodeRepresents(node, kids, r, part, parts);
      var docs := [NodeDoc(node, kids, r, part)] + right;
      assert ForestDocs(forest, r, start).0 == docs && docs[1..] == right;
    }
  }

  /** The parts of a tree's siblings come first, then those below it, then its own. */
  lemma {:induction false} PartsSplit(forest: seq<ToolContent>, r: Rendering, start: nat, parts: seq<string>)
    requires r.WellFormed() && forest != [] && PartsAt(forest, r, start, parts)
    ensures var (_, mid) := ForestDocs(forest[1..], r, start);
            var (_, part) := ForestDocs(forest[0].Kids(), r, mid);
            && PartsAt(forest[1..], r, start, parts) && PartsAt(forest[0].Kids(), r, mid, parts)
            && (Parts(forest[0], r) == 1 ==> part < |parts| && parts[part] == forest[0].body.text)
  {
    var (_, mid) := ForestDocs(forest[1..], r, start);
    var own := OwnPart(forest[0], r);
    var inner, right := Oversized(forest[0].Kids(), r.total), Oversized(forest[1..], r.total);
    PartsCounted(forest[1..], r, start);
    PartsCounted(forest[0].Kids(), r, mid);
    PartsOrder(forest, r);
    AtSplit(parts, start, Reverse(right), Reverse(inner) + own);
    AtSplit(parts, mid, Reverse(inner), own);
    if own != [] { assert own == [own[0]]; }
  }

  lemma {:induction false} PartsOrder(forest: seq<ToolContent>, r: Rendering)
    requires r.WellFormed() && forest != []
    ensures Reverse(Oversized(forest, r.total))
         == Reverse(Oversized(forest[1..], r.total)) + (Reverse(Oversized(forest[0].Kids(), r.total)) + OwnPart(forest[0], r))
  {
    var own, inner := OwnPart(forest[0], r), Oversized(forest[0].Kids(), r.total);
    ReverseConcat(own + inner, Oversized(forest[1..], r.total));
    ReverseConcat(own, inner);
  }

  function OwnPart(node: ToolContent, r: Rendering): (own: seq<string>)
    requires r.WellFormed()
    ensures Reverse(own) == own
  {
    if Parts(node, r) == 1 then [node.body.text] else []
  }

  /** Every part that could be written is on disk, under its name, with its whole text. */
  lemma {:induction false} SpillOf(parts: seq<string>, disk: nat -> Option<string>, k: nat)
    requires k < |parts| && disk(k).Some?
    ensures SpillFile(PartName(k), disk(k).value, parts[k]) in Spills(parts, disk)
  {
    if k < |parts| - 1 {
      SpillOf(parts[..|parts| - 1], disk, k);
    }
  }

  lemma {:induction false} NodeRepresents(node: ToolContent, kids: seq<Doc>, r: Rendering, part: nat, parts: seq<string>)
    requires r.WellFormed() && |kids| == |node.Kids()|
    requires Parts(node, r) == 1 ==> part < |parts| && parts[part] == node.body.text
    ensures var d := NodeDoc(node, kids, r, part);
            Represents(d, node, r, parts, Spills(parts, r.disk)) && DocsOf(d) == kids
  {
    if Parts(node, r) == 1 {
      var text, d, front := node.body.text, NodeDoc(node, kids, r, part), node.attributes;
      CutShows(text, Budget(|Encode(text)|, r.total.value));
      MarksOf(text, r.disk, part, parts);
      var marks := [("total_bytes", Decimal(|Encode(text)|)), ("truncated", "true")];
      var path := if r.disk(part).Some? then [("full_output", r.disk(part).value)] else [];
      Follow(front, marks, path);
    }
  }

  lemma Follow<T>(front: seq<T>, a: seq<T>, b: seq<T>)
    ensures front <= front + a + b && (front + a + b)[|front|..] == a + b
  {
  }

  lemma {:induction false} CutShows(text: string, budget: nat)
    ensures Shows(text[..Fitting(text, budget)] + "...", text, budget)
  {
    var kept := text[..Fitting(text, budget)];
    FittingLongestWithin(text, budget);
    assert (kept + "...")[..|kept|] == kept && (kept + "...")[|kept|..] == "...";
  }

  function MarksFor(text: string, path: Option<string>): seq<(string, string)> {
    [("total_bytes", Decimal(|Encode(text)|)), ("truncated", "true")]
    + if path.Some? then [("full_output", path.value)] else []
  }

  lemma {:induction false} MarksOf(text: string, disk: nat -> Option<string>, part: nat, parts: seq<string>)
    requires part < |parts| && parts[part] == text
    ensures Marks(MarksFor(text, disk(part)), text, disk, parts, Spills(parts, disk))
  {
    DecimalReads(|Encode(text)|);
    if disk(part).Some? { SpillOf(parts, disk, part); }
  }

  /** A document read back as a tree. */
  function TreeOf(d: Doc): ToolContent {
    match d.content
    case NoContent => ToolContent(d.name, d.attrs, NoBody)
    case Plain(text) => ToolContent(d.name, d.attrs, Text(text))
    case Raw(text) => ToolContent(d.name, d.attrs, Text(text))
    case Nodes(docs) => ToolContent(d.name, d.attrs, Branch(TreesOf(docs)))
  }

  function TreesOf(docs: seq<Doc>): seq<ToolContent> {
    if docs == [] then [] else [TreeOf(docs[0])] + TreesOf(docs[1..])
  }

  /** A tree as it can be read back: binary content and an empty list of children are no content. */
  function Visible(node: ToolContent): ToolContent {
    match node.body
    case Binary(_, _) => node.(body := NoBody)
    case Branch(nodes) => node.(body := if nodes == [] then NoBody else Branch(AllVisible(nodes)))
    case _ => node
  }

  function AllVisible(forest: seq<ToolContent>): seq<ToolContent> {
    if forest == [] then [] else [Visible(forest[0])] + AllVisible(forest[1..])
  }

  /** When nothing is cut, the documents read back as the trees. */
  lemma {:induction false} UncutReadsBack(docs: seq<Doc>, forest: seq<ToolContent>, r: Rendering,
                                          parts: seq<string>, files: seq<SpillFile>)
    requires r.total.None? && AllRepresent(docs, forest, r, parts, files)
    ensures TreesOf(docs) == AllVisible(forest)
    decreases |PreOrder(forest)|
  {
    if forest != [] {
      UncutReadsBack(DocsOf(docs[0]), forest[0].Kids(), r, parts, files);
      UncutReadsBack(docs[1..], forest[1..], r, parts, files);
    }
  }

  /** The whole pipeline.  The text the model is shown reads back as a document that represents the tree;
      within the cap that is the tree itself, and nothing is written to disk.  The files are one for each
      text cut short, last one first. */
  method AugmentToolResponse(content: ToolContent, disk: nat -> Option<string>)
    returns (rendered: string, files: seq<SpillFile>)
    ensures var total := TextBytes([content]);
            var r := Rendering(if total > MAX_STREAM_PAYLOAD_BYTES then Some(total) else None, disk);
            var parts := Reverse(Oversized([content], r.total));
            && files == Spills(parts, disk)
            && (total <= MAX_STREAM_PAYLOAD_BYTES ==> files == [])
            && (CleanTree([content]) ==>
                 && ReadDoc(rendered).Some? && ReadDoc(rendered).value.1 == ""
                 && AllRepresent([ReadDoc(rendered).value.0], [content], r, parts, files)
                 && (total <= MAX_STREAM_PAYLOAD_BYTES ==> TreeOf(ReadDoc(rendered).value.0) == Visible(content)))
  {
    var total := TotalTextBytes(content);
    var r := Rendering(if total > MAX_STREAM_PAYLOAD_BYTES then Some(total) else None, disk);
    var element;
    element, files := ToolContentToElement(content, r);
    rendered := Write(element);
    if CleanTree([content]) {
      ghost var docs := ForestDocs([content], r, 0).0;
      ForestClean([content], r, 0);
      ReadWritten(element, docs[0], "");
      assert rendered + "" == rendered && docs == [docs[0]];
      WholeRepresents(content, r);
      if total <= MAX_STREAM_PAYLOAD_BYTES { OneReadsBack(docs[0], content, r); }
    }
    if total <= MAX_STREAM_PAYLOAD_BYTES { NothingOversized([content]); }
  }

  lemma {:induction false} OneReadsBack(d: Doc, content: ToolContent, r: Rendering)
    requires r.total.None?
    requires var parts := Reverse(Oversized([content], None));
             AllRepresent([d], [content], r, parts, Spills(parts, r.disk))
    ensures TreeOf(d) == Visible(content)
  {
    var parts := Reverse(Oversized([content], None));
    UncutReadsBack([d], [content], r, parts, Spills(parts, r.disk));
    assert TreesOf([d])[0] == TreeOf(d) && AllVisible([content])[0] == Visible(content);
  }

  lemma {:induction false} NothingOversized(forest: seq<ToolContent>)
    ensures Oversized(forest, None) == []
    decreases |PreOrder(forest)|
  {
    if forest != [] {
      NothingOversized(forest[0].Kids());
      NothingOversized(forest[1..]);
    }
  }
}
