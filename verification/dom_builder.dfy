/** The token-driven tree builder of src/servo/html/dom_builder.rs.

    The tree store (`NodeScope`) is an arena: a sequence of nodes, each with
    the index of its parent. The builder keeps a cursor into it; start tags
    push a new element under the cursor, close tags move the cursor back to
    its parent, non-blank text adds a text child. Closing a stylesheet
    `<link>` or a `<script src>` submits a URL to one of two listeners; the
    listeners are modelled by the ordered sequences of URLs submitted to
    them. */
module DomBuilder {
  import opened Common

  type Url = string

  /** A length made by `au::from_px`. The pixel-to-app-unit factor is not
      part of this model, so a length keeps the pixel count it came from. */
  datatype Au = FromPx(px: int)

  datatype Size2D = Size2D(width: Au, height: Au)

  datatype ElementKind =
    | HTMLDivElement
    | HTMLImageElement(size: Size2D)
    | HTMLScriptElement
    | HTMLHeadElement
    | UnknownElement

  datatype Attribute = Attribute(key: string, value: string)

  datatype NodeContent =
    | Element(tagName: string, kind: ElementKind, attrs: seq<Attribute>)
    | Text(text: string)

  datatype Node = Node(parent: Option<nat>, content: NodeContent)

  /** The lexer's tokens. */
  datatype Token =
    | Eof
    | StartOpeningTag(tagName: string)
    | Attr(key: string, value: string)
    | EndOpeningTag
    | SelfCloseTag
    | EndTag(name: string)
    | Characters(text: string)
    | Doctype

  /** What the builder gets from code outside this model: the document's URL,
      `make_url` and `int::from_str`. */
  datatype Env = Env(base: Url, makeUrl: (string, Url) -> Url, parseInt: string -> Option<int>)

  const DefaultImageSize: Size2D := Size2D(FromPx(100), FromPx(100))

  // ---------------------------------------------------------------------
  // Element classifier and attribute linker

  /** `build_element_kind`: a total classifier from tag name to kind. */
  function BuildElementKind(tagName: string): (k: ElementKind)
    ensures k.HTMLDivElement? <==> tagName == "div"
    ensures k.HTMLImageElement? <==> tagName == "img"
    ensures k.HTMLScriptElement? <==> tagName == "script"
    ensures k.HTMLHeadElement? <==> tagName == "head"
    ensures k.HTMLImageElement? ==> k.size == DefaultImageSize
    ensures k.UnknownElement? <==> tagName !in {"div", "img", "script", "head"}
  {
    match tagName
    case "div" => HTMLDivElement
    case "img" => HTMLImageElement(DefaultImageSize)
    case "script" => HTMLScriptElement
    case "head" => HTMLHeadElement
    case _ => UnknownElement
  }

  /** The node content after `link_up_attribute(key, value)`: the pair is
      always appended; an image takes a parsable `width` or `height` as its
      new size in that axis; a text node cannot carry attributes. */
  function LinkAttr(c: NodeContent, key: string, value: string, parseInt: string -> Option<int>): (r: Outcome<NodeContent>)
    ensures r.Done? <==> c.Element?
    ensures r.Done? ==> r.value.Element? && r.value.tagName == c.tagName
    ensures r.Done? ==> r.value.attrs == c.attrs + [Attribute(key, value)]
    ensures r.Done? && !c.kind.HTMLImageElement? ==> r.value.kind == c.kind
    ensures r.Done? && c.kind.HTMLImageElement? ==> r.value.kind.HTMLImageElement?
    ensures r.Done? && c.kind.HTMLImageElement? && key == "width" && parseInt(value).Some? ==>
      r.value.kind.size == Size2D(FromPx(parseInt(value).value), c.kind.size.height)
    ensures r.Done? && c.kind.HTMLImageElement? && key == "height" && parseInt(value).Some? ==>
      r.value.kind.size == Size2D(c.kind.size.width, FromPx(parseInt(value).value))
    ensures r.Done? && c.kind.HTMLImageElement? && ((key != "width" && key != "height") || parseInt(value).None?) ==>
      r.value.kind == c.kind
  {
    match c
    case Text(_) => Fail("attempt to link up an attribute to an unstyleable node")
    case Element(tagName, kind, attrs) =>
      var kind' :=
        match kind
        case HTMLImageElement(size) =>
          (match parseInt(value)
           case Some(n) =>
             if key == "width" then HTMLImageElement(size.(width := FromPx(n)))
             else if key == "height" then HTMLImageElement(size.(height := FromPx(n)))
             else kind
           case None => kind)
        case _ => kind;
      Done(Element(tagName, kind', attrs + [Attribute(key, value)]))
  }

  /** The value of the first attribute named `key` (the lookup of
      `get_attr`). */
  function GetAttr(attrs: seq<Attribute>, key: string): (r: Option<string>)
    ensures r.None? <==> forall i :: 0 <= i < |attrs| ==> attrs[i].key != key
    ensures r.Some? ==>
      exists i :: 0 <= i < |attrs| && attrs[i] == Attribute(key, r.value) && forall j :: 0 <= j < i ==> attrs[j].key != key
  {
    if attrs == [] then None
    else if attrs[0].key == key then Some(attrs[0].value)
    else
      var r := GetAttr(attrs[1..], key);
      if r.Some? then
        ghost var i :| 0 <= i < |attrs[1..]| && attrs[1..][i] == Attribute(key, r.value)
          && forall j :: 0 <= j < i ==> attrs[1..][j].key != key;
        assert attrs[i + 1] == Attribute(key, r.value);
        r
      else r
  }

  /** The `href` that a closing `<link rel="stylesheet" href=...>` submits. */
  function StylesheetHref(c: NodeContent): Option<string> {
    if c.Element? && c.tagName == "link" && GetAttr(c.attrs, "rel") == Some("stylesheet")
    then GetAttr(c.attrs, "href")
    else None
  }

  /** The `src` that a closing `<script src=...>` submits. */
  function ScriptSrc(c: NodeContent): Option<string> {
    if c.Element? && c.tagName == "script" then GetAttr(c.attrs, "src") else None
  }

  // ---------------------------------------------------------------------
  // The arena

  /** Every parent comes before its children and is an element. */
  ghost predicate ArenaValid(nodes: seq<Node>) {
    forall i :: 0 <= i < |nodes| && nodes[i].parent.Some? ==>
      nodes[i].parent.value < i && nodes[nodes[i].parent.value].content.Element?
  }

  /** The children of `p` among the first `n` nodes, in the order they were
      added. */
  ghost function ChildrenBelow(nodes: seq<Node>, p: nat, n: nat): seq<nat>
    requires n <= |nodes|
  {
    if n == 0 then []
    else ChildrenBelow(nodes, p, n - 1) + (if nodes[n - 1].parent == Some(p) then [n - 1] else [])
  }

  ghost function Children(nodes: seq<Node>, p: nat): seq<nat> {
    ChildrenBelow(nodes, p, |nodes|)
  }

  /** Children are decided by parent links alone. */
  lemma {:induction false} ChildrenBelowSameParents(a: seq<Node>, b: seq<Node>, p: nat, n: nat)
    requires n <= |a| && n <= |b|
    requires forall i :: 0 <= i < n ==> a[i].parent == b[i].parent
    ensures ChildrenBelow(a, p, n) == ChildrenBelow(b, p, n)
  {
    if n > 0 {
      ChildrenBelowSameParents(a, b, p, n - 1);
    }
  }

  /** Appending a node under `q` adds it as the last child of `q` and
      changes no other node's children. */
  lemma AppendChild(nodes: seq<Node>, node: Node, p: nat)
    ensures Children(nodes + [node], p) ==
      Children(nodes, p) + (if node.parent == Some(p) then [|nodes|] else [])
  {
    var a := nodes + [node];
    ChildrenBelowSameParents(a, nodes, p, |nodes|);
  }

  /** The tree store: `new_node`, `add_child`, `get_parent` over an arena. */
  class NodeScope {
    var nodes: seq<Node>

    ghost predicate Valid()
      reads this
    {
      ArenaValid(nodes)
    }

    constructor ()
      ensures Valid() && nodes == []
    {
      nodes := [];
    }

    /** A new node, not yet linked to a parent. */
    method NewNode(content: NodeContent) returns (h: nat)
      requires Valid()
      modifies this
      ensures Valid() && nodes == old(nodes) + [Node(None, content)] && h == |old(nodes)|
    {
      h := |nodes|;
      nodes := nodes + [Node(None, content)];
    }

    /** Links `child` under `parent`. In this arena a child is always newer
        than its parent, and parents are elements. */
    method AddChild(parent: nat, child: nat)
      requires Valid() && parent < child < |nodes|
      requires nodes[child].parent.None? && nodes[parent].content.Element?
      modifies this
      ensures Valid() && nodes == old(nodes)[child := Node(Some(parent), old(nodes)[child].content)]
    {
      nodes := nodes[child := Node(Some(parent), nodes[child].content)];
    }

    /** The parent of `h`, if linked. */
    function GetParent(h: nat): Option<nat>
      reads this
      requires h < |nodes|
    {
      nodes[h].parent
    }
  }

  /** `link_up_attribute`: appends the pair to the element's attribute list
      and, on an image, sets the size named by `width` or `height` when the
      value parses as an integer. Fails on a text node. */
  method LinkUpAttribute(scope: NodeScope, node: nat, key: string, value: string, parseInt: string -> Option<int>)
    returns (r: Outcome<()>)
    requires scope.Valid() && node < |scope.nodes|
    modifies scope
    ensures scope.Valid()
    ensures match LinkAttr(old(scope.nodes[node].content), key, value, parseInt)
      case Done(c) => r.Done? && scope.nodes == old(scope.nodes)[node := Node(old(scope.nodes[node].parent), c)]
      case Fail(_) => r.Fail? && scope.nodes == old(scope.nodes)
  {
    var n := scope.nodes[node];
    match n.content {
      case Text(_) =>
        r := Fail("attempt to link up an attribute to an unstyleable node");
      case Element(tagName, kind, attrs) =>
        var attrs' := attrs + [Attribute(key, value)];
        var kind' := kind;
        if kind.HTMLImageElement? && key == "width" {
          match parseInt(value) {
            case None =>
            case Some(s) => kind' := HTMLImageElement(kind.size.(width := FromPx(s)));
          }
        } else if kind.HTMLImageElement? && key == "height" {
          match parseInt(value) {
            case None =>
            case Some(s) => kind' := HTMLImageElement(kind.size.(height := FromPx(s)));
          }
        }
        scope.nodes := scope.nodes[node := Node(n.parent, Element(tagName, kind', attrs'))];
        r := Done(());
    }
  }

  // ---------------------------------------------------------------------
  // The token loop as a state machine

  /** The builder's state: the arena, the cursor and the URLs submitted so far
      to the style and the script listener. */
  datatype BuildState = BuildState(nodes: seq<Node>, cursor: nat, styleUrls: seq<Url>, scriptUrls: seq<Url>)

  /** The cursor is a node of a valid arena, and an element. */
  ghost predicate WellFormed(s: BuildState) {
    ArenaValid(s.nodes) && s.cursor < |s.nodes| && s.nodes[s.cursor].content.Element?
  }

  /** The state after `build_dom` has created the synthetic `html` root in a
      store holding `nodes`. */
  function Initial(nodes: seq<Node>): BuildState {
    BuildState(nodes + [Node(None, Element("html", HTMLDivElement, []))], |nodes|, [], [])
  }

  /** Moves the cursor to its parent; at the root `get_parent(..).get()`
      fails. */
  function CloseCursor(s: BuildState): (r: Outcome<BuildState>)
    requires s.cursor < |s.nodes|
  {
    match s.nodes[s.cursor].parent
    case None => Fail("closing a tag with no parent")
    case Some(p) => Done(s.(cursor := p))
  }

  /** The effect of one token other than `Eof`. */
  function Step(s: BuildState, t: Token, env: Env): (r: Outcome<BuildState>)
    requires WellFormed(s) && !t.Eof?
    ensures r.Fail? <==> (t.SelfCloseTag? || t.EndTag?) && s.nodes[s.cursor].parent.None?
    ensures r.Done? ==> WellFormed(r.value)
    ensures r.Done? ==> |s.nodes| <= |r.value.nodes|
    ensures r.Done? ==> forall i :: 0 <= i < |s.nodes| ==> r.value.nodes[i].parent == s.nodes[i].parent
    ensures r.Done? ==> s.styleUrls <= r.value.styleUrls && s.scriptUrls <= r.value.scriptUrls
  {
    var cur := s.nodes[s.cursor];
    match t
    case StartOpeningTag(name) =>
      Done(s.(nodes := s.nodes + [Node(Some(s.cursor), Element(name, BuildElementKind(name), []))],
              cursor := |s.nodes|))
    case Attr(key, value) =>
      var c := LinkAttr(cur.content, key, value, env.parseInt);
      Done(s.(nodes := s.nodes[s.cursor := Node(cur.parent, c.value)]))
    case EndOpeningTag => Done(s)
    case SelfCloseTag =>
      var submitted := match StylesheetHref(cur.content)
        case Some(href) => [env.makeUrl(href, env.base)]
        case None => [];
      CloseCursor(s.(styleUrls := s.styleUrls + submitted))
    case EndTag(_) =>
      var submitted := match ScriptSrc(cur.content)
        case Some(src) => [env.makeUrl(src, env.base)]
        case None => [];
      CloseCursor(s.(scriptUrls := s.scriptUrls + submitted))
    case Characters(text) =>
      if IsWhitespace(text) then Done(s)
      else Done(s.(nodes := s.nodes + [Node(Some(s.cursor), Text(text))]))
    case Doctype => Done(s)
  }

  /** The token loop: tokens are processed up to the first `Eof`; a stream
      that ends without one leaves `stream.recv()` failing. */
  function Run(s: BuildState, tokens: seq<Token>, env: Env): (r: Outcome<BuildState>)
    requires WellFormed(s)
    ensures r.Done? ==> WellFormed(r.value)
    ensures r.Done? ==> |s.nodes| <= |r.value.nodes|
    ensures r.Done? ==> forall i :: 0 <= i < |s.nodes| ==> r.value.nodes[i].parent == s.nodes[i].parent
    ensures r.Done? ==> s.styleUrls <= r.value.styleUrls && s.scriptUrls <= r.value.scriptUrls
    ensures Eof !in tokens ==> r.Fail?
    decreases |tokens|
  {
    if tokens == [] then Fail("token stream closed before Eof")
    else if tokens[0].Eof? then Done(s)
    else
      match Step(s, tokens[0], env)
      case Fail(m) => Fail(m)
      case Done(s') =>
        assert Eof !in tokens ==> Eof !in tokens[1..];
        Run(s', tokens[1..], env)
  }

  /** What `build_dom` hands back: the cursor at `Eof` (the root when every
      opened tag was closed) and the URLs submitted to each listener. */
  datatype BuildResult = BuildResult(node: nat, styleUrls: seq<Url>, scriptUrls: seq<Url>)

  /** One pass of the `build_dom` loop body for a token other than `Eof`:
      updates the store in place and returns the new cursor and submission
      lists, all as `Step` describes. */
  method ProcessToken(scope: NodeScope, cur: nat, styleUrls: seq<Url>, scriptUrls: seq<Url>, t: Token, env: Env)
    returns (r: Outcome<(nat, seq<Url>, seq<Url>)>)
    requires scope.Valid() && WellFormed(BuildState(scope.nodes, cur, styleUrls, scriptUrls)) && !t.Eof?
    modifies scope
    ensures scope.Valid()
    ensures match Step(BuildState(old(scope.nodes), cur, styleUrls, scriptUrls), t, env)
      case Done(s') => r == Done((s'.cursor, s'.styleUrls, s'.scriptUrls)) && scope.nodes == s'.nodes
      case Fail(_) => r.Fail?
  {
    ghost var s := BuildState(scope.nodes, cur, styleUrls, scriptUrls);
    var cur', styleUrls', scriptUrls' := cur, styleUrls, scriptUrls;
    match t {
      case StartOpeningTag(tagName) =>
        var kind := BuildElementKind(tagName);
        var n := scope.NewNode(Element(tagName, kind, []));
        scope.AddChild(cur, n);
        assert scope.nodes == s.nodes + [Node(Some(cur), Element(tagName, kind, []))];
        cur' := n;
      case Attr(key, value) =>
        var linked := LinkUpAttribute(scope, cur, key, value, env.parseInt);
        if linked.Fail? {
          // The cursor is always an element, so linking never fails here.
          assert false;
        }
      case EndOpeningTag =>
      case SelfCloseTag =>
        match StylesheetHref(scope.nodes[cur].content) {
          case Some(filename) => styleUrls' := styleUrls + [env.makeUrl(filename, env.base)];
          case None => assert styleUrls' == s.styleUrls + [];
        }
        var parent := scope.GetParent(cur);
        if parent.None? {
          r := Fail("closing a tag with no parent");
          return;
        }
        cur' := parent.value;
      case EndTag(_) =>
        match ScriptSrc(scope.nodes[cur].content) {
          case Some(filename) => scriptUrls' := scriptUrls + [env.makeUrl(filename, env.base)];
          case None => assert scriptUrls' == s.scriptUrls + [];
        }
        var parent := scope.GetParent(cur);
        if parent.None? {
          r := Fail("closing a tag with no parent");
          return;
        }
        cur' := parent.value;
      case Characters(text) =>
        if !IsWhitespace(text) {
          var n := scope.NewNode(Text(text));
          scope.AddChild(cur, n);
          assert scope.nodes == s.nodes + [Node(Some(cur), Text(text))];
        }
      case Doctype =>
    }
    r := Done((cur', styleUrls', scriptUrls'));
  }

  /** `build_dom`: runs the token loop over the store, creating the `html`
      root first. On success the store holds exactly the nodes `Run`
      computes and the result is its cursor and submissions. */
  method BuildDom(scope: NodeScope, tokens: seq<Token>, env: Env) returns (r: Outcome<BuildResult>)
    requires scope.Valid()
    modifies scope
    ensures var expected := Run(Initial(old(scope.nodes)), tokens, env);
      && (r.Done? <==> expected.Done?)
      && (r.Done? ==>
            r.value == BuildResult(expected.value.cursor, expected.value.styleUrls, expected.value.scriptUrls)
            && scope.nodes == expected.value.nodes)
  {
    ghost var expected := Run(Initial(scope.nodes), tokens, env);
    var cur := scope.NewNode(Element("html", HTMLDivElement, []));
    var styleUrls: seq<Url> := [];
    var scriptUrls: seq<Url> := [];
    var i := 0;
    while i < |tokens|
      invariant 0 <= i <= |tokens| && scope.Valid()
      invariant WellFormed(BuildState(scope.nodes, cur, styleUrls, scriptUrls))
      invariant Run(BuildState(scope.nodes, cur, styleUrls, scriptUrls), tokens[i..], env) == expected
      decreases |tokens| - i
    {
      assert tokens[i..][0] == tokens[i] && tokens[i..][1..] == tokens[i + 1..];
      if tokens[i].Eof? {
        r := Done(BuildResult(cur, styleUrls, scriptUrls));
        return;
      }
      var next := ProcessToken(scope, cur, styleUrls, scriptUrls, tokens[i], env);
      if next.Fail? {
        r := Fail(next.reason);
        return;
      }
      cur, styleUrls, scriptUrls := next.value.0, next.value.1, next.value.2;
      i := i + 1;
    }
    r := Fail("token stream closed before Eof");
  }

  // ---------------------------------------------------------------------
  // Properties of single tokens

  /** `StartOpeningTag` creates one element, the last child of the cursor,
      and moves the cursor to it; no other node gains a child. */
  lemma StartTagAddsLastChild(s: BuildState, name: string, env: Env)
    requires WellFormed(s)
    ensures var r := Step(s, StartOpeningTag(name), env);
      && r.Done? && r.value.cursor == |s.nodes| && |r.value.nodes| == |s.nodes| + 1
      && r.value.nodes[|s.nodes|] == Node(Some(s.cursor), Element(name, BuildElementKind(name), []))
      && r.value.nodes[..|s.nodes|] == s.nodes
      && Children(r.value.nodes, s.cursor) == Children(s.nodes, s.cursor) + [|s.nodes|]
      && (forall q :: q != s.cursor ==> Children(r.value.nodes, q) == Children(s.nodes, q))
      && r.value.styleUrls == s.styleUrls && r.value.scriptUrls == s.scriptUrls
  {
    var node := Node(Some(s.cursor), Element(name, BuildElementKind(name), []));
    assert Step(s, StartOpeningTag(name), env).value.nodes == s.nodes + [node];
    AppendChild(s.nodes, node, s.cursor);
    forall q | q != s.cursor ensures Children(s.nodes + [node], q) == Children(s.nodes, q) {
      AppendChild(s.nodes, node, q);
    }
  }

  /** `Attr` links the pair onto the cursor's element and moves nothing: the
      cursor, the node count, every parent link and every other node stay as
      they were. */
  lemma AttrKeepsCursor(s: BuildState, key: string, value: string, env: Env)
    requires WellFormed(s)
    ensures var r := Step(s, Attr(key, value), env);
      && r.Done? && r.value.cursor == s.cursor && |r.value.nodes| == |s.nodes|
      && LinkAttr(s.nodes[s.cursor].content, key, value, env.parseInt) == Done(r.value.nodes[s.cursor].content)
      && (forall i :: 0 <= i < |s.nodes| && i != s.cursor ==> r.value.nodes[i] == s.nodes[i])
      && (forall q :: Children(r.value.nodes, q) == Children(s.nodes, q))
      && r.value.styleUrls == s.styleUrls && r.value.scriptUrls == s.scriptUrls
  {
    var r := Step(s, Attr(key, value), env).value;
    forall q ensures Children(r.nodes, q) == Children(s.nodes, q) {
      ChildrenBelowSameParents(r.nodes, s.nodes, q, |s.nodes|);
    }
  }

  /** `EndOpeningTag`, `Doctype` and whitespace-only text change nothing. */
  lemma IgnoredTokens(s: BuildState, text: string, env: Env)
    requires WellFormed(s)
    ensures Step(s, EndOpeningTag, env) == Done(s)
    ensures Step(s, Doctype, env) == Done(s)
    ensures IsWhitespace(text) ==> Step(s, Characters(text), env) == Done(s)
  {
  }

  /** Non-blank text adds exactly one text node, the last child of the
      cursor, and leaves the cursor where it is. */
  lemma TextAddsChild(s: BuildState, text: string, env: Env)
    requires WellFormed(s) && !IsWhitespace(text)
    ensures var r := Step(s, Characters(text), env);
      && r.Done? && r.value.cursor == s.cursor
      && r.value.nodes == s.nodes + [Node(Some(s.cursor), Text(text))]
      && Children(r.value.nodes, s.cursor) == Children(s.nodes, s.cursor) + [|s.nodes|]
      && (forall q :: q != s.cursor ==> Children(r.value.nodes, q) == Children(s.nodes, q))
      && r.value.styleUrls == s.styleUrls && r.value.scriptUrls == s.scriptUrls
  {
    var node := Node(Some(s.cursor), Text(text));
    AppendChild(s.nodes, node, s.cursor);
    forall q | q != s.cursor ensures Children(s.nodes + [node], q) == Children(s.nodes, q) {
      AppendChild(s.nodes, node, q);
    }
  }

  /** `SelfCloseTag` submits one URL to the style listener exactly when the
      cursor is a `link` with `rel="stylesheet"` and an `href`, then moves the
      cursor to its parent; at the root it fails. */
  lemma SelfCloseSubmitsStylesheet(s: BuildState, env: Env)
    requires WellFormed(s)
    ensures var r := Step(s, SelfCloseTag, env);
      var c := s.nodes[s.cursor].content;
      && (r.Fail? <==> s.nodes[s.cursor].parent.None?)
      && (r.Done? ==>
            && r.value.cursor == s.nodes[s.cursor].parent.value
            && r.value.nodes == s.nodes && r.value.scriptUrls == s.scriptUrls
            && (|r.value.styleUrls| == |s.styleUrls| + 1 <==>
                  c.tagName == "link" && GetAttr(c.attrs, "rel") == Some("stylesheet") && GetAttr(c.attrs, "href").Some?)
            && r.value.styleUrls == s.styleUrls +
                 (if StylesheetHref(c).Some? then [env.makeUrl(GetAttr(c.attrs, "href").value, env.base)] else []))
  {
  }

  /** `EndTag` submits one URL to the script listener exactly when the cursor
      is a `script` with a `src`, then moves the cursor to its parent; the
      tag name is not checked. At the root it fails. */
  lemma EndTagSubmitsScript(s: BuildState, name: string, env: Env)
    requires WellFormed(s)
    ensures var r := Step(s, EndTag(name), env);
      var c := s.nodes[s.cursor].content;
      && (r.Fail? <==> s.nodes[s.cursor].parent.None?)
      && (r.Done? ==>
            && r.value.cursor == s.nodes[s.cursor].parent.value
            && r.value.nodes == s.nodes && r.value.styleUrls == s.styleUrls
            && (|r.value.scriptUrls| == |s.scriptUrls| + 1 <==>
                  c.tagName == "script" && GetAttr(c.attrs, "src").Some?)
            && r.value.scriptUrls == s.scriptUrls +
                 (if ScriptSrc(c).Some? then [env.makeUrl(GetAttr(c.attrs, "src").value, env.base)] else []))
  {
  }

  // ---------------------------------------------------------------------
  // The listeners' aggregates

  /** The style listener's aggregate: each submitted URL's stylesheet, in
      submission order, concatenated (`flat_map` over the reply ports). */
  function CollectStyleRules<R>(urls: seq<Url>, sheetFor: Url -> seq<R>): seq<R> {
    if urls == [] then []
    else CollectStyleRules(urls[..|urls| - 1], sheetFor) + sheetFor(urls[|urls| - 1])
  }

  /** Later submissions only add rules after the earlier ones. */
  lemma {:induction false} CollectStyleRulesAppend<R>(a: seq<Url>, b: seq<Url>, sheetFor: Url -> seq<R>)
    ensures CollectStyleRules(a + b, sheetFor) == CollectStyleRules(a, sheetFor) + CollectStyleRules(b, sheetFor)
    decreases |b|
  {
    if b == [] {
      assert a + b == a;
    } else {
      var b' := b[..|b| - 1];
      assert (a + b)[..|a + b| - 1] == a + b';
      CollectStyleRulesAppend(a, b', sheetFor);
    }
  }

  /** The script listener's aggregate: one buffer per submitted URL, the
      i-th for the i-th submission (`vec::map` over the reply ports). */
  function CollectScripts<B>(urls: seq<Url>, scriptFor: Url -> B): (r: seq<B>)
    ensures |r| == |urls|
    ensures forall i :: 0 <= i < |urls| ==> r[i] == scriptFor(urls[i])
  {
    if urls == [] then [] else [scriptFor(urls[0])] + CollectScripts(urls[1..], scriptFor)
  }

  // ---------------------------------------------------------------------
  // End-to-end

  /** Every token is processed in order: running a stream whose first
      tokens `a` hold no `Eof` is running `a` up to an `Eof` placed after it,
      then running the rest from the state reached. */
  lemma {:induction false} RunSplit(s: BuildState, a: seq<Token>, b: seq<Token>, env: Env)
    requires WellFormed(s) && Eof !in a
    ensures var mid := Run(s, a + [Eof], env);
      Run(s, a + b, env) == if mid.Done? then Run(mid.value, b, env) else Fail(mid.reason)
    decreases |a|
  {
    if a != [] {
      assert (a + b)[0] == a[0] && (a + b)[1..] == a[1..] + b;
      assert (a + [Eof])[0] == a[0] && (a + [Eof])[1..] == a[1..] + [Eof];
      match Step(s, a[0], env) {
        case Fail(_) =>
        case Done(s') => RunSplit(s', a[1..], b, env);
      }
    } else {
      assert a + b == b && a + [Eof] == [Eof];
    }
  }
}
