/**
 The visitor of the routing compliance script: a walk over a syntax tree that
 keeps a stack of function names and records every call with a dotted target.
 */
module CallSites {
  import opened Sequences
  import opened Text

  /** Children are listed in the order `generic_visit` reaches them. */
  datatype Node =
    | Name(id: string)
    | Attribute(value: Node, attr: string)
    | Call(func: Node, arguments: seq<Node>)
    | FunctionDef(name: string, parts: seq<Node>)
    | Other(parts: seq<Node>)

  datatype Site = Site(caller: string, call: string)

  const MODULE := "<module>"

  /** `_format_call_chain` */
  function FormatCallChain(node: Node): Option<string> {
    match node
    case Name(id) => Some(id)
    case Attribute(value, attr) =>
      var prefix := FormatCallChain(value);
      if prefix.None? then None else Some(prefix.value + "." + attr)
    case _ => None
  }

  /** A name followed by attributes, as a tree. */
  function Chain(id: string, attrs: seq<string>): Node {
    if attrs == [] then Name(id) else Attribute(Chain(id, attrs[..|attrs| - 1]), attrs[|attrs| - 1])
  }

  function Dotted(attr: string): string {
    "." + attr
  }

  lemma {:induction false} ChainText(id: string, attrs: seq<string>)
    ensures FormatCallChain(Chain(id, attrs)) == Some(id + FlatMap(Dotted, attrs))
  {
    if attrs == [] {
      assert id + FlatMap(Dotted, attrs) == id;
    } else {
      var init, last := attrs[..|attrs| - 1], attrs[|attrs| - 1];
      ChainText(id, init);
      assert attrs == init + [last];
      FlatMapSnoc(Dotted, init, last);
      assert id + FlatMap(Dotted, init) + "." + last == id + FlatMap(Dotted, attrs);
    }
  }

  predicate IsChain(node: Node, id: string, attrs: seq<string>) {
    node == Chain(id, attrs)
  }

  /** A target has a text exactly when it is a name or a chain of attributes on one. */
  lemma {:induction false} OnlyChainsHaveText(node: Node)
    ensures FormatCallChain(node).Some? <==> exists id: string, attrs: seq<string> :: IsChain(node, id, attrs)
  {
    match node
    case Name(id) => assert IsChain(node, id, []);
    case Attribute(value, attr) =>
      OnlyChainsHaveText(value);
      if FormatCallChain(value).Some? {
        var id: string, attrs: seq<string> :| IsChain(value, id, attrs);
        assert (attrs + [attr])[..|attrs|] == attrs;
        assert IsChain(node, id, attrs + [attr]);
      } else {
        forall id: string, attrs: seq<string>
          ensures !IsChain(node, id, attrs)
        {
          assert attrs != [] ==> !IsChain(value, id, attrs[..|attrs| - 1]);
        }
      }
    case _ =>
  }

  // ---- Without a stack ----

  function OwnSite(node: Node, enclosing: string): seq<Site> {
    if node.Call? && FormatCallChain(node.func).Some?
    then [Site(enclosing, FormatCallChain(node.func).value)]
    else []
  }

  /** The function a node's children are inside of. */
  function Inner(node: Node, enclosing: string): string {
    if node.FunctionDef? then node.name else enclosing
  }

  function Children(node: Node): seq<Node> {
    match node
    case Name(_) => []
    case Attribute(value, _) => [value]
    case Call(func, arguments) => [func] + arguments
    case FunctionDef(_, parts) => parts
    case Other(parts) => parts
  }

  function Sites(node: Node, enclosing: string): seq<Site>
    decreases node, 1
  {
    match node
    case Name(_) => []
    case Attribute(value, _) => Sites(value, enclosing)
    case Call(func, arguments) =>
      OwnSite(node, enclosing) + (Sites(func, enclosing) + SitesOfAll(arguments, enclosing))
    case FunctionDef(name, parts) => SitesOfAll(parts, name)
    case Other(parts) => SitesOfAll(parts, enclosing)
  }

  function SitesOfAll(nodes: seq<Node>, enclosing: string): seq<Site>
    decreases nodes, 0
  {
    if nodes == [] then [] else Sites(nodes[0], enclosing) + SitesOfAll(nodes[1..], enclosing)
  }

  // ---- By position ----

  type Path = seq<nat>

  /** The node at a position, child by child. */
  function At(node: Node, path: Path): Option<Node>
    decreases |path|
  {
    if path == [] then Some(node)
    else if path[0] < |Children(node)| then At(Children(node)[path[0]], path[1..])
    else None
  }

  /** The name of the innermost function definition strictly above a position. */
  function Enclosing(node: Node, path: Path, outside: string): string
    decreases |path|
  {
    if path == [] || path[0] >= |Children(node)| then outside
    else Enclosing(Children(node)[path[0]], path[1..], Inner(node, outside))
  }

  function Under(i: nat): Path -> seq<Path> {
    (p: Path) => [[i] + p]
  }

  /** All positions, a node before its children and those from left to right. */
  function PreOrder(node: Node): seq<Path>
    decreases node, 2
  {
    match node
    case Name(_) => [[]]
    case Attribute(value, _) => [[]] + FlatMap(Under(0), PreOrder(value))
    case Call(func, arguments) => [[]] + (FlatMap(Under(0), PreOrder(func)) + PreOrderOfAll(arguments, 1))
    case FunctionDef(_, parts) => [[]] + PreOrderOfAll(parts, 0)
    case Other(parts) => [[]] + PreOrderOfAll(parts, 0)
  }

  function PreOrderOfAll(nodes: seq<Node>, first: nat): seq<Path>
    decreases nodes, 0
  {
    if nodes == [] then [] else FlatMap(Under(first), PreOrder(nodes[0])) + PreOrderOfAll(nodes[1..], first + 1)
  }

  /** Position `p` comes before `q`: an ancestor, or further left at the first difference. */
  predicate Precedes(p: Path, q: Path)
    decreases |p|
  {
    q != [] && (p == [] || p[0] < q[0] || (p[0] == q[0] && Precedes(p[1..], q[1..])))
  }

  predicate Ascending(ps: seq<Path>) {
    forall i, j | 0 <= i < j < |ps| :: Precedes(ps[i], ps[j])
  }

  lemma {:induction false} NothingPrecedesItself(p: Path)
    ensures !Precedes(p, p)
    decreases |p|
  {
    if p == [] {
    } else {
      NothingPrecedesItself(p[1..]);
    }
  }

  lemma AscendingIsDistinct(ps: seq<Path>)
    requires Ascending(ps)
    ensures Distinct(ps)
  {
    hide Precedes;
    forall i, j | 0 <= i < j < |ps|
      ensures ps[i] != ps[j]
    {
      NothingPrecedesItself(ps[i]);
    }
  }

  lemma {:induction false} PathsUnder(i: nat, ps: seq<Path>)
    ensures var qs := FlatMap(Under(i), ps);
            |qs| == |ps| && forall k | 0 <= k < |ps| :: qs[k] == [i] + ps[k] && qs[k][1..] == ps[k]
  {
    if ps == [] {
    } else {
      PathsUnder(i, ps[1..]);
    }
  }

  lemma PathsUnderOrdered(i: nat, ps: seq<Path>)
    requires Ascending(ps)
    ensures Ascending(FlatMap(Under(i), ps))
    ensures forall p: Path :: p in FlatMap(Under(i), ps) <==> p != [] && p[0] == i && p[1..] in ps
  {
    hide FlatMap;
    PathsUnder(i, ps);
    forall p: Path
      ensures p in FlatMap(Under(i), ps) <==> p != [] && p[0] == i && p[1..] in ps
    {
      if p != [] && p[0] == i && p[1..] in ps {
        var k :| 0 <= k < |ps| && ps[k] == p[1..];
        assert FlatMap(Under(i), ps)[k] == p;
      }
    }
  }

  /** Of a single tree: its positions, each once, in order. */
  ghost predicate ListsPositions(node: Node) {
    Ascending(PreOrder(node)) && forall p: Path :: p in PreOrder(node) <==> At(node, p).Some?
  }

  lemma LeftPrecedes(p: Path, q: Path)
    requires p != [] && q != [] && p[0] < q[0]
    ensures Precedes(p, q)
  {
  }

  lemma AscendingAppend(a: seq<Path>, b: seq<Path>)
    requires Ascending(a) && Ascending(b) && forall p, q | p in a && q in b :: Precedes(p, q)
    ensures Ascending(a + b)
  {
    hide Precedes;
    var ps := a + b;
    forall i, j | 0 <= i < j < |ps|
      ensures Precedes(ps[i], ps[j])
    {
      assert ps[i] == if i < |a| then a[i] else b[i - |a|];
      assert ps[j] == if j < |a| then a[j] else b[j - |a|];
    }
  }

  lemma {:induction false} PositionsOfAll(nodes: seq<Node>, first: nat)
    requires forall c <- nodes :: ListsPositions(c)
    ensures Ascending(PreOrderOfAll(nodes, first))
    ensures forall p: Path :: p in PreOrderOfAll(nodes, first) <==>
                              p != [] && first <= p[0] < first + |nodes| && At(nodes[p[0] - first], p[1..]).Some?
    decreases |nodes|
  {
    hide PreOrder, At, Precedes;
    if nodes == [] {
    } else {
      var c, rest := nodes[0], nodes[1..];
      assert c in nodes;
      var here, later := FlatMap(Under(first), PreOrder(c)), PreOrderOfAll(rest, first + 1);
      PathsUnderOrdered(first, PreOrder(c));
      PositionsOfAll(rest, first + 1);
      forall p, q | p in here && q in later
        ensures Precedes(p, q)
      {
        LeftPrecedes(p, q);
      }
      AscendingAppend(here, later);
      forall p: Path
        ensures p in here + later <==>
                p != [] && first <= p[0] < first + |nodes| && At(nodes[p[0] - first], p[1..]).Some?
      {
        assert p != [] && first < p[0] < first + |nodes| ==> nodes[p[0] - first] == rest[p[0] - first - 1];
      }
    }
  }

  lemma PreOrderOfChildren(node: Node)
    ensures PreOrder(node) == [[]] + PreOrderOfAll(Children(node), 0)
  {
    hide FlatMap;
    match node
    case Name(_) =>
    case Attribute(value, _) =>
      assert PreOrderOfAll([value], 0) == FlatMap(Under(0), PreOrder(value)) + PreOrderOfAll([value][1..], 1);
    case Call(func, arguments) =>
      assert ([func] + arguments)[1..] == arguments;
    case _ =>
  }

  /** The pre-order lists exactly the positions of the tree, each once, in ascending order. */
  lemma {:induction false} PreOrderListsPositions(node: Node)
    ensures ListsPositions(node) && Distinct(PreOrder(node))
    decreases node
  {
    hide PreOrder, PreOrderOfAll;
    forall c <- Children(node)
      ensures ListsPositions(c)
    {
      hide ListsPositions;
      match node
      case Attribute(value, _) => PreOrderListsPositions(value);
      case Call(func, arguments) =>
        if c == func {
          PreOrderListsPositions(func);
        } else {
          PreOrderListsPositions(c);
        }
      case FunctionDef(_, parts) => PreOrderListsPositions(c);
      case Other(parts) => PreOrderListsPositions(c);
    }
    PreOrderOfChildren(node);
    PositionsOfAll(Children(node), 0);
    AscendingAppend([[]], PreOrderOfAll(Children(node), 0));
    AscendingIsDistinct(PreOrder(node));
  }

  /** What the walk should record for a position. */
  function SiteAt(node: Node, outside: string): Path -> seq<Site> {
    (p: Path) => if At(node, p).Some? then OwnSite(At(node, p).value, Enclosing(node, p, outside)) else []
  }

  lemma SiteAtChild(node: Node, outside: string, i: nat, p: Path)
    requires i < |Children(node)|
    ensures SiteAt(node, outside)([i] + p) == SiteAt(Children(node)[i], Inner(node, outside))(p)
  {
    assert ([i] + p)[1..] == p;
  }

  lemma {:induction false} SitesUnder(node: Node, outside: string, i: nat, ps: seq<Path>)
    requires i < |Children(node)|
    ensures FlatMap(SiteAt(node, outside), FlatMap(Under(i), ps)) ==
            FlatMap(SiteAt(Children(node)[i], Inner(node, outside)), ps)
  {
    hide SiteAt, Children, Inner;
    if ps == [] {
    } else {
      SitesUnder(node, outside, i, ps[1..]);
      SiteAtChild(node, outside, i, ps[0]);
      FlatMapAppend(SiteAt(node, outside), Under(i)(ps[0]), FlatMap(Under(i), ps[1..]));
      FlatMapOne(SiteAt(node, outside), [i] + ps[0]);
    }
  }

  lemma {:induction false} SitesOfAllByPosition(node: Node, outside: string, nodes: seq<Node>, first: nat)
    requires first + |nodes| == |Children(node)| && nodes == Children(node)[first..]
    requires forall c <- nodes ::
               FlatMap(SiteAt(c, Inner(node, outside)), PreOrder(c)) == Sites(c, Inner(node, outside))
    ensures FlatMap(SiteAt(node, outside), PreOrderOfAll(nodes, first)) == SitesOfAll(nodes, Inner(node, outside))
    decreases |nodes|
  {
    hide SiteAt, Children, Inner, PreOrder, Sites;
    if nodes == [] {
    } else {
      assert nodes[0] in nodes && nodes[0] == Children(node)[first];
      SitesOfAllByPosition(node, outside, nodes[1..], first + 1);
      SitesUnder(node, outside, first, PreOrder(nodes[0]));
      FlatMapAppend(SiteAt(node, outside), FlatMap(Under(first), PreOrder(nodes[0])),
                    PreOrderOfAll(nodes[1..], first + 1));
    }
  }

  lemma OwnSiteFirst(node: Node, outside: string)
    ensures SiteAt(node, outside)([]) == OwnSite(node, outside)
  {
  }

  /**
   The recorded sites are, position by position in pre-order, the calls whose
   target is a dotted chain, each with the innermost function around it.
   */
  lemma {:induction false} SitesByPosition(node: Node, outside: string)
    ensures FlatMap(SiteAt(node, outside), PreOrder(node)) == Sites(node, outside)
    decreases node
  {
    hide SiteAt;
    OwnSiteFirst(node, outside);
    match node
    case Name(_) =>
      FlatMapOne(SiteAt(node, outside), []);
    case Attribute(value, _) =>
      SitesByPosition(value, outside);
      SitesUnder(node, outside, 0, PreOrder(value));
      FlatMapCons(SiteAt(node, outside), [], FlatMap(Under(0), PreOrder(value)));
    case Call(func, arguments) =>
      SitesByPosition(func, outside);
      forall c <- arguments
        ensures FlatMap(SiteAt(c, outside), PreOrder(c)) == Sites(c, outside)
      {
        SitesByPosition(c, outside);
      }
      var below, after := FlatMap(Under(0), PreOrder(func)), PreOrderOfAll(arguments, 1);
      SitesUnder(node, outside, 0, PreOrder(func));
      assert Children(node)[1..] == arguments;
      SitesOfAllByPosition(node, outside, arguments, 1);
      FlatMapAppend(SiteAt(node, outside), below, after);
      FlatMapCons(SiteAt(node, outside), [], below + after);
    case FunctionDef(name, parts) =>
      PartsByPosition(node, outside, parts);
    case Other(parts) =>
      PartsByPosition(node, outside, parts);
  }

  lemma {:induction false} PartsByPosition(node: Node, outside: string, parts: seq<Node>)
    requires (node.FunctionDef? || node.Other?) && parts == node.parts
    ensures FlatMap(SiteAt(node, outside), PreOrder(node)) == Sites(node, outside)
    decreases node, 0
  {
    hide SiteAt;
    OwnSiteFirst(node, outside);
    forall c <- parts
      ensures FlatMap(SiteAt(c, Inner(node, outside)), PreOrder(c)) == Sites(c, Inner(node, outside))
    {
      SitesByPosition(c, Inner(node, outside));
    }
    assert Children(node)[0..] == parts;
    SitesOfAllByPosition(node, outside, parts, 0);
    FlatMapCons(SiteAt(node, outside), [], PreOrderOfAll(parts, 0));
  }

  lemma ChainHasText(node: Node, id: string, attrs: seq<string>)
    requires IsChain(node, id, attrs)
    ensures FormatCallChain(node) == Some(id + FlatMap(Dotted, attrs))
  {
    hide FlatMap, FormatCallChain;
    ChainText(id, attrs);
  }

  /** A node is a site exactly if it calls a dotted chain, whatever its arguments; its text is that of the chain. */
  lemma OwnSiteMeaning(node: Node, enclosing: string)
    ensures OwnSite(node, enclosing) != [] <==>
            node.Call? && exists id: string, attrs: seq<string> :: IsChain(node.func, id, attrs)
    ensures node.Call? ==> forall id: string, attrs: seq<string> | IsChain(node.func, id, attrs) ::
                             OwnSite(node, enclosing) == [Site(enclosing, id + FlatMap(Dotted, attrs))]
  {
    hide FormatCallChain, IsChain;
    if node.Call? {
      OnlyChainsHaveText(node.func);
      forall id: string, attrs: seq<string> | IsChain(node.func, id, attrs)
        ensures OwnSite(node, enclosing) == [Site(enclosing, id + FlatMap(Dotted, attrs))]
      {
        ChainHasText(node.func, id, attrs);
      }
    }
  }

  /** A function definition stands at the first `i` steps of a position. */
  predicate DefinedAt(node: Node, path: Path, i: nat)
    requires i <= |path|
  {
    At(node, path[..i]).Some? && At(node, path[..i]).value.FunctionDef?
  }

  /** The function around a position is the definition furthest down the way to it, if there is any. */
  lemma {:induction false} EnclosingMeaning(node: Node, path: Path, outside: string)
    requires At(node, path).Some?
    ensures (forall i | 0 <= i < |path| :: !DefinedAt(node, path, i)) ==> Enclosing(node, path, outside) == outside
    ensures forall i | 0 <= i < |path| && DefinedAt(node, path, i)
                       && forall j | i < j < |path| :: !DefinedAt(node, path, j) ::
              Enclosing(node, path, outside) == At(node, path[..i]).value.name
    decreases |path|
  {
    if path == [] {
    } else {
      var child, rest := Children(node)[path[0]], path[1..];
      forall i | 0 <= i < |rest|
        ensures At(node, path[..i + 1]) == At(child, rest[..i])
      {
        assert path[..i + 1][1..] == rest[..i];
      }
      assert forall i | 0 <= i < |rest| :: DefinedAt(node, path, i + 1) == DefinedAt(child, rest, i);
      assert path[..0] == [] && DefinedAt(node, path, 0) == node.FunctionDef?;
      EnclosingMeaning(child, rest, Inner(node, outside));
      forall i | 0 <= i < |path| && DefinedAt(node, path, i) && forall j | i < j < |path| :: !DefinedAt(node, path, j)
        ensures Enclosing(node, path, outside) == At(node, path[..i]).value.name
      {
        if i == 0 {
          assert forall j | 0 <= j < |rest| :: !DefinedAt(child, rest, j);
        } else {
          assert DefinedAt(child, rest, i - 1) && forall j | i - 1 < j < |rest| :: !DefinedAt(child, rest, j);
        }
      }
      if forall i | 0 <= i < |path| :: !DefinedAt(node, path, i) {
        assert forall j | 0 <= j < |rest| :: !DefinedAt(child, rest, j);
      }
    }
  }

  // ---- The visitor ----

  /** The sites so far and those of a node, in the order in which they are appended. */
  lemma AfterVisit(node: Node, before: seq<Site>, top: string)
    ensures before + Sites(node, top) ==
            match node
            case Name(_) => before
            case Attribute(value, _) => before + Sites(value, top)
            case Call(func, arguments) =>
              before + OwnSite(node, top) + Sites(func, top) + SitesOfAll(arguments, top)
            case FunctionDef(name, parts) => before + SitesOfAll(parts, name)
            case Other(parts) => before + SitesOfAll(parts, top)
  {
    hide SitesOfAll, OwnSite;
  }

  class CallSiteVisitor {
    var functionStack: seq<string>
    var callSites: seq<Site>

    constructor ()
      ensures functionStack == [] && callSites == []
    {
      functionStack, callSites := [], [];
    }

    function Top(): string
      reads this
    {
      if functionStack == [] then MODULE else functionStack[|functionStack| - 1]
    }

    /** Records the sites of the tree and leaves the stack as it was. */
    method Visit(node: Node)
      modifies this
      ensures functionStack == old(functionStack)
      ensures callSites == old(callSites) + Sites(node, old(Top()))
      decreases node, 1
    {
      hide FormatCallChain, Sites, SitesOfAll;
      AfterVisit(node, callSites, Top());
      match node
      case Name(_) =>
      case Attribute(value, _) =>
        Visit(value);
      case Call(func, arguments) =>
        var chain := FormatCallChain(func);
        if chain.Some? {
          callSites := callSites + [Site(Top(), chain.value)];
        }
        Visit(func);
        VisitAll(arguments);
      case FunctionDef(name, parts) =>
        functionStack := functionStack + [name];
        VisitAll(parts);
        functionStack := functionStack[..|functionStack| - 1];
      case Other(parts) =>
        VisitAll(parts);
    }

    /** `generic_visit` over a list of children. */
    method VisitAll(nodes: seq<Node>)
      modifies this
      ensures functionStack == old(functionStack)
      ensures callSites == old(callSites) + SitesOfAll(nodes, old(Top()))
      decreases nodes, 0
    {
      hide Sites;
      if nodes != [] {
        Visit(nodes[0]);
        VisitAll(nodes[1..]);
      }
    }
  }

  /** The sites of a source file, calls outside of all functions being those of the module. */
  method VisitModule(tree: Node) returns (sites: seq<Site>)
    ensures sites == FlatMap(SiteAt(tree, "<module>"), PreOrder(tree))
  {
    hide FlatMap, SiteAt, PreOrder, Sites;
    var visitor := new CallSiteVisitor();
    visitor.Visit(tree);
    sites := visitor.callSites;
    SitesByPosition(tree, "<module>");
    assert [] + Sites(tree, "<module>") == Sites(tree, "<module>");
  }
}
