/** The walk over a composed YAML document that may alias itself (dependency_admission.py,
    yaml_uses_nodes): it marks the nodes on the current path and nothing else. */
module YamlWalk {
  import opened Common

  type NodeId = nat

  const STR_TAG := "tag:yaml.org,2002:str"

  datatype Node =
    | Scalar(value: string, tag: string, line: nat)
    | Mapping(pairs: seq<(NodeId, NodeId)>, line: nat)
    | Sequence(items: seq<NodeId>, line: nat)

  /** A uses entry: the line of its key, and the reference when it is a plain string. */
  datatype Entry = Entry(line: nat, reference: Option<string>)

  type Graph = map<NodeId, Node>

  predicate Closed(g: Graph) {
    forall n, c :: n in g && c in Children(g[n]) ==> c in g
  }

  /** The nodes walk visits from one node, in order: key then value, or each item. */
  function Children(n: Node): seq<NodeId> {
    match n
    case Scalar(_, _, _) => []
    case Mapping(pairs, _) => Flatten(pairs)
    case Sequence(items, _) => items
  }

  function Flatten(pairs: seq<(NodeId, NodeId)>): seq<NodeId> {
    if pairs == [] then [] else [pairs[0].0, pairs[0].1] + Flatten(pairs[1..])
  }

  /** What a mapping pair records before its nodes are walked. */
  predicate IsUses(g: Graph, key: NodeId) {
    key in g && g[key].Scalar? && g[key].value == "uses"
  }

  function EntryOf(g: Graph, key: NodeId, value: NodeId): Entry
    requires IsUses(g, key) && value in g
  {
    Entry(g[key].line + 1,
          if g[value].Scalar? && g[value].tag == STR_TAG then Some(g[value].value) else None)
  }

  /** What a walk appends: entries, and the lines of the recursion errors. */
  datatype Found = Found(entries: seq<Entry>, errors: seq<nat>)

  function Join(a: Found, b: Found): Found {
    Found(a.entries + b.entries, a.errors + b.errors)
  }

  const NOTHING := Found([], [])

  function Walked(g: Graph, n: NodeId, active: set<NodeId>): Found
    requires Closed(g) && n in g
    decreases g.Keys - active, 2
  {
    if n in active then Found([], [g[n].line + 1])
    else match g[n]
      case Scalar(_, _, _) => NOTHING
      case Mapping(pairs, _) => WalkedPairs(g, n, pairs, active + {n})
      case Sequence(items, _) => WalkedAll(g, n, items, active + {n})
  }

  function OwnEntry(g: Graph, key: NodeId, value: NodeId): Found
    requires key in g && value in g
  {
    if IsUses(g, key) then Found([EntryOf(g, key, value)], []) else NOTHING
  }

  function WalkedPair(g: Graph, key: NodeId, value: NodeId, active: set<NodeId>): Found
    requires Closed(g) && key in g && value in g
    decreases g.Keys - active, 3
  {
    Join(OwnEntry(g, key, value), Join(Walked(g, key, active), Walked(g, value, active)))
  }

  function WalkedPairs(g: Graph, n: NodeId, pairs: seq<(NodeId, NodeId)>, active: set<NodeId>): Found
    requires Closed(g) && n in g && forall c :: c in Flatten(pairs) ==> c in g
    decreases g.Keys - active, 4, |pairs|
  {
    if pairs == [] then NOTHING
    else
      var (key, value) := pairs[0];
      assert key in Flatten(pairs) && value in Flatten(pairs) by {
        assert Flatten(pairs)[0] == key && Flatten(pairs)[1] == value;
      }
      assert forall c :: c in Flatten(pairs[1..]) ==> c in Flatten(pairs);
      Join(WalkedPair(g, key, value, active), WalkedPairs(g, n, pairs[1..], active))
  }

  function WalkedAll(g: Graph, n: NodeId, items: seq<NodeId>, active: set<NodeId>): Found
    requires Closed(g) && n in g && forall c :: c in items ==> c in g
    decreases g.Keys - active, 3, |items|
  {
    if items == [] then NOTHING
    else Join(Walked(g, items[0], active), WalkedAll(g, n, items[1..], active))
  }

  /** The closure's shared state and the recursive walk itself. */
  class Walker {
    const g: Graph
    var active: set<NodeId>
    var entries: seq<Entry>
    var errors: seq<nat>

    ghost function View(): Found
      reads this
    {
      Found(entries, errors)
    }

    constructor (g: Graph)
      ensures this.g == g && active == {} && View() == NOTHING
    {
      this.g := g;
      active, entries, errors := {}, [], [];
    }

    /** Terminates on cyclic graphs: the nodes off the path only get fewer. */
    method Walk(n: NodeId)
      requires Closed(g) && n in g
      modifies this
      ensures active == old(active)
      ensures View() == Join(old(View()), Walked(g, n, old(active)))
      decreases g.Keys - active, 2
    {
      if n in active {
        errors := errors + [g[n].line + 1];
        return;
      }
      active := active + {n};
      if g[n].Mapping? {
        WalkPairs(n, g[n].pairs);
      } else if g[n].Sequence? {
        WalkItems(n, g[n].items);
      }
      active := active - {n};
    }

    method WalkPairs(n: NodeId, pairs: seq<(NodeId, NodeId)>)
      requires Closed(g) && n in g && forall c :: c in Flatten(pairs) ==> c in g
      modifies this
      ensures active == old(active)
      ensures View() == Join(old(View()), WalkedPairs(g, n, pairs, old(active)))
      decreases g.Keys - active, 4
    {
      var i := 0;
      while i < |pairs|
        invariant 0 <= i <= |pairs| && active == old(active)
        invariant forall c :: c in Flatten(pairs[i..]) ==> c in g
        invariant Join(View(), WalkedPairs(g, n, pairs[i..], active))
          == Join(old(View()), WalkedPairs(g, n, pairs, active))
      {
        var (key, value) := pairs[i];
        ghost var before := View();
        FirstPair(g, n, pairs[i..], active);
        assert pairs[i..][1..] == pairs[i + 1..];
        WalkPair(key, value);
        JoinThree(before, WalkedPair(g, key, value, active), WalkedPairs(g, n, pairs[i + 1..], active));
        i := i + 1;
      }
    }

    /** The body of the loop over a mapping's pairs. */
    method WalkPair(key: NodeId, value: NodeId)
      requires Closed(g) && key in g && value in g
      modifies this
      ensures active == old(active)
      ensures View() == Join(old(View()), WalkedPair(g, key, value, old(active)))
      decreases g.Keys - active, 3
    {
      ghost var before := View();
      if IsUses(g, key) {
        entries := entries + [EntryOf(g, key, value)];
      }
      assert View() == Join(before, OwnEntry(g, key, value));
      Walk(key);
      Walk(value);
      JoinFour(before, OwnEntry(g, key, value), Walked(g, key, active), Walked(g, value, active));
    }

    method WalkItems(n: NodeId, items: seq<NodeId>)
      requires Closed(g) && n in g && forall c :: c in items ==> c in g
      modifies this
      ensures active == old(active)
      ensures View() == Join(old(View()), WalkedAll(g, n, items, old(active)))
      decreases g.Keys - active, 3
    {
      var i := 0;
      while i < |items|
        invariant 0 <= i <= |items| && active == old(active)
        invariant Join(View(), WalkedAll(g, n, items[i..], active)) == Join(old(View()), WalkedAll(g, n, items, active))
      {
        ghost var before := View();
        assert items[i..][1..] == items[i + 1..];
        Walk(items[i]);
        JoinThree(before, Walked(g, items[i], active), WalkedAll(g, n, items[i + 1..], active));
        i := i + 1;
      }
    }
  }

  lemma FirstPair(g: Graph, n: NodeId, pairs: seq<(NodeId, NodeId)>, active: set<NodeId>)
    requires Closed(g) && n in g && pairs != [] && forall c :: c in Flatten(pairs) ==> c in g
    ensures pairs[0].0 in g && pairs[0].1 in g && forall c :: c in Flatten(pairs[1..]) ==> c in g
    ensures WalkedPairs(g, n, pairs, active) ==
      Join(WalkedPair(g, pairs[0].0, pairs[0].1, active), WalkedPairs(g, n, pairs[1..], active))
  {
    PairNodes(pairs);
  }

  lemma JoinThree(a: Found, b: Found, c: Found)
    ensures Join(Join(a, b), c) == Join(a, Join(b, c))
  {
  }

  lemma JoinFour(a: Found, b: Found, c: Found, d: Found)
    ensures Join(Join(Join(a, b), c), d) == Join(a, Join(b, Join(c, d)))
  {
  }

  lemma PairNodes(pairs: seq<(NodeId, NodeId)>)
    requires pairs != []
    ensures pairs[0].0 in Flatten(pairs) && pairs[0].1 in Flatten(pairs)
    ensures forall c :: c in Flatten(pairs[1..]) ==> c in Flatten(pairs)
  {
    assert Flatten(pairs)[0] == pairs[0].0 && Flatten(pairs)[1] == pairs[0].1;
  }

  // --- what the walk finds ---

  predicate IsPath(g: Graph, p: seq<NodeId>) {
    && p != [] && p[0] in g
    && forall i :: 0 <= i < |p| - 1 ==> p[i] in g && p[i + 1] in Children(g[p[i]])
  }

  function End(p: seq<NodeId>): NodeId
    requires p != []
  {
    p[|p| - 1]
  }

  /** The path ends by coming back to a node it has been through: its tail is a cycle. */
  predicate LoopsBack(p: seq<NodeId>) {
    p != [] && exists i :: 0 <= i < |p| - 1 && p[i] == p[|p| - 1]
  }

  ghost predicate ReachesCycle(g: Graph, n: NodeId) {
    exists p :: IsPath(g, p) && p[0] == n && LoopsBack(p)
  }

  /** e is what a uses key of mapping m records. */
  predicate Records(g: Graph, m: NodeId, e: Entry) {
    m in g && g[m].Mapping? && RecordsIn(g, g[m].pairs, e)
  }

  predicate RecordsIn(g: Graph, pairs: seq<(NodeId, NodeId)>, e: Entry) {
    exists i :: 0 <= i < |pairs| && RecordsPair(g, pairs[i].0, pairs[i].1, e)
  }

  /** The key is a scalar that reads uses, and e holds its line, counted from one, and the value's text if
      the value is a string scalar. */
  predicate RecordsPair(g: Graph, key: NodeId, value: NodeId, e: Entry) {
    && key in g && value in g && g[key].Scalar? && g[key].value == "uses" && e.line == g[key].line + 1
    && (if g[value].Scalar? && g[value].tag == "tag:yaml.org,2002:str" then e.reference == Some(g[value].value)
        else e.reference == None)
  }

  ghost predicate ReachesUses(g: Graph, n: NodeId, e: Entry) {
    exists p :: IsPath(g, p) && p[0] == n && Records(g, End(p), e)
  }

  lemma {:induction false} PathStays(g: Graph, p: seq<NodeId>, i: nat)
    requires Closed(g) && IsPath(g, p) && i < |p|
    ensures p[i] in g && IsPath(g, p[i..]) && IsPath(g, p[..i + 1])
  {
    if i == 0 {
    } else {
      PathStays(g, p, i - 1);
      assert p[i - 1 + 1] in Children(g[p[i - 1]]);
    }
    var q := p[i..];
    forall k | 0 <= k < |q| - 1 ensures q[k] in g && q[k + 1] in Children(g[q[k]]) {
      assert p[i + k + 1] in Children(g[p[i + k]]);
    }
  }

  /** What a mapping or sequence finds is its own keys' entries and what its children find. */
  lemma {:induction false} PairsFind(g: Graph, n: NodeId, pairs: seq<(NodeId, NodeId)>, active: set<NodeId>, c: NodeId)
    requires Closed(g) && n in g && forall c :: c in Flatten(pairs) ==> c in g
    requires c in Flatten(pairs)
    ensures forall e :: e in Walked(g, c, active).entries ==> e in WalkedPairs(g, n, pairs, active).entries
    ensures forall l :: l in Walked(g, c, active).errors ==> l in WalkedPairs(g, n, pairs, active).errors
    decreases |pairs|
  {
    PairNodes(pairs);
    if c != pairs[0].0 && c != pairs[0].1 {
      assert Flatten(pairs) == [pairs[0].0, pairs[0].1] + Flatten(pairs[1..]);
      assert c in Flatten(pairs[1..]);
      PairsFind(g, n, pairs[1..], active, c);
    }
  }

  lemma {:induction false} ItemsFind(g: Graph, n: NodeId, items: seq<NodeId>, active: set<NodeId>, c: NodeId)
    requires Closed(g) && n in g && forall c :: c in items ==> c in g
    requires c in items
    ensures forall e :: e in Walked(g, c, active).entries ==> e in WalkedAll(g, n, items, active).entries
    ensures forall l :: l in Walked(g, c, active).errors ==> l in WalkedAll(g, n, items, active).errors
    decreases |items|
  {
    if c == items[0] {
    } else {
      ItemsFind(g, n, items[1..], active, c);
    }
  }

  lemma ChildrenFind(g: Graph, n: NodeId, active: set<NodeId>, c: NodeId)
    requires Closed(g) && n in g && n !in active && c in Children(g[n])
    ensures forall e :: e in Walked(g, c, active + {n}).entries ==> e in Walked(g, n, active).entries
    ensures forall l :: l in Walked(g, c, active + {n}).errors ==> l in Walked(g, n, active).errors
  {
    if g[n].Mapping? {
      PairsFind(g, n, g[n].pairs, active + {n}, c);
    } else {
      ItemsFind(g, n, g[n].items, active + {n}, c);
    }
  }

  lemma {:induction false} OwnKeysFind(g: Graph, n: NodeId, pairs: seq<(NodeId, NodeId)>, active: set<NodeId>, e: Entry)
    requires Closed(g) && n in g && forall c :: c in Flatten(pairs) ==> c in g
    requires RecordsIn(g, pairs, e)
    ensures e in WalkedPairs(g, n, pairs, active).entries
    decreases |pairs|
  {
    PairNodes(pairs);
    var i :| 0 <= i < |pairs| && RecordsPair(g, pairs[i].0, pairs[i].1, e);
    if i > 0 {
      assert pairs[1..][i - 1] == pairs[i];
      assert RecordsPair(g, pairs[1..][i - 1].0, pairs[1..][i - 1].1, e);
      OwnKeysFind(g, n, pairs[1..], active, e);
    }
  }

  lemma RecordsInMore(g: Graph, pairs: seq<(NodeId, NodeId)>, e: Entry)
    requires pairs != [] && RecordsIn(g, pairs[1..], e)
    ensures RecordsIn(g, pairs, e)
  {
    var i :| 0 <= i < |pairs[1..]| && RecordsPair(g, pairs[1..][i].0, pairs[1..][i].1, e);
    assert pairs[i + 1] == pairs[1..][i];
  }

  lemma InFirstPair(g: Graph, n: NodeId, pairs: seq<(NodeId, NodeId)>, active: set<NodeId>, l: nat, e: Entry)
    requires Closed(g) && n in g && pairs != [] && forall c :: c in Flatten(pairs) ==> c in g
    ensures pairs[0].0 in g && pairs[0].1 in g && forall c :: c in Flatten(pairs[1..]) ==> c in g
    ensures l in WalkedPairs(g, n, pairs, active).errors ==>
      || l in Walked(g, pairs[0].0, active).errors || l in Walked(g, pairs[0].1, active).errors
      || l in WalkedPairs(g, n, pairs[1..], active).errors
    ensures e in WalkedPairs(g, n, pairs, active).entries ==>
      || RecordsIn(g, pairs, e)
      || e in Walked(g, pairs[0].0, active).entries || e in Walked(g, pairs[0].1, active).entries
      || e in WalkedPairs(g, n, pairs[1..], active).entries
  {
    FirstPair(g, n, pairs, active);
    if e in OwnEntry(g, pairs[0].0, pairs[0].1).entries {
      assert EntryOf(g, pairs[0].0, pairs[0].1) == e;
      assert RecordsPair(g, pairs[0].0, pairs[0].1, e);
    }
  }

  /** An error or entry of a mapping comes from its own keys or from one of its children. */
  lemma {:induction false} PairsOnlyFind(
      g: Graph, n: NodeId, pairs: seq<(NodeId, NodeId)>, active: set<NodeId>, l: nat, e: Entry)
    requires Closed(g) && n in g && forall c :: c in Flatten(pairs) ==> c in g
    ensures l in WalkedPairs(g, n, pairs, active).errors ==>
      exists c :: c in Flatten(pairs) && l in Walked(g, c, active).errors
    ensures e in WalkedPairs(g, n, pairs, active).entries ==>
      RecordsIn(g, pairs, e) || exists c :: c in Flatten(pairs) && e in Walked(g, c, active).entries
    decreases |pairs|
  {
    if pairs == [] {
    } else {
      PairNodes(pairs);
      InFirstPair(g, n, pairs, active, l, e);
      PairsOnlyFind(g, n, pairs[1..], active, l, e);
      if RecordsIn(g, pairs[1..], e) {
        RecordsInMore(g, pairs, e);
      }
    }
  }

  lemma {:induction false} ItemsOnlyFind(g: Graph, n: NodeId, items: seq<NodeId>, active: set<NodeId>, l: nat, e: Entry)
    requires Closed(g) && n in g && forall c :: c in items ==> c in g
    ensures l in WalkedAll(g, n, items, active).errors ==> exists c :: c in items && l in Walked(g, c, active).errors
    ensures e in WalkedAll(g, n, items, active).entries ==> exists c :: c in items && e in Walked(g, c, active).entries
    decreases |items|
  {
    if items == [] {
    } else {
      ItemsOnlyFind(g, n, items[1..], active, l, e);
      assert items[0] in items && forall c :: c in items[1..] ==> c in items;
    }
  }

  lemma ChildrenOnlyFind(g: Graph, n: NodeId, active: set<NodeId>, l: nat, e: Entry)
    requires Closed(g) && n in g && n !in active
    ensures l in Walked(g, n, active).errors ==>
      exists c :: c in Children(g[n]) && l in Walked(g, c, active + {n}).errors
    ensures e in Walked(g, n, active).entries ==>
      Records(g, n, e) || exists c :: c in Children(g[n]) && e in Walked(g, c, active + {n}).entries
  {
    if g[n].Mapping? {
      PairsOnlyFind(g, n, g[n].pairs, active + {n}, l, e);
    } else if g[n].Sequence? {
      ItemsOnlyFind(g, n, g[n].items, active + {n}, l, e);
    }
  }

  lemma NoMembers(s: seq<nat>)
    ensures (forall l :: l !in s) ==> s == []
  {
    assert s == [] || s[0] in s;
  }

  /** A walk without errors means that no path from n meets active or itself. */
  lemma {:induction false} CleanWalkHasNoRepeat(g: Graph, n: NodeId, active: set<NodeId>, p: seq<NodeId>)
    requires Closed(g) && n in g && Walked(g, n, active).errors == [] && IsPath(g, p) && p[0] == n
    ensures NoDup(p) && forall i :: 0 <= i < |p| ==> p[i] !in active
    decreases |p|
  {
    if |p| == 1 {
    } else {
      assert p[0 + 1] in Children(g[p[0]]);
      ChildrenFind(g, n, active, p[1]);
      PathStays(g, p, 1);
      NoMembers(Walked(g, p[1], active + {n}).errors);
      CleanWalkHasNoRepeat(g, p[1], active + {n}, p[1..]);
      forall i | 0 < i < |p| ensures p[i] !in active && p[i] != n {
        assert p[i] == p[1..][i - 1];
      }
      forall i, j | 0 <= i < j < |p| ensures p[i] != p[j] {
        if i > 0 {
          assert p[1..][i - 1] != p[1..][j - 1];
        }
      }
    }
  }

  /** Every error line is that of a node at which a path from the root comes back to itself. */
  lemma {:induction false} ErrorShowsCycle(g: Graph, n: NodeId, path: seq<NodeId>, l: nat) returns (loop: seq<NodeId>)
    requires Closed(g) && n in g && IsPath(g, path + [n]) && l in Walked(g, n, Elements(path)).errors
    ensures IsPath(g, loop) && loop[0] == (path + [n])[0] && LoopsBack(loop)
    ensures End(loop) in g && l == g[End(loop)].line + 1
    decreases g.Keys - Elements(path)
  {
    var here := path + [n];
    if n in path {
      loop := here;
      var i :| 0 <= i < |path| && path[i] == n;
      assert loop[i] == loop[|loop| - 1];
    } else {
      assert Elements(here) == Elements(path) + {n};
      ChildrenOnlyFind(g, n, Elements(path), l, Entry(0, None));
      var c :| c in Children(g[n]) && l in Walked(g, c, Elements(path) + {n}).errors;
      Extends(g, here, c);
      loop := ErrorShowsCycle(g, c, here, l);
    }
  }

  lemma Extends(g: Graph, p: seq<NodeId>, c: NodeId)
    requires Closed(g) && IsPath(g, p) && End(p) in g && c in Children(g[End(p)])
    ensures IsPath(g, p + [c])
  {
    var q := p + [c];
    forall i | 0 <= i < |q| - 1 ensures q[i] in g && q[i + 1] in Children(g[q[i]]) {
      if i < |p| - 1 {
        assert p[i + 1] in Children(g[p[i]]);
      }
    }
  }

  /** A node at the end of a path that avoids active is walked: if the path comes back to n, what
      follows its last visit to n is a shorter way there. */
  lemma {:induction false} ReachableUsesAreFound(g: Graph, n: NodeId, active: set<NodeId>, p: seq<NodeId>, e: Entry)
    requires Closed(g) && n in g && IsPath(g, p) && p[0] == n && Records(g, End(p), e)
    requires forall i :: 0 <= i < |p| ==> p[i] !in active
    ensures e in Walked(g, n, active).entries
    decreases |p|
  {
    if |p| == 1 {
      OwnKeysFind(g, n, g[n].pairs, active + {n}, e);
    } else if i :| 0 < i < |p| && p[i] == n {
      PathStays(g, p, i);
      ReachableUsesAreFound(g, n, active, p[i..], e);
    } else {
      assert p[0 + 1] in Children(g[p[0]]);
      PathStays(g, p, 1);
      ReachableUsesAreFound(g, p[1], active + {n}, p[1..], e);
      ChildrenFind(g, n, active, p[1]);
    }
  }

  lemma {:induction false} FoundUsesAreReachable(g: Graph, n: NodeId, active: set<NodeId>, e: Entry)
    returns (p: seq<NodeId>)
    requires Closed(g) && n in g && e in Walked(g, n, active).entries
    ensures IsPath(g, p) && p[0] == n && Records(g, End(p), e)
    decreases g.Keys - active
  {
    p := [n];
    ChildrenOnlyFind(g, n, active, 0, e);
    if !Records(g, n, e) {
      var c :| c in Children(g[n]) && e in Walked(g, c, active + {n}).entries;
      var q := FoundUsesAreReachable(g, c, active + {n}, e);
      p := [n] + q;
      forall i | 0 <= i < |p| - 1 ensures p[i] in g && p[i + 1] in Children(g[p[i]]) {
        if i > 0 {
          PathStays(g, q, i - 1);
          assert q[i - 1 + 1] in Children(g[q[i - 1]]);
        }
      }
    }
  }

  /** The walk from the root reports a recursion error exactly when a cycle is reachable, records
      exactly the uses keys of the mappings reachable, and blames only nodes that close a cycle. */
  lemma WalkIsExact(g: Graph, root: NodeId)
    requires Closed(g) && root in g
    ensures Walked(g, root, {}).errors != [] <==> ReachesCycle(g, root)
    ensures forall e :: e in Walked(g, root, {}).entries <==> ReachesUses(g, root, e)
    ensures forall l :: l in Walked(g, root, {}).errors ==>
      exists p :: IsPath(g, p) && p[0] == root && LoopsBack(p) && End(p) in g && l == g[End(p)].line + 1
  {
    forall l | l in Walked(g, root, {}).errors
      ensures exists p :: IsPath(g, p) && p[0] == root && LoopsBack(p) && End(p) in g && l == g[End(p)].line + 1
    {
      assert Elements<NodeId>([]) == {} && [] + [root] == [root];
      var p := ErrorShowsCycle(g, root, [], l);
    }
    if Walked(g, root, {}).errors != [] {
      assert Walked(g, root, {}).errors[0] in Walked(g, root, {}).errors;
    } else if ReachesCycle(g, root) {
      var p :| IsPath(g, p) && p[0] == root && LoopsBack(p);
      CleanWalkHasNoRepeat(g, root, {}, p);
      assert false;
    }
    forall e ensures e in Walked(g, root, {}).entries <==> ReachesUses(g, root, e) {
      if e in Walked(g, root, {}).entries {
        var p := FoundUsesAreReachable(g, root, {}, e);
      } else if ReachesUses(g, root, e) {
        var p :| IsPath(g, p) && p[0] == root && Records(g, End(p), e);
        ReachableUsesAreFound(g, root, {}, p, e);
        assert false;
      }
    }
  }

  /** yaml_uses_nodes on a composed document: None when the text held none. */
  method UsesNodes(g: Graph, document: Option<NodeId>) returns (r: Result<Found, string>)
    requires Closed(g) && (document.Some? ==> document.value in g)
    ensures r.Failure? <==> document.None? || !g[document.value].Mapping?
    ensures r.Success? ==>
      && (r.value.errors != [] <==> ReachesCycle(g, document.value))
      && (forall e :: e in r.value.entries <==> ReachesUses(g, document.value, e))
  {
    if document.None? || !g[document.value].Mapping? {
      return Failure("workflow YAML must contain one top-level mapping");
    }
    var walker := new Walker(g);
    walker.Walk(document.value);
    WalkIsExact(g, document.value);
    r := Success(Found(walker.entries, walker.errors));
  }
}
