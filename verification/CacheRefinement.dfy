/** The heap of StateCache shown as a value of CacheTree, and each call of the cache as a function on that value. */
module CacheRefinement {
  import opened Recurrence
  import opened StateCache
  import opened CacheTree

  /** The subtree at `n`. */
  ghost function TreeOf<S(!new)>(c: ExecutionProvider<S>, n: StateNode<S>): Tree<S>
    requires c.Valid() && n in c.nodes
    reads c`nodes, c`bound, c.nodes`children, c.nodes`activationCount
    decreases c.bound - n.depth + 1, 0
  {
    assert c.OwnsChildren(n);
    Tree(n.ids, n.state, n.isConstant, n.activationCount, TreesOf(c, n.children, n.depth + 1))
  }

  /** The subtrees at some nodes of one level. */
  ghost function TreesOf<S(!new)>(c: ExecutionProvider<S>, nodes: seq<StateNode<S>>, depth: nat): (trees: seq<Tree<S>>)
    requires c.Valid() && depth <= c.bound + 1 && forall n :: n in nodes ==> n in c.nodes && n.depth == depth
    reads c`nodes, c`bound, c.nodes`children, c.nodes`activationCount
    ensures |trees| == |nodes| && forall i :: 0 <= i < |nodes| ==> trees[i] == TreeOf(c, nodes[i])
    decreases c.bound - depth + 1, |nodes| + 1
  {
    if nodes == [] then [] else [TreeOf(c, nodes[0])] + TreesOf(c, nodes[1..], depth)
  }

  /** The whole cache. */
  ghost function Cache<S(!new)>(c: ExecutionProvider<S>): Tree<S>
    requires c.Valid()
    reads c`nodes, c`bound, c.nodes`children, c.nodes`activationCount
  {
    TreeOf(c, c.root)
  }

  /** From `x` the path leads to `n`. */
  ghost predicate Leads<S(!new)>(c: ExecutionProvider<S>, x: StateNode<S>, path: Path, n: StateNode<S>)
    requires c.Valid() && x in c.nodes
    reads c`nodes, c`bound, c.nodes`children
    decreases |path|
  {
    assert c.OwnsChildren(x);
    if path == [] then x == n else path[0] < |x.children| && Leads(c, x.children[path[0]], path[1..], n)
  }

  lemma {:induction false} LeadsOn<S(!new)>(c: ExecutionProvider<S>, x: StateNode<S>, path: Path, n: StateNode<S>,
                                            k: nat)
    requires c.Valid() && x in c.nodes && Leads(c, x, path, n) && n in c.nodes && k < |n.children|
    ensures Leads(c, x, path + [k], n.children[k])
    decreases |path|
  {
    assert c.OwnsChildren(x);
    if path == [] {
      assert c.OwnsChildren(n);
      assert ([k])[1..] == [];
    } else {
      LeadsOn(c, x.children[path[0]], path[1..], n, k);
      assert (path + [k])[1..] == path[1..] + [k];
    }
  }

  /** Nothing below `n` has changed. */
  twostate predicate Still<S(!new)>(c: ExecutionProvider<S>, new n: StateNode<S>)
    reads c`nodes, c.nodes`children, c.nodes`activationCount
  {
    forall m {:trigger Under(n, m)} :: m in old(c.nodes) && Under(n, m) ==>
      m in c.nodes && m.children == old(m.children) && m.activationCount == old(m.activationCount)
  }

  twostate lemma {:induction false} StillSame<S(!new)>(c: ExecutionProvider<S>, new n: StateNode<S>)
    requires old(c.Valid()) && c.Valid() && n in old(c.nodes) && Still(c, n)
    ensures n in c.nodes && TreeOf(c, n) == old(TreeOf(c, n))
    decreases old(c.bound) - n.depth
  {
    assert Under(n, n) && n.depth <= old(c.bound);
    assert c.OwnsChildren(n) && old(c.OwnsChildren(n));
    forall i | 0 <= i < |n.children| ensures TreeOf(c, n.children[i]) == old(TreeOf(c, n.children[i])) {
      var child := n.children[i];
      assert Under(n, child);
      forall m | m in old(c.nodes) && Under(child, m)
        ensures m in c.nodes && m.children == old(m.children) && m.activationCount == old(m.activationCount)
      {
        UnderTransitive(n, child, m);
      }
      StillSame(c, child);
    }
    assert TreeOf(c, n).kids == old(TreeOf(c, n)).kids;
  }

  /** Outside the subtree at `n`, nothing below `x` has changed. */
  twostate predicate StillBut<S(!new)>(c: ExecutionProvider<S>, new x: StateNode<S>, new n: StateNode<S>)
    reads c`nodes, c.nodes`children, c.nodes`activationCount
  {
    forall m {:trigger Under(x, m)} :: m in old(c.nodes) && Under(x, m) && !Under(n, m) ==>
      m in c.nodes && m.children == old(m.children) && m.activationCount == old(m.activationCount)
  }

  twostate lemma {:induction false} LedDown<S(!new)>(c: ExecutionProvider<S>, new x: StateNode<S>, new path: Path,
                                                     new n: StateNode<S>)
    requires old(c.Valid()) && x in old(c.nodes) && n in old(c.nodes) && old(Leads(c, x, path, n))
    ensures Under(x, n) && n.depth == x.depth + |path|
    decreases |path|
  {
    assert old(c.OwnsChildren(x));
    if path != [] {
      var child := old(x.children)[path[0]];
      LedDown(c, child, path[1..], n);
      assert Under(x, child);
      UnderTransitive(x, child, n);
    }
  }

  /** A sibling of the child on the way to `n` has nothing to do with `n`. */
  lemma OffThePath<S(!new)>(sibling: StateNode<S>, child: StateNode<S>, n: StateNode<S>, m: StateNode<S>)
    requires sibling != child && sibling.depth == child.depth && Under(child, n) && Under(sibling, m)
    ensures !Under(n, m)
  {
    if Under(n, m) {
      UnderTransitive(child, n, m);
      UnderUnique(child, sibling, m);
    }
  }

  /** A change below one node is a change of one subtree of the value. */
  twostate lemma {:induction false} StillPut<S(!new)>(c: ExecutionProvider<S>, new x: StateNode<S>, new path: Path,
                                                      new n: StateNode<S>)
    requires old(c.Valid()) && c.Valid() && x in old(c.nodes) && n in c.nodes
    requires n in old(c.nodes) && old(Leads(c, x, path, n)) && StillBut(c, x, n)
    ensures x in c.nodes && Leads(c, x, path, n)
    ensures TreeOf(c, x) == Put(old(TreeOf(c, x)), path, TreeOf(c, n))
    decreases |path|
  {
    if path != [] {
      var k := path[0];
      var child := old(x.children)[k];
      assert old(c.OwnsChildren(x));
      LedDown(c, child, path[1..], n);
      assert Under(x, x) && Under(x, child);
      if Under(n, x) { UnderDepth(n, x); }
      assert x in c.nodes && x.children == old(x.children);
      forall m | m in old(c.nodes) && Under(child, m) ensures Under(x, m) { UnderTransitive(x, child, m); }
      StillPut(c, child, path[1..], n);
      forall i | 0 <= i < |x.children| && i != k ensures TreeOf(c, x).kids[i] == old(TreeOf(c, x)).kids[i] {
        SiblingSame(c, x, i, k, n);
      }
      var before, after := old(TreeOf(c, x)), TreeOf(c, x);
      assert after.kids == before.kids[k := TreeOf(c, child)];
    }
  }

  twostate lemma SiblingSame<S(!new)>(c: ExecutionProvider<S>, new x: StateNode<S>, new i: nat, new k: nat,
                                      new n: StateNode<S>)
    requires old(c.Valid()) && c.Valid() && x in old(c.nodes) && x in c.nodes && StillBut(c, x, n)
    requires x.children == old(x.children) && i < |x.children| && k < |x.children| && i != k
    requires Under(x.children[k], n)
    ensures TreeOf(c, x).kids[i] == old(TreeOf(c, x)).kids[i]
  {
    assert c.OwnsChildren(x) && old(c.OwnsChildren(x));
    var child, sibling := x.children[k], x.children[i];
    NoRepeatsErase(x.children, k);
    assert sibling in x.children[..k] + x.children[k + 1..];
    assert Under(x, sibling);
    forall m | m in old(c.nodes) && Under(sibling, m)
      ensures m in c.nodes && m.children == old(m.children) && m.activationCount == old(m.activationCount)
    {
      UnderTransitive(x, sibling, m);
      OffThePath(sibling, child, n, m);
    }
    StillSame(c, sibling);
  }

  lemma FirstSameIs<S>(children: seq<StateNode<S>>, kids: seq<Tree<S>>, ids: seq<int>)
    requires |kids| == |children| && forall i :: 0 <= i < |kids| ==> kids[i].ids == children[i].ids
    ensures FirstSame(kids, ids) == DuplicateAt(children, ids)
  {
    DuplicateUnique(children, ids, FirstSame(kids, ids));
  }

  /** A session standing at `n`. */
  ghost predicate Stands<S(!new)>(c: ExecutionProvider<S>, cursor: Cursor<S>, n: StateNode<S>)
    reads c`nodes, c`bound, c`live, c.nodes`children, c.nodes`activationCount
  {
    c.Valid() && Cache(c) == cursor.tree && Leads(c, c.root, cursor.path, n) && c.live == cursor.live
  }

  lemma {:induction false} LeadsDown<S(!new)>(c: ExecutionProvider<S>, x: StateNode<S>, path: Path, n: StateNode<S>)
    requires c.Valid() && x in c.nodes && Leads(c, x, path, n)
    ensures n in c.nodes && Fits(TreeOf(c, x), path) && Sub(TreeOf(c, x), path) == TreeOf(c, n)
    decreases |path|
  {
    assert c.OwnsChildren(x);
    if path != [] { LeadsDown(c, x.children[path[0]], path[1..], n); }
  }

  /** The value of the node a session stands at. */
  lemma StandsNode<S(!new)>(c: ExecutionProvider<S>, cursor: Cursor<S>, n: StateNode<S>)
    requires Stands(c, cursor, n)
    ensures n in c.nodes && cursor.Node() == TreeOf(c, n) && cursor.Node().ids == n.ids
    ensures Fits(cursor.tree, cursor.path)
  {
    LeadsDown(c, c.root, cursor.path, n);
  }

  lemma StandsCache<S(!new)>(c: ExecutionProvider<S>, cursor: Cursor<S>, n: StateNode<S>)
    requires Stands(c, cursor, n)
    ensures c.Valid() && Cache(c) == cursor.tree && c.live == cursor.live
  {
  }

  /** What registering does to the heap. */
  twostate predicate Registers<S(!new)>(c: ExecutionProvider<S>, new n: StateNode<S>, ids: seq<int>, state: S,
                                        new next: StateNode<S>)
    reads c`nodes, c.nodes`children, c.nodes`activationCount, n`children, next`children, next`activationCount
  {
    n in old(c.nodes) && old(c.nodes) <= c.nodes &&
    var k := DuplicateAt(old(n.children), ids);
    && (forall m :: m in old(c.nodes) && m != n ==> m.children == old(m.children))
    && (forall m :: m in old(c.nodes) && m != next ==> m.activationCount == old(m.activationCount))
    && if k < |old(n.children)| then
         && next == old(n.children)[k] && n.children == old(n.children) && next in old(c.nodes)
         && next.activationCount == old(next.activationCount) + 1
       else
         && next in c.nodes && next !in old(c.nodes) && n.children == old(n.children) + [next]
         && next.ids == n.ids + ids && next.state == state && !next.isConstant && next.children == []
         && next.activationCount == n.activationCount
  }

  /** Registering below `n` changes nothing under a node that is deeper than `n` and does not lead to `next`. */
  twostate lemma DeeperStill<S(!new)>(c: ExecutionProvider<S>, new n: StateNode<S>, new ids: seq<int>, new state: S,
                                      new next: StateNode<S>, new x: StateNode<S>)
    requires old(c.Valid()) && c.Valid() && Registers(c, n, ids, state, next) && x in old(c.nodes)
    requires x.depth > n.depth && (next in old(c.nodes) ==> x.depth >= next.depth && x != next)
    ensures x in c.nodes && TreeOf(c, x) == old(TreeOf(c, x))
  {
    forall m | m in old(c.nodes) && Under(x, m)
      ensures m in c.nodes && m.children == old(m.children) && m.activationCount == old(m.activationCount)
    {
      UnderDepth(x, m);
    }
    StillSame(c, x);
  }

  twostate lemma OtherKidsStill<S(!new)>(c: ExecutionProvider<S>, new n: StateNode<S>, new ids: seq<int>, new state: S,
                                         new next: StateNode<S>)
    requires old(c.Valid()) && c.Valid() && Registers(c, n, ids, state, next)
    ensures var k, before := DuplicateAt(old(n.children), ids), old(TreeOf(c, n)).kids;
      n in c.nodes && |before| <= |n.children| &&
      forall i :: 0 <= i < |before| && i != k ==> TreeOf(c, n).kids[i] == before[i]
  {
    var kids := old(n.children);
    assert c.OwnsChildren(n) && old(c.OwnsChildren(n));
    var k := DuplicateAt(kids, ids);
    forall i | 0 <= i < |kids| && i != k ensures TreeOf(c, n).kids[i] == old(TreeOf(c, n)).kids[i] {
      if k < |kids| { NoRepeatsErase(kids, k); assert kids[i] in kids[..k] + kids[k + 1..]; }
      var kid := kids[i];
      DeeperStill(c, n, ids, state, next, kid);
    }
  }

  twostate lemma RegisteredTree<S(!new)>(c: ExecutionProvider<S>, new n: StateNode<S>, new ids: seq<int>, new state: S,
                                         new next: StateNode<S>)
    requires old(c.Valid()) && c.Valid() && Registers(c, n, ids, state, next)
    ensures n in c.nodes && TreeOf(c, n) == Hung(old(TreeOf(c, n)), ids, state)
    ensures var k := FirstSame(old(TreeOf(c, n)).kids, ids);
      k == DuplicateAt(old(n.children), ids) && k < |n.children| && n.children[k] == next
  {
    var before, after, kids := old(TreeOf(c, n)), TreeOf(c, n), old(n.children);
    assert c.OwnsChildren(n) && old(c.OwnsChildren(n));
    FirstSameIs(kids, before.kids, ids);
    var k := DuplicateAt(kids, ids);
    OtherKidsStill(c, n, ids, state, next);
    if k < |kids| {
      CountedTree(c, n, ids, state, next);
      assert after.kids == before.kids[k := Counted(before.kids[k])];
    } else {
      assert TreeOf(c, next) == Tree(n.ids + ids, state, false, n.activationCount, []);
      assert after.kids == before.kids + [TreeOf(c, next)];
    }
  }

  twostate lemma CountedTree<S(!new)>(c: ExecutionProvider<S>, new n: StateNode<S>, new ids: seq<int>, new state: S,
                                      new next: StateNode<S>)
    requires old(c.Valid()) && c.Valid() && Registers(c, n, ids, state, next) && next in old(c.nodes)
    ensures next in c.nodes && TreeOf(c, next) == Counted(old(TreeOf(c, next)))
  {
    var before, after, kids := old(TreeOf(c, next)), TreeOf(c, next), next.children;
    assert c.OwnsChildren(n) && old(c.OwnsChildren(n));
    assert c.OwnsChildren(next) && old(c.OwnsChildren(next));
    forall i | 0 <= i < |kids| ensures after.kids[i] == before.kids[i] {
      DeeperStill(c, n, ids, state, next, kids[i]);
    }
    assert after.kids == before.kids;
  }

  /** Registering below the node a session stands at is registering in the value. */
  twostate lemma RegisterShown<S(!new)>(c: ExecutionProvider<S>, new path: Path, new n: StateNode<S>, new ids: seq<int>,
                                        new state: S, new next: StateNode<S>)
    requires old(c.Valid()) && c.Valid() && Registers(c, n, ids, state, next)
    requires old(Leads(c, c.root, path, n))
    ensures var cursor := Cursor(old(Cache(c)), path, c.live);
      && Stands(c, cursor.Register(ids, state), next)
      && cursor.Misfires(ids) == old(c.Misfires(n, ids))
  {
    RegisteredTree(c, n, ids, state, next);
    forall m | m in old(c.nodes) && Under(c.root, m) && !Under(n, m)
      ensures m in c.nodes && m.children == old(m.children) && m.activationCount == old(m.activationCount)
    {
      NextIsUnder(c, n, ids, state, next);
      assert Under(n, n);
    }
    StillPut(c, c.root, path, n);
    LeadsDownBefore(c, c.root, path, n);
    LeadsOn(c, c.root, path, n, DuplicateAt(old(n.children), ids));
  }

  /** What a batched registration does to the heap. */
  twostate predicate HangsAnyway<S(!new)>(c: ExecutionProvider<S>, new n: StateNode<S>, ids: seq<int>, state: S,
                                          new next: StateNode<S>)
    reads c`nodes, c.nodes`children, c.nodes`activationCount, n`children, next`children, next`activationCount
  {
    && n in old(c.nodes) && next !in old(c.nodes) && c.nodes == old(c.nodes) + {next}
    && (forall m :: m in old(c.nodes) && m != n ==> m.children == old(m.children))
    && (forall m :: m in old(c.nodes) ==>
      m.activationCount == old(m.activationCount) + if m.parent == n && m.ids == ids then 1 else 0)
    && n.children == old(n.children) + [next] && next.children == [] && next.activationCount == old(n.activationCount)
    && next.ids == n.ids + ids && next.state == state && !next.isConstant
  }

  twostate lemma KidAnyway<S(!new)>(c: ExecutionProvider<S>, new n: StateNode<S>, new ids: seq<int>, new state: S,
                                    new next: StateNode<S>, new kid: StateNode<S>)
    requires old(c.Valid()) && c.Valid() && HangsAnyway(c, n, ids, state, next) && kid in old(n.children)
    ensures kid in old(c.nodes) && kid in c.nodes
    ensures TreeOf(c, kid) == if kid.ids == ids then Counted(old(TreeOf(c, kid))) else old(TreeOf(c, kid))
  {
    assert old(c.OwnsChildren(n));
    assert c.OwnsChildren(kid) && old(c.OwnsChildren(kid));
    forall i | 0 <= i < |kid.children| ensures TreeOf(c, kid.children[i]) == old(TreeOf(c, kid.children[i])) {
      var x := kid.children[i];
      forall m | m in old(c.nodes) && Under(x, m)
        ensures m in c.nodes && m.children == old(m.children) && m.activationCount == old(m.activationCount)
      {
        UnderDepth(x, m);
        if m != c.root { assert old(c.Attached(m)); }
      }
      StillSame(c, x);
    }
    assert TreeOf(c, kid).kids == old(TreeOf(c, kid)).kids;
  }

  twostate lemma AnywayTree<S(!new)>(c: ExecutionProvider<S>, new n: StateNode<S>, new ids: seq<int>, new state: S,
                                     new next: StateNode<S>)
    requires old(c.Valid()) && c.Valid() && HangsAnyway(c, n, ids, state, next)
    ensures n in c.nodes && TreeOf(c, n) == HungAnyway(old(TreeOf(c, n)), ids, state)
  {
    var before, after, kids := old(TreeOf(c, n)), TreeOf(c, n), old(n.children);
    assert c.OwnsChildren(n) && old(c.OwnsChildren(n));
    if n != c.root { assert old(c.Attached(n)); }
    forall i | 0 <= i < |kids| ensures after.kids[i] == Bumped(before.kids, ids)[i] {
      KidAnyway(c, n, ids, state, next, kids[i]);
    }
    assert TreeOf(c, next) == Tree(n.ids + ids, state, false, before.count, []);
    assert after.kids == Bumped(before.kids, ids) + [TreeOf(c, next)];
  }

  /** A batched registration for one sequence is that registration in the value. */
  twostate lemma AnywayShown<S(!new)>(c: ExecutionProvider<S>, new path: Path, new n: StateNode<S>, new ids: seq<int>,
                                      new state: S, new next: StateNode<S>)
    requires old(c.Valid()) && c.Valid() && HangsAnyway(c, n, ids, state, next)
    requires old(Leads(c, c.root, path, n))
    ensures Cache(c) == Put(old(Cache(c)), path, HungAnyway(Sub(old(Cache(c)), path), ids, state))
  {
    AnywayTree(c, n, ids, state, next);
    forall m | m in old(c.nodes) && Under(c.root, m) && !Under(n, m)
      ensures m in c.nodes && m.children == old(m.children) && m.activationCount == old(m.activationCount)
    {
      assert Under(n, n);
    }
    StillPut(c, c.root, path, n);
    LeadsDownBefore(c, c.root, path, n);
  }

  /** Nothing is gone, and lists of children only grow. */
  twostate predicate Grown<S(!new)>(c: ExecutionProvider<S>)
    reads c`nodes, c.nodes`children
  {
    old(c.nodes) <= c.nodes && forall m :: m in old(c.nodes) ==> old(m.children) <= m.children
  }

  ghost function ChildLists<S(!new)>(c: ExecutionProvider<S>): map<StateNode<S>, seq<StateNode<S>>>
    reads c`nodes, c.nodes`children
  {
    map n | n in c.nodes :: n.children
  }

  /** Lists of children have only grown. */
  ghost predicate Longer<S>(was: map<StateNode<S>, seq<StateNode<S>>>, now: map<StateNode<S>, seq<StateNode<S>>>) {
    forall n :: n in was ==> n in now && was[n] <= now[n]
  }

  twostate lemma GrownIs<S(!new)>(c: ExecutionProvider<S>, new was: map<StateNode<S>, seq<StateNode<S>>>)
    requires was == old(ChildLists(c))
    ensures Grown(c) <==> Longer(was, ChildLists(c))
  {
    assert was.Keys == old(c.nodes);
  }

  lemma LongerOn<S>(was: map<StateNode<S>, seq<StateNode<S>>>, next: map<StateNode<S>, seq<StateNode<S>>>,
                    now: map<StateNode<S>, seq<StateNode<S>>>)
    requires Longer(was, next) && Longer(next, now)
    ensures Longer(was, now)
  {
  }

  twostate lemma RegistersGrow<S(!new)>(c: ExecutionProvider<S>, new n: StateNode<S>, new ids: seq<int>, new state: S,
                                        new next: StateNode<S>)
    requires Registers(c, n, ids, state, next)
    ensures Grown(c)
  {
  }

  /** Then paths still lead where they led. */
  twostate lemma {:induction false} LeadsStays<S(!new)>(c: ExecutionProvider<S>, new x: StateNode<S>, new path: Path,
                                                        new n: StateNode<S>)
    requires old(c.Valid()) && c.Valid() && Grown(c) && x in old(c.nodes) && n in old(c.nodes)
    requires old(Leads(c, x, path, n))
    ensures x in c.nodes && Leads(c, x, path, n)
    decreases |path|
  {
    assert old(c.OwnsChildren(x));
    if path != [] { LeadsStays(c, old(x.children)[path[0]], path[1..], n); }
  }

  twostate lemma NextIsUnder<S(!new)>(c: ExecutionProvider<S>, new n: StateNode<S>, new ids: seq<int>, new state: S,
                                      new next: StateNode<S>)
    requires old(c.Valid()) && Registers(c, n, ids, state, next)
    ensures next in old(c.nodes) ==> Under(n, next)
  {
    assert old(c.OwnsChildren(n));
  }

  twostate lemma LeadsDownBefore<S(!new)>(c: ExecutionProvider<S>, new x: StateNode<S>, new path: Path,
                                          new n: StateNode<S>)
    requires old(c.Valid()) && x in old(c.nodes) && n in old(c.nodes) && old(Leads(c, x, path, n))
    ensures Sub(old(TreeOf(c, x)), path) == old(TreeOf(c, n))
    ensures path == [] <==> x == n
    decreases |path|
  {
    assert old(c.OwnsChildren(x));
    if path != [] {
      LeadsDownBefore(c, old(x.children)[path[0]], path[1..], n);
      LedDown(c, x, path, n);
    }
  }

  /** What a lookup of `ids` that ends at `n` does to the heap. */
  twostate predicate LooksUp<S(!new)>(c: ExecutionProvider<S>, new n: StateNode<S>, ids: seq<int>)
    requires c.Valid()
    reads c`nodes, c`bound, c.nodes`children, c.nodes`activationCount
  {
    && n in c.nodes && c.nodes == old(c.nodes)
    && (forall m :: m in c.nodes ==> m.children == old(m.children))
    && (forall m :: m in c.nodes ==> m.activationCount == old(m.activationCount) + c.Passes(m, n))
    && (forall m :: m in c.nodes && c.Passes(m, n) == 1 ==>
      m.parent != null && m.parent in c.nodes && c.FirstMatch(m, ids))
    && (forall k :: k in n.children ==> !(k.ids <= ids))
  }

  lemma FirstPrefixIs<S>(kids: seq<Tree<S>>, ids: seq<int>, k: nat)
    requires k <= |kids| && (k < |kids| ==> kids[k].ids <= ids)
    requires forall j :: 0 <= j < k ==> !(kids[j].ids <= ids)
    ensures FirstPrefix(kids, ids) == k
  {
  }

  /** Off the way to `n` a lookup counts nothing. */
  twostate lemma NotPassed<S(!new)>(c: ExecutionProvider<S>, new n: StateNode<S>, new ids: seq<int>,
                                    new x: StateNode<S>)
    requires old(c.Valid()) && c.Valid() && LooksUp(c, n, ids) && x in old(c.nodes) && !Under(x, n)
    ensures x in c.nodes && TreeOf(c, x) == old(TreeOf(c, x))
  {
    forall m | m in old(c.nodes) && Under(x, m)
      ensures m in c.nodes && m.children == old(m.children) && m.activationCount == old(m.activationCount)
    {
      if Under(m, n) { UnderTransitive(x, m, n); }
    }
    StillSame(c, x);
  }

  twostate lemma {:induction false} LookedUp<S(!new)>(c: ExecutionProvider<S>, new n: StateNode<S>, new ids: seq<int>,
                                                      new x: StateNode<S>)
    requires old(c.Valid()) && c.Valid() && LooksUp(c, n, ids) && x in old(c.nodes) && Under(x, n)
    ensures x in c.nodes && Leads(c, x, Walk(old(TreeOf(c, x)), ids), n)
    ensures TreeOf(c, x) == Resumed(old(TreeOf(c, x)), ids).(count := x.activationCount)
    decreases n.depth - x.depth
  {
    if x == n {
      WalkEnds(c, n, ids);
    } else {
      hide LooksUp, Walk, Resumed, Leads, ExecutionProvider.Valid, ExecutionProvider.OwnsChildren;
      var k := PassedKid(c, n, ids, x);
      LookedUp(c, n, ids, x.children[k]);
      WalkGoesOn(c, n, ids, x, k);
    }
  }

  twostate lemma WalkEnds<S(!new)>(c: ExecutionProvider<S>, new n: StateNode<S>, new ids: seq<int>)
    requires old(c.Valid()) && c.Valid() && LooksUp(c, n, ids)
    ensures n in old(c.nodes) && Walk(old(TreeOf(c, n)), ids) == []
    ensures TreeOf(c, n) == Resumed(old(TreeOf(c, n)), ids).(count := n.activationCount)
  {
    assert c.OwnsChildren(n) && old(c.OwnsChildren(n));
    var before, after, kids := old(TreeOf(c, n)), TreeOf(c, n), n.children;
    forall i | 0 <= i < |kids| ensures after.kids[i] == before.kids[i] {
      BelowTheEnd(c, n, ids, kids[i]);
    }
    FirstPrefixIs(before.kids, ids, |kids|);
    assert after.kids == before.kids;
  }

  twostate lemma WalkGoesOn<S(!new)>(c: ExecutionProvider<S>, new n: StateNode<S>, new ids: seq<int>,
                                     new x: StateNode<S>, new k: nat)
    requires old(c.Valid()) && c.Valid() && LooksUp(c, n, ids) && x in old(c.nodes) && x in c.nodes
    requires k < |x.children| && Under(x.children[k], n) && x.children[k].ids <= ids && c.OwnsChildren(x)
    requires forall j :: 0 <= j < k ==> !(x.children[j].ids <= ids)
    requires x.children == old(x.children) && x.children[k] in old(c.nodes)
    requires Leads(c, x.children[k], Walk(old(TreeOf(c, x)).kids[k], ids), n)
    requires TreeOf(c, x).kids[k] == Counted(Resumed(old(TreeOf(c, x)).kids[k], ids))
    ensures Leads(c, x, Walk(old(TreeOf(c, x)), ids), n)
    ensures TreeOf(c, x) == Resumed(old(TreeOf(c, x)), ids).(count := x.activationCount)
  {
    hide LooksUp, Counted;
    var before := old(TreeOf(c, x));
    assert old(c.OwnsChildren(x));
    FirstPrefixIs(before.kids, ids, k);
    OneKidPassed(c, n, ids, x, k);
    var path := Walk(before, ids);
    assert path == [k] + Walk(before.kids[k], ids) && path[1..] == Walk(before.kids[k], ids);
  }

  twostate lemma BelowTheEnd<S(!new)>(c: ExecutionProvider<S>, new n: StateNode<S>, new ids: seq<int>,
                                      new x: StateNode<S>)
    requires old(c.Valid()) && c.Valid() && LooksUp(c, n, ids) && x in n.children
    ensures x in c.nodes && x in old(c.nodes) && TreeOf(c, x) == old(TreeOf(c, x))
  {
    assert c.OwnsChildren(n);
    if Under(x, n) { UnderDepth(x, n); }
    NotPassed(c, n, ids, x);
  }

  twostate lemma PassedKid<S(!new)>(c: ExecutionProvider<S>, new n: StateNode<S>, new ids: seq<int>,
                                    new x: StateNode<S>)
    returns (k: nat)
    requires old(c.Valid()) && c.Valid() && LooksUp(c, n, ids) && x in old(c.nodes) && Under(x, n) && x != n
    ensures x in c.nodes && k < |x.children| && x.children[k].ids <= ids && Under(x.children[k], n)
    ensures x.children == old(x.children) && x.children[k] in old(c.nodes) && x.children[k] in c.nodes
    ensures x.depth < x.children[k].depth <= n.depth && c.OwnsChildren(x)
    ensures x.children[k].activationCount == old(x.children[k].activationCount) + 1
    ensures TreeOf(c, x).kids[k] == TreeOf(c, x.children[k])
    ensures old(TreeOf(c, x)).kids[k] == old(TreeOf(c, x.children[k]))
    ensures forall j :: 0 <= j < k ==> !(x.children[j].ids <= ids)
  {
    c.UnderSplits(x, n);
    var child :| child in x.children && Under(child, n);
    UnderDepth(child, n);
    assert c.OwnsChildren(x) && old(c.OwnsChildren(x));
    assert c.Passes(child, n) == 1;
    k := FirstKid(c, x, child, ids);
    hide Under, Leads;
  }

  /** Where among its siblings the first match stands. */
  lemma FirstKid<S(!new)>(c: ExecutionProvider<S>, x: StateNode<S>, child: StateNode<S>, ids: seq<int>)
    returns (k: nat)
    requires child.parent == x && c.FirstMatch(child, ids)
    ensures k < |x.children| && x.children[k] == child && child.ids <= ids
    ensures forall j :: 0 <= j < k ==> !(x.children[j].ids <= ids)
  {
    k :| 0 <= k < |x.children| && x.children[k] == child && forall j :: 0 <= j < k ==> !(x.children[j].ids <= ids);
  }

  twostate lemma BesideTheWay<S(!new)>(c: ExecutionProvider<S>, new n: StateNode<S>, new ids: seq<int>,
                                       new x: StateNode<S>, new k: nat, new i: nat)
    requires old(c.Valid()) && c.Valid() && LooksUp(c, n, ids) && x in c.nodes && x in old(c.nodes)
    requires k < |x.children| && i < |x.children| && i != k && Under(x.children[k], n)
    ensures TreeOf(c, x).kids[i] == old(TreeOf(c, x)).kids[i]
  {
    assert c.OwnsChildren(x) && old(c.OwnsChildren(x));
    var child, sibling := x.children[k], x.children[i];
    NoRepeatsErase(x.children, k);
    assert sibling in x.children[..k] + x.children[k + 1..];
    if Under(sibling, n) { UnderUnique(child, sibling, n); }
    NotPassed(c, n, ids, sibling);
  }

  twostate lemma OneKidPassed<S(!new)>(c: ExecutionProvider<S>, new n: StateNode<S>, new ids: seq<int>,
                                       new x: StateNode<S>, new k: nat)
    requires old(c.Valid()) && c.Valid() && LooksUp(c, n, ids) && x in c.nodes && x in old(c.nodes)
    requires k < |x.children| && Under(x.children[k], n)
    ensures k < |TreeOf(c, x).kids| == |old(TreeOf(c, x)).kids|
    ensures TreeOf(c, x).kids == old(TreeOf(c, x)).kids[k := TreeOf(c, x).kids[k]]
  {
    var before, after := old(TreeOf(c, x)), TreeOf(c, x);
    assert c.OwnsChildren(x) && old(c.OwnsChildren(x));
    forall i | 0 <= i < |x.children| && i != k ensures after.kids[i] == before.kids[i] {
      BesideTheWay(c, n, ids, x, k, i);
    }
  }

  /** A lookup in the heap is a lookup in the value. */
  twostate lemma LookupShown<S(!new)>(c: ExecutionProvider<S>, new n: StateNode<S>, new ids: seq<int>)
    requires old(c.Valid()) && c.Valid() && LooksUp(c, n, ids) && c.live == n.state
    ensures Stands(c, Lookup(old(Cache(c)), ids), n)
    ensures Sub(old(Cache(c)), Walk(old(Cache(c)), ids)).ids == n.ids
    ensures n.children == [] <==> Sub(old(Cache(c)), Walk(old(Cache(c)), ids)).kids == []
  {
    c.UnderRoot(n);
    LookedUp(c, n, ids, c.root);
    WalkSame(c, n, ids, c.root);
  }

  twostate lemma {:induction false} WalkSame<S(!new)>(c: ExecutionProvider<S>, new n: StateNode<S>, new ids: seq<int>,
                                                      new x: StateNode<S>)
    requires old(c.Valid()) && c.Valid() && c.nodes == old(c.nodes) && forall m :: m in c.nodes ==>
      m.children == old(m.children)
    requires x in c.nodes && Leads(c, x, Walk(old(TreeOf(c, x)), ids), n)
    ensures var end := Sub(old(TreeOf(c, x)), Walk(old(TreeOf(c, x)), ids));
      end.ids == n.ids && end.state == n.state && (end.kids == [] <==> n.children == [])
    decreases |Walk(old(TreeOf(c, x)), ids)|
  {
    assert c.OwnsChildren(x) && old(c.OwnsChildren(x));
    var path := Walk(old(TreeOf(c, x)), ids);
    if path != [] { WalkSame(c, n, ids, x.children[path[0]]); }
  }

  /** What a cleanup pass does to the heap. */
  twostate predicate Cleans<S(!new)>(c: ExecutionProvider<S>)
    reads c, c.nodes
  {
    old(c.Valid()) && c.Passed() && c.nodes <= old(c.nodes)
  }

  twostate lemma {:induction false} CleanedTree<S(!new)>(c: ExecutionProvider<S>, new x: StateNode<S>)
    requires c.Valid() && Cleans(c) && x in c.nodes
    ensures x in old(c.nodes)
    ensures TreeOf(c, x) == Cleaned(old(TreeOf(c, x))).(count := x.activationCount)
    decreases old(c.bound) - x.depth + 1, 0
  {
    assert old(c.OwnsChildren(x)) && c.OwnsChildren(x);
    assert x in old(c.nodes) && old(c.Survives(x)) && x.depth <= old(c.bound);
    CleanedKids(c, x, 0);
    assert old(TreeOf(c, x)).kids[0..] == old(TreeOf(c, x)).kids && old(x.children)[0..] == old(x.children);
  }

  /** The survivors among the children of a survivor, from the `i`-th on. */
  twostate lemma {:induction false} CleanedKids<S(!new)>(c: ExecutionProvider<S>, new x: StateNode<S>, new i: nat)
    requires c.Valid() && Cleans(c) && x in c.nodes && x in old(c.nodes) && old(c.Survives(x))
    requires x.depth <= old(c.bound) && x.depth <= c.bound && i <= |old(x.children)|
    ensures var kept := Kept(old(x.children)[i..], old(c.AliveNodes()));
      && (forall k :: k in kept ==> k in c.nodes && k.depth == x.depth + 1)
      && TreesOf(c, kept, x.depth + 1) == CleanedAll(old(TreeOf(c, x)).kids[i..])
    decreases old(c.bound) - x.depth, |old(x.children)| - i + 1
  {
    assert old(c.Valid());
    hide Cleans, ExecutionProvider.AliveNodes, ExecutionProvider.Survives, Kept, CleanedAll, Cleaned, Due;
    ghost var children, alive, kids := old(x.children), old(c.AliveNodes()), old(TreeOf(c, x)).kids;
    if i < |children| {
      CleanedKids(c, x, i + 1);
      CleanedKid(c, x, i);
      KeptFrom(children, i, alive);
      CleanedFrom(kids, i);
      var kid, rest := children[i], Kept(children[i + 1..], alive);
      if kid in alive { TreesOnce(c, kid, rest, x.depth + 1); }
    } else {
      NoneLeft(c, children, kids, alive, i, x.depth + 1);
    }
  }

  lemma NoneLeft<S(!new)>(c: ExecutionProvider<S>, children: seq<StateNode<S>>, kids: seq<Tree<S>>,
                          alive: set<StateNode<S>>, i: nat, depth: nat)
    requires c.Valid() && i == |children| == |kids| && depth <= c.bound + 1
    ensures Kept(children[i..], alive) == [] && CleanedAll(kids[i..]) == [] && TreesOf(c, [], depth) == []
  {
  }

  lemma CleanedFrom<S>(kids: seq<Tree<S>>, i: nat)
    requires i < |kids|
    ensures var k, rest := Cleaned(kids[i]), CleanedAll(kids[i + 1..]);
      CleanedAll(kids[i..]) == if Due(k) then rest else [if k.isConstant then k else k.(count := k.count - 1)] + rest
  {
    assert kids[i..][1..] == kids[i + 1..];
  }

  lemma TreesOnce<S(!new)>(c: ExecutionProvider<S>, n: StateNode<S>, rest: seq<StateNode<S>>, depth: nat)
    requires c.Valid() && n in c.nodes && n.depth == depth && forall k :: k in rest ==> k in c.nodes && k.depth == depth
    ensures depth <= c.bound + 1 && TreesOf(c, [n] + rest, depth) == [TreeOf(c, n)] + TreesOf(c, rest, depth)
  {
    assert ([n] + rest)[1..] == rest;
  }

  lemma KeptFrom<S>(children: seq<StateNode<S>>, i: nat, alive: set<StateNode<S>>)
    requires i < |children|
    ensures var rest := Kept(children[i + 1..], alive);
      Kept(children[i..], alive) == if children[i] in alive then [children[i]] + rest else rest
  {
    assert children[i..][1..] == children[i + 1..];
  }

  twostate lemma CleanedKid<S(!new)>(c: ExecutionProvider<S>, new x: StateNode<S>, new i: nat)
    requires c.Valid() && Cleans(c) && x in c.nodes && x in old(c.nodes) && old(c.Survives(x))
    requires x.depth <= old(c.bound) && i < |old(x.children)|
    ensures var kid, before := old(x.children)[i], old(TreeOf(c, x)).kids[i];
      && |old(TreeOf(c, x)).kids| == |old(x.children)|
      && (kid in old(c.AliveNodes()) <==> !Due(Cleaned(before)))
      && (kid in old(c.AliveNodes()) ==>
        && kid in c.nodes && kid.depth == x.depth + 1
        && TreeOf(c, kid) == (var k := Cleaned(before); if k.isConstant then k else k.(count := k.count - 1)))
    decreases old(c.bound) - x.depth, 1
  {
    assert old(c.OwnsChildren(x));
    var kid := old(x.children)[i];
    if kid in old(c.AliveNodes()) {
      assert kid != c.root && old(kid.Alive()) && old(c.Survives(kid));
      CleanedTree(c, kid);
    }
  }

  /** A cleanup pass in the heap is a cleanup pass in the value. */
  twostate lemma CleanupShown<S(!new)>(c: ExecutionProvider<S>)
    requires c.Valid() && Cleans(c)
    ensures Cache(c) == Cleaned(old(Cache(c)))
  {
    assert old(c.Survives(c.root));
    CleanedTree(c, c.root);
  }

  /** A new last child of the root is a new last child in the value. */
  twostate lemma AttachShown<S(!new)>(c: ExecutionProvider<S>, new next: StateNode<S>)
    requires old(c.Valid()) && c.Valid() && c.nodes == old(c.nodes) + {next} && next !in old(c.nodes)
    requires c.root.children == old(c.root.children) + [next] && next.children == []
    requires forall m :: m in old(c.nodes) ==> m.activationCount == old(m.activationCount)
    requires forall m :: m in old(c.nodes) && m != c.root ==> m.children == old(m.children)
    ensures Cache(c) == old(Cache(c)).(kids := old(Cache(c)).kids +
      [Tree(next.ids, next.state, next.isConstant, next.activationCount, [])])
  {
    var before, after := old(Cache(c)), Cache(c);
    assert c.OwnsChildren(c.root) && old(c.OwnsChildren(c.root));
    forall i | 0 <= i < |before.kids| ensures after.kids[i] == before.kids[i] {
      var kid := c.root.children[i];
      forall m | m in old(c.nodes) && Under(kid, m)
        ensures m in c.nodes && m.children == old(m.children) && m.activationCount == old(m.activationCount)
      {
        UnderDepth(kid, m);
      }
      StillSame(c, kid);
    }
    assert after.kids == before.kids + [TreeOf(c, next)];
  }

  /** Erasing a child of the root is erasing a child in the value. */
  twostate lemma EraseShown<S(!new)>(c: ExecutionProvider<S>, new k: nat)
    requires old(c.Valid()) && c.Valid() && k < |old(c.root.children)|
    requires c.nodes == old(set n | n in c.nodes && !Under(c.root.children[k], n))
    requires c.root.children == old(c.root.children[..k] + c.root.children[k + 1..])
    requires forall m :: m in c.nodes ==> m.activationCount == old(m.activationCount)
    requires forall m :: m in c.nodes && m != c.root ==> m.children == old(m.children)
    ensures Cache(c) == old(Cache(c)).(kids := old(Cache(c)).kids[..k] + old(Cache(c)).kids[k + 1..])
  {
    var before, after, gone := old(Cache(c)), Cache(c), old(c.root.children)[k];
    assert c.OwnsChildren(c.root) && old(c.OwnsChildren(c.root));
    forall i | 0 <= i < |after.kids| ensures after.kids[i] == before.kids[if i < k then i else i + 1] {
      var kid := c.root.children[i];
      NoRepeatsErase(old(c.root.children), k);
      assert kid == old(c.root.children)[if i < k then i else i + 1];
      KeptKid(c, gone, kid);
    }
    assert after.kids == before.kids[..k] + before.kids[k + 1..];
  }

  twostate lemma KeptKid<S(!new)>(c: ExecutionProvider<S>, new gone: StateNode<S>, new kid: StateNode<S>)
    requires old(c.Valid()) && c.Valid() && c.nodes <= old(c.nodes)
    requires forall n :: n in old(c.nodes) && !Under(gone, n) ==> n in c.nodes
    requires forall m :: m in c.nodes ==> m.activationCount == old(m.activationCount)
    requires forall m :: m in c.nodes && m != c.root ==> m.children == old(m.children)
    requires kid in c.nodes && kid != gone && kid.depth == gone.depth == 1
    ensures kid in old(c.nodes) && TreeOf(c, kid) == old(TreeOf(c, kid))
  {
    forall m | m in old(c.nodes) && Under(kid, m)
      ensures m in c.nodes && m.children == old(m.children) && m.activationCount == old(m.activationCount)
    {
      UnderDepth(kid, m);
      if Under(gone, m) { UnderUnique(gone, kid, m); }
    }
    StillSame(c, kid);
  }
}
