/** The cache as a value: what src/backend.cpp does to its tree, said without a heap. */
module CacheTree {
  import opened Recurrence

  datatype Tree<S> = Tree(ids: seq<int>, state: S, isConstant: bool, count: int, kids: seq<Tree<S>>)

  /** Which child to take, level by level. */
  type Path = seq<nat>

  function Sub<S>(t: Tree<S>, path: Path): Tree<S>
    decreases |path|
  {
    if path == [] || path[0] >= |t.kids| then t else Sub(t.kids[path[0]], path[1..])
  }

  function Put<S>(t: Tree<S>, path: Path, sub: Tree<S>): Tree<S>
    decreases |path|
  {
    if path == [] then sub
    else if path[0] >= |t.kids| then t
    else t.(kids := t.kids[path[0] := Put(t.kids[path[0]], path[1..], sub)])
  }

  /** The first of the children whose ids are a prefix of `ids`, or their number. */
  function FirstPrefix<S>(kids: seq<Tree<S>>, ids: seq<int>): (k: nat)
    ensures k <= |kids|
    ensures k < |kids| ==> kids[k].ids <= ids
    ensures forall j :: 0 <= j < k ==> !(kids[j].ids <= ids)
    decreases |kids|
  {
    if kids == [] || kids[0].ids <= ids then 0 else FirstPrefix(kids[1..], ids) + 1
  }

  /** The first of the children whose ids are `ids`, or their number. */
  function FirstSame<S>(kids: seq<Tree<S>>, ids: seq<int>): (k: nat)
    ensures k <= |kids|
    ensures k < |kids| ==> kids[k].ids == ids
    ensures forall j :: 0 <= j < k ==> kids[j].ids != ids
    decreases |kids|
  {
    if kids == [] || kids[0].ids == ids then 0 else FirstSame(kids[1..], ids) + 1
  }

  function Counted<S>(t: Tree<S>): Tree<S> { t.(count := t.count + 1) }

  /** Where a lookup ends. */
  function Walk<S>(t: Tree<S>, ids: seq<int>): Path
    decreases t
  {
    var k := FirstPrefix(t.kids, ids);
    if k == |t.kids| then [] else [k] + Walk(t.kids[k], ids)
  }

  /** The tree after a lookup: every node passed is counted. */
  function Resumed<S>(t: Tree<S>, ids: seq<int>): Tree<S>
    decreases t
  {
    var k := FirstPrefix(t.kids, ids);
    if k == |t.kids| then t else t.(kids := t.kids[k := Counted(Resumed(t.kids[k], ids))])
  }

  /** Registering below `t` itself. */
  function Hung<S>(t: Tree<S>, ids: seq<int>, state: S): Tree<S> {
    var k := FirstSame(t.kids, ids);
    t.(kids := if k < |t.kids| then t.kids[k := Counted(t.kids[k])]
               else t.kids + [Tree(t.ids + ids, state, false, t.count, [])])
  }

  /** The batched duplicate test: every child with the bare ids is counted. */
  function Bumped<S>(kids: seq<Tree<S>>, ids: seq<int>): (r: seq<Tree<S>>)
    ensures |r| == |kids|
  {
    seq(|kids|, i requires 0 <= i < |kids| => if kids[i].ids == ids then Counted(kids[i]) else kids[i])
  }

  /** Registering below `t` itself, whatever its children are. */
  function HungAnyway<S>(t: Tree<S>, ids: seq<int>, state: S): Tree<S> {
    t.(kids := Bumped(t.kids, ids) + [Tree(t.ids + ids, state, false, t.count, [])])
  }

  /** What a batched registration hangs for one sequence, and where. */
  datatype Closing<S> = Closing(path: Path, ids: seq<int>, state: S)

  /** One of them for each sequence. */
  function Closings<S>(paths: seq<Path>, ids: seq<seq<int>>, states: seq<S>): (r: seq<Closing<S>>)
    requires |paths| == |ids| == |states|
    ensures |r| == |paths| && forall i :: 0 <= i < |r| ==> r[i] == Closing(paths[i], ids[i], states[i])
  {
    seq(|paths|, i requires 0 <= i < |paths| => Closing(paths[i], ids[i], states[i]))
  }

  lemma ClosingsNext<S>(paths: seq<Path>, ids: seq<seq<int>>, states: seq<S>, k: nat)
    requires k < |paths| == |ids| == |states|
    ensures Closings(paths[..k + 1], ids[..k + 1], states[..k + 1]) ==
      Closings(paths[..k], ids[..k], states[..k]) + [Closing(paths[k], ids[k], states[k])]
  {
  }

  function HungAll<S>(t: Tree<S>, closings: seq<Closing<S>>): Tree<S>
    decreases |closings|
  {
    if closings == [] then t
    else
      var u, x := HungAll(t, closings[..|closings| - 1]), closings[|closings| - 1];
      Put(u, x.path, HungAnyway(Sub(u, x.path), x.ids, x.state))
  }

  lemma HungOneMore<S>(t: Tree<S>, closings: seq<Closing<S>>, x: Closing<S>)
    ensures var u := HungAll(t, closings);
      HungAll(t, closings + [x]) == Put(u, x.path, HungAnyway(Sub(u, x.path), x.ids, x.state))
  {
    assert (closings + [x])[..|closings|] == closings;
  }

  /** Some sequence's state is not that of its node advanced over its ids. */
  ghost predicate Mismatched<S>(step: (S, int) -> S, t: Tree<S>, closings: seq<Closing<S>>) {
    exists o :: 0 <= o < |closings| && Mismatches(step, t, closings[o])
  }

  predicate Mismatches<S(==)>(step: (S, int) -> S, t: Tree<S>, x: Closing<S>) {
    x.state != Fold(step, Sub(t, x.path).state, x.ids)
  }

  /** A session at work: the tree, the node it stands at, and the backend's live state. */
  datatype Cursor<S> = Cursor(tree: Tree<S>, path: Path, live: S)
  {
    function Node(): Tree<S> { Sub(tree, path) }

    /** Registering `state` for `ids` below the node, and moving there. */
    function Register(ids: seq<int>, state: S): Cursor<S> {
      Cursor(Put(tree, path, Hung(Node(), ids, state)), path + [FirstSame(Node().kids, ids)], live)
    }

    /** Evaluating `ids` and registering the state reached. */
    function Feed(step: (S, int) -> S, ids: seq<int>): Cursor<S> {
      var next := Fold(step, live, ids);
      Register(ids, next).(live := next)
    }

    /** The duplicate test of src/backend.cpp:41 would name the wrong checkpoint. */
    predicate Misfires(ids: seq<int>) {
      var k := FirstSame(Node().kids, ids);
      k < |Node().kids| && (path != [] || Node().kids[k].isConstant)
    }

    function FeedAll(step: (S, int) -> S, pieces: seq<seq<int>>): Cursor<S>
      decreases |pieces|
    {
      if pieces == [] then this else Feed(step, pieces[0]).FeedAll(step, pieces[1..])
    }

    /** The test misfires on one of the pieces on the way. */
    predicate Strays(step: (S, int) -> S, pieces: seq<seq<int>>)
      decreases |pieces|
    {
      pieces != [] && (Misfires(pieces[0]) || Feed(step, pieces[0]).Strays(step, pieces[1..]))
    }

    /** One of the pieces on the way is mistaken for a child with just its ids, below a node that has ids itself. */
    predicate Wanders(step: (S, int) -> S, pieces: seq<seq<int>>)
      decreases |pieces|
    {
      pieces != [] &&
      ((Node().ids != [] && FirstSame(Node().kids, pieces[0]) < |Node().kids|) ||
       Feed(step, pieces[0]).Wanders(step, pieces[1..]))
    }

    /** Feeding in two goes. */
    lemma {:induction false} FeedConcat(step: (S, int) -> S, a: seq<seq<int>>, b: seq<seq<int>>)
      ensures FeedAll(step, a + b) == FeedAll(step, a).FeedAll(step, b)
      ensures Strays(step, a + b) == (Strays(step, a) || FeedAll(step, a).Strays(step, b))
      decreases |a|
    {
      hide Feed, Misfires;
      if a == [] {
        assert a + b == b;
      } else {
        Feed(step, a[0]).FeedConcat(step, a[1..], b);
        assert (a + b)[1..] == a[1..] + b;
      }
    }

    /** Feeding `left` to `c` finishes what feeding `pieces` here begins; `was` and `is` say whether anything had
        strayed before, and has now. */
    ghost predicate Midway(step: (S, int) -> S, pieces: seq<seq<int>>, was: bool, c: Cursor<S>, left: seq<seq<int>>,
                           now: bool) {
      && FeedAll(step, pieces) == c.FeedAll(step, left)
      && (was || Strays(step, pieces)) == (now || c.Strays(step, left))
    }

    lemma Begin(step: (S, int) -> S, pieces: seq<seq<int>>, was: bool)
      ensures Midway(step, pieces, was, this, pieces, was)
    {
    }

    lemma Advance(step: (S, int) -> S, pieces: seq<seq<int>>, was: bool, c: Cursor<S>, piece: seq<int>,
                  left: seq<seq<int>>, now: bool)
      requires Midway(step, pieces, was, c, [piece] + left, now)
      ensures Midway(step, pieces, was, c.Feed(step, piece), left, now || c.Misfires(piece))
    {
      assert ([piece] + left)[1..] == left;
    }

    lemma Finish(step: (S, int) -> S, pieces: seq<seq<int>>, was: bool, c: Cursor<S>, now: bool)
      requires Midway(step, pieces, was, c, [], now)
      ensures c == FeedAll(step, pieces) && now == (was || Strays(step, pieces))
    {
    }
  }

  /** The cursor of a lookup. */
  function Lookup<S>(t: Tree<S>, ids: seq<int>): Cursor<S> {
    Cursor(Resumed(t, ids), Walk(t, ids), Sub(t, Walk(t, ids)).state)
  }

  /** What a lookup leaves to evaluate. */
  function Rest<S>(t: Tree<S>, ids: seq<int>): seq<int> {
    var n := |Sub(t, Walk(t, ids)).ids|;
    if n <= |ids| then ids[n..] else []
  }

  /** Every step of the path is a child. */
  predicate Fits<S>(t: Tree<S>, path: Path)
    decreases |path|
  {
    path == [] || (path[0] < |t.kids| && Fits(t.kids[path[0]], path[1..]))
  }

  lemma {:induction false} SubPut<S>(t: Tree<S>, path: Path, sub: Tree<S>)
    requires Fits(t, path)
    ensures Fits(Put(t, path, sub), path) && Sub(Put(t, path, sub), path) == sub
    decreases |path|
  {
    if path != [] { SubPut(t.kids[path[0]], path[1..], sub); }
  }

  lemma {:induction false} SubOn<S>(t: Tree<S>, path: Path, k: nat)
    requires Fits(t, path) && k < |Sub(t, path).kids|
    ensures Fits(t, path + [k]) && Sub(t, path + [k]) == Sub(t, path).kids[k]
    decreases |path|
  {
    if path == [] {
      assert [k][1..] == [];
    } else {
      SubOn(t.kids[path[0]], path[1..], k);
      assert (path + [k])[1..] == path[1..] + [k];
    }
  }

  /** A lookup leads to a node it leaves as it was, but for its count. */
  lemma {:induction false} LookupEnd<S>(t: Tree<S>, ids: seq<int>)
    ensures Fits(t, Walk(t, ids)) && Fits(Resumed(t, ids), Walk(t, ids))
    ensures var end := Sub(t, Walk(t, ids)); Sub(Resumed(t, ids), Walk(t, ids)).(count := end.count) == end
    decreases t
  {
    var k := FirstPrefix(t.kids, ids);
    if k < |t.kids| {
      LookupEnd(t.kids[k], ids);
      var next := Resumed(t.kids[k], ids);
      var path := Walk(t.kids[k], ids);
      CountedSub(next, path);
      assert ([k] + path)[1..] == path;
    }
  }

  lemma CountedSub<S>(t: Tree<S>, path: Path)
    requires Fits(t, path)
    ensures Fits(Counted(t), path)
    ensures Sub(Counted(t), path) == if path == [] then Counted(t) else Sub(t, path)
  {
  }

  /** Whether feeding `pieces` below a node strays, seen from the node as it stands: at most two of its levels matter,
      for what is registered anew has no children to be mistaken for. */
  predicate StraysBelow<S>(t: Tree<S>, top: bool, pieces: seq<seq<int>>)
    decreases |pieces|
  {
    pieces != [] &&
    var k := FirstSame(t.kids, pieces[0]);
    k < |t.kids| && (!top || t.kids[k].isConstant || StraysBelow(t.kids[k], false, pieces[1..]))
  }

  lemma {:induction false} StraysIff<S>(c: Cursor<S>, step: (S, int) -> S, pieces: seq<seq<int>>)
    requires Fits(c.tree, c.path)
    ensures c.Strays(step, pieces) == StraysBelow(c.Node(), c.path == [], pieces)
    decreases |pieces|
  {
    if pieces != [] && !c.Misfires(pieces[0]) {
      var node, piece := c.Node(), pieces[0];
      var k, next := FirstSame(node.kids, piece), c.Feed(step, piece);
      var hung := Hung(node, piece, next.live);
      SubPut(c.tree, c.path, hung);
      SubOn(Put(c.tree, c.path, hung), c.path, k);
      StraysIff(next, step, pieces[1..]);
    }
  }

  /** What registering moves to. */
  lemma RegisterNode<S>(c: Cursor<S>, ids: seq<int>, state: S)
    requires Fits(c.tree, c.path)
    ensures var next, k := c.Register(ids, state), FirstSame(c.Node().kids, ids);
      Fits(next.tree, next.path) && next.Node().ids == if k < |c.Node().kids| then ids else c.Node().ids + ids
  {
    var k, hung := FirstSame(c.Node().kids, ids), Hung(c.Node(), ids, state);
    SubPut(c.tree, c.path, hung);
    SubOn(Put(c.tree, c.path, hung), c.path, k);
  }

  /** Feeding arrives at the ids meant if and only if it does not wander.  If it does, ids are lost in front: a piece
      taken for a whole never makes up for what it drops. */
  lemma {:induction false} WandersIff<S>(c: Cursor<S>, step: (S, int) -> S, pieces: seq<seq<int>>)
    returns (lost: seq<int>)
    requires Fits(c.tree, c.path)
    ensures Fits(c.FeedAll(step, pieces).tree, c.FeedAll(step, pieces).path)
    ensures c.Node().ids + Join(pieces) == lost + c.FeedAll(step, pieces).Node().ids
    ensures lost == [] <==> !c.Wanders(step, pieces)
    decreases |pieces|
  {
    FeedStep(c, step, pieces);
    if pieces == [] {
      lost := [];
      assert c.Node().ids + [] == [] + c.Node().ids;
    } else {
      hide Cursor.Feed, Cursor.Node, Cursor.FeedAll, Cursor.Wanders, FirstSame, Fits, Join;
      var next, hit := c.Feed(step, pieces[0]), FirstSame(c.Node().kids, pieces[0]) < |c.Node().kids|;
      var more := WandersIff(next, step, pieces[1..]);
      lost := if hit then c.Node().ids + more else more;
      Lost(c.Node().ids, pieces[0], Join(pieces[1..]), hit, more, next.FeedAll(step, pieces[1..]).Node().ids);
    }
  }

  /** Ids dropped in front of a piece that is taken for a whole, or not. */
  lemma Lost(ids: seq<int>, piece: seq<int>, rest: seq<int>, hit: bool, more: seq<int>, got: seq<int>)
    requires (if hit then piece else ids + piece) + rest == more + got
    ensures ids + (piece + rest) == (if hit then ids + more else more) + got
  {
    if hit {
      assert ids + (more + got) == (ids + more) + got;
    } else {
      assert ids + (piece + rest) == (ids + piece) + rest;
    }
  }

  lemma FeedStep<S>(c: Cursor<S>, step: (S, int) -> S, pieces: seq<seq<int>>)
    requires Fits(c.tree, c.path)
    ensures pieces == [] ==> c.FeedAll(step, pieces) == c && !c.Wanders(step, pieces) && Join(pieces) == []
    ensures pieces != [] ==>
      var next, hit := c.Feed(step, pieces[0]), FirstSame(c.Node().kids, pieces[0]) < |c.Node().kids|;
      && c.FeedAll(step, pieces) == next.FeedAll(step, pieces[1..]) && Join(pieces) == pieces[0] + Join(pieces[1..])
      && Fits(next.tree, next.path) && next.Node().ids == (if hit then pieces[0] else c.Node().ids + pieces[0])
      && (c.Wanders(step, pieces) <==> (c.Node().ids != [] && hit) || next.Wanders(step, pieces[1..]))
  {
    hide FirstSame, Fits, Hung, Put, Sub, Fold;
    if pieces != [] {
      RegisterNode(c, pieces[0], c.Feed(step, pieces[0]).live);
    }
  }

  /** Wandering is straying, and the only other way to stray is onto a loaded state: a constant of the root with just
      the ids of the first piece. */
  lemma {:induction false} StraysOrWanders<S>(c: Cursor<S>, step: (S, int) -> S, pieces: seq<seq<int>>)
    requires Fits(c.tree, c.path) && (c.path == [] <==> c.Node().ids == [])
    requires forall i :: 0 <= i < |pieces| ==> pieces[i] != []
    ensures c.Strays(step, pieces) <==>
      c.Wanders(step, pieces) || (c.path == [] && pieces != [] && c.Misfires(pieces[0]))
    decreases |pieces|
  {
    if pieces != [] {
      var next := c.Feed(step, pieces[0]);
      RegisterNode(c, pieces[0], next.live);
      StraysOrWanders(next, step, pieces[1..]);
    }
  }

  /** Whether feeding wanders, seen from the node as it stands. */
  predicate WandersBelow<S>(t: Tree<S>, pieces: seq<seq<int>>)
    decreases |pieces|
  {
    pieces != [] &&
    var k := FirstSame(t.kids, pieces[0]);
    k < |t.kids| && (t.ids != [] || WandersBelow(t.kids[k], pieces[1..]))
  }

  lemma {:induction false} WandersBelowIff<S>(c: Cursor<S>, step: (S, int) -> S, pieces: seq<seq<int>>)
    requires Fits(c.tree, c.path)
    ensures c.Wanders(step, pieces) == WandersBelow(c.Node(), pieces)
    decreases |pieces|
  {
    if pieces != [] {
      var node, piece := c.Node(), pieces[0];
      var k, next := FirstSame(node.kids, piece), c.Feed(step, piece);
      var hung := Hung(node, piece, next.live);
      SubPut(c.tree, c.path, hung);
      SubOn(Put(c.tree, c.path, hung), c.path, k);
      WandersBelowIff(next, step, pieces[1..]);
    }
  }

  /** The same behind a lookup. */
  lemma LookupWandersIff<S>(t: Tree<S>, ids: seq<int>, step: (S, int) -> S, pieces: seq<seq<int>>)
    ensures var from := Sub(t, Walk(t, ids));
      && Lookup(t, ids).Wanders(step, pieces) == WandersBelow(from, pieces)
      && (Lookup(t, ids).FeedAll(step, pieces).Node().ids == from.ids + Join(pieces) <==> !WandersBelow(from, pieces))
  {
    LookupFits(t, ids);
    WandersBelowIff(Lookup(t, ids), step, pieces);
    var lost := WandersIff(Lookup(t, ids), step, pieces);
    SameRest(lost, Lookup(t, ids).FeedAll(step, pieces).Node().ids);
  }

  lemma SameRest(lost: seq<int>, got: seq<int>)
    ensures lost + got == got <==> lost == []
  {
    if lost == [] {
      assert [] + got == got;
    } else {
      assert |lost + got| > |got|;
    }
  }

  lemma LookupFits<S>(t: Tree<S>, ids: seq<int>)
    ensures var c, from := Lookup(t, ids), Sub(t, Walk(t, ids));
      Fits(c.tree, c.path) && c.Node().ids == from.ids && c.Node().kids == from.kids
  {
    LookupEnd(t, ids);
  }

  /** A lookup ends at a prefix of the ids. */
  lemma {:induction false} LookupPrefix<S>(t: Tree<S>, ids: seq<int>)
    requires t.ids <= ids
    ensures Sub(t, Walk(t, ids)).ids <= ids && Sub(t, Walk(t, ids)).ids + Rest(t, ids) == ids
    decreases t
  {
    var k := FirstPrefix(t.kids, ids);
    if k < |t.kids| {
      LookupPrefix(t.kids[k], ids);
      var path := Walk(t.kids[k], ids);
      assert ([k] + path)[1..] == path;
    }
  }

  /** Nothing below a node without children strays. */
  lemma NothingStrays<S>(t: Tree<S>, top: bool, pieces: seq<seq<int>>)
    requires t.kids == []
    ensures !StraysBelow(t, top, pieces)
  {
  }

  /** A lookup followed by feeding strays exactly when the node found says so before anything is changed. */
  lemma LookupStraysIff<S>(t: Tree<S>, ids: seq<int>, step: (S, int) -> S, pieces: seq<seq<int>>)
    ensures Lookup(t, ids).Strays(step, pieces) ==
      StraysBelow(Sub(t, Walk(t, ids)), Walk(t, ids) == [], pieces)
  {
    LookupEnd(t, ids);
    StraysIff(Lookup(t, ids), step, pieces);
  }

  predicate Due<S>(t: Tree<S>) { !t.isConstant && t.count <= 0 }

  /** One cleanup pass below `t`. */
  function Cleaned<S>(t: Tree<S>): Tree<S>
    decreases t
  {
    t.(kids := CleanedAll(t.kids))
  }

  function CleanedAll<S>(kids: seq<Tree<S>>): seq<Tree<S>>
    decreases kids
  {
    if kids == [] then []
    else
      var k := Cleaned(kids[0]);
      (if Due(k) then [] else [if k.isConstant then k else k.(count := k.count - 1)]) + CleanedAll(kids[1..])
  }
}
