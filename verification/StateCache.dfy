/** The prefix cache of src/backend.cpp: a heap tree of checkpoints from token prefixes to
    recurrent states, walked by lookups, grown by registrations and aged by cleanups. */
module StateCache {
  import opened Recurrence

  /** One checkpoint.  `parent` and `depth` are ghost: they record where the node hangs. */
  class StateNode<S> {
    const ids: seq<int>
    const state: S
    const isConstant: bool
    var activationCount: int
    var children: seq<StateNode<S>>
    ghost const parent: StateNode?<S>
    ghost const depth: nat

    constructor (ids: seq<int>, state: S, isConstant: bool, activationCount: int,
                 ghost parent: StateNode?<S>)
      ensures this.ids == ids && this.state == state && this.isConstant == isConstant
      ensures this.activationCount == activationCount && this.children == []
      ensures this.parent == parent
      ensures depth == if parent == null then 0 else parent.depth + 1
    {
      this.ids, this.state, this.isConstant := ids, state, isConstant;
      this.activationCount, this.children := activationCount, [];
      this.parent := parent;
      this.depth := if parent == null then 0 else parent.depth + 1;
    }

    /** A cleanup pass keeps constants and nodes whose count is still positive. */
    predicate Alive()
      reads this`activationCount
    {
      isConstant || activationCount > 0
    }
  }

  /** The count a pass leaves behind on a node that had `count`. */
  function Aged(count: int, isConstant: bool): int {
    if isConstant || count <= 0 then count else count - 1
  }

  /** `a` is `n` or an ancestor of `n`. */
  ghost predicate Under<S>(a: StateNode<S>, n: StateNode<S>)
    decreases n.depth
  {
    n == a || (n.parent != null && n.parent.depth < n.depth && Under(a, n.parent))
  }

  lemma {:induction false} UnderDepth<S>(a: StateNode<S>, n: StateNode<S>)
    requires Under(a, n)
    ensures a.depth <= n.depth
    ensures a.depth == n.depth ==> a == n
    decreases n.depth
  {
    if n != a { UnderDepth(a, n.parent); }
  }

  /** Two ancestors at one depth are the same node, so siblings have disjoint subtrees. */
  lemma {:induction false} UnderUnique<S>(a: StateNode<S>, b: StateNode<S>, n: StateNode<S>)
    requires Under(a, n) && Under(b, n) && a.depth == b.depth
    ensures a == b
    decreases n.depth
  {
    if n == a {
      UnderDepth(b, n);
    } else if n == b {
      UnderDepth(a, n);
    } else {
      UnderUnique(a, b, n.parent);
    }
  }

  lemma {:induction false} UnderTransitive<S>(a: StateNode<S>, b: StateNode<S>, n: StateNode<S>)
    requires Under(a, b) && Under(b, n)
    ensures Under(a, n)
    decreases n.depth
  {
    if n != b { UnderTransitive(a, b, n.parent); }
  }

  ghost predicate NoRepeats<S>(nodes: seq<StateNode<S>>) {
    nodes == [] || (nodes[0] !in Members(nodes[1..]) && NoRepeats(nodes[1..]))
  }

  ghost function Members<S>(nodes: seq<StateNode<S>>): set<StateNode<S>> {
    if nodes == [] then {} else {nodes[0]} + Members(nodes[1..])
  }

  lemma {:induction false} MembersIn<S>(nodes: seq<StateNode<S>>, c: StateNode<S>)
    ensures c in Members(nodes) <==> c in nodes
  {
    if nodes != [] { MembersIn(nodes[1..], c); }
  }

  lemma {:induction false} MembersSnoc<S>(nodes: seq<StateNode<S>>, c: StateNode<S>)
    ensures Members(nodes + [c]) == Members(nodes) + {c}
  {
    if nodes != [] {
      assert (nodes + [c])[1..] == nodes[1..] + [c];
      MembersSnoc(nodes[1..], c);
    }
  }

  /** The children a cleanup pass keeps, in order. */
  ghost function Kept<S>(children: seq<StateNode<S>>, alive: set<StateNode<S>>): (kept: seq<StateNode<S>>)
  {
    if children == [] then []
    else (if children[0] in alive then [children[0]] else []) + Kept(children[1..], alive)
  }

  lemma KeptShift<S>(front: seq<StateNode<S>>, c: StateNode<S>, back: seq<StateNode<S>>, alive: set<StateNode<S>>)
    ensures front + Kept([c] + back, alive) ==
      front + (if c in alive then [c] else []) + Kept(back, alive)
  {
    assert ([c] + back)[1..] == back;
  }

  lemma {:induction false} KeptIn<S>(children: seq<StateNode<S>>, alive: set<StateNode<S>>, c: StateNode<S>)
    ensures c in Kept(children, alive) <==> c in children && c in alive
  {
    if children != [] { KeptIn(children[1..], alive, c); }
  }

  lemma {:induction false} KeptNoRepeats<S>(children: seq<StateNode<S>>, alive: set<StateNode<S>>)
    requires NoRepeats(children)
    ensures NoRepeats(Kept(children, alive))
  {
    if children != [] {
      KeptNoRepeats(children[1..], alive);
      var rest := Kept(children[1..], alive);
      KeptIn(children[1..], alive, children[0]);
      MembersIn(rest, children[0]);
      MembersIn(children[1..], children[0]);
      if children[0] in alive { assert ([children[0]] + rest)[1..] == rest; }
      else { assert [] + rest == rest; }
    }
  }

  lemma {:induction false} NoRepeatsErase<S>(nodes: seq<StateNode<S>>, k: nat)
    requires NoRepeats(nodes) && k < |nodes|
    ensures NoRepeats(nodes[..k] + nodes[k + 1..])
    ensures nodes[k] !in nodes[..k] + nodes[k + 1..]
    ensures forall c :: c in nodes ==> c == nodes[k] || c in nodes[..k] + nodes[k + 1..]
  {
    var rest := nodes[..k] + nodes[k + 1..];
    if k == 0 {
      assert rest == nodes[1..];
      MembersIn(nodes[1..], nodes[0]);
    } else {
      NoRepeatsErase(nodes[1..], k - 1);
      assert rest[1..] == nodes[1..][..k - 1] + nodes[1..][k..];
      MembersIn(nodes[1..], nodes[0]);
      MembersIn(rest[1..], nodes[0]);
    }
  }

  lemma {:induction false} NoRepeatsSnoc<S>(nodes: seq<StateNode<S>>, c: StateNode<S>)
    requires NoRepeats(nodes) && c !in nodes
    ensures NoRepeats(nodes + [c])
  {
    if nodes != [] {
      assert (nodes + [c])[1..] == nodes[1..] + [c];
      NoRepeatsSnoc(nodes[1..], c);
      MembersIn(nodes[1..] + [c], nodes[0]);
      MembersIn(nodes[1..], nodes[0]);
    }
  }

  /** Where the duplicate test first fires among `children`, or their number. */
  function DuplicateAt<S>(children: seq<StateNode<S>>, ids: seq<int>): (k: nat)
    ensures k <= |children|
    ensures k < |children| ==> children[k].ids == ids
    ensures forall j :: 0 <= j < k ==> children[j].ids != ids
    decreases |children|
  {
    if children == [] || children[0].ids == ids then 0 else DuplicateAt(children[1..], ids) + 1
  }

  method FindDuplicate<S>(children: seq<StateNode<S>>, ids: seq<int>) returns (k: nat)
    ensures k == DuplicateAt(children, ids)
  {
    k := 0;
    while k < |children| && children[k].ids != ids
      invariant k <= |children|
      invariant forall j :: 0 <= j < k ==> children[j].ids != ids
    {
      k := k + 1;
    }
    DuplicateUnique(children, ids, k);
  }

  /** The first duplicate is determined by what it is the first of. */
  lemma DuplicateUnique<S>(children: seq<StateNode<S>>, ids: seq<int>, k: nat)
    requires k <= |children| && (k < |children| ==> children[k].ids == ids)
    requires forall j :: 0 <= j < k ==> children[j].ids != ids
    ensures k == DuplicateAt(children, ids)
  {
  }

  /** The cache half of a backend, together with the one live state a backend holds. */
  class ExecutionProvider<S(!new)> {
    const step: (S, int) -> S
    const root: StateNode<S>
    var live: S
    /** Every node hanging in the tree. */
    ghost var nodes: set<StateNode<S>>
    /** No node is deeper than this. */
    ghost var bound: nat
    /** Some registration so far took the wrong branch of the duplicate test, or, in a batch, was given a state that is
        not its node's advanced over the ids. */
    ghost var misfired: bool

    /** The tree is a tree of checkpoints whose ids extend their parent's, constants only on top. */
    ghost predicate Valid()
      reads this`nodes, this`bound, nodes`children
    {
      && root in nodes && root.parent == null && root.depth == 0
      && root.ids == [] && !root.isConstant
      && (forall n {:trigger n.depth} :: n in nodes ==> n.depth <= bound)
      && (forall n {:trigger Attached(n)} :: n in nodes && n != root ==> Attached(n))
      && (forall n {:trigger OwnsChildren(n)} :: n in nodes ==> OwnsChildren(n))
    }

    ghost predicate Attached(n: StateNode<S>)
      reads this`nodes, nodes`children
    {
      && n.parent != null && n.parent in nodes && n in n.parent.children
      && n.depth == n.parent.depth + 1
      && n.parent.ids <= n.ids
      && (n.isConstant ==> n.parent == root)
    }

    ghost predicate OwnsChildren(n: StateNode<S>)
      reads this`nodes, n`children
    {
      && (forall c :: c in n.children ==> c in nodes && c.parent == n && c.depth == n.depth + 1)
      && NoRepeats(n.children)
    }

    /** Every learned checkpoint is its parent's state advanced over the extra ids. */
    ghost predicate Coherent()
      requires Valid()
      reads this`nodes, this`bound, nodes`children
    {
      forall n {:trigger Advances(n)} :: n in nodes && n != root && !n.isConstant ==> Advances(n)
    }

    ghost predicate Advances(n: StateNode<S>)
    {
      n.parent != null && n.parent.ids <= n.ids &&
      n.state == Fold(step, n.parent.state, n.ids[|n.parent.ids|..])
    }

    /** No node outlives a parent other than the root. */
    ghost predicate CountsFall()
      reads this`nodes, nodes`activationCount
    {
      forall n {:trigger CountFalls(n)} :: n in nodes && n != root ==> CountFalls(n)
    }

    ghost predicate CountFalls(n: StateNode<S>)
      requires n in nodes
      reads this`nodes, nodes`activationCount
    {
      n.parent != null && n.parent != root && n.parent in nodes ==> n.activationCount <= n.parent.activationCount
    }

    /** What a session relies on as long as no registration has gone wrong. */
    ghost predicate Sound()
      requires Valid()
      reads this`nodes, this`bound, this`misfired, nodes`children
    {
      !misfired ==> Coherent()
    }

    /** The nearest constant ancestor-or-self, or the root. */
    ghost function Anchor(n: StateNode<S>): (a: StateNode<S>)
      ensures Under(a, n)
      decreases n.depth
    {
      if n.isConstant || n.parent == null || n.parent.depth >= n.depth then n
      else
        Anchor(n.parent)
    }

    /** Coherence is what it should be: every checkpoint is the re-evaluation, from its anchor,
        of all the ids that follow the anchor's. */
    lemma {:induction false} CheckpointIsReplay(n: StateNode<S>)
      requires Valid() && Coherent() && n in nodes
      ensures var a := Anchor(n);
        && a in nodes && (a == root || a.isConstant)
        && a.ids <= n.ids
        && n.state == Fold(step, a.state, n.ids[|a.ids|..])
      decreases n.depth
    {
      if n.isConstant || n == root {
        assert n.ids[|n.ids|..] == [];
      } else {
        assert Attached(n) && Advances(n);
        var p, a := n.parent, Anchor(n.parent);
        CheckpointIsReplay(p);
        assert Under(p, n);
        FoldConcat(step, a.state, p.ids[|a.ids|..], n.ids[|p.ids|..]);
        assert p.ids[|a.ids|..] + n.ids[|p.ids|..] == n.ids[|a.ids|..];
      }
    }

    /** Below a child, or at the node itself. */
    lemma {:induction false} UnderSplits(a: StateNode<S>, n: StateNode<S>)
      requires Valid() && a in nodes && n in nodes && Under(a, n) && n != a
      ensures exists c :: c in a.children && Under(c, n)
      decreases n.depth
    {
      assert Attached(n);
      if n.parent == a {
        assert n in a.children;
      } else {
        UnderSplits(a, n.parent);
        var c :| c in a.children && Under(c, n.parent);
        assert Under(c, n);
      }
    }

    lemma {:induction false} UnderRoot(n: StateNode<S>)
      requires Valid() && n in nodes
      ensures Under(root, n)
      decreases n.depth
    {
      if n != root {
        assert Attached(n);
        UnderRoot(n.parent);
      }
    }

    constructor (step: (S, int) -> S, zero: S)
      ensures this.step == step && live == zero && !misfired
      ensures Valid() && Sound() && fresh(nodes) && root.state == zero && nodes == {root} && root.children == []
      ensures root.activationCount == 20
    {
      this.step, live, misfired, bound := step, zero, false, 0;
      var r := new StateNode([], zero, false, 20, null);
      root, nodes := r, {r};
    }

    lemma PassesChild(node: StateNode<S>, child: StateNode<S>)
      requires Valid() && node in nodes && child in node.children
      ensures child in nodes && child != root && Attached(child) && child.parent == node
      ensures forall n :: n in nodes ==> Passes(n, child) == if n == child then 1 else Passes(n, node)
      ensures Passes(child, node) == 0
    {
      assert OwnsChildren(node) && Attached(child);
      if Under(child, node) { UnderDepth(child, node); }
    }

    twostate lemma CountsStillFall(node: StateNode<S>)
      requires old(Valid()) && Valid() && nodes == old(nodes) && node in nodes
      requires forall n :: n in nodes ==> n.activationCount == old(n.activationCount) + Passes(n, node)
      requires old(CountsFall())
      ensures CountsFall()
    {
      forall n | n in nodes && n != root
        ensures CountFalls(n)
      {
        assert Attached(n) && old(CountFalls(n));
        if Under(n, node) { UnderTransitive(n.parent, n, node); }
      }
    }

    /** `n` is the first of its siblings whose ids are a prefix of `ids`. */
    ghost predicate FirstMatch(n: StateNode<S>, ids: seq<int>)
      requires n.parent != null
      reads n.parent`children
    {
      n.ids <= ids &&
      exists k :: 0 <= k < |n.parent.children| && n.parent.children[k] == n &&
        forall j :: 0 <= j < k ==> !(n.parent.children[j].ids <= ids)
    }

    /** The scan over one node's children (src/backend.cpp:16-23). */
    method FirstPrefixChild(children: seq<StateNode<S>>, ids: seq<int>) returns (k: nat)
      ensures k <= |children|
      ensures forall j :: 0 <= j < k ==> !(children[j].ids <= ids)
      ensures k < |children| ==> children[k].ids <= ids
    {
      k := 0;
      while k < |children| && !(children[k].ids <= ids)
        invariant 0 <= k <= |children|
        invariant forall j :: 0 <= j < k ==> !(children[j].ids <= ids)
      {
        k := k + 1;
      }
    }

    /** How often `n` was passed by a walk that ended at `end`. */
    ghost function Passes(n: StateNode<S>, end: StateNode<S>): nat {
      if n != root && Under(n, end) then 1 else 0
    }

    /** Greedy descent: at each node, the first child whose ids are a prefix of the request
        (src/backend.cpp:9-31). */
    method MatchAndLoadState(ids: seq<int>) returns (node: StateNode<S>, rest: seq<int>)
      requires Valid()
      modifies this`live, nodes`activationCount
      ensures Valid()
      ensures old(CountsFall()) ==> CountsFall()
      ensures node in nodes && node.ids <= ids && rest == ids[|node.ids|..] && live == node.state
      ensures forall c :: c in node.children ==> !(c.ids <= ids)
      ensures forall n :: n in nodes && Passes(n, node) == 1 ==> n.parent != null && FirstMatch(n, ids)
      ensures forall n :: n in nodes ==> n.activationCount == old(n.activationCount) + Passes(n, node)
    {
      node := root;
      while |node.children| > 0
        invariant Valid() && node in nodes && node.ids <= ids
        invariant forall n :: n in nodes && Passes(n, node) == 1 ==> n.parent != null && FirstMatch(n, ids)
        invariant forall n :: n in nodes ==> n.activationCount == old(n.activationCount) + Passes(n, node)
        decreases bound - node.depth
      {
        var k := FirstPrefixChild(node.children, ids);
        if k == |node.children| { break; }
        var child := node.children[k];
        PassesChild(node, child);
        child.activationCount := child.activationCount + 1;
        assert FirstMatch(child, ids);
        node := child;
      }
      live := node.state;
      rest := ids[|node.ids|..];
      if old(CountsFall()) { CountsStillFall(node); }
    }

    /** Hangs a childless node under `node`, as its last child. */
    method Attach(node: StateNode<S>, child: StateNode<S>)
      requires Valid() && node in nodes && child !in nodes && child.children == []
      requires child.parent == node && child.depth == node.depth + 1 && node.ids <= child.ids
      requires child.isConstant ==> node == root
      modifies this`nodes, this`bound, node`children
      ensures Valid() && nodes == old(nodes) + {child} && node.children == old(node.children) + [child]
      ensures old(Coherent()) && (child.isConstant || Advances(child)) ==> Coherent()
      ensures old(CountsFall()) && (node == root || child.activationCount <= node.activationCount) ==> CountsFall()
    {
      forall n | n in nodes ensures child !in n.children { assert OwnsChildren(n); }
      node.children := node.children + [child];
      nodes := nodes + {child};
      bound := if bound < child.depth then child.depth else bound;
      forall n | n in nodes && n != root ensures Attached(n) {
        if n != child { assert old(Attached(n)); }
      }
      forall n | n in nodes ensures OwnsChildren(n) {
        if n != child { assert old(OwnsChildren(n)); }
        if n == node { NoRepeatsSnoc(old(node.children), child); }
      }
      forall n | old(CountsFall()) && (node == root || child.activationCount <= node.activationCount) &&
                 n in nodes && n != root
        ensures CountFalls(n)
      {
        if n != child { assert old(CountFalls(n)) && old(Attached(n)); }
      }
    }

    /** The duplicate test of src/backend.cpp:41 compares whole ids with the bare increment.
        It names the wrong checkpoint unless it fires at the root, on a learned child. */
    ghost predicate Misfires(node: StateNode<S>, ids: seq<int>)
      reads node`children
    {
      var k := DuplicateAt(node.children, ids);
      k < |node.children| && (node != root || node.children[k].isConstant)
    }

    /** Below the root it can only misfire on an increment that repeats the node's whole prefix. */
    lemma MisfireRepeats(node: StateNode<S>, ids: seq<int>)
      requires Valid() && node in nodes && Misfires(node, ids)
      ensures node == root ==> exists c :: c in root.children && c.isConstant && c.ids == ids
      ensures node != root ==> node.ids <= ids
    {
      var c := node.children[DuplicateAt(node.children, ids)];
      assert OwnsChildren(node);
      if c != root { assert Attached(c); }
    }

    /** Registration under `node` (src/backend.cpp:39-70). */
    method RegisterStateCheckpointWithState(node: StateNode<S>, ids: seq<int>, state: S)
      returns (next: StateNode<S>)
      requires Valid() && node in nodes
      modifies this`nodes, this`bound, this`misfired, nodes`activationCount, node`children
      ensures Valid() && next in nodes
      ensures misfired == (old(misfired) || old(Misfires(node, ids)))
      ensures var k := DuplicateAt(old(node.children), ids);
        if k < |old(node.children)| then
          && next == old(node.children)[k] && next.ids == ids && nodes == old(nodes)
          && node.children == old(node.children)
          && next.activationCount == old(next.activationCount) + 1
          && (forall n :: n in nodes && n != next ==> n.activationCount == old(n.activationCount))
        else
          && fresh(next) && nodes == old(nodes) + {next} && node.children == old(node.children) + [next]
          && next.parent == node && next.ids == node.ids + ids && next.state == state
          && !next.isConstant && next.children == [] && next.activationCount == node.activationCount
          && (forall n :: n in old(nodes) ==> n.activationCount == old(n.activationCount))
      // the caller gets a learned checkpoint for the ids it meant exactly when the test stays quiet,
      // or fires on a learned child of a node with no ids
      ensures next.ids == node.ids + ids && !next.isConstant <==>
        (var k := DuplicateAt(old(node.children), ids);
         k == |old(node.children)| || (node.ids == [] && !old(node.children)[k].isConstant))
      ensures old(Coherent()) && state == Fold(step, node.state, ids) ==> Coherent()
      ensures old(Coherent()) && state == Fold(step, node.state, ids) && !old(Misfires(node, ids)) ==>
        next.ids == node.ids + ids && next.state == state && Advances(next) && next.parent == node
      ensures old(CountsFall()) && !old(Misfires(node, ids)) ==> CountsFall()
    {
      hide CountsFall, Coherent;
      var k := FindDuplicate(node.children, ids);
      misfired := misfired || (k < |node.children| && (node != root || node.children[k].isConstant));
      if k < |node.children| {
        next := CountAgain(node, k);
      } else {
        next := HangCheckpoint(node, ids, state);
      }
    }

    /** A child is used once more. */
    method CountAgain(node: StateNode<S>, k: nat) returns (next: StateNode<S>)
      requires Valid() && node in nodes && k < |node.children|
      modifies nodes`activationCount
      ensures Valid() && next == node.children[k] && next in nodes && next.parent == node
      ensures forall n :: n in nodes ==> n.activationCount == old(n.activationCount) + if n == next then 1 else 0
      ensures old(Coherent()) ==> Coherent()
      ensures Coherent() && node == root && !next.isConstant ==>
        next.state == Fold(step, node.state, next.ids) && Advances(next)
      ensures old(CountsFall()) && node == root ==> CountsFall()
    {
      assert OwnsChildren(node);
      next := node.children[k];
      assert Attached(next);
      if Coherent() && !next.isConstant { assert Advances(next); }
      assert next.ids[0..] == next.ids;
      next.activationCount := next.activationCount + 1;
      forall n | old(CountsFall()) && node == root && n in nodes && n != root ensures CountFalls(n) {
        assert old(CountFalls(n));
      }
    }

    /** A new learned checkpoint below a node takes the node's count. */
    method HangCheckpoint(node: StateNode<S>, ids: seq<int>, state: S) returns (next: StateNode<S>)
      requires Valid() && node in nodes
      modifies this`nodes, this`bound, node`children
      ensures Valid() && fresh(next) && nodes == old(nodes) + {next} && node.children == old(node.children) + [next]
      ensures next.parent == node && next.ids == node.ids + ids && next.state == state && !next.isConstant
      ensures next.children == [] && next.activationCount == node.activationCount
      ensures old(Coherent()) && state == Fold(step, node.state, ids) ==> Coherent() && Advances(next)
      ensures old(CountsFall()) <==> CountsFall()
    {
      next := new StateNode(node.ids + ids, state, false, node.activationCount, node);
      Attach(node, next);
      assert next.ids[|node.ids|..] == ids;
      forall n | CountsFall() && n in old(nodes) && n != root ensures old(CountFalls(n)) { assert CountFalls(n); }
    }

    /** The duplicate test of a batched registration (src/backend.cpp:79-84) only counts: its `continue` moves on to
        the next child, not to the next sequence. */
    method CountDuplicates(node: StateNode<S>, ids: seq<int>)
      requires Valid() && node in nodes
      modifies nodes`activationCount
      ensures Valid()
      ensures forall n :: n in nodes ==>
        n.activationCount == old(n.activationCount) + if n in node.children && n.ids == ids then 1 else 0
    {
      assert OwnsChildren(node);
      var k := 0;
      while k < |node.children|
        invariant k <= |node.children| && Valid()
        invariant forall n :: n in nodes ==>
          n.activationCount == old(n.activationCount) + if n in node.children[..k] && n.ids == ids then 1 else 0
      {
        var child := node.children[k];
        NoRepeatsErase(node.children, k);
        assert child !in node.children[..k];
        assert node.children[..k + 1] == node.children[..k] + [child];
        if child.ids == ids { child.activationCount := child.activationCount + 1; }
        k := k + 1;
      }
      assert node.children[..k] == node.children;
    }

    /** One sequence of a batched registration (src/backend.cpp:78-96): always a new checkpoint, for the right ids.
        The price is paid by the counts: they go on falling along every path exactly when no duplicate had already
        caught up with a parent below the root. */
    method RegisterAnyway(node: StateNode<S>, ids: seq<int>, state: S) returns (next: StateNode<S>)
      requires Valid() && node in nodes
      modifies this`nodes, this`bound, this`misfired, nodes`activationCount, node`children
      ensures Valid() && fresh(next) && nodes == old(nodes) + {next} && node.children == old(node.children) + [next]
      ensures misfired == (old(misfired) || state != Fold(step, node.state, ids))
      ensures next.parent == node && next.ids == node.ids + ids && next.state == state && !next.isConstant
      ensures next.children == [] && next.activationCount == old(node.activationCount)
      ensures forall n :: n in old(nodes) ==>
        n.activationCount == old(n.activationCount) + if n.parent == node && n.ids == ids then 1 else 0
      ensures old(Coherent()) && state == Fold(step, node.state, ids) ==> Coherent()
      ensures old(CountsFall()) ==>
        (CountsFall() <==>
         (node == root ||
          forall c :: c in old(node.children) && c.ids == ids ==> old(c.activationCount) < old(node.activationCount)))
    {
      forall n | n in nodes ensures n in node.children <==> n.parent == node {
        assert OwnsChildren(node) && (n != root ==> Attached(n));
      }
      assert node !in node.children by { assert OwnsChildren(node); }
      misfired := misfired || state != Fold(step, node.state, ids);
      CountDuplicates(node, ids);
      if old(CountsFall()) { DuplicatesCounted(node, ids); }
      next := HangCheckpoint(node, ids, state);
    }

    /** Counting a duplicate once more keeps the order of counts while it stays at its parent's count or below. */
    twostate lemma DuplicatesCounted(new node: StateNode<S>, ids: seq<int>)
      requires old(Valid()) && Valid() && nodes == old(nodes) && node in nodes && node in old(nodes)
      requires node.children == old(node.children)
      requires forall n :: n in nodes ==>
        n.activationCount == old(n.activationCount) + if n in node.children && n.ids == ids then 1 else 0
      requires old(CountsFall())
      ensures CountsFall() <==>
        (node == root ||
         forall c :: c in old(node.children) && c.ids == ids ==> old(c.activationCount) < old(node.activationCount))
    {
      assert OwnsChildren(node);
      forall c | CountsFall() && node != root && c in node.children && c.ids == ids
        ensures old(c.activationCount) < old(node.activationCount)
      {
        assert CountFalls(c);
      }
      if node == root ||
         forall c :: c in node.children && c.ids == ids ==> old(c.activationCount) < old(node.activationCount) {
        forall n | n in nodes && n != root ensures CountFalls(n) {
          assert old(CountFalls(n)) && Attached(n);
        }
      }
    }

    /** The part of the tree below `x` still hangs together. */
    ghost predicate Intact(x: StateNode<S>)
      requires x in nodes
      reads this`nodes, nodes`children
    {
      forall n {:trigger Under(x, n)} :: n in nodes && Under(x, n) ==>
        OwnsChildren(n) && (n != x ==> Attached(n))
    }

    /** `n` and its list of children have been through one pass. */
    twostate predicate Swept(n: StateNode<S>, alive: set<StateNode<S>>)
      reads n
    {
      && n.children == Kept(old(n.children), alive)
      && n.activationCount == Aged(old(n.activationCount), n.isConstant)
    }

    twostate predicate Untouched(n: StateNode<S>)
      reads n
    {
      n.children == old(n.children) && n.activationCount == old(n.activationCount)
    }

    lemma {:induction false} IntactSplits(x: StateNode<S>, n: StateNode<S>)
      requires x in nodes && Intact(x) && n in nodes && Under(x, n) && n != x
      ensures exists c :: c in x.children && Under(c, n)
      decreases n.depth
    {
      assert Attached(n);
      if n.parent == x {
        assert n in x.children;
      } else {
        IntactSplits(x, n.parent);
        var c :| c in x.children && Under(c, n.parent);
        assert Under(c, n);
      }
    }

    lemma SubtreeIntact(x: StateNode<S>, c: StateNode<S>)
      requires x in nodes && Intact(x) && c in nodes && Under(x, c)
      ensures Intact(c)
    {
      forall n | n in nodes && Under(c, n) ensures OwnsChildren(n) && (n != c ==> Attached(n)) {
        UnderTransitive(x, c, n);
        if n == x { UnderDepth(x, c); UnderDepth(c, x); }
      }
    }

    /** The subtrees of `x`'s children lie strictly below `x` and cover what lies there. */
    lemma KidsApart(x: StateNode<S>, kids: seq<StateNode<S>>)
      requires x in nodes && Intact(x) && kids == x.children
      ensures OwnsChildren(x)
      ensures forall c :: c in Members(kids) ==> c in nodes && c.depth == x.depth + 1 && Intact(c)
      ensures forall c, n {:trigger Under(c, n)} :: c in Members(kids) && Under(c, n) ==> Under(x, n) && n != x
      ensures forall n {:trigger Under(x, n)} :: n in nodes && Under(x, n) && n != x ==>
        exists c :: c in Members(kids) && Under(c, n)
    {
      forall n | n in nodes && Under(x, n) && n != x
        ensures exists c :: c in Members(kids) && Under(c, n)
      {
        IntactSplits(x, n);
        var c :| c in x.children && Under(c, n);
        MembersIn(kids, c);
      }
      assert OwnsChildren(x) by { assert Under(x, x); }
      forall c | c in Members(kids)
        ensures c in nodes && c.depth == x.depth + 1 && Under(x, c) && Intact(c)
      {
        MembersIn(kids, c);
        assert c.parent == x;
        assert Under(x, x);
        SubtreeIntact(x, c);
      }
      forall c, n | c in Members(kids) && Under(c, n) ensures Under(x, n) && n != x {
        UnderTransitive(x, c, n);
        UnderDepth(c, n);
      }
    }

    twostate lemma SiblingsUntouched(new x: StateNode<S>, new child: StateNode<S>, new siblings: set<StateNode<S>>)
      requires nodes == old(nodes) && child !in siblings
      requires forall c :: c in siblings ==> c.depth == child.depth && c.depth == x.depth + 1
      requires forall n {:trigger Under(child, n)} :: n in old(nodes) && n != x && !Under(child, n) ==> Untouched(n)
      ensures forall c, n {:trigger Under(c, n)} :: c in siblings && n in old(nodes) && Under(c, n) ==> Untouched(n)
    {
      forall c, n | c in siblings && n in old(nodes) && Under(c, n) ensures Untouched(n) {
        UnderDepth(c, n);
        if Under(child, n) { UnderUnique(child, c, n); assert false; }
      }
    }

    /** One level of the recursion in src/backend.cpp:105-121: children first, then the sweep
        of the list itself. */
    method CleanupNode(x: StateNode<S>, ghost alive: set<StateNode<S>>)
      requires x in nodes && x.depth <= bound && Intact(x)
      requires forall n {:trigger n.depth} :: n in nodes ==> n.depth <= bound
      requires forall n {:trigger n in alive} :: n in nodes && Under(x, n) ==> (n in alive <==> n.Alive())
      modifies set n | n in nodes && Under(x, n)
      ensures x.children == Kept(old(x.children), alive) && x.activationCount == old(x.activationCount)
      ensures forall n {:trigger Under(x, n)} :: n in nodes && Under(x, n) && n != x ==> Swept(n, alive)
      decreases bound - x.depth, 1
    {
      var it := 0;
      ghost var rest, kept: seq<StateNode<S>> := x.children, [];
      ghost var done: set<StateNode<S>> := {};
      KidsApart(x, x.children);
      hide Coherent, CountsFall, Survives;
      while it < |x.children|
        invariant it == |kept| && x.children == kept + rest
        invariant kept + Kept(rest, alive) == Kept(old(x.children), alive)
        invariant NoRepeats(rest) && done !! Members(rest) && done + Members(rest) == Members(old(x.children))
        invariant x.activationCount == old(x.activationCount)
        invariant forall c, n {:trigger Under(c, n)} :: c in done && n in nodes && Under(c, n) ==> Swept(n, alive)
        invariant forall c, n {:trigger Under(c, n)} :: c in Members(rest) && n in nodes && Under(c, n) ==> Untouched(n)
        decreases |rest|
      {
        ghost var child, others := rest[0], rest[1..];
        assert rest == [child] + others && Under(child, child);
        it := SweepChild(x, it, alive, kept, child, others, done + Members(others));
        KeptShift(kept, child, others, alive);
        kept := kept + if child in alive then [child] else [];
        done, rest := done + {child}, others;
      }
      assert rest == [];
    }

    /** One round of the sweep: clean below the child at `it`, then erase it or age it. */
    method SweepChild(x: StateNode<S>, it: nat, ghost alive: set<StateNode<S>>, ghost front: seq<StateNode<S>>,
                      ghost child: StateNode<S>, ghost back: seq<StateNode<S>>,
                      ghost siblings: set<StateNode<S>>) returns (next: nat)
      requires x in nodes && x.children == front + [child] + back && it == |front|
      requires child in nodes && child.depth <= bound && x.depth < child.depth && Intact(child)
      requires forall n {:trigger n.depth} :: n in nodes ==> n.depth <= bound
      requires forall n {:trigger n in alive} :: n in nodes && Under(child, n) ==> (n in alive <==> n.Alive())
      requires child !in siblings
      requires forall c :: c in siblings ==> c.depth == child.depth && c.depth == x.depth + 1
      modifies x`children, set n | n in nodes && Under(child, n)
      ensures x.children == front + (if child in alive then [child] else []) + back
      ensures next == if child in alive then it + 1 else it
      ensures forall c, n {:trigger Under(c, n)} :: c in siblings && n in nodes && Under(c, n) ==> Untouched(n)
      ensures forall n {:trigger Under(child, n)} :: n in nodes && Under(child, n) ==> Swept(n, alive)
      decreases bound - x.depth, 0
    {
      var entry := x.children[it];
      assert Under(child, child);
      if Under(child, x) { UnderDepth(child, x); assert false; }
      CleanupNode(entry, alive);
      if !entry.Alive() {
        x.children := x.children[..it] + x.children[it + 1..];
        next := it;
      } else {
        if !entry.isConstant { entry.activationCount := entry.activationCount - 1; }
        next := it + 1;
      }
      SiblingsUntouched(x, child, siblings);
    }

    /** Neither `n` nor anything above it, the root aside, is due for eviction. */
    ghost predicate Survives(n: StateNode<S>)
      requires n in nodes
      reads this`nodes, nodes`activationCount
      decreases n.depth
    {
      n == root ||
      (n.Alive() && n.parent != null && n.parent in nodes && n.parent.depth < n.depth && Survives(n.parent))
    }

    /** While counts fall along every path, only the node's own count matters. */
    twostate lemma {:induction false} SurvivesAlone(n: StateNode<S>)
      requires n in old(nodes) && old(Valid()) && old(CountsFall()) && n != root && old(n.Alive())
      ensures old(Survives(n))
      decreases n.depth
    {
      assert old(Attached(n)) && old(CountFalls(n));
      if n.parent != root { SurvivesAlone(n.parent); }
    }

    /** Counting more spares no less. */
    twostate lemma {:induction false} SurvivesMore(new n: StateNode<S>)
      requires n in old(nodes) && old(nodes) <= nodes && old(Survives(n))
      requires forall m :: m in old(nodes) ==> m.activationCount >= old(m.activationCount)
      ensures Survives(n)
      decreases n.depth
    {
      if n != root { SurvivesMore(n.parent); }
    }

    ghost function AliveNodes(): set<StateNode<S>>
      reads this`nodes, nodes`activationCount
    {
      set n | n in nodes && n.Alive()
    }

    /** The effect of a finished pass. */
    twostate predicate Passed()
      reads this, nodes
    {
      && nodes == old(set n | n in nodes && Survives(n)) && bound == old(bound)
      && (forall n {:trigger n in nodes} :: n in nodes ==>
        && n.children == Kept(old(n.children), old(AliveNodes()))
        && n.activationCount ==
          if n == root then old(n.activationCount) else Aged(old(n.activationCount), n.isConstant))
    }

    twostate lemma PassKeepsTree()
      requires old(Valid()) && nodes <= old(nodes) && Passed()
      ensures Valid()
      ensures old(Coherent()) ==> Coherent()
    {
      ghost var alive := old(AliveNodes());
      forall n | n in nodes ensures OwnsChildren(n) {
        assert old(OwnsChildren(n));
        KeptNoRepeats(old(n.children), alive);
        forall c | c in n.children ensures c in nodes && c.parent == n && c.depth == n.depth + 1 {
          KeptIn(old(n.children), alive, c);
          assert c in old(nodes) && old(c.Alive()) && old(Survives(n));
          assert old(Survives(c));
        }
      }
      forall n | n in nodes && n != root ensures Attached(n) && old(Attached(n)) {
        assert old(Attached(n));
        KeptIn(old(n.parent.children), alive, n);
      }
    }

    twostate lemma PassKeepsCounts()
      requires old(Valid()) && old(CountsFall()) && nodes <= old(nodes) && Passed()
      ensures CountsFall() && nodes == old(set n | n in nodes && (n == root || n.Alive()))
    {
      forall n | n in old(nodes) && n != root && old(n.Alive()) ensures old(Survives(n)) {
        SurvivesAlone(n);
      }
      forall n | n in nodes && n != root ensures CountFalls(n) {
        assert old(CountFalls(n)) && old(Attached(n));
        assert n.parent != root ==> n.parent in nodes && !n.isConstant;
      }
    }

    /** One cleanup pass (src/backend.cpp:100-125).  A subtree goes exactly when its top is due;
        as long as counts fall along every path, that means exactly the due nodes go. */
    method CleanupStateTree()
      requires Valid()
      modifies this`nodes, nodes
      ensures Valid()
      ensures nodes == old(set n | n in nodes && Survives(n))
      ensures old(CountsFall()) ==>
        CountsFall() && nodes == old(set n | n in nodes && (n == root || n.isConstant || n.activationCount > 0))
      ensures forall n :: n in nodes ==>
        && n.children == Kept(old(n.children), old(AliveNodes()))
        && n.activationCount ==
          if n == root then old(n.activationCount) else Aged(old(n.activationCount), n.isConstant)
      ensures old(Coherent()) ==> Coherent()
    {
      ghost var alive, stay := AliveNodes(), set n | n in nodes && Survives(n);
      forall n | n in nodes ensures Under(root, n) && OwnsChildren(n) && (n != root ==> Attached(n)) {
        UnderRoot(n);
      }
      CleanupNode(root, alive);
      nodes := stay;
      PassKeepsTree();
      if old(CountsFall()) { PassKeepsCounts(); }
    }

    /** What every backend computes: the transition, token by token. */
    method Eval(ids: seq<int>)
      modifies this`live
      ensures live == Fold(step, old(live), ids)
    {
      live := Fold(step, live, ids);
    }

    /** Erasing one child of the root with all that hangs below it. */
    method EraseTopChild(k: nat)
      requires Valid() && k < |root.children|
      modifies this`nodes, root`children
      ensures Valid()
      ensures nodes == old(set n | n in nodes && !Under(root.children[k], n))
      ensures root.children == old(root.children[..k] + root.children[k + 1..])
      ensures old(Coherent()) ==> Coherent()
      ensures old(CountsFall()) ==> CountsFall()
    {
      ghost var gone, stay := root.children[k], set n | n in nodes && !Under(root.children[k], n);
      assert OwnsChildren(root);
      NoRepeatsErase(root.children, k);
      root.children := root.children[..k] + root.children[k + 1..];
      nodes := stay;
      assert root in nodes by { if Under(gone, root) { UnderDepth(gone, root); assert false; } }
      forall n | n in nodes ensures OwnsChildren(n) && old(OwnsChildren(n)) {
        assert old(OwnsChildren(n));
        forall c | c in n.children ensures c in nodes {
          if n == root && Under(gone, c) { UnderUnique(gone, c, c); assert false; }
        }
      }
      forall n | n in nodes && n != root ensures Attached(n) && old(Attached(n)) {
        assert old(Attached(n));
        assert !Under(gone, n.parent);
        assert n.parent == root ==> n != gone;
      }
      forall n | old(CountsFall()) && n in nodes && n != root ensures CountFalls(n) {
        assert old(CountFalls(n));
      }
    }
  }

  /** The duplicate test confuses a whole prefix with an increment: registering [1, 2] below the checkpoint [1] hands
      back the checkpoint of [1, 2], not one of [1, 1, 2], and the next registration hangs a state that is not its
      parent's advanced.  Every state registered here is the right one for the ids evaluated so far. */
  method DuplicateTestMisfires() returns (cache: ExecutionProvider<seq<int>>, wrong: StateNode<seq<int>>)
    ensures cache.Valid() && wrong in cache.nodes && !cache.Coherent()
    ensures wrong.ids == [1, 2, 3] && wrong.state == [1, 1, 2, 3]
  {
    hide ExecutionProvider.Coherent, ExecutionProvider.Valid, Fold;
    var one, two;
    cache, one, two := TwoCheckpoints();
    DuplicateUnique(one.children, [1, 2], 0);
    var three := cache.RegisterStateCheckpointWithState(one, [1, 2], [1, 1, 2]);
    assert three == two;
    wrong := cache.RegisterStateCheckpointWithState(three, [3], [1, 1, 2, 3]);
    OneTooMany(cache, wrong, two);
  }

  method TwoCheckpoints()
    returns (cache: ExecutionProvider<seq<int>>, one: StateNode<seq<int>>, two: StateNode<seq<int>>)
    ensures cache.Valid() && fresh(cache) && fresh(cache.nodes) && cache.step == ((s: seq<int>, t: int) => s + [t])
    ensures one in cache.nodes && one.ids == [1] && one.children == [two]
    ensures two in cache.nodes && two.ids == [1, 2] && two.state == [1, 2] && two.children == []
  {
    hide ExecutionProvider.Coherent, ExecutionProvider.Valid, Fold;
    cache := new ExecutionProvider((s: seq<int>, t: int) => s + [t], []);
    one := cache.RegisterStateCheckpointWithState(cache.root, [1], [1]);
    assert one.ids == [1] && one.children == [];
    two := cache.RegisterStateCheckpointWithState(one, [2], [1, 2]);
    assert two.ids == [1, 2];
  }

  /** A state one token longer than its parent's advanced. */
  lemma OneTooMany(cache: ExecutionProvider<seq<int>>, wrong: StateNode<seq<int>>, two: StateNode<seq<int>>)
    requires cache.Valid() && cache.step == ((s: seq<int>, t: int) => s + [t]) && wrong in cache.nodes
    requires wrong.parent == two && !wrong.isConstant && wrong.ids == two.ids + [3]
    requires |wrong.state| == |two.state| + 2
    ensures !cache.Coherent()
  {
    assert wrong.ids[|two.ids|..] == [3];
    assert Fold(cache.step, two.state, [3]) == two.state + [3];
    assert !cache.Advances(wrong);
  }
}
