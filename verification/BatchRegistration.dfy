/** The batched registration (src/backend.cpp:72-98): one new checkpoint for every sequence, duplicates or not. */
module BatchRegistration {
  import opened Recurrence
  import opened StateCache
  import opened CacheTree
  import opened CacheRefinement

  /** How often the duplicate test counts `n` while sequences `from` to `to` are registered. */
  ghost function Bumps<S>(n: StateNode<S>, at: seq<StateNode<S>>, ids: seq<seq<int>>, from: nat, to: nat): nat {
    if from >= to || to > |at| || to > |ids| then 0
    else
      Bumps(n, at, ids, from, to - 1) + if n.parent == at[to - 1] && n.ids == ids[to - 1] then 1 else 0
  }

  lemma BumpsNext<S>(n: StateNode<S>, at: seq<StateNode<S>>, ids: seq<seq<int>>, from: nat, i: nat)
    requires i < |at| && i < |ids|
    ensures Bumps(n, at, ids, from, i + 1) ==
      if from > i then 0
      else Bumps(n, at, ids, from, i) + if n.parent == at[i] && n.ids == ids[i] then 1 else 0
  {
  }

  /** What registering leaves: a learned checkpoint for the ids meant. */
  ghost predicate Registered<S>(node: StateNode<S>, ids: seq<int>, state: S, next: StateNode<S>)
    reads node`children
  {
    && next.parent == node && next in node.children
    && next.ids == node.ids + ids && next.state == state && !next.isConstant
  }

  /** The paths lead to the nodes. */
  ghost predicate AllLead<S(!new)>(c: ExecutionProvider<S>, paths: seq<Path>, at: seq<StateNode<S>>)
    requires c.Valid()
    reads c`nodes, c`bound, c.nodes`children
  {
    |paths| == |at| && forall i :: 0 <= i < |at| ==> at[i] in c.nodes && Leads(c, c.root, paths[i], at[i])
  }

  /** Some state is not that of its node advanced over its ids. */
  ghost predicate SomeOff<S>(step: (S, int) -> S, at: seq<StateNode<S>>, ids: seq<seq<int>>, states: seq<S>, k: nat)
    requires k <= |at| == |ids| == |states|
  {
    exists i :: 0 <= i < k && Off(step, at[i], ids[i], states[i])
  }

  ghost predicate Off<S>(step: (S, int) -> S, n: StateNode<S>, ids: seq<int>, state: S) {
    state != Fold(step, n.state, ids)
  }

  /** A batched registration. */
  method RegisterBatchStateCheckpoint<S(!new)>(c: ExecutionProvider<S>, at: seq<StateNode<S>>, states: seq<S>,
                                               ids: seq<seq<int>>, ghost paths: seq<Path>)
    returns (ok: bool, next: seq<StateNode<S>>)
    requires c.Valid() && c.Sound() && |at| == |states| && AllLead(c, paths, at)
    modifies c`nodes, c`bound, c`misfired, c.nodes`activationCount, c.nodes`children
    ensures c.Valid() && c.Sound() && ok == (|ids| == |states|)
    ensures !ok ==> next == at && c.nodes == old(c.nodes) && c.misfired == old(c.misfired)
    ensures !ok ==> forall n :: n in c.nodes ==>
      n.activationCount == old(n.activationCount) && n.children == old(n.children)
    ensures fresh(c.nodes - old(c.nodes)) && Grown(c)
    ensures ok ==> |next| == |at| && c.nodes == old(c.nodes) + Members(next) && NoRepeats(next)
    ensures ok ==> forall i :: 0 <= i < |at| ==> fresh(next[i]) && Registered(at[i], ids[i], states[i], next[i])
    // a new checkpoint takes its node's count as it finds it, and every later duplicate adds one
    ensures ok ==> forall n :: n in old(c.nodes) ==>
      n.activationCount == old(n.activationCount) + Bumps(n, at, ids, 0, |at|)
    ensures ok ==> forall i :: 0 <= i < |at| ==>
      next[i].activationCount ==
      old(at[i].activationCount) + Bumps(at[i], at, ids, 0, i) + Bumps(next[i], at, ids, i + 1, |at|)
    // the tree is the one computed from the tree before; it is coherent still unless a state does not belong
    ensures ok ==> Cache(c) == HungAll(old(Cache(c)), Closings(paths, ids, states))
    ensures ok ==> c.misfired == (old(c.misfired) || Mismatched(c.step, old(Cache(c)), Closings(paths, ids, states)))
  {
    ok, next := |ids| == |states|, at;
    if !ok { return; }
    OffIs(c, paths, at, ids, states);
    ghost var counts, kids := map n | n in c.nodes :: n.activationCount, map n | n in c.nodes :: n.children;
    ghost var job := Job(Cache(c), c.misfired, paths, ids, states);
    Start(c, at, job, counts, kids);
    hide NoRepeats, Members, Bumps, Shown, Tallied, AllLead, Cache, SomeOff, Mismatched, HungAll, Registered;
    hide ExecutionProvider.Valid, ExecutionProvider.Sound;
    next := RegisterAll(c, at, job, states, ids, counts, kids);
    forall i | 0 <= i < |at| ensures next[i] in Members(next) { MembersIn(next, next[i]); }
    ShownDone(c, at, job, kids);
    TalliedDone(c, at, ids, states, next, counts);
  }

  /** The loop (lines 78-96). */
  method RegisterAll<S(!new)>(c: ExecutionProvider<S>, at: seq<StateNode<S>>, ghost job: Job<S>, states: seq<S>,
                              ids: seq<seq<int>>, ghost counts: map<StateNode<S>, int>,
                              ghost kids: map<StateNode<S>, seq<StateNode<S>>>) returns (next: seq<StateNode<S>>)
    requires |at| == |ids| == |states| && job.ids == ids && job.states == states
    requires Shown(c, at, job, 0, kids) && Tallied(c, at, ids, states, [], counts)
    modifies c`nodes, c`bound, c`misfired, c.nodes`activationCount, c.nodes`children
    ensures |next| == |at| && fresh(Members(next)) && c.nodes == old(c.nodes) + Members(next)
    ensures Shown(c, at, job, |at|, kids) && Tallied(c, at, ids, states, next, counts)
  {
    assert Members<S>([]) == {};
    hide Members, Shown, Tallied;
    next := [];
    while |next| < |at|
      invariant |next| <= |at| && fresh(Members(next)) && c.nodes == old(c.nodes) + Members(next)
      invariant Shown(c, at, job, |next|, kids) && Tallied(c, at, ids, states, next, counts)
    {
      next := RegisterNext(c, at, job, states, ids, next, counts, kids);
    }
  }

  /** What a batched registration starts from. */
  datatype Job<S> = Job(tree: Tree<S>, misfired: bool, paths: seq<Path>, ids: seq<seq<int>>, states: seq<S>)

  /** With the first `k` sequences registered: the tree, seen as a value. */
  ghost predicate Shown<S(!new)>(c: ExecutionProvider<S>, at: seq<StateNode<S>>, job: Job<S>, k: nat,
                                 kids: map<StateNode<S>, seq<StateNode<S>>>)
    reads c, c.nodes
  {
    && c.Valid() && c.Sound() && k <= |at| == |job.ids| == |job.states|
    && AllLead(c, job.paths, at) && Longer(kids, ChildLists(c))
    && Cache(c) == HungAll(job.tree, Closings(job.paths[..k], job.ids[..k], job.states[..k]))
    && c.misfired == (job.misfired || SomeOff(c.step, at, job.ids, job.states, k))
  }

  /** The new checkpoints and all counts. */
  ghost predicate Tallied<S(!new)>(c: ExecutionProvider<S>, at: seq<StateNode<S>>, ids: seq<seq<int>>, states: seq<S>,
                                   next: seq<StateNode<S>>, counts: map<StateNode<S>, int>)
    reads c`nodes, at, next, counts.Keys
  {
    && |next| <= |at| == |ids| == |states|
    && (forall k :: 0 <= k < |at| ==> at[k] in counts) && counts.Keys <= c.nodes
    && NoRepeats(next) && (forall k :: 0 <= k < |next| ==> next[k] in c.nodes)
    && AsMeant(at, ids, states, next) && CountedSoFar(at, ids, next, counts)
  }

  /** The first sequences have a checkpoint each, as meant. */
  ghost predicate AsMeant<S>(at: seq<StateNode<S>>, ids: seq<seq<int>>, states: seq<S>, next: seq<StateNode<S>>)
    requires |next| <= |at| == |ids| == |states|
    reads at
  {
    forall k :: 0 <= k < |next| ==> Registered(at[k], ids[k], states[k], next[k])
  }

  /** The counts after the first sequences, from the counts before. */
  ghost predicate CountedSoFar<S>(at: seq<StateNode<S>>, ids: seq<seq<int>>, next: seq<StateNode<S>>,
                                  counts: map<StateNode<S>, int>)
    requires |next| <= |at| == |ids|
    reads counts.Keys, next
  {
    && (forall n :: n in counts ==> n.activationCount == counts[n] + Bumps(n, at, ids, 0, |next|))
    && forall k :: 0 <= k < |next| && at[k] in counts ==>
      next[k].activationCount ==
      counts[at[k]] + Bumps(at[k], at, ids, 0, k) + Bumps(next[k], at, ids, k + 1, |next|)
  }

  lemma Start<S(!new)>(c: ExecutionProvider<S>, at: seq<StateNode<S>>, job: Job<S>, counts: map<StateNode<S>, int>,
                       kids: map<StateNode<S>, seq<StateNode<S>>>)
    requires c.Valid() && c.Sound() && |at| == |job.ids| == |job.states| && AllLead(c, job.paths, at)
    requires counts.Keys == kids.Keys == c.nodes && job.tree == Cache(c) && job.misfired == c.misfired
    requires forall n :: n in c.nodes ==> counts[n] == n.activationCount && kids[n] == n.children
    ensures Members<S>([]) == {} && Shown(c, at, job, 0, kids) && Tallied(c, at, job.ids, job.states, [], counts)
  {
    assert Closings(job.paths[..0], job.ids[..0], job.states[..0]) == [];
  }

  lemma ShownDone<S(!new)>(c: ExecutionProvider<S>, at: seq<StateNode<S>>, job: Job<S>,
                           kids: map<StateNode<S>, seq<StateNode<S>>>)
    requires Shown(c, at, job, |at|, kids)
    ensures c.Valid() && c.Sound() && |at| == |job.ids| == |job.states| == |job.paths|
    ensures forall n :: n in kids ==> n in c.nodes && kids[n] <= n.children
    ensures Cache(c) == HungAll(job.tree, Closings(job.paths, job.ids, job.states))
    ensures c.misfired == (job.misfired || SomeOff(c.step, at, job.ids, job.states, |at|))
  {
    var k := |at|;
    assert job.paths[..k] == job.paths && job.ids[..k] == job.ids && job.states[..k] == job.states;
  }

  lemma TalliedDone<S(!new)>(c: ExecutionProvider<S>, at: seq<StateNode<S>>, ids: seq<seq<int>>, states: seq<S>,
                             next: seq<StateNode<S>>, counts: map<StateNode<S>, int>)
    requires |next| == |at| && Tallied(c, at, ids, states, next, counts)
    ensures NoRepeats(next) && |at| == |ids| == |states|
    ensures forall k :: 0 <= k < |at| ==> Registered(at[k], ids[k], states[k], next[k])
    ensures forall n :: n in counts ==> n.activationCount == counts[n] + Bumps(n, at, ids, 0, |at|)
    ensures forall k :: 0 <= k < |at| && at[k] in counts ==>
      next[k].activationCount ==
      counts[at[k]] + Bumps(at[k], at, ids, 0, k) + Bumps(next[k], at, ids, k + 1, |at|)
  {
  }

  lemma OffIs<S(!new)>(c: ExecutionProvider<S>, paths: seq<Path>, at: seq<StateNode<S>>, ids: seq<seq<int>>,
                       states: seq<S>)
    requires c.Valid() && AllLead(c, paths, at) && |at| == |ids| == |states|
    ensures Mismatched(c.step, Cache(c), Closings(paths, ids, states)) <==> SomeOff(c.step, at, ids, states, |at|)
  {
    var t, closings := Cache(c), Closings(paths, ids, states);
    forall i | 0 <= i < |at| ensures Mismatches(c.step, t, closings[i]) <==> Off(c.step, at[i], ids[i], states[i]) {
      LeadsDown(c, c.root, paths[i], at[i]);
    }
  }

  lemma OffNext<S>(step: (S, int) -> S, at: seq<StateNode<S>>, ids: seq<seq<int>>, states: seq<S>, k: nat)
    requires k < |at| == |ids| == |states|
    ensures SomeOff(step, at, ids, states, k + 1) <==>
      SomeOff(step, at, ids, states, k) || Off(step, at[k], ids[k], states[k])
  {
  }

  /** The loop body: the checkpoint of one more sequence. */
  method RegisterNext<S(!new)>(c: ExecutionProvider<S>, at: seq<StateNode<S>>, ghost job: Job<S>, states: seq<S>,
                               ids: seq<seq<int>>, done: seq<StateNode<S>>, ghost counts: map<StateNode<S>, int>,
                               ghost kids: map<StateNode<S>, seq<StateNode<S>>>) returns (next: seq<StateNode<S>>)
    requires |done| < |at| == |ids| == |states| && job.ids == ids && job.states == states
    requires Shown(c, at, job, |done|, kids) && Tallied(c, at, ids, states, done, counts)
    modifies c`nodes, c`bound, c`misfired, c.nodes`activationCount, c.nodes`children
    ensures |next| == |done| + 1 && next[..|done|] == done && fresh(next[|done|])
    ensures c.nodes == old(c.nodes) + {next[|done|]} && Members(next) == Members(done) + {next[|done|]}
    ensures Shown(c, at, job, |next|, kids) && Tallied(c, at, ids, states, next, counts)
  {
    var node := HangNext(c, at, job, |done|, ids[|done|], states[|done|], kids);
    TalliedNext(c, at, ids, states, done, node, counts);
    hide Shown, Tallied, HangsAnyway, Members;
    MembersSnoc(done, node);
    next := done + [node];
  }

  twostate lemma TalliedNext<S(!new)>(c: ExecutionProvider<S>, new at: seq<StateNode<S>>, new ids: seq<seq<int>>,
                                      new states: seq<S>, new done: seq<StateNode<S>>, new node: StateNode<S>,
                                      new counts: map<StateNode<S>, int>)
    requires (forall k :: 0 <= k < |at| ==> at[k] in old(c.nodes)) && counts.Keys <= old(c.nodes)
    requires forall k :: 0 <= k < |done| ==> done[k] in old(c.nodes)
    requires |done| < |at| == |ids| == |states| && old(Tallied(c, at, ids, states, done, counts))
    requires HangsAnyway(c, at[|done|], ids[|done|], states[|done|], node) && node.parent == at[|done|]
    ensures Tallied(c, at, ids, states, done + [node], counts)
  {
    hide Bumps, Registered, Members;
    var i, next := |done|, done + [node];
    MembersIn(done, node);
    NoRepeatsSnoc(done, node);
    forall k | 0 <= k <= i ensures Registered(at[k], ids[k], states[k], next[k]) {
      StillRegistered(c, at[k], ids[k], states[k], if k < i then done[k] else node, node, at[i], ids[i],
                      states[i]);
    }
    forall n | n in counts ensures n.activationCount == counts[n] + Bumps(n, at, ids, 0, i + 1) {
      BumpsNext(n, at, ids, 0, i);
    }
    forall k | 0 <= k <= i
      ensures next[k].activationCount ==
        counts[at[k]] + Bumps(at[k], at, ids, 0, k) + Bumps(next[k], at, ids, k + 1, i + 1)
    {
      BumpsNext(next[k], at, ids, k + 1, i);
    }
  }

  twostate lemma StillRegistered<S(!new)>(c: ExecutionProvider<S>, new n: StateNode<S>, new ids: seq<int>, new state: S,
                                          new next: StateNode<S>, new node: StateNode<S>, new at: StateNode<S>,
                                          new added: seq<int>, new with: S)
    requires n in old(c.nodes) && HangsAnyway(c, at, added, with, node) && node.parent == at
    requires (next in old(c.nodes) && old(Registered(n, ids, state, next))) ||
      (next == node && n == at && ids == added && state == with)
    ensures Registered(n, ids, state, next)
  {
  }

  /** One registration, in the heap and in the value. */
  method HangNext<S(!new)>(c: ExecutionProvider<S>, at: seq<StateNode<S>>, ghost job: Job<S>, k: nat, ids: seq<int>,
                           state: S, ghost kids: map<StateNode<S>, seq<StateNode<S>>>) returns (next: StateNode<S>)
    requires k < |at| && Shown(c, at, job, k, kids) && ids == job.ids[k] && state == job.states[k]
    modifies c`nodes, c`bound, c`misfired, c.nodes`activationCount, c.nodes`children
    ensures Shown(c, at, job, k + 1, kids)
    ensures fresh(next) && HangsAnyway(c, at[k], ids, state, next) && next.parent == at[k]
  {
    next := c.RegisterAnyway(at[k], ids, state);
    AnywayShown(c, job.paths[k], at[k], ids, state, next);
    forall i | 0 <= i < |at| ensures at[i] in c.nodes && Leads(c, c.root, job.paths[i], at[i]) {
      LeadsStays(c, c.root, job.paths[i], at[i]);
    }
    assert Longer(kids, ChildLists(c));
    ShownNext(c, at, job, k, kids, old(Cache(c)), old(c.misfired));
  }

  lemma ShownNext<S(!new)>(c: ExecutionProvider<S>, at: seq<StateNode<S>>, job: Job<S>, k: nat,
                           kids: map<StateNode<S>, seq<StateNode<S>>>, before: Tree<S>, misfired: bool)
    requires c.Valid() && c.Sound() && k < |at| == |job.ids| == |job.states| && AllLead(c, job.paths, at)
    requires Longer(kids, ChildLists(c)) && misfired == (job.misfired || SomeOff(c.step, at, job.ids, job.states, k))
    requires before == HungAll(job.tree, Closings(job.paths[..k], job.ids[..k], job.states[..k]))
    requires Cache(c) ==
      Put(before, job.paths[k], HungAnyway(Sub(before, job.paths[k]), job.ids[k], job.states[k]))
    requires c.misfired == (misfired || Off(c.step, at[k], job.ids[k], job.states[k]))
    ensures Shown(c, at, job, k + 1, kids)
  {
    hide Cache, HungAll, SomeOff, HungAnyway, Put, Sub;
    ClosingsNext(job.paths, job.ids, job.states, k);
    HungOneMore(job.tree, Closings(job.paths[..k], job.ids[..k], job.states[..k]),
                Closing(job.paths[k], job.ids[k], job.states[k]));
    OffNext(c.step, at, job.ids, job.states, k);
  }
}
