/** The channel objects, joined in a tree by their parent and children references. */
module Channels {
  import opened Sequences
  import opened ChannelJobs
  import opened ChannelNames
  import opened ChannelQueues
  import opened PriorityQueues
  import opened ChannelSteps
  import opened ChannelTree
  import opened ChannelMoves
  import opened ChannelWakeup

  /** The channel objects of a tree, by full name. */
  type Tree = map<Path, Channel>

  /** Parents and children agree with the full names, and no two channels share a queue. */
  ghost predicate Shaped(tree: Tree)
    reads tree.Values`children
  {
    && Rooted(tree.Keys)
    && (forall p :: p in tree ==> tree[p].path == p)
    && (forall p {:trigger Parent(p)} :: p in tree && p != ROOT ==>
        Parent(p) in tree && tree[p].parent == tree[Parent(p)])
    && tree[ROOT].parent == null
    && (forall p, k :: p in tree && k in tree[p].children ==> p + [k] in tree && tree[p].children[k] == tree[p + [k]])
    && (forall p {:trigger Parent(p)} :: p in tree && p != ROOT ==> p[|p| - 1] in tree[Parent(p)].children)
    && Apart(tree)
  }

  /** Every channel but the root is a child of its parent. */
  ghost predicate ParentsAgree(tree: Tree, kids: map<Path, map<string, Channel>>)
    requires Rooted(tree.Keys) && kids.Keys == tree.Keys
  {
    forall p {:trigger Parent(p)} :: p in tree && p != ROOT ==>
      Parent(p) in tree && tree[p].parent == tree[Parent(p)] && p[|p| - 1] in kids[Parent(p)]
  }

  ghost predicate ChildrenAgree(tree: Tree, kids: map<Path, map<string, Channel>>)
    requires kids.Keys == tree.Keys
  {
    forall p, k :: p in tree && k in kids[p] ==> p + [k] in tree && kids[p][k] == tree[p + [k]]
  }

  /** The same as `Shaped`, with the children of every channel given. */
  ghost predicate ShapedOver(tree: Tree, kids: map<Path, map<string, Channel>>) {
    && Rooted(tree.Keys) && kids.Keys == tree.Keys
    && (forall p :: p in tree ==> tree[p].path == p)
    && ParentsAgree(tree, kids) && tree[ROOT].parent == null
    && ChildrenAgree(tree, kids)
    && Apart(tree)
  }

  ghost function KidMaps(tree: Tree): map<Path, map<string, Channel>>
    reads tree.Values`children
  {
    map p | p in tree :: tree[p].children
  }

  lemma ShapedAsOver(tree: Tree)
    ensures Shaped(tree) <==> ShapedOver(tree, KidMaps(tree))
  {
    var kids := KidMaps(tree);
    assert forall p :: p in tree ==> kids[p] == tree[p].children;
  }

  /** A new child of `c` keeps the tree in shape. */
  lemma ShapedGrows(tree: Tree, kids: map<Path, map<string, Channel>>, c: Path, n: string, sub: Channel)
    requires ShapedOver(tree, kids) && c in tree && c + [n] !in tree
    requires sub.path == c + [n] && sub.parent == tree[c]
    requires forall p :: p in tree ==>
               && sub.queue != tree[p].queue && sub.queue.queue != tree[p].queue.queue
                   && sub.queue.etaQueue != tree[p].queue.etaQueue
               && sub.queue.queue != tree[p].queue.etaQueue && sub.queue.etaQueue != tree[p].queue.queue
    ensures ShapedOver(tree[c + [n] := sub], kids[c := kids[c][n := sub]][c + [n] := map[]])
  {
    hide Rooted, Apart, ParentsAgree, ChildrenAgree;
    RootedGrows(tree.Keys, c, n);
    assert tree[c + [n] := sub].Keys == tree.Keys + {c + [n]};
    ParentsGrow(tree, kids, c, n, sub);
    ChildrenGrow(tree, kids, c, n, sub);
    ApartGrows(tree, c + [n], sub);
  }

  lemma ApartGrows(tree: Tree, k: Path, sub: Channel)
    requires Apart(tree)
    requires forall p :: p in tree ==>
               && sub.queue != tree[p].queue && sub.queue.queue != tree[p].queue.queue
                   && sub.queue.etaQueue != tree[p].queue.etaQueue
               && sub.queue.queue != tree[p].queue.etaQueue && sub.queue.etaQueue != tree[p].queue.queue
    ensures Apart(tree[k := sub])
  {
  }

  lemma NewPath(c: Path, n: string)
    ensures Parent(c + [n]) == c && (c + [n])[|c + [n]| - 1] == n
  {
  }

  lemma RootedGrows(keys: set<Path>, c: Path, n: string)
    requires Rooted(keys) && c in keys
    ensures Rooted(keys + {c + [n]}) && c + [n] != ROOT
  {
    NewPath(c, n);
  }

  lemma ParentsGrow(tree: Tree, kids: map<Path, map<string, Channel>>, c: Path, n: string, sub: Channel)
    requires ShapedOver(tree, kids) && c in tree && c + [n] !in tree && sub.parent == tree[c]
    requires Rooted(tree[c + [n] := sub].Keys)
    ensures ParentsAgree(tree[c + [n] := sub], kids[c := kids[c][n := sub]][c + [n] := map[]])
  {
    var tree', kids' := tree[c + [n] := sub], kids[c := kids[c][n := sub]][c + [n] := map[]];
    NewPath(c, n);
    forall p | p in tree' && p != ROOT
      ensures Parent(p) in tree' && tree'[p].parent == tree'[Parent(p)] && p[|p| - 1] in kids'[Parent(p)]
    {
      if p != c + [n] {
        assert Parent(p) in tree && Parent(p) != c + [n];
      }
    }
  }

  lemma ChildrenGrow(tree: Tree, kids: map<Path, map<string, Channel>>, c: Path, n: string, sub: Channel)
    requires ShapedOver(tree, kids) && c in tree && c + [n] !in tree
    ensures ChildrenAgree(tree[c + [n] := sub], kids[c := kids[c][n := sub]][c + [n] := map[]])
  {
    var tree', kids' := tree[c + [n] := sub], kids[c := kids[c][n := sub]][c + [n] := map[]];
    forall p, m | p in tree' && m in kids'[p] ensures p + [m] in tree' && kids'[p][m] == tree'[p + [m]] {
      if p != c || m != n {
        assert m in kids[p] && p + [m] in tree;
      }
    }
  }

  ghost predicate Apart(tree: Tree) {
    forall p, q :: p in tree && q in tree && p != q ==>
      && tree[p].queue.queue != tree[q].queue.queue && tree[p].queue.etaQueue != tree[q].queue.etaQueue
      && tree[p].queue.queue != tree[q].queue.etaQueue && tree[p].queue != tree[q].queue
  }

  ghost predicate AllValid(tree: Tree)
    reads *
  {
    forall p :: p in tree ==> tree[p].Valid()
  }

  /** The state of the whole tree. */
  ghost function Snap(tree: Tree): Nodes
    reads *
  {
    map p | p in tree :: tree[p].View()
  }

  /** The channels from `c` up to the root, and their priority queues. */
  ghost function Up(tree: Tree, c: Path): set<Channel> {
    set p | p in tree && p <= c :: tree[p]
  }

  ghost function UpQueues(tree: Tree, c: Path): set<PriorityQueue> {
    (set p | p in tree && p <= c :: tree[p].queue.queue) + (set p | p in tree && p <= c :: tree[p].queue.etaQueue)
  }

  ghost function Configured(n: Node, capacity: int, sequential: bool, throttle: nat): Node {
    n.(capacity := capacity, sequential := sequential, throttle := throttle)
  }

  function EtaTimes(n: Node): set<nat> {
    set j | j in n.queue.waiting :: n.queue.waiting[j]
  }

  lemma LeastEta(n: Node, wakeup: nat, w: nat)
    requires forall j :: j in n.queue.waiting ==> n.queue.waiting[j] != 0
    requires n.queue.waiting.Keys == {} ==> w == wakeup
    requires n.queue.waiting.Keys != {} ==>
               && (w == wakeup != 0 || exists j :: j in n.queue.waiting && w == n.queue.waiting[j])
               && (wakeup != 0 ==> w <= wakeup)
               && forall j :: j in n.queue.waiting ==> w <= n.queue.waiting[j]
    ensures IsWakeup(w, EtaTimes(n) + Passed(wakeup))
  {
    if n.queue.waiting.Keys == {} {
      assert EtaTimes(n) == {};
    } else {
      var j :| j in n.queue.waiting;
      assert n.queue.waiting[j] in EtaTimes(n);
    }
  }

  lemma NoCandidates(nodes: Nodes, c: Path, w: nat)
    requires c in nodes && !ChannelSteps.HasCapacity(nodes[c])
    ensures IsWakeup(w, Candidates(nodes, c) + Passed(w))
  {
  }

  lemma PauseIsCandidate(nodes: Nodes, c: Path, wakeup: nat, w: nat)
    requires c in nodes && ChannelSteps.HasCapacity(nodes[c]) && nodes[c].pause != 0
    requires w == if wakeup == 0 || nodes[c].pause < wakeup then nodes[c].pause else wakeup
    ensures IsWakeup(w, Candidates(nodes, c) + Passed(wakeup))
  {
    assert Candidates(nodes, c) == {nodes[c].pause};
  }

  lemma NoKids(nodes: Nodes, c: Path)
    requires c in nodes
    ensures CandidatesOf(nodes, c, {}) == {}
    ensures forall times: set<nat> :: times + CandidatesOf(nodes, c, {}) == times
  {
  }

  lemma EtasPositive(tree: Tree)
    requires Shaped(tree) && AllValid(tree)
    ensures EtasArePositive(Snap(tree))
  {
    forall p, j | p in tree && j in Snap(tree)[p].queue.waiting ensures Snap(tree)[p].queue.waiting[j] != 0 {
      tree[p].QueueFacts();
    }
  }

  lemma AllKidPaths(tree: Tree, c: Path)
    requires Shaped(tree) && c in tree
    ensures forall n :: n in tree[c].children ==> c + [n] in Kids(tree.Keys, c)
    ensures forall q :: q in Kids(tree.Keys, c) ==> q == c + [q[|c|]] && q[|c|] in tree[c].children
  {
    hide Shaped;
    AllKids(tree, c);
    forall n | n in tree[c].children ensures c + [n] in Kids(tree.Keys, c) {
      KidOfName(tree.Keys, c, n);
    }
    forall q | q in Kids(tree.Keys, c) ensures q == c + [q[|c|]] && q[|c|] in tree[c].children {
      NameOfKid(tree.Keys, c, q);
    }
  }

  lemma KidOfName(keys: set<Path>, c: Path, n: string)
    requires n in KidNames(keys, c)
    ensures c + [n] in Kids(keys, c)
  {
    var q :| q in Kids(keys, c) && n == q[|c|];
    assert q == c + [n];
  }

  lemma NameOfKid(keys: set<Path>, c: Path, q: Path)
    requires q in Kids(keys, c)
    ensures q == c + [q[|c|]] && q[|c|] in KidNames(keys, c)
  {
  }

  lemma KidPassed(nodes: Nodes, c: Path, wakeup: nat, w0: nat, done: set<Path>, k: Path, w: nat)
    requires EtasArePositive(nodes) && c in nodes && done <= Kids(nodes.Keys, c) && k in Kids(nodes.Keys, c)
    requires IsWakeup(w0, EtaTimes(nodes[c]) + CandidatesOf(nodes, c, done) + Passed(wakeup))
    requires IsWakeup(w, Candidates(nodes, k) + Passed(w0))
    ensures IsWakeup(w, EtaTimes(nodes[c]) + CandidatesOf(nodes, c, done + {k}) + Passed(wakeup))
  {
    hide IsWakeup;
    CandidatesArePositive(nodes, k);
    SomePositive(nodes, c, done);
    var times := EtaTimes(nodes[c]) + CandidatesOf(nodes, c, done) + Passed(wakeup);
    PassedAlong(w0, times, w, Candidates(nodes, k));
    OneMoreKid(nodes, c, done, k);
    assert times + Candidates(nodes, k) == EtaTimes(nodes[c]) + CandidatesOf(nodes, c, done + {k}) + Passed(wakeup);
  }

  lemma SomePositive(nodes: Nodes, c: Path, done: set<Path>)
    requires EtasArePositive(nodes) && c in nodes && done <= Kids(nodes.Keys, c)
    ensures 0 !in EtaTimes(nodes[c]) && 0 !in CandidatesOf(nodes, c, done)
  {
    forall k | k in done ensures 0 !in CandidatesBelow(nodes, c, k) {
      assert c !in Under(nodes.Keys, k) && c in Under(nodes.Keys, c);
      CandidatesArePositive(nodes, k);
    }
  }

  lemma KidsDone(nodes: Nodes, c: Path, done: set<Path>, wakeup: nat, w: nat)
    requires c in nodes && ChannelSteps.HasCapacity(nodes[c]) && nodes[c].pause == 0 && done == Kids(nodes.Keys, c)
    requires IsWakeup(w, EtaTimes(nodes[c]) + CandidatesOf(nodes, c, done) + Passed(wakeup))
    ensures IsWakeup(w, Candidates(nodes, c) + Passed(wakeup))
  {
    assert Candidates(nodes, c) == EtaTimes(nodes[c]) + CandidatesOf(nodes, c, done);
  }

  /** The channels below `c`, their priority queues, and the jobs that wait in them. */
  ghost function Down(tree: Tree, c: Path): set<Channel> {
    set p | p in tree && c <= p :: tree[p]
  }

  ghost function DownQueues(tree: Tree, c: Path): set<PriorityQueue> {
    (set p | p in tree && c <= p :: tree[p].queue.queue) + (set p | p in tree && c <= p :: tree[p].queue.etaQueue)
  }

  ghost function WaitingIn(nodes: Nodes, c: Path): set<ChannelJob> {
    set p, j | p in nodes && c <= p && j in nodes[p].queue.waiting :: j
  }

  /** The jobs that have stopped waiting in some channel below `c`. */
  ghost function Lost(nodes: Nodes, nodes': Nodes, c: Path): set<ChannelJob> {
    set p, j | p in nodes && p in nodes' && c <= p && j in nodes[p].queue.waiting && j !in nodes'[p].queue.waiting :: j
  }

  lemma RanHasTop(nodes: Nodes, top: Path, now: nat, nodes': Nodes, flow: Flow)
    requires Ran(nodes, top, now, nodes', flow) && top in nodes
    ensures top in flow && nodes'.Keys == nodes.Keys
  {
  }

  lemma LostSplits(before: Nodes, mid: Nodes, end: Nodes, c: Path)
    requires mid.Keys == before.Keys == end.Keys
    ensures Lost(before, end, c) <= Lost(before, mid, c) + Lost(mid, end, c)
  {
  }

  lemma LostInChild(mid: Nodes, now: nat, fed: Nodes, below: Flow, c: Path, n: string, end: Node)
    requires c in mid && Ran(mid, c + [n], now, fed, below)
    requires end.queue.waiting == fed[c].queue.waiting
    ensures Lost(mid, fed[c := end], c) <= Lost(mid, fed, c + [n])
  {
  }

  lemma LostHere(mid: Nodes, c: Path, end: Node)
    requires c in mid
    ensures Lost(mid, mid[c := end], c) <= set j | j in mid[c].queue.waiting && j !in end.queue.waiting
  {
  }

  lemma AllKids(tree: Tree, c: Path)
    requires Shaped(tree) && c in tree
    ensures tree[c].children.Keys == KidNames(tree.Keys, c)
  {
    forall k | k in KidNames(tree.Keys, c) ensures k in tree[c].children {
      var q :| q in Kids(tree.Keys, c) && k == q[|c|];
      assert Parent(q) == c;
    }
    forall k | k in tree[c].children ensures k in KidNames(tree.Keys, c) {
      assert c + [k] in Kids(tree.Keys, c);
    }
  }

  lemma SnapKeys(tree: Tree)
    requires Shaped(tree)
    ensures Rooted(tree.Keys) && Snap(tree).Keys == tree.Keys
  {
    hide Channel.View;
  }

  lemma ViewFacts(tree: Tree)
    requires Shaped(tree) && AllValid(tree)
    ensures Rooted(tree.Keys) && Apart(tree) && Snap(tree).Keys == tree.Keys
    ensures forall p :: p in tree ==> tree[p].path == p && tree[p].Valid() && Snap(tree)[p] == tree[p].View()
  {
    hide Channel.Valid, Channel.View;
  }

  lemma DownFacts(tree: Tree, c: Path)
    requires Shaped(tree) && AllValid(tree) && c in tree
    ensures Rooted(tree.Keys) && Apart(tree) && Snap(tree).Keys == tree.Keys
    ensures forall p :: p in tree ==> tree[p].path == p && tree[p].Valid() && Snap(tree)[p] == tree[p].View()
    ensures tree[c] in Down(tree, c) && tree[c].queue.queue in DownQueues(tree, c)
        && tree[c].queue.etaQueue in DownQueues(tree, c)
    ensures tree[c].queue.etaQueue.Live() <= WaitingIn(Snap(tree), c)
    ensures forall j :: j in WaitingIn(Snap(tree), c) ==> j.eta != 0
    ensures forall p, j :: p in tree && p != c && j in tree[c].queue.etaQueue.Live() ==>
              j !in tree[p].queue.queue.known && j !in tree[p].queue.etaQueue.known
  {
    forall j | j in WaitingIn(Snap(tree), c) ensures j.eta != 0 {
      var p :| p in tree && j in tree[p].View().queue.waiting;
      tree[p].QueueFacts();
    }
    tree[c].QueueFacts();
    forall p, j | p in tree && p != c && j in tree[c].queue.etaQueue.Live()
      ensures j !in tree[p].queue.queue.known && j !in tree[p].queue.etaQueue.known
    {
      tree[p].KnownFacts();
    }
  }

  lemma ChildFacts(tree: Tree, c: Path, n: string)
    requires Shaped(tree) && c in tree && n in tree[c].children
    ensures c + [n] in tree && tree[c].children[n] == tree[c + [n]] && tree[c + [n]].path == c + [n]
    ensures Down(tree, c + [n]) <= Down(tree, c) && DownQueues(tree, c + [n]) <= DownQueues(tree, c)
    ensures Under(tree.Keys, c + [n]) < Under(tree.Keys, c)
    ensures forall nodes: Nodes :: WaitingIn(nodes, c + [n]) <= WaitingIn(nodes, c)
  {
    assert c in Under(tree.Keys, c) && c !in Under(tree.Keys, c + [n]);
  }

  // ---------------------------------------------------------------- draining the children

  ghost function ArrivedFrom(flow: Flow, c: Path, done: set<string>): set<ChannelJob> {
    set n, j | n in done && c + [n] in flow && j in flow[c + [n]] :: j
  }

  /** The children of `c` named in `done` have been drained into `c`. */
  ghost predicate Fed(before: Nodes, c: Path, done: set<string>, now: nat, mid: Nodes, flow: Flow) {
    && mid.Keys == before.Keys && c in before
    && (forall q :: q in flow <==> q in before && |q| > |c| && c <= q && q[|c|] in done)
    && (forall q :: q in flow ==> Round(before[q], Arrivals(flow, q), now, mid[q], flow[q]))
    && (forall q :: q in before && q !in flow && q != c ==> mid[q] == before[q])
    && mid[c] == before[c].(queue := before[c].queue.(ready := before[c].queue.ready + ArrivedFrom(flow, c, done)))
  }

  lemma FedStarts(before: Nodes, c: Path, now: nat)
    requires c in before
    ensures Fed(before, c, {}, now, before, map[])
  {
    assert ArrivedFrom(map[], c, {}) == {};
    assert before[c].queue.ready + {} == before[c].queue.ready;
  }

  lemma {:induction false} TakeAllWaiting(n: Node, now: nat, out: seq<ChannelJob>)
    ensures TakeAll(n, now, out).queue.waiting.Keys <= n.queue.waiting.Keys
  {
    if out == [] {
    } else {
      TakeAllWaiting(n, now, out[..|out| - 1]);
    }
  }

  lemma NothingLost(nodes: Nodes, c: Path)
    ensures Lost(nodes, nodes, c) == {}
  {
  }

  lemma RoundWaiting(n: Node, arrived: set<ChannelJob>, now: nat, n': Node, out: seq<ChannelJob>)
    requires Round(n, arrived, now, n', out)
    ensures n'.queue.waiting.Keys <= n.queue.waiting.Keys
  {
    var full := n.(queue := n.queue.(ready := n.queue.ready + arrived));
    TakeAllWaiting(Unpaused(full), now, out);
  }

  /** No job starts to wait while the children are drained. */
  lemma FedWaiting(before: Nodes, c: Path, done: set<string>, now: nat, mid: Nodes, flow: Flow)
    requires Fed(before, c, done, now, mid, flow)
    ensures WaitingIn(mid, c) <= WaitingIn(before, c)
  {
    hide Round;
    forall q | q in before ensures mid[q].queue.waiting.Keys <= before[q].queue.waiting.Keys {
      if q in flow {
        RoundWaiting(before[q], Arrivals(flow, q), now, mid[q], flow[q]);
      }
    }
  }

  /** What arrives in a channel depends on what the channels below it yield, and on nothing else. */
  lemma ArrivalsLocal(flow: Flow, flow2: Flow, q: Path)
    requires forall k :: q <= k && k != q ==> (k in flow <==> k in flow2) && (k in flow ==> flow[k] == flow2[k])
    ensures Arrivals(flow, q) == Arrivals(flow2, q)
  {
    assert forall k :: k in Kids(flow.Keys, q) <==> k in Kids(flow2.Keys, q);
    assert forall k :: k in Kids(flow.Keys, q) ==> q <= k && k != q;
  }

  /** The subtree below `c` through its child `n`. */
  predicate Through(c: Path, n: string, q: Path) {
    c <= q && |q| > |c| && q[|c|] == n
  }

  lemma ThroughIsBelow(c: Path, n: string, q: Path)
    ensures Through(c, n, q) <==> c + [n] <= q
  {
  }

  /** The jobs `got` joined the queue of `c`. */
  ghost predicate ReceivedAt(nodes: Nodes, c: Path, got: seq<ChannelJob>, nodes': Nodes) {
    && c in nodes && c in nodes'
    && nodes'[c] == nodes[c].(queue := nodes[c].queue.(ready := nodes[c].queue.ready + AsSet(got)))
    && nodes' == nodes[c := nodes'[c]]
  }

  /** The channel `c` went through its own part of a round. */
  ghost predicate YieldedAt(nodes: Nodes, c: Path, now: nat, jobs: seq<ChannelJob>, nodes': Nodes) {
    && c in nodes && c in nodes'
    && Round(nodes[c], {}, now, nodes'[c], jobs)
    && nodes' == nodes[c := nodes'[c]]
  }

  lemma YieldedFrom(nodes: Nodes, c: Path, now: nat, jobs: seq<ChannelJob>, end: Node)
    requires c in nodes && Round(nodes[c], {}, now, end, jobs)
    ensures YieldedAt(nodes, c, now, jobs, nodes[c := end])
  {
    hide Round;
  }

  /** The child `n` of `c` was drained and what it yielded joined the queue of `c`. */
  ghost predicate ChildDrained(mid: Nodes, now: nat, c: Path, n: string, fed: Nodes, below: Flow, end: Nodes) {
    && c in mid && c + [n] in mid && Ran(mid, c + [n], now, fed, below)
    && c in fed && c + [n] in below
    && end == fed[c := fed[c].(queue := fed[c].queue.(ready := fed[c].queue.ready + AsSet(below[c + [n]])))]
  }

  lemma FedStep(before: Nodes, c: Path, done: set<string>, now: nat, mid: Nodes, flow: Flow, n: string, fed: Nodes,
      below: Flow, end: Nodes)
    requires Fed(before, c, done, now, mid, flow) && n !in done
    requires ChildDrained(mid, now, c, n, fed, below, end)
    ensures Fed(before, c, done + {n}, now, end, flow + below)
  {
    FedStepRounds(before, c, done, now, mid, flow, n, fed, below, end);
    FedStepOthers(before, c, done, now, mid, flow, n, fed, below, end);
    FedStepEnd(before, c, done, now, mid, flow, n, fed, below, end);
    FedStepDomain(before, c, done, flow, n, below);
    hide Round, Ran, ChildDrained, Arrivals, ArrivedFrom, Through;
  }

  lemma FedStepDomain(before: Nodes, c: Path, done: set<string>, flow: Flow, n: string, below: Flow)
    requires forall q :: q in flow <==> q in before && |q| > |c| && c <= q && q[|c|] in done
    requires forall q :: q in below <==> q in before && Through(c, n, q)
    ensures forall q :: q in flow + below <==> q in before && |q| > |c| && c <= q && q[|c|] in done + {n}
  {
  }

  lemma FedStepOthers(before: Nodes, c: Path, done: set<string>, now: nat, mid: Nodes, flow: Flow, n: string,
      fed: Nodes, below: Flow, end: Nodes)
    requires Fed(before, c, done, now, mid, flow) && n !in done
    requires ChildDrained(mid, now, c, n, fed, below, end)
    ensures end.Keys == before.Keys
    ensures forall q :: q in before && q !in flow + below && q != c ==> q in end && end[q] == before[q]
  {
    hide Round, Arrivals, ArrivedFrom;
  }

  lemma FedStepEnd(before: Nodes, c: Path, done: set<string>, now: nat, mid: Nodes, flow: Flow, n: string, fed: Nodes,
      below: Flow, end: Nodes)
    requires Fed(before, c, done, now, mid, flow) && n !in done
    requires ChildDrained(mid, now, c, n, fed, below, end)
    ensures forall q :: q in below <==> q in before && Through(c, n, q)
    ensures var ready := before[c].queue.ready + ArrivedFrom(flow + below, c, done + {n});
            c in end && end[c] == before[c].(queue := before[c].queue.(ready := ready))
  {
    hide Round;
    BelowIsThrough(before, c, done, now, mid, flow, n, fed, below);
    ArrivedFromMore(flow, below, c, done, n);
    assert fed[c] == mid[c];
    assert before[c].queue.ready + ArrivedFrom(flow + below, c, done + {n}) ==
           fed[c].queue.ready + AsSet(below[c + [n]]);
  }

  lemma FedStepRounds(before: Nodes, c: Path, done: set<string>, now: nat, mid: Nodes, flow: Flow, n: string,
      fed: Nodes, below: Flow, end: Nodes)
    requires Fed(before, c, done, now, mid, flow) && n !in done
    requires ChildDrained(mid, now, c, n, fed, below, end)
    ensures forall q :: q in flow + below ==>
        q in before && q in end && Round(before[q], Arrivals(flow + below, q), now, end[q], (flow + below)[q])
  {
    hide Round;
    BelowIsThrough(before, c, done, now, mid, flow, n, fed, below);
    forall q | q in flow + below
      ensures q in before && q in end && Round(before[q], Arrivals(flow + below, q), now, end[q], (flow + below)[q])
    {
      if q in below {
        ArrivalsBelow(flow, below, q);
      } else {
        ArrivalsBeside(flow, below, q);
      }
    }
  }

  /** Into a channel below the child nothing arrives from elsewhere, */
  lemma ArrivalsBelow(flow: Flow, below: Flow, q: Path)
    requires forall k :: q <= k ==> k !in flow
    ensures Arrivals(flow + below, q) == Arrivals(below, q)
  {
    ArrivalsLocal(flow + below, below, q);
  }

  /** nor does anything from there arrive elsewhere. */
  lemma ArrivalsBeside(flow: Flow, below: Flow, q: Path)
    requires forall k :: q <= k ==> k !in below
    ensures Arrivals(flow + below, q) == Arrivals(flow, q)
  {
    ArrivalsLocal(flow + below, flow, q);
  }

  /** The subtree below the child `n` is apart from those below the other children. */
  lemma BelowIsThrough(before: Nodes, c: Path, done: set<string>, now: nat, mid: Nodes, flow: Flow, n: string,
      fed: Nodes, below: Flow)
    requires Fed(before, c, done, now, mid, flow) && n !in done
    requires Ran(mid, c + [n], now, fed, below)
    ensures forall q :: q in below <==> q in before && Through(c, n, q)
    ensures flow.Keys !! below.Keys
    ensures forall q, r :: q in flow && q <= r ==> r !in below
    ensures forall q, r :: q in below && q <= r ==> r !in flow
  {
    hide Round;
    forall q ensures Through(c, n, q) <==> c + [n] <= q {
      ThroughIsBelow(c, n, q);
    }
  }

  lemma ArrivedFromMore(flow: Flow, below: Flow, c: Path, done: set<string>, n: string)
    requires c + [n] in below && forall m :: m in done ==> c + [m] !in below
    ensures ArrivedFrom(flow + below, c, done + {n}) == ArrivedFrom(flow, c, done) + AsSet(below[c + [n]])
  {
    var all := ArrivedFrom(flow + below, c, done + {n});
    forall j | j in all ensures j in ArrivedFrom(flow, c, done) + AsSet(below[c + [n]]) {
      var m :| m in done + {n} && c + [m] in flow + below && j in (flow + below)[c + [m]];
    }
  }

  lemma RoundOfFull(n: Node, arrived: set<ChannelJob>, now: nat, n': Node, out: seq<ChannelJob>)
    requires Round(n.(queue := n.queue.(ready := n.queue.ready + arrived)), {}, now, n', out)
    ensures Round(n, arrived, now, n', out)
  {
    hide Drained;
    assert n.queue.ready + arrived + {} == n.queue.ready + arrived;
  }

  lemma FedEnds(before: Nodes, c: Path, now: nat, mid: Nodes, flow: Flow, end: Node, jobs: seq<ChannelJob>)
    requires Fed(before, c, KidNames(before.Keys, c), now, mid, flow) && Rooted(before.Keys)
    requires Round(mid[c], {}, now, end, jobs)
    ensures Ran(before, c, now, mid[c := end], flow[c := jobs])
  {
    hide Round, Arrivals, ArrivedFrom;
    var names, flow2 := KidNames(before.Keys, c), flow[c := jobs];
    ArrivedFromAll(before, c, flow, jobs);
    RoundOfFull(before[c], Arrivals(flow2, c), now, end, jobs);
    forall q | q in flow ensures Arrivals(flow2, q) == Arrivals(flow, q) {
      ArrivalsLocal(flow2, flow, q);
    }
    forall q | q in Under(before.Keys, c) ensures q in flow2 {
      if q != c {
        KidOnTheWay(before.Keys, c, q);
      }
    }
  }

  lemma KidOnTheWay(keys: set<Path>, c: Path, q: Path)
    requires Rooted(keys) && q in keys && c in keys && c <= q && q != c
    ensures q[|c|] in KidNames(keys, c)
    decreases |q|
  {
    if |q| == |c| + 1 {
      assert q in Kids(keys, c);
    } else {
      KidOnTheWay(keys, c, Parent(q));
    }
  }

  lemma ArrivedFromAll(before: Nodes, c: Path, flow: Flow, jobs: seq<ChannelJob>)
    requires c in before && forall q :: q in flow <==>
        q in before && |q| > |c| && c <= q && q[|c|] in KidNames(before.Keys, c)
    ensures ArrivedFrom(flow, c, KidNames(before.Keys, c)) == Arrivals(flow[c := jobs], c)
  {
    var flow2 := flow[c := jobs];
    forall j | j in ArrivedFrom(flow, c, KidNames(before.Keys, c)) ensures j in Arrivals(flow2, c) {
      var n :| n in KidNames(before.Keys, c) && c + [n] in flow && j in flow[c + [n]];
      assert c + [n] in Kids(flow2.Keys, c);
    }
    forall j | j in Arrivals(flow2, c) ensures j in ArrivedFrom(flow, c, KidNames(before.Keys, c)) {
      var k :| k in flow2 && k in Kids(flow2.Keys, c) && j in flow2[k];
      assert k == c + [k[|c|]];
    }
  }

  ghost function KidNames(keys: set<Path>, c: Path): set<string> {
    set q | q in Kids(keys, c) :: q[|c|]
  }

  ghost function QueuedNode(n: Node, j: ChannelJob, eta: nat): Node {
    n.(queue := Add(n.queue, j, eta), running := n.running - {j}, failed := n.failed - {j})
  }

  ghost function FailedNode(n: Node, j: ChannelJob): Node {
    Without(n, j).(failed := n.failed + {j})
  }

  lemma SetPendingUp(nodes: Nodes, c: Path, j: ChannelJob, eta: nat, n': Node)
    requires Rooted(nodes.Keys) && c in nodes
    requires n' == if j in Jobs(nodes[c].queue) then nodes[c] else QueuedNode(nodes[c], j, eta)
    ensures j in Jobs(nodes[c].queue) ==> nodes[c := n'] == ChannelTree.SetPending(nodes, c, j, eta)
    ensures j !in Jobs(nodes[c].queue) && c != ROOT ==>
        Strip(nodes[c := n'], Parent(c), j) == ChannelTree.SetPending(nodes, c, j, eta)
    ensures j !in Jobs(nodes[c].queue) && c == ROOT ==> nodes[c := n'] == ChannelTree.SetPending(nodes, c, j, eta)
  {
    PrefixesOf(nodes.Keys, c);
  }

  lemma SetFailedUp(nodes: Nodes, c: Path, j: ChannelJob, n': Node)
    requires Rooted(nodes.Keys) && c in nodes
    requires n' == if j in nodes[c].failed then nodes[c] else FailedNode(nodes[c], j)
    ensures j in nodes[c].failed ==> nodes[c := n'] == ChannelTree.SetFailed(nodes, c, j)
    ensures j !in nodes[c].failed && c != ROOT ==>
        Strip(nodes[c := n'], Parent(c), j) == ChannelTree.SetFailed(nodes, c, j)
    ensures j !in nodes[c].failed && c == ROOT ==> nodes[c := n'] == ChannelTree.SetFailed(nodes, c, j)
  {
    PrefixesOf(nodes.Keys, c);
  }

  lemma SetRunningUp(nodes: Nodes, c: Path, j: ChannelJob, n': Node)
    requires Rooted(nodes.Keys) && c in nodes
    requires n' == if j in nodes[c].running then nodes[c] else Marked(nodes[c], j)
    ensures nodes[c := n'].Keys == nodes.Keys
    ensures j in nodes[c].running ==> nodes[c := n'] == ChannelTree.SetRunning(nodes, c, j)
    ensures j !in nodes[c].running && c == ROOT ==> nodes[c := n'] == ChannelTree.SetRunning(nodes, c, j)
    ensures j !in nodes[c].running && c != ROOT ==>
        && Parent(c) in nodes
        && ChannelTree.SetRunning(nodes[c := n'], Parent(c), j) == ChannelTree.SetRunning(nodes, c, j)
  {
    assert nodes[c := n'].Keys == nodes.Keys;
  }

  /** The channels up to `c` are `c` and those up to its parent. */
  lemma PrefixesOf(keys: set<Path>, c: Path)
    requires Rooted(keys) && c in keys
    ensures forall p :: p in keys ==> (p <= c <==> p == c || (c != ROOT && p <= Parent(c)))
    ensures c != ROOT ==> !(c <= Parent(c))
  {
  }

  /** The tree is in order and its state differs only at `c`, given that this is so of each channel. */
  lemma TreeFromChannels(tree: Tree, c: Path, before: Nodes)
    requires c in tree && before.Keys == tree.Keys
    requires forall p :: p in tree ==> tree[p].Valid() && (p != c ==> tree[p].View() == before[p])
    ensures AllValid(tree) && Snap(tree) == before[c := tree[c].View()]
  {
    hide Channel.Valid, Channel.View;
  }

  /** What a channel can rely on in a tree. */
  lemma TreeFacts(tree: Tree, c: Path)
    requires Shaped(tree) && AllValid(tree) && c in tree
    ensures Rooted(tree.Keys) && Apart(tree) && Snap(tree).Keys == tree.Keys
    ensures forall p :: p in tree ==> tree[p].path == p
    ensures forall p :: p in tree ==> tree[p].Valid() && Snap(tree)[p] == tree[p].View()
    ensures tree[c].parent == null <==> c == ROOT
    ensures c != ROOT ==> Parent(c) in tree && tree[c].parent == tree[Parent(c)] && |Parent(c)| < |c|
    ensures Up(tree, Parent(c)) <= Up(tree, c) && UpQueues(tree, Parent(c)) <= UpQueues(tree, c)
    ensures tree[c] in Up(tree, c) && tree[c].queue.queue in UpQueues(tree, c)
        && tree[c].queue.etaQueue in UpQueues(tree, c)
  {
    hide Channel.Valid, Channel.View, Apart;
    assert c != ROOT ==> tree[c].parent == tree[Parent(c)];
  }

  lemma StripUp(nodes: Nodes, c: Path, j: ChannelJob)
    requires Rooted(nodes.Keys) && c in nodes
    ensures c != ROOT ==> Strip(nodes[c := Without(nodes[c], j)], Parent(c), j) == Strip(nodes, c, j)
    ensures c == ROOT ==> nodes[c := Without(nodes[c], j)] == Strip(nodes, c, j)
  {
    PrefixesOf(nodes.Keys, c);
  }

  /** A job that has stopped waiting is ready or was yielded. */
  lemma DrainedConserves(open: Node, now: nat, n: Node, jobs: seq<ChannelJob>)
    requires Drained(open, now, n, jobs) && open.queue.ready !! open.queue.waiting.Keys
    ensures forall j :: j in open.queue.waiting && j !in n.queue.waiting ==> j in n.queue.ready || j in jobs
  {
    TakeAllMoves(open, now, jobs);
    var end := TakeAll(open, now, jobs);
    assert Jobs(Due(end.queue, now)) == Jobs(end.queue);
    forall j | j in open.queue.waiting && j !in n.queue.waiting ensures j in n.queue.ready || j in jobs {
      assert j in Jobs(open.queue);
      assert j in AsSet(jobs) || j in Jobs(n.queue);
    }
  }

  /** The loop has yielded `jobs` and goes on. */
  ghost predicate Draining(open: Node, now: nat, n: Node, jobs: seq<ChannelJob>) {
    MayYield(open, now, jobs) && n == TakeAll(open, now, jobs) && (open.throttle != 0 ==> jobs == [])
  }

  lemma {:induction false} TakeAllSettings(open: Node, now: nat, jobs: seq<ChannelJob>)
    ensures var m := TakeAll(open, now, jobs);
            m.throttle == open.throttle && m.sequential == open.sequential && m.capacity == open.capacity
  {
    if jobs == [] {
    } else {
      TakeAllSettings(open, now, jobs[..|jobs| - 1]);
    }
  }

  lemma StartDraining(open: Node, now: nat)
    ensures Draining(open, now, open, [])
  {
  }

  lemma StopFull(open: Node, now: nat, n: Node, jobs: seq<ChannelJob>)
    requires Draining(open, now, n, jobs) && !ChannelSteps.HasCapacity(n)
    ensures Drained(open, now, n, jobs)
  {
  }

  lemma StopEmpty(open: Node, now: nat, n: Node, jobs: seq<ChannelJob>)
    requires Draining(open, now, n, jobs) && ChannelSteps.HasCapacity(n) && NothingToPop(n.queue, n.sequential, now)
    ensures Drained(open, now, n.(queue := Due(n.queue, now)), jobs)
  {
    TakeAllSettings(open, now, jobs);
  }

  lemma StopThrottled(open: Node, now: nat, n: Node, jobs: seq<ChannelJob>)
    requires MayYield(open, now, jobs) && n == TakeAll(open, now, jobs) && |jobs| == 1 && open.throttle != 0
    ensures Drained(open, now, n.(pause := now + open.throttle), jobs)
  {
  }

  lemma TakeAllAppend(open: Node, now: nat, n: Node, jobs: seq<ChannelJob>, j: ChannelJob)
    requires Draining(open, now, n, jobs) && n.queue.ready !! n.queue.waiting.Keys
    requires ChannelSteps.HasCapacity(n) && CanPop(n.queue, n.sequential, now, j)
    ensures MayYield(open, now, jobs + [j]) && TakeAll(open, now, jobs + [j]) == Take(n, now, j)
    ensures open.throttle != 0 ==> |jobs + [j]| == 1
    ensures |Jobs(Take(n, now, j).queue)| < |Jobs(n.queue)|
  {
    var more := jobs + [j];
    assert more[..|more| - 1] == jobs;
    TakeAllSettings(open, now, jobs);
    FewerJobs(n.queue, now, j);
  }

  lemma FewerJobs(q: Queue, now: nat, j: ChannelJob)
    requires j in Due(q, now).ready && q.ready !! q.waiting.Keys
    ensures |Jobs(AfterPop(q, now, j))| < |Jobs(q)|
  {
    PopYields(q, now, j);
  }

  // ---------------------------------------------------------------- the channel

  class Channel {
    const name: string
    const parent: Channel?
    const path: Path  // the full name; neither the name nor the parent ever change
    const queue: ChannelQueue
    var children: map<string, Channel>
    var running: set<ChannelJob>
    var failed: set<ChannelJob>
    var pauseUntil: nat
    var capacity: int  // 0 for None
    var throttle: nat

    /** The channel's own part of the state. */
    ghost function View(): Node
      reads this`running, this`failed, this`pauseUntil, this`capacity, this`throttle
      reads queue, queue.queue, queue.etaQueue, queue.etaQueue.known
    {
      Node(queue.View(), running, failed, pauseUntil, capacity, throttle, queue.sequential)
    }

    ghost predicate Valid()
      reads queue, queue.queue, queue.etaQueue, queue.queue.known, queue.etaQueue.known
    {
      && queue.Valid()
      && (forall j :: j in queue.etaQueue.known ==> j.home == path)
    }

    constructor (name: string, parent: Channel?, capacity: int)
      requires parent == null ==> name == "root"
      modifies (if parent == null then {} else {parent})`children
      ensures parent != null ==> parent.children == old(parent.children)[name := this]
      ensures this.name == name && this.parent == parent && this.capacity == capacity && this.throttle == 0
      ensures path == if parent == null then ROOT else parent.path + [name]
      ensures !queue.sequential && running == {} && failed == {} && pauseUntil == 0
      ensures Valid() && View() == EMPTY_NODE.(capacity := capacity) && children == map[]
      ensures queue.queue.known == {} && queue.etaQueue.known == {}
      ensures fresh(queue) && fresh(queue.queue) && fresh(queue.etaQueue)
    {
      this.name, this.parent, this.capacity, this.throttle := name, parent, capacity, 0;
      this.path := if parent == null then ROOT else parent.path + [name];
      this.children, this.running, this.failed, this.pauseUntil := map[], {}, {}, 0;
      this.queue := new ChannelQueue();
      new;
      if parent != null {
        parent.children := parent.children[name := this];
      }
    }

    // -------------------------------------------------------------- one channel by itself

    method Configure(capacity: int, sequential: bool, throttle: nat) returns (ok: bool)
      modifies this`capacity, this`throttle, queue`sequential
      ensures this.capacity == capacity && queue.sequential == sequential && this.throttle == throttle
      ensures View().capacity == capacity && View().sequential == sequential && View().throttle == throttle
      ensures View() == Configured(old(View()), capacity, sequential, throttle)
      ensures old(Valid()) ==> Valid()
      ensures ok <==> (sequential ==> capacity == 1)
    {
      this.capacity := capacity;
      queue.sequential := sequential;
      this.throttle := throttle;
      ok := !(sequential && capacity != 1);
    }

    method HasCapacity() returns (b: bool)
      ensures b <==> !(queue.sequential && failed != {}) && (capacity == 0 || |running| < capacity)
      ensures b <==> ChannelSteps.HasCapacity(View())
    {
      if queue.sequential && failed != {} {
        return false;
      }
      if capacity == 0 {
        return true;
      }
      b := |running| < capacity;
    }

    method DropHere(job: ChannelJob)
      requires Valid()
      modifies this`running, this`failed, queue.queue, queue.etaQueue
      ensures Valid() && View() == Without(old(View()), job)
      ensures queue.queue.known == old(queue.queue.known) && queue.etaQueue.known == old(queue.etaQueue.known)
    {
      queue.Remove(job);
      running := running - {job};
      failed := failed - {job};
    }

    /** The jobs that the children yielded join the queue. */
    method Receive(jobs: seq<ChannelJob>)
      requires Valid() && forall j :: j in jobs ==> j.eta == 0
      modifies queue.queue, queue.etaQueue
      ensures Valid()
      ensures View() == old(View()).(queue := old(View()).queue.(ready := old(View()).queue.ready + AsSet(jobs)))
      ensures queue.etaQueue.known <= old(queue.etaQueue.known)
    {
      for i := 0 to |jobs|
        invariant Valid() && queue.etaQueue.known <= old(queue.etaQueue.known)
        invariant View() ==
                  old(View()).(queue := old(View()).queue.(ready := old(View()).queue.ready + AsSet(jobs[..i])))
      {
        queue.Add(jobs[i]);
        assert jobs[..i + 1] == jobs[..i] + [jobs[i]];
        assert AsSet(jobs[..i + 1]) == AsSet(jobs[..i]) + {jobs[i]};
      }
      assert jobs[..|jobs|] == jobs;
    }

    /** One turn of the last loop of `get_jobs_to_run`. */
    method TakeOne(now: nat) returns (r: Option<ChannelJob>)
      requires Valid()
      modifies this`running, queue.queue, queue.etaQueue, queue.etaQueue.Live()
      ensures Valid()
      ensures r.None? ==>
                && NothingToPop(old(View()).queue, queue.sequential, now)
                && View() == old(View()).(queue := Due(old(View()).queue, now))
      ensures r.Some? ==>
                && CanPop(old(View()).queue, queue.sequential, now, r.value)
                && View() == Take(old(View()), now, r.value)
      ensures r.Some? ==> r.value.eta == 0
      ensures queue.etaQueue.known <= old(queue.etaQueue.known) && queue.etaQueue.Live() <= old(queue.etaQueue.Live())
    {
      r := queue.Pop(now);
      if r.Some? {
        running := running + {r.value};
      }
    }

    /** What `Valid` says of the jobs in the queue. */
    lemma QueueFacts()
      requires Valid()
      ensures View().queue.ready !! View().queue.waiting.Keys
      ensures View().queue.waiting.Keys == queue.etaQueue.Live()
      ensures forall j :: j in View().queue.ready ==> j.eta == 0
      ensures forall j :: j in queue.etaQueue.Live() ==>
          j.eta != 0 && j.home == path && View().queue.waiting[j] == j.eta
    {
    }

    lemma KnownFacts()
      requires Valid()
      ensures forall j :: j in queue.queue.known ==> j.eta == 0
      ensures forall j :: j in queue.etaQueue.known ==> j.eta != 0 && j.home == path
    {
    }

    /** The last loop of `get_jobs_to_run`. */
    method YieldWhileFree(now: nat) returns (jobs: seq<ChannelJob>)
      requires Valid()
      modifies this`running, this`pauseUntil, queue.queue, queue.etaQueue, queue.etaQueue.Live()
      ensures Valid()
      ensures Drained(old(View()), now, View(), jobs)
      ensures forall j :: j in jobs ==> j.eta == 0
      ensures queue.etaQueue.known <= old(queue.etaQueue.known) && queue.etaQueue.Live() <= old(queue.etaQueue.Live())
    {
      hide PriorityQueue.Valid, ChannelQueue.Valid, ChannelQueue.View, TakeAll, MayYield, Due, CanPop, NothingToPop,
          Drained, Jobs, Take, AfterPop, ChannelSteps.HasCapacity;
      jobs := [];
      ghost var open := View();
      ghost var n := open;
      StartDraining(open, now);
      while true
        invariant Valid() && queue.etaQueue.known <= old(queue.etaQueue.known)
        invariant n == View() && Draining(open, now, n, jobs)
        invariant queue.etaQueue.Live() <= old(queue.etaQueue.Live())
        invariant forall j :: j in jobs ==> j.eta == 0
        decreases |Jobs(n.queue)|
      {
        var free := HasCapacity();
        if !free {
          StopFull(open, now, n, jobs);
          return;
        }
        QueueFacts();
        var r := TakeOne(now);
        if r.None? {
          StopEmpty(open, now, n, jobs);
          return;
        }
        TakeAllAppend(open, now, n, jobs, r.value);
        jobs := jobs + [r.value];
        n := View();
        if throttle != 0 {
          StopThrottled(open, now, n, jobs);
          pauseUntil := now + throttle;
          return;
        }
      }
    }

    /** `get_jobs_to_run` after the children's jobs have arrived. */
    method YieldHere(now: nat) returns (jobs: seq<ChannelJob>)
      requires Valid()
      modifies this`running, this`pauseUntil, queue.queue, queue.etaQueue, queue.etaQueue.Live()
      ensures Valid()
      ensures Round(old(View()), {}, now, View(), jobs)
      ensures forall j :: j in jobs || (j in old(View()).queue.waiting && j !in View().queue.waiting) ==> j.eta == 0
      ensures queue.etaQueue.known <= old(queue.etaQueue.known) && queue.etaQueue.Live() <= old(queue.etaQueue.Live())
    {
      jobs := [];
      assert old(View()).(queue := old(View()).queue.(ready := old(View()).queue.ready + {})) == old(View());
      if throttle != 0 && pauseUntil != 0 {
        if now < pauseUntil {
          return;
        }
        pauseUntil := 0;
      }
      assert View() == Unpaused(old(View()));
      ghost var open := View();
      jobs := YieldWhileFree(now);
      DrainedConserves(open, now, View(), jobs);
    }

    // -------------------------------------------------------------- moving one job about the tree

    /** `remove`: the job leaves this channel and all its ancestors. */
    method Remove(job: ChannelJob, ghost tree: Tree)
      requires Shaped(tree) && AllValid(tree) && path in tree && tree[path] == this
      modifies Up(tree, path)`running, Up(tree, path)`failed, UpQueues(tree, path)
      ensures AllValid(tree) && Snap(tree) == Strip(old(Snap(tree)), path, job)
      decreases |path|
    {
      hide Channel.Valid, Channel.View, Shaped, Snap, AllValid, Up, UpQueues, Strip;
      ghost var before := Snap(tree);
      TreeFacts(tree, path);
      DropHere(job);
      forall p | p in tree && p != path ensures tree[p].Valid() && tree[p].View() == before[p] {
        assert old(tree[p].Valid());
      }
      TreeFromChannels(tree, path, before);
      StripUp(before, path, job);
      if parent != null {
        parent.Remove(job, tree);
      }
    }

    /** `set_done` */
    method SetDone(job: ChannelJob, ghost tree: Tree)
      requires Shaped(tree) && AllValid(tree) && path in tree && tree[path] == this
      modifies Up(tree, path)`running, Up(tree, path)`failed, UpQueues(tree, path)
      ensures AllValid(tree) && Snap(tree) == Strip(old(Snap(tree)), path, job)
    {
      Remove(job, tree);
    }

    /** `set_pending`: the job is queued here and leaves all ancestors. */
    method SetPending(job: ChannelJob, ghost tree: Tree)
      requires Shaped(tree) && AllValid(tree) && path in tree && tree[path] == this && job.home == path
      modifies Up(tree, path)`running, Up(tree, path)`failed, UpQueues(tree, path)
      ensures AllValid(tree)
      ensures Snap(tree) == ChannelTree.SetPending(old(Snap(tree)), path, job, job.eta)
    {
      hide Channel.Valid, Channel.View, Shaped, Snap, AllValid, Up, UpQueues, Strip, QueuedNode, Jobs,
          ChannelTree.SetPending;
      ghost var before := Snap(tree);
      TreeFacts(tree, path);
      var queued := QueueHere(job);
      forall p | p in tree && p != path ensures tree[p].Valid() && tree[p].View() == before[p] {
        assert old(tree[p].Valid());
      }
      TreeFromChannels(tree, path, before);
      SetPendingUp(before, path, job, job.eta, View());
      if !queued && parent != null {
        parent.Remove(job, tree);
      }
    }

    method QueueHere(job: ChannelJob) returns (queued: bool)
      requires Valid() && job.home == path
      modifies this`running, this`failed, queue.queue, queue.etaQueue
      ensures Valid() && (queued <==> job in Jobs(old(View()).queue))
      ensures View() == if queued then old(View()) else QueuedNode(old(View()), job, job.eta)
    {
      queued := queue.Contains(job);
      if !queued {
        queue.Add(job);
        running := running - {job};
        failed := failed - {job};
      }
    }

    /** `set_failed`: the job is failed here and leaves all ancestors. */
    method SetFailed(job: ChannelJob, ghost tree: Tree)
      requires Shaped(tree) && AllValid(tree) && path in tree && tree[path] == this
      modifies Up(tree, path)`running, Up(tree, path)`failed, UpQueues(tree, path)
      ensures AllValid(tree)
      ensures Snap(tree) == ChannelTree.SetFailed(old(Snap(tree)), path, job)
    {
      hide Channel.Valid, Channel.View, Shaped, Snap, AllValid, Up, UpQueues, Strip, FailedNode, ChannelTree.SetFailed;
      ghost var before := Snap(tree);
      TreeFacts(tree, path);
      var known := FailHere(job);
      forall p | p in tree && p != path ensures tree[p].Valid() && tree[p].View() == before[p] {
        assert old(tree[p].Valid());
      }
      TreeFromChannels(tree, path, before);
      SetFailedUp(before, path, job, View());
      if !known && parent != null {
        parent.Remove(job, tree);
      }
    }

    method FailHere(job: ChannelJob) returns (known: bool)
      requires Valid()
      modifies this`running, this`failed, queue.queue, queue.etaQueue
      ensures Valid() && (known <==> job in old(View()).failed)
      ensures View() == if known then old(View()) else FailedNode(old(View()), job)
    {
      known := job in failed;
      if !known {
        queue.Remove(job);
        running := running - {job};
        failed := failed + {job};
      }
    }

    /** `set_running`: the job is marked here and in the ancestors, until one where it runs. */
    method SetRunning(job: ChannelJob, ghost tree: Tree)
      requires Shaped(tree) && AllValid(tree) && path in tree && tree[path] == this
      modifies Up(tree, path)`running, Up(tree, path)`failed, UpQueues(tree, path)
      ensures AllValid(tree) && Rooted(tree.Keys)
      ensures Snap(tree) == ChannelTree.SetRunning(old(Snap(tree)), path, job)
      decreases |path|
    {
      hide Channel.Valid, Channel.View, Shaped, Snap, AllValid, Up, UpQueues, Marked, ChannelTree.SetRunning;
      ghost var before := Snap(tree);
      TreeFacts(tree, path);
      var known := MarkHere(job);
      forall p | p in tree && p != path ensures tree[p].Valid() && tree[p].View() == before[p] {
        assert old(tree[p].Valid());
      }
      TreeFromChannels(tree, path, before);
      SetRunningUp(before, path, job, View());
      if !known && parent != null {
        parent.SetRunning(job, tree);
      }
    }

    method MarkHere(job: ChannelJob) returns (known: bool)
      requires Valid()
      modifies this`running, this`failed, queue.queue, queue.etaQueue
      ensures Valid() && (known <==> job in old(View()).running)
      ensures View() == if known then old(View()) else Marked(old(View()), job)
    {
      known := job in running;
      if !known {
        queue.Remove(job);
        running := running + {job};
        failed := failed - {job};
        assert (running - {job}) + {job} == running;
        assert View().running == Marked(old(View()), job).running;
      }
    }

    // -------------------------------------------------------------- jobs to run

    /** `get_jobs_to_run`: drains the children, then yields what this channel may yield. `flow`
        records what every channel below yielded to its parent. */
    method GetJobsToRun(now: nat, ghost tree: Tree) returns (jobs: seq<ChannelJob>, ghost flow: Flow)
      requires Shaped(tree) && AllValid(tree) && path in tree && tree[path] == this
      modifies Down(tree, path)`running, Down(tree, path)`pauseUntil, DownQueues(tree, path),
          WaitingIn(Snap(tree), path)
      ensures AllValid(tree)
      ensures Ran(old(Snap(tree)), path, now, Snap(tree), flow) && flow[path] == jobs
      ensures forall j :: j in jobs ==> j.eta == 0
      ensures forall j :: j in Lost(old(Snap(tree)), Snap(tree), path) ==> j.eta == 0
      decreases Under(tree.Keys, path), 2
    {
      hide Channel.Valid, Channel.View, Shaped, Snap, AllValid, Down, DownQueues, WaitingIn, Ran, Fed, Round, Lost,
          KidNames, ChildDrained, Under, Rooted, ROOT;
      ghost var before := Snap(tree);
      SnapKeys(tree);
      ghost var lost;
      flow, lost := DrainChildren(now, tree, before);
      ghost var mid := Snap(tree);
      DownFacts(tree, path);
      FedWaiting(before, path, KidNames(before.Keys, path), now, mid, flow);
      ghost var more;
      jobs, more := YieldInTree(now, tree, mid, lost);
      SnapKeys(tree);
      LostSplits(before, mid, Snap(tree), path);
      FedEnds(before, path, now, mid, flow, Snap(tree)[path], jobs);
      flow := flow[path := jobs];
    }

    /** The first loop of `get_jobs_to_run`. */
    method DrainChildren(now: nat, ghost tree: Tree, ghost before: Nodes)
        returns (ghost flow: Flow, ghost lost: set<ChannelJob>)
      requires Shaped(tree) && AllValid(tree) && path in tree && tree[path] == this && before == Snap(tree)
      modifies Down(tree, path)`running, Down(tree, path)`pauseUntil, DownQueues(tree, path),
          WaitingIn(Snap(tree), path)
      ensures AllValid(tree)
      ensures Fed(before, path, KidNames(before.Keys, path), now, Snap(tree), flow)
      ensures Lost(before, Snap(tree), path) <= lost
      ensures forall j :: j in lost ==> j.eta == 0
      decreases Under(tree.Keys, path), 1
    {
      hide Channel.Valid, Channel.View, Shaped, Snap, AllValid, Down, DownQueues, WaitingIn, Ran, Fed, Round, Lost,
          KidNames, ChildDrained, Under, Rooted, ROOT;
      SnapKeys(tree);
      AllKids(tree, path);
      FedStarts(before, path, now);
      NothingLost(before, path);
      flow := map[];
      var names := children.Keys;
      ghost var kids := names;
      ghost var done: set<string> := {};
      lost := {};
      while names != {}
        invariant AllValid(tree) && names !! done && names + done == kids
        invariant Fed(before, path, done, now, Snap(tree), flow)
        invariant forall j :: j in lost ==> j.eta == 0
        invariant Lost(before, Snap(tree), path) <= lost
        invariant children.Keys == kids
      {
        var n :| n in names;
        assert n in children;
        names := names - {n};
        ghost var mid := Snap(tree);
        SnapKeys(tree);
        FedWaiting(before, path, done, now, mid, flow);
        ghost var fed, below, more := DrainChild(n, now, tree, mid, lost);
        SnapKeys(tree);
        FedStep(before, path, done, now, mid, flow, n, fed, below, Snap(tree));
        LostSplits(before, mid, Snap(tree), path);
        flow := flow + below;
        done := done + {n};
        lost := lost + more;
      }
      assert done == kids;
    }

    /** The child `n` is drained and its jobs join the queue. */
    method DrainChild(n: string, now: nat, ghost tree: Tree, ghost mid: Nodes, ghost kept: set<ChannelJob>)
        returns (ghost fed: Nodes, ghost below: Flow, ghost lost: set<ChannelJob>)
      requires Shaped(tree) && AllValid(tree) && path in tree && tree[path] == this && n in children
          && mid == Snap(tree)
      requires forall j :: j in kept ==> j.eta == 0
      modifies Down(tree, path)`running, Down(tree, path)`pauseUntil, DownQueues(tree, path),
          WaitingIn(Snap(tree), path)
      ensures AllValid(tree)
      ensures ChildDrained(mid, now, path, n, fed, below, Snap(tree))
      ensures Lost(mid, Snap(tree), path) <= lost
      ensures forall j :: j in kept ==> j.eta == 0
      ensures forall j :: j in lost ==> j.eta == 0
      decreases Under(tree.Keys, path), 0
    {
      hide Channel.Valid, Channel.View, Shaped, Snap, AllValid, Down, DownQueues, WaitingIn, Ran, Round, Lost;
      DownFacts(tree, path);
      ChildFacts(tree, path, n);
      var child := children[n];
      var got;
      assert kept !! WaitingIn(mid, path);
      got, below := child.GetJobsToRun(now, tree);
      fed := Snap(tree);
      RanHasTop(mid, path + [n], now, fed, below);
      lost :| lost == Lost(mid, fed, path + [n]);
      ReceiveInTree(got, tree, fed);
      LostInChild(mid, now, fed, below, path, n, Snap(tree)[path]);
    }

    /** The children's jobs join the queue, and the rest of the tree stays as it is. */
    method ReceiveInTree(got: seq<ChannelJob>, ghost tree: Tree, ghost mid: Nodes)
      requires Shaped(tree) && AllValid(tree) && path in tree && tree[path] == this && mid == Snap(tree)
      requires forall j :: j in got ==> j.eta == 0
      modifies queue.queue, queue.etaQueue
      ensures AllValid(tree)
      ensures ReceivedAt(mid, path, got, Snap(tree))
    {
      hide Channel.Valid, Channel.View, Shaped, Snap, AllValid;
      ViewFacts(tree);
      Receive(got);
      forall p | p in tree && p != path ensures tree[p].Valid() && tree[p].View() == mid[p] {
      }
      TreeFromChannels(tree, path, mid);
    }

    /** This channel yields what it may, and the rest of the tree stays as it is. */
    method YieldInTree(now: nat, ghost tree: Tree, ghost mid: Nodes, ghost kept: set<ChannelJob>)
        returns (jobs: seq<ChannelJob>, ghost lost: set<ChannelJob>)
      requires Shaped(tree) && AllValid(tree) && path in tree && tree[path] == this && mid == Snap(tree)
      requires forall j :: j in kept ==> j.eta == 0
      modifies this`running, this`pauseUntil, queue.queue, queue.etaQueue, queue.etaQueue.Live()
      ensures AllValid(tree)
      ensures YieldedAt(mid, path, now, jobs, Snap(tree))
      ensures forall j :: j in jobs ==> j.eta == 0
      ensures Lost(mid, Snap(tree), path) <= lost
      ensures forall j :: j in kept ==> j.eta == 0
      ensures forall j :: j in lost ==> j.eta == 0
    {
      hide Channel.Valid, Channel.View, Shaped, Snap, AllValid, WaitingIn, Round, Lost, Down, DownQueues, YieldedAt;
      DownFacts(tree, path);
      assert kept !! queue.etaQueue.Live();
      jobs := YieldHere(now);
      lost :| lost == set j | j in mid[path].queue.waiting && j !in View().queue.waiting;
      forall p | p in tree && p != path ensures tree[p].Valid() && tree[p].View() == mid[p] {
      }
      TreeFromChannels(tree, path, mid);
      LostHere(mid, path, View());
      YieldedFrom(mid, path, now, jobs, View());
    }

    /** `get_wakeup_time`: passes the least time along through the tree. */
    method GetWakeupTime(wakeup: nat, ghost tree: Tree) returns (w: nat)
      requires Shaped(tree) && AllValid(tree) && path in tree && tree[path] == this
      modifies DownQueues(tree, path)
      ensures AllValid(tree) && Snap(tree) == old(Snap(tree))
      ensures path in Snap(tree) && IsWakeup(w, Candidates(Snap(tree), path) + Passed(wakeup))
      decreases Under(tree.Keys, path)
    {
      hide Channel.Valid, Channel.View, Shaped, Snap, AllValid, DownQueues, IsWakeup, Candidates, CandidatesBelow,
          CandidatesOf, EtasArePositive, Kids, Rooted, ROOT, EtaTimes, Passed, ChannelSteps.HasCapacity;
      ghost var nodes := Snap(tree);
      DownFacts(tree, path);
      assert View().pause == pauseUntil by { PauseInView(); }
      var free := HasCapacity();
      if !free {
        w := wakeup;
        NoCandidates(nodes, path, w);
        return;
      }
      if pauseUntil != 0 {
        w := if wakeup == 0 || pauseUntil < wakeup then pauseUntil else wakeup;
        PauseIsCandidate(nodes, path, wakeup, w);
        return;
      }
      w := WakeupHere(wakeup);
      forall p | p in tree && p != path ensures tree[p].Valid() && tree[p].View() == nodes[p] {
      }
      TreeFromChannels(tree, path, nodes);
      assert Snap(tree) == nodes;
      var names := children.Keys;
      ghost var done: set<Path> := {};
      AllKidPaths(tree, path);
      EtasPositive(tree);
      NoKids(nodes, path);
      while names != {}
        invariant AllValid(tree) && Snap(tree) == nodes && names <= children.Keys
        invariant done <= Kids(tree.Keys, path)
        invariant forall k :: k in children.Keys - names ==> path + [k] in done
        invariant IsWakeup(w, EtaTimes(nodes[path]) + CandidatesOf(nodes, path, done) + Passed(wakeup))
      {
        var n :| n in names;
        names := names - {n};
        var child := children[n];
        ChildFacts(tree, path, n);
        ghost var w0 := w;
        w := child.GetWakeupTime(w, tree);
        KidPassed(nodes, path, wakeup, w0, done, path + [n], w);
        done := done + {path + [n]};
      }
      forall q | q in Kids(tree.Keys, path) ensures q in done {
        assert q == path + [q[|path|]];
      }
      KidsDone(nodes, path, done, wakeup, w);
    }

    lemma PauseInView()
      ensures View().pause == pauseUntil
    {
    }

    method WakeupHere(wakeup: nat) returns (w: nat)
      requires Valid()
      modifies queue.etaQueue
      ensures Valid() && View() == old(View())
      ensures IsWakeup(w, EtaTimes(View()) + Passed(wakeup))
    {
      w := queue.GetWakeupTime(wakeup);
      QueueFacts();
      LeastEta(View(), wakeup, w);
    }
  }
}
