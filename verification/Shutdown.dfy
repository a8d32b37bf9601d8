/** `kill_process_tree` as a step system: the loop, its death channel and the kill tasks that feed it.
    A kill task that outlives its timeout is detached, not cancelled, so a started task may post at
    any later moment; `Post` is enabled whenever its task is in flight. */
module Shutdown {
  import opened Basics
  import opened Ord

  datatype Cursor = Waiting | At(name: Name, i: nat) | Exited

  /** `channels` is the key set of `state_channels`, `queue` the death channel, `inflight` the kill
      tasks that have not posted. `received` and `killed` record what came out of the channel and
      which kill tasks were started, in order. */
  datatype Loop = Loop(
    indegree: map<Name, nat>,
    channels: set<Name>,
    queue: seq<Name>,
    inflight: set<Name>,
    cur: Cursor,
    received: seq<Name>,
    killed: seq<Name>,
    count: nat)

  datatype Label = Recv | Edge | EndOfName | Post(task: Name)

  /** `-= 1` on a u32. */
  function Decrement(v: nat): nat {
    if v == 0 then 0xffff_ffff else v - 1
  }

  function Init(d: ProcessDAG, active: set<Name>): Loop {
    Loop(d.indegree, active, [DUMMY_ROOT], {}, Waiting, [], [], d.count)
  }

  predicate Enabled(d: ProcessDAG, s: Loop, l: Label) {
    match l
    case Recv => s.cur.Waiting? && s.queue != []
    case Edge => s.cur.At? && s.cur.i < |Children(d.adj, s.cur.name)|
    case EndOfName => s.cur.At? && s.cur.i == |Children(d.adj, s.cur.name)|
    case Post(n) => n in s.inflight
  }

  /** Release `c` once its in-degree is zero: start its kill task, or pass an inactive name through. */
  function Release(s: Loop, c: Name): Loop {
    if c in s.channels
    then s.(channels := s.channels - {c}, inflight := s.inflight + {c}, killed := s.killed + [c])
    else s.(queue := s.queue + [c])
  }

  function Apply(d: ProcessDAG, s: Loop, l: Label): Loop
    requires Enabled(d, s, l)
  {
    match l
    case Recv => s.(queue := s.queue[1..], received := s.received + [s.queue[0]], cur := At(s.queue[0], 0))
    case Edge =>
      var c := Children(d.adj, s.cur.name)[s.cur.i];
      var left := Decrement(Count(s.indegree, c));
      var s' := s.(indegree := s.indegree[c := left], cur := At(s.cur.name, s.cur.i + 1));
      if left == 0 then Release(s', c) else s'
    case EndOfName =>
      var left := Decrement(s.count);
      s.(count := left, cur := if left == 0 then Exited else Waiting)
    case Post(n) => s.(inflight := s.inflight - {n}, queue := s.queue + [n])
  }

  /** The state after the steps `ls` from the start, if each of them is possible when taken. */
  function Exec(d: ProcessDAG, active: set<Name>, ls: seq<Label>): Option<Loop>
    decreases |ls|
  {
    if ls == [] then Some(Init(d, active)) else
    match Exec(d, active, ls[..|ls| - 1])
    case None => None
    case Some(m) => if Enabled(d, m, ls[|ls| - 1]) then Some(Apply(d, m, ls[|ls| - 1])) else None
  }

  // ---------------------------------------------------------------- the invariant

  ghost function Rest(adj: map<Name, seq<Name>>, cur: Cursor): multiset<Name> {
    if cur.At? && cur.i <= |Children(adj, cur.name)|
    then multiset(Children(adj, cur.name)[cur.i..]) else multiset{}
  }

  /** The edges not consumed yet. */
  ghost function Left(t: AfterTable, adj: map<Name, seq<Name>>, received: seq<Name>, cur: Cursor): multiset<Name> {
    Pending(adj, Nodes(t) - Elems(received)) + Rest(adj, cur)
  }

  /** Every in-degree is the number of its unconsumed incoming edges. */
  ghost predicate Conserved(indegree: map<Name, nat>, left: multiset<Name>) {
    forall c :: Count(indegree, c) == left[c]
  }

  function Zero(indegree: map<Name, nat>): set<Name> {
    {DUMMY_ROOT} + set c | c in indegree && indegree[c] == 0
  }

  /** The released names are in exactly one place, once: received, queued, or in flight. */
  ghost predicate ReleasedOnce(received: seq<Name>, queue: seq<Name>, inflight: set<Name>, released: set<Name>) {
    multiset(received) + multiset(queue) + multiset(inflight) == multiset(released)
  }

  ghost predicate Counted(t: AfterTable, d: ProcessDAG, s: Loop) {
    match s.cur
    case Waiting => s.count > 0 && |s.received| + s.count == |t| + 1
    case At(n, i) => s.count > 0 && |s.received| + s.count == |t| + 2
                     && s.received != [] && n == s.received[|s.received| - 1] && i <= |Children(d.adj, n)|
    case Exited => s.count == 0 && |s.received| == |t| + 1
  }

  /** Every name comes out of the channel after all the names that list it. */
  ghost predicate Ordered(adj: map<Name, seq<Name>>, received: seq<Name>) {
    forall k, p :: 0 <= k < |received| && p in adj && received[k] in adj[p] ==> p in received[..k]
  }

  ghost predicate Kills(active: set<Name>, channels: set<Name>, killed: seq<Name>, inflight: set<Name>,
      released: set<Name>) {
    && NoDup(killed)
    && Elems(killed) !! channels
    && Elems(killed) + channels == active
    && inflight <= Elems(killed) <= released
    && channels * released <= {DUMMY_ROOT} && DUMMY_ROOT !in killed
  }

  ghost predicate Inv(t: AfterTable, d: ProcessDAG, active: set<Name>, s: Loop) {
    && s.indegree.Keys == d.indegree.Keys
    && Conserved(s.indegree, Left(t, d.adj, s.received, s.cur))
    && ReleasedOnce(s.received, s.queue, s.inflight, Zero(s.indegree))
    && Counted(t, d, s)
    && Ordered(d.adj, s.received)
    && Kills(active, s.channels, s.killed, s.inflight, Zero(s.indegree))
  }

  lemma RootUnlisted(t: AfterTable, d: ProcessDAG)
    requires WellNamed(t) && IsDag(t, d)
    ensures DUMMY_ROOT !in d.indegree
  {
    PendingPositive(d.adj, Nodes(t), DUMMY_ROOT);
    forall p | p in Nodes(t) ensures DUMMY_ROOT !in Children(d.adj, p) {
      assert p in t ==> !Lists(t, p, DUMMY_ROOT);
    }
    assert Count(d.indegree, DUMMY_ROOT) == Pending(d.adj, Nodes(t))[DUMMY_ROOT];
  }

  lemma InitReleased(indegree: map<Name, nat>, ms: multiset<Name>, active: set<Name>)
    requires Tallies(indegree, ms)
    ensures ReleasedOnce([], [DUMMY_ROOT], {}, Zero(indegree)) && Kills(active, active, [], {}, Zero(indegree))
  {
    assert Zero(indegree) == {DUMMY_ROOT};
    assert Elems<Name>([]) == {};
  }

  lemma InitLeft(t: AfterTable, d: ProcessDAG)
    requires Tallies(d.indegree, Pending(d.adj, Nodes(t)))
    ensures Conserved(d.indegree, Left(t, d.adj, [], Waiting))
  {
    assert Nodes(t) - Elems<Name>([]) == Nodes(t);
  }

  lemma InitInv(t: AfterTable, d: ProcessDAG, active: set<Name>)
    requires Tallies(d.indegree, Pending(d.adj, Nodes(t))) && d.count == |t| + 1
    ensures Inv(t, d, active, Init(d, active))
  {
    hide Zero, Kills, ReleasedOnce, Left, Conserved, Tallies;
    InitLeft(t, d);
    InitReleased(d.indegree, Pending(d.adj, Nodes(t)), active);
  }

  /** A released name has no lister that is still to come out of the channel. */
  lemma ReleasedAfterListers(t: AfterTable, d: ProcessDAG, s: Loop, c: Name, p: Name)
    requires WellNamed(t) && IsDag(t, d) && s.indegree.Keys == d.indegree.Keys
    requires Conserved(s.indegree, Left(t, d.adj, s.received, s.cur))
    requires c in Zero(s.indegree) && p in d.adj && c in d.adj[p]
    ensures p in s.received
  {
    RootUnlisted(t, d);
    PendingPositive(d.adj, Nodes(t) - Elems(s.received), c);
    PendingPositive(d.adj, Nodes(t), c);
    assert c in Children(d.adj, p);
    assert Count(d.indegree, c) == Pending(d.adj, Nodes(t))[c];
    assert Count(s.indegree, c) == Left(t, d.adj, s.received, s.cur)[c];
  }

  lemma QueueHead(received: seq<Name>, queue: seq<Name>, inflight: set<Name>, released: set<Name>)
    requires ReleasedOnce(received, queue, inflight, released) && queue != []
    ensures queue[0] in released && queue[0] !in received
    ensures ReleasedOnce(received + [queue[0]], queue[1..], inflight, released)
  {
    var n := queue[0];
    assert n in multiset(queue);
    assert multiset(released)[n] <= 1;
    assert n in received ==> n in multiset(received);
    assert queue == [n] + queue[1..];
  }

  lemma RecvLeft(t: AfterTable, adj: map<Name, seq<Name>>, received: seq<Name>, n: Name)
    requires adj.Keys <= Nodes(t) && n !in received
    ensures Left(t, adj, received + [n], At(n, 0)) == Left(t, adj, received, Waiting)
  {
    var dom := Nodes(t) - Elems(received);
    assert Nodes(t) - Elems(received + [n]) == dom - {n};
    assert Children(adj, n)[0..] == Children(adj, n);
    if n in dom {
      PendingRemove(adj, dom, n);
    } else {
      assert dom - {n} == dom;
    }
  }

  lemma RecvOrdered(adj: map<Name, seq<Name>>, received: seq<Name>, n: Name)
    requires Ordered(adj, received)
    requires forall p :: p in adj && n in adj[p] ==> p in received
    ensures Ordered(adj, received + [n])
  {
    var all := received + [n];
    forall k, p | 0 <= k < |all| && p in adj && all[k] in adj[p] ensures p in all[..k] {
      assert all[..k] == received[..k];
      assert k == |received| ==> received[..k] == received;
    }
  }

  lemma RecvInv(t: AfterTable, d: ProcessDAG, active: set<Name>, s: Loop)
    requires WellNamed(t) && IsDag(t, d) && Inv(t, d, active, s) && Enabled(d, s, Recv)
    ensures Inv(t, d, active, Apply(d, s, Recv))
  {
    hide Left, Zero, Kills, ReleasedOnce;
    QueueHead(s.received, s.queue, s.inflight, Zero(s.indegree));
    RecvLeft(t, d.adj, s.received, s.queue[0]);
    forall p | p in d.adj && s.queue[0] in d.adj[p] ensures p in s.received {
      ReleasedAfterListers(t, d, s, s.queue[0], p);
    }
    RecvOrdered(d.adj, s.received, s.queue[0]);
  }

  lemma EdgeLeft(t: AfterTable, adj: map<Name, seq<Name>>, received: seq<Name>, n: Name, i: nat)
    requires i < |Children(adj, n)|
    ensures Left(t, adj, received, At(n, i)) == Left(t, adj, received, At(n, i + 1)) + multiset{Children(adj, n)[i]}
  {
    var row := Children(adj, n);
    assert row[i..] == [row[i]] + row[i + 1..];
  }

  /** The in-degree decremented is never zero: the u32 does not underflow and `or_default` adds no entry. */
  lemma NoUnderflow(t: AfterTable, d: ProcessDAG, active: set<Name>, s: Loop)
    requires WellNamed(t) && IsDag(t, d) && Inv(t, d, active, s) && Enabled(d, s, Edge)
    ensures var c := Children(d.adj, s.cur.name)[s.cur.i]; c in s.indegree && s.indegree[c] > 0 && c != DUMMY_ROOT
  {
    EdgeLeft(t, d.adj, s.received, s.cur.name, s.cur.i);
    assert Count(s.indegree, Children(d.adj, s.cur.name)[s.cur.i]) > 0;
    RootUnlisted(t, d);
  }

  lemma OneEdgeLess(indegree: map<Name, nat>, left: multiset<Name>, c: Name)
    requires c in indegree && indegree[c] > 0 && c != DUMMY_ROOT
    requires Conserved(indegree, left + multiset{c})
    ensures Conserved(indegree[c := indegree[c] - 1], left)
    ensures Zero(indegree[c := indegree[c] - 1]) == if indegree[c] == 1 then Zero(indegree) + {c} else Zero(indegree)
    ensures c !in Zero(indegree)
  {
    forall x ensures Count(indegree[c := indegree[c] - 1], x) == left[x] {
      assert Count(indegree, x) == (left + multiset{c})[x];
    }
  }

  /** The one newly released name goes to one place. */
  lemma ReleaseKeeps(active: set<Name>, s: Loop, c: Name, released: set<Name>)
    requires ReleasedOnce(s.received, s.queue, s.inflight, released)
    requires Kills(active, s.channels, s.killed, s.inflight, released) && c !in released && c != DUMMY_ROOT
    ensures var s' := Release(s, c);
            && ReleasedOnce(s'.received, s'.queue, s'.inflight, released + {c})
            && Kills(active, s'.channels, s'.killed, s'.inflight, released + {c})
  {
    var s' := Release(s, c);
    assert multiset(released + {c}) == multiset(released) + multiset{c};
    if c in s.channels {
      assert Elems(s.killed + [c]) == Elems(s.killed) + {c};
      assert multiset(s'.inflight) == multiset(s.inflight) + multiset{c};
    } else {
      assert multiset(s'.queue) == multiset(s.queue) + multiset{c};
    }
  }

  lemma EdgeReleases(t: AfterTable, d: ProcessDAG, active: set<Name>, s: Loop)
    requires WellNamed(t) && IsDag(t, d) && Inv(t, d, active, s) && Enabled(d, s, Edge)
    ensures var s' := Apply(d, s, Edge);
            && ReleasedOnce(s'.received, s'.queue, s'.inflight, Zero(s'.indegree))
            && Kills(active, s'.channels, s'.killed, s'.inflight, Zero(s'.indegree))
  {
    var c := Children(d.adj, s.cur.name)[s.cur.i];
    NoUnderflow(t, d, active, s);
    EdgeLeft(t, d.adj, s.received, s.cur.name, s.cur.i);
    OneEdgeLess(s.indegree, Left(t, d.adj, s.received, At(s.cur.name, s.cur.i + 1)), c);
    if s.indegree[c] == 1 {
      ReleaseKeeps(active, s.(indegree := s.indegree[c := 0], cur := At(s.cur.name, s.cur.i + 1)), c, Zero(s.indegree));
    }
  }

  lemma EdgeFrame(d: ProcessDAG, s: Loop)
    requires Enabled(d, s, Edge)
    ensures var s' := Apply(d, s, Edge);
            s'.received == s.received && s'.count == s.count && s'.cur == At(s.cur.name, s.cur.i + 1)
  {
  }

  lemma EdgeConserves(t: AfterTable, d: ProcessDAG, active: set<Name>, s: Loop)
    requires WellNamed(t) && IsDag(t, d) && Inv(t, d, active, s) && Enabled(d, s, Edge)
    ensures var s' := Apply(d, s, Edge);
            && s'.indegree.Keys == d.indegree.Keys
            && Conserved(s'.indegree, Left(t, d.adj, s.received, s'.cur))
  {
    hide IsDag, WellNamed, Counted, Ordered, Left, Zero;
    NoUnderflow(t, d, active, s);
    EdgeFrame(d, s);
    EdgeLeft(t, d.adj, s.received, s.cur.name, s.cur.i);
    OneEdgeLess(s.indegree, Left(t, d.adj, s.received, At(s.cur.name, s.cur.i + 1)),
      Children(d.adj, s.cur.name)[s.cur.i]);
  }

  lemma EdgeCounted(t: AfterTable, d: ProcessDAG, s: Loop, s': Loop)
    requires Counted(t, d, s) && Enabled(d, s, Edge)
    requires s'.received == s.received && s'.count == s.count && s'.cur == At(s.cur.name, s.cur.i + 1)
    ensures Counted(t, d, s')
  {
  }

  lemma EdgeInv(t: AfterTable, d: ProcessDAG, active: set<Name>, s: Loop)
    requires WellNamed(t) && IsDag(t, d) && Inv(t, d, active, s) && Enabled(d, s, Edge)
    ensures Inv(t, d, active, Apply(d, s, Edge))
  {
    EdgeReleases(t, d, active, s);
    EdgeConserves(t, d, active, s);
    EdgeFrame(d, s);
    EdgeCounted(t, d, s, Apply(d, s, Edge));
    hide IsDag, WellNamed, Apply, Enabled, Left, Zero, Kills, ReleasedOnce, Conserved, Ordered, Counted;
  }

  lemma EndLeft(t: AfterTable, adj: map<Name, seq<Name>>, received: seq<Name>, n: Name)
    ensures Left(t, adj, received, At(n, |Children(adj, n)|)) == Left(t, adj, received, Waiting)
    ensures Left(t, adj, received, At(n, |Children(adj, n)|)) == Left(t, adj, received, Exited)
  {
    assert Children(adj, n)[|Children(adj, n)|..] == [];
  }

  lemma EndInv(t: AfterTable, d: ProcessDAG, active: set<Name>, s: Loop)
    requires Inv(t, d, active, s) && Enabled(d, s, EndOfName)
    ensures Inv(t, d, active, Apply(d, s, EndOfName))
  {
    EndLeft(t, d.adj, s.received, s.cur.name);
  }

  lemma PostKeeps(received: seq<Name>, queue: seq<Name>, inflight: set<Name>, released: set<Name>, n: Name)
    requires ReleasedOnce(received, queue, inflight, released) && n in inflight
    ensures ReleasedOnce(received, queue + [n], inflight - {n}, released)
  {
    assert multiset(inflight) == multiset(inflight - {n}) + multiset{n};
  }

  lemma StepInv(t: AfterTable, d: ProcessDAG, active: set<Name>, s: Loop, l: Label)
    requires WellNamed(t) && IsDag(t, d) && Inv(t, d, active, s) && Enabled(d, s, l)
    ensures Inv(t, d, active, Apply(d, s, l))
  {
    match l
    case Recv => RecvInv(t, d, active, s);
    case Edge => EdgeInv(t, d, active, s);
    case EndOfName => EndInv(t, d, active, s);
    case Post(n) => PostKeeps(s.received, s.queue, s.inflight, Zero(s.indegree), n);
  }

  lemma {:induction false} RunInv(t: AfterTable, d: ProcessDAG, active: set<Name>, ls: seq<Label>)
    requires WellNamed(t) && IsDag(t, d) && Exec(d, active, ls).Some?
    ensures Inv(t, d, active, Exec(d, active, ls).value)
    decreases |ls|
  {
    if ls == [] {
      InitInv(t, d, active);
    } else {
      RunInv(t, d, active, ls[..|ls| - 1]);
      StepInv(t, d, active, Exec(d, active, ls[..|ls| - 1]).value, ls[|ls| - 1]);
    }
  }
}
