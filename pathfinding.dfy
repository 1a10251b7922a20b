/** The grid search enemies use to reach a target: astar with its inner heuristic and
    get_neighbors. Every non-start position enters the frontier with priority
    1 + heuristic, so the search is greedy best-first; the properties proved here are the
    ones it does have: termination, each position pushed at most once, a found path is a
    start-to-target route of neighbouring steps, and no path is found only when no such
    route exists. */
module Pathfinding {
  import opened Tiles

  function AbsDiff(a: nat, b: nat): nat {
    if a >= b then a - b else b - a
  }

  /** heuristic: the Manhattan distance between two positions. */
  function Heuristic(p: Pos, goal: Pos): (h: nat)
    ensures h == 0 <==> p == goal
  {
    AbsDiff(p.0, goal.0) + AbsDiff(p.1, goal.1)
  }

  lemma HeuristicSymmetric(p: Pos, q: Pos)
    ensures Heuristic(p, q) == Heuristic(q, p)
  {
  }

  /** The positions get_neighbors can be called on without failing: it reads the eight
      tiles around p before testing any bound, and computes width - 1 from the length of
      row 0. */
  predicate Interior(g: Grid, p: Pos) {
    1 <= p.0 && p.0 + 1 < |g| && 1 <= p.1 &&
    p.1 + 1 < |g[p.0 - 1]| && p.1 + 1 < |g[p.0]| && p.1 + 1 < |g[p.0 + 1]| &&
    |g[0]| >= 1
  }

  /** A tile the search may enter: not of an avoided type (only Wall) and not occupied. */
  predicate Open(t: Tile) {
    t.tileType != Wall && !t.occupied
  }

  predicate Adjacent(p: Pos, q: Pos) {
    p != q && AbsDiff(p.0, q.0) <= 1 && AbsDiff(p.1, q.1) <= 1
  }

  /** The bound tests of get_neighbors. The second coordinate is tested against the number
      of rows (height) and the first against the length of row 0 (width). */
  predicate PassesBoundTests(g: Grid, p: Pos, q: Pos)
    requires |g| > 0
  {
    (q.1 + 1 == p.1 ==> p.1 > 0) && (q.1 == p.1 + 1 ==> p.1 < |g| - 1) &&
    (q.0 + 1 == p.0 ==> p.0 > 0) && (q.0 == p.0 + 1 ==> p.0 < |g[0]| - 1)
  }

  /** One candidate of get_neighbors: kept when it passes its bound tests and its tile is
      open. */
  function Candidate(g: Grid, p: Pos, q: Pos): seq<Pos>
    requires InGrid(g, q) && |g| > 0
  {
    if PassesBoundTests(g, p, q) && Open(At(g, q)) then [q] else []
  }

  /** The eight positions around p in the order get_neighbors visits them: up, down, left,
      right, then the four diagonals. */
  function Around(p: Pos): seq<Pos>
    requires p.0 >= 1 && p.1 >= 1
  {
    var x, y := p.0, p.1;
    [(x, y - 1), (x, y + 1), (x - 1, y), (x + 1, y),
     (x - 1, y - 1), (x - 1, y + 1), (x + 1, y - 1), (x + 1, y + 1)]
  }

  lemma AroundAdjacent(p: Pos, q: Pos)
    requires p.0 >= 1 && p.1 >= 1
    ensures q in Around(p) <==> Adjacent(p, q)
  {
    if Adjacent(p, q) {
      assert q.0 == p.0 - 1 || q.0 == p.0 || q.0 == p.0 + 1;
      assert q.1 == p.1 - 1 || q.1 == p.1 || q.1 == p.1 + 1;
    }
  }

  /** The candidates of cs that get_neighbors keeps, in order. */
  function Keep(g: Grid, p: Pos, cs: seq<Pos>): seq<Pos>
    requires |g| > 0 && forall i :: 0 <= i < |cs| ==> InGrid(g, cs[i])
  {
    if cs == [] then [] else Candidate(g, p, cs[0]) + Keep(g, p, cs[1..])
  }

  lemma {:induction false} KeepExactly(g: Grid, p: Pos, cs: seq<Pos>, q: Pos)
    requires |g| > 0 && forall i :: 0 <= i < |cs| ==> InGrid(g, cs[i])
    ensures q in Keep(g, p, cs) <==> q in cs && PassesBoundTests(g, p, q) && Open(At(g, q))
    decreases |cs|
  {
    if cs != [] {
      KeepExactly(g, p, cs[1..], q);
      assert cs == [cs[0]] + cs[1..];
    }
  }

  lemma {:induction false} KeepLength(g: Grid, p: Pos, cs: seq<Pos>)
    requires |g| > 0 && forall i :: 0 <= i < |cs| ==> InGrid(g, cs[i])
    ensures |Keep(g, p, cs)| <= |cs|
    decreases |cs|
  {
    if cs != [] {
      KeepLength(g, p, cs[1..]);
    }
  }

  /** get_neighbors. */
  function Neighbors(g: Grid, p: Pos): seq<Pos>
    requires Interior(g, p)
  {
    Keep(g, p, Around(p))
  }

  /** get_neighbors reports exactly the adjacent open tiles that pass its bound tests. */
  lemma NeighborsExactly(g: Grid, p: Pos, q: Pos)
    requires Interior(g, p)
    ensures q in Neighbors(g, p) <==>
      Adjacent(p, q) && InGrid(g, q) && Open(At(g, q)) && PassesBoundTests(g, p, q)
  {
    KeepExactly(g, p, Around(p), q);
    AroundAdjacent(p, q);
  }

  /** Every neighbour is an adjacent open tile of the grid, and there are at most eight. */
  lemma NeighborsAreOpen(g: Grid, p: Pos)
    requires Interior(g, p)
    ensures |Neighbors(g, p)| <= 8
    ensures forall q :: q in Neighbors(g, p) ==> InGrid(g, q) && Adjacent(p, q) && Open(At(g, q))
  {
    KeepLength(g, p, Around(p));
    forall q | q in Neighbors(g, p)
      ensures InGrid(g, q) && Adjacent(p, q) && Open(At(g, q))
    {
      NeighborsExactly(g, p, q);
    }
  }

  predicate Distinct<T(==)>(s: seq<T>) {
    forall i, j :: 0 <= i < j < |s| ==> s[i] != s[j]
  }

  /** A sequence of positions in which every step goes to a neighbour get_neighbors
      reports for the position before it. */
  ghost predicate IsWalk(g: Grid, w: seq<Pos>) {
    |w| >= 1 &&
    forall i :: 0 <= i < |w| - 1 ==> Interior(g, w[i]) && w[i + 1] in Neighbors(g, w[i])
  }

  ghost predicate IsRoute(g: Grid, start: Pos, target: Pos, w: seq<Pos>) {
    IsWalk(g, w) && w[0] == start && w[|w| - 1] == target
  }

  /** A set of positions that the search can expand and that contains all their
      neighbours. */
  ghost predicate Closed(g: Grid, s: set<Pos>) {
    forall q :: q in s ==> Interior(g, q) && forall n :: n in Neighbors(g, q) ==> n in s
  }

  lemma {:induction false} WalkStaysInside(g: Grid, s: set<Pos>, w: seq<Pos>)
    requires Closed(g, s) && IsWalk(g, w) && w[0] in s
    ensures forall i :: 0 <= i < |w| ==> w[i] in s
    decreases |w|
  {
    if |w| > 1 {
      var front := w[..|w| - 1];
      assert IsWalk(g, front) by {
        forall i | 0 <= i < |front| - 1
          ensures Interior(g, front[i]) && front[i + 1] in Neighbors(g, front[i])
        {
          assert front[i] == w[i] && front[i + 1] == w[i + 1];
        }
      }
      WalkStaysInside(g, s, front);
      assert w[|w| - 2] == front[|front| - 1];
      assert w[|w| - 2] in s;
    }
  }

  /** No route leaves a closed set: if it holds the start but not the target, no route
      joins them. */
  lemma NoRouteOutside(g: Grid, s: set<Pos>, start: Pos, target: Pos)
    requires Closed(g, s) && start in s && target !in s
    ensures forall w :: !IsRoute(g, start, target, w)
  {
    forall w | IsRoute(g, start, target, w)
      ensures false
    {
      WalkStaysInside(g, s, w);
    }
  }

  /** An entry of the frontier heap. */
  datatype PathState = PathState(position: Pos, priority: nat)

  /** The outcome of astar: Crashed when it expands a position get_neighbors cannot be
      called on (the source fails there); otherwise the path it stored, if any. */
  datatype Search = Crashed | Finished(path: Option<seq<Pos>>)

  predicate IsMinAt(f: seq<PathState>, k: nat) {
    k < |f| && forall j :: 0 <= j < |f| ==> f[k].priority <= f[j].priority
  }

  function MinIndex(f: seq<PathState>): (k: nat)
    requires |f| > 0
    ensures IsMinAt(f, k)
  {
    if |f| == 1 then 0
    else
      var k := MinIndex(f[1..]);
      if f[0].priority <= f[k + 1].priority then 0 else k + 1
  }

  function Positions(f: seq<PathState>): (ps: seq<Pos>)
    ensures |ps| == |f| && forall i :: 0 <= i < |f| ==> ps[i] == f[i].position
  {
    seq(|f|, i requires 0 <= i < |f| => f[i].position)
  }

  function RemoveAt<T>(s: seq<T>, k: nat): (r: seq<T>)
    requires k < |s|
    ensures |r| == |s| - 1
    ensures forall i :: 0 <= i < k ==> r[i] == s[i]
    ensures forall i :: k <= i < |r| ==> r[i] == s[i + 1]
  {
    s[..k] + s[k + 1..]
  }

  lemma RemoveKeepsOthers(f: seq<PathState>, k: nat, q: Pos)
    requires k < |f| && q in Positions(f) && q != f[k].position
    ensures q in Positions(RemoveAt(f, k))
  {
    var ps := Positions(f);
    var j :| 0 <= j < |ps| && ps[j] == q;
    var r := RemoveAt(f, k);
    if j < k {
      assert Positions(r)[j] == q;
    } else {
      assert j > k;
      assert Positions(r)[j - 1] == q;
    }
  }

  lemma AppendKeeps(f: seq<PathState>, e: PathState, q: Pos)
    requires q in Positions(f) || q == e.position
    ensures q in Positions(f + [e])
  {
    var ps := Positions(f + [e]);
    if q == e.position {
      assert ps[|f|] == q;
    } else {
      var j :| 0 <= j < |f| && Positions(f)[j] == q;
      assert ps[j] == q;
    }
  }

  /** A sequence without repetitions has as many elements as its set. */
  lemma {:induction false} DistinctCard<T>(s: seq<T>)
    requires Distinct(s)
    ensures |set x | x in s| == |s|
    decreases |s|
  {
    if s != [] {
      var t := s[1..];
      assert Distinct(t) by {
        forall i, j | 0 <= i < j < |t| ensures t[i] != t[j] {
          assert t[i] == s[i + 1] && t[j] == s[j + 1];
        }
      }
      DistinctCard(t);
      assert s[0] !in t by {
        forall i | 0 <= i < |t| ensures t[i] != s[0] {
          assert t[i] == s[i + 1];
        }
      }
      assert (set x | x in s) == (set x | x in t) + {s[0]} by {
        assert s == [s[0]] + t;
      }
    }
  }

  /** Each position enters the frontier at most once, so no more positions are pushed
      than the grid has cells, besides the start. */
  lemma PushedBound(g: Grid, start: Pos, rank: map<Pos, nat>, pushed: seq<Pos>)
    requires Logged(g, start, rank, pushed)
    ensures |pushed| <= |Cells(g)| + 1
  {
    LoggedDistinct(g, start, rank, pushed);
    var rest := pushed[1..];
    assert Distinct(rest) by {
      forall i, j | 0 <= i < j < |rest| ensures rest[i] != rest[j] {
        assert rest[i] == pushed[i + 1] && rest[j] == pushed[j + 1];
      }
    }
    DistinctCard(rest);
    assert (set x | x in rest) <= Cells(g) by {
      forall x | x in rest ensures x in Cells(g) {
        var i :| 0 <= i < |rest| && rest[i] == x;
        assert pushed[i + 1] == x;
      }
    }
    SubsetCard((set x | x in rest), Cells(g));
  }

  lemma SubsetCard<T>(a: set<T>, b: set<T>)
    requires a <= b
    ensures |a| <= |b|
  {
    assert b == a + (b - a);
  }

  /** The reverse of a sequence, as path.reverse() leaves it. */
  function Reversed<T>(s: seq<T>): (r: seq<T>)
    ensures |r| == |s| && forall i :: 0 <= i < |s| ==> r[i] == s[|s| - 1 - i]
    decreases |s|
  {
    if |s| == 0 then [] else [s[|s| - 1]] + Reversed(s[..|s| - 1])
  }

  /** The search tree astar records: every position in `priorities` but the start has a
      came_from entry naming an expanded position (one in `done`) of lower rank for which
      get_neighbors reported it. */
  ghost predicate Tree(g: Grid, start: Pos, priorities: map<Pos, nat>, cameFrom: map<Pos, Pos>,
                       rank: map<Pos, nat>, done: set<Pos>) {
    start in priorities && done <= priorities.Keys &&
    cameFrom.Keys == priorities.Keys - {start} && rank.Keys == priorities.Keys &&
    forall q :: q in cameFrom ==>
      cameFrom[q] in done && cameFrom[q] in rank && rank[cameFrom[q]] < rank[q] &&
      Interior(g, cameFrom[q]) && q in Neighbors(g, cameFrom[q])
  }

  /** `pushed` lists the positions in the order they entered the frontier, indexed by rank. */
  ghost predicate Logged(g: Grid, start: Pos, rank: map<Pos, nat>, pushed: seq<Pos>) {
    |pushed| >= 1 && pushed[0] == start &&
    (forall i :: 0 <= i < |pushed| ==> pushed[i] in rank && rank[pushed[i]] == i) &&
    (forall q :: q in rank ==> rank[q] < |pushed| && q in pushed) &&
    (forall i :: 1 <= i < |pushed| ==> InGrid(g, pushed[i]))
  }

  lemma LoggedDistinct(g: Grid, start: Pos, rank: map<Pos, nat>, pushed: seq<Pos>)
    requires Logged(g, start, rank, pushed)
    ensures Distinct(pushed)
  {
    forall i, j | 0 <= i < j < |pushed| ensures pushed[i] != pushed[j] {
      assert rank[pushed[i]] == i && rank[pushed[j]] == j;
    }
  }

  /** No recorded priority exceeds the one a neighbour would be pushed with. */
  ghost predicate Bounded(priorities: map<Pos, nat>, target: Pos) {
    forall q :: q in priorities ==> priorities[q] <= 1 + Heuristic(q, target)
  }

  /** Every frontier entry is recorded, and every recorded position is expanded (in `done`)
      or still waits in the frontier. */
  ghost predicate Tracked(frontier: seq<PathState>, priorities: map<Pos, nat>, done: set<Pos>) {
    (forall i :: 0 <= i < |frontier| ==> frontier[i].position in priorities) &&
    (forall q :: q in priorities ==> q in done || q in Positions(frontier))
  }

  /** Every expanded position had its neighbours recorded. */
  ghost predicate Expanded(g: Grid, popped: set<Pos>, priorities: map<Pos, nat>) {
    forall q :: q in popped ==>
      Interior(g, q) && forall n :: n in Neighbors(g, q) ==> n in priorities
  }

  /** The path loop of astar: follow came_from back from `current` to the start, then
      reverse. `walk` is the reversal of the path read so far. */
  method Reconstruct(g: Grid, start: Pos, current: Pos, priorities: map<Pos, nat>,
                     cameFrom: map<Pos, Pos>, ghost rank: map<Pos, nat>, ghost done: set<Pos>)
    returns (route: seq<Pos>)
    requires Tree(g, start, priorities, cameFrom, rank, done) && current in priorities
    ensures IsRoute(g, start, current, route) && Distinct(route)
  {
    var path := [current];
    var c := current;
    ghost var walk := [current];
    while c in cameFrom
      invariant c in priorities
      invariant |path| >= 1 && path[|path| - 1] == c
      invariant walk == Reversed(path)
      invariant IsWalk(g, walk) && walk[0] == c && walk[|walk| - 1] == current
      invariant forall i :: 0 <= i < |path| ==> path[i] in rank && rank[path[i]] >= rank[c]
      invariant Distinct(path)
      decreases rank[c]
    {
      var prev := cameFrom[c];
      assert prev !in path by {
        forall i | 0 <= i < |path| ensures path[i] != prev {
          assert rank[path[i]] >= rank[c] > rank[prev];
        }
      }
      ReversedSnoc(path, prev);
      WalkPrepend(g, prev, walk);
      DistinctSnoc(path, prev);
      path := path + [prev];
      walk := [prev] + walk;
      c := prev;
    }
    route := Reversed(path);
    ReversedDistinct(path);
  }

  lemma ReversedSnoc<T>(s: seq<T>, x: T)
    ensures Reversed(s + [x]) == [x] + Reversed(s)
  {
    assert (s + [x])[..|s|] == s;
  }

  lemma DistinctSnoc<T>(s: seq<T>, x: T)
    requires Distinct(s) && x !in s
    ensures Distinct(s + [x])
  {
  }

  /** A step to a reported neighbour extends a walk at its front. */
  lemma WalkPrepend(g: Grid, p: Pos, w: seq<Pos>)
    requires IsWalk(g, w) && Interior(g, p) && w[0] in Neighbors(g, p)
    ensures IsWalk(g, [p] + w)
  {
    var v := [p] + w;
    forall i | 0 <= i < |v| - 1
      ensures Interior(g, v[i]) && v[i + 1] in Neighbors(g, v[i])
    {
      if i > 0 {
        assert v[i] == w[i - 1] && v[i + 1] == w[i];
      }
    }
  }

  /** Recording a new neighbour of an expanded position keeps the search tree, the push
      log and the priority bound. */
  lemma PushKeeps(g: Grid, start: Pos, target: Pos, current: Pos, next: Pos,
                  priorities: map<Pos, nat>, cameFrom: map<Pos, Pos>, rank: map<Pos, nat>,
                  pushed: seq<Pos>, done: set<Pos>)
    requires Tree(g, start, priorities, cameFrom, rank, done)
    requires Logged(g, start, rank, pushed) && Bounded(priorities, target)
    requires Interior(g, current) && current in done
    requires next in Neighbors(g, current) && InGrid(g, next) && next !in priorities
    ensures Tree(g, start, priorities[next := 1 + Heuristic(next, target)],
                 cameFrom[next := current], rank[next := |pushed|], done)
    ensures Logged(g, start, rank[next := |pushed|], pushed + [next])
    ensures Bounded(priorities[next := 1 + Heuristic(next, target)], target)
  {
    LogPush(g, start, rank, pushed, next);
    TreePush(g, start, current, next, 1 + Heuristic(next, target), priorities, cameFrom, rank, |pushed|, done);
  }

  /** Recording a new neighbour of an expanded position, with a rank above every other,
      keeps the search tree. */
  lemma TreePush(g: Grid, start: Pos, current: Pos, next: Pos, p: nat,
                 priorities: map<Pos, nat>, cameFrom: map<Pos, Pos>, rank: map<Pos, nat>,
                 n: nat, done: set<Pos>)
    requires Tree(g, start, priorities, cameFrom, rank, done)
    requires Interior(g, current) && current in done && rank[current] < n
    requires next in Neighbors(g, current) && next !in priorities
    ensures Tree(g, start, priorities[next := p], cameFrom[next := current], rank[next := n], done)
  {
    var cameFrom', rank' := cameFrom[next := current], rank[next := n];
    forall q | q in cameFrom'
      ensures cameFrom'[q] in done && cameFrom'[q] in rank' && rank'[cameFrom'[q]] < rank'[q]
    {
      if q == next {
        assert rank'[current] == rank[current] < n;
      } else {
        assert cameFrom'[q] == cameFrom[q] != next;
      }
    }
  }

  /** Appending a position that has no rank yet, with the next rank, keeps the push log. */
  lemma LogPush(g: Grid, start: Pos, rank: map<Pos, nat>, pushed: seq<Pos>, next: Pos)
    requires Logged(g, start, rank, pushed) && next !in rank && InGrid(g, next)
    ensures Logged(g, start, rank[next := |pushed|], pushed + [next])
  {
    var rank', pushed' := rank[next := |pushed|], pushed + [next];
    forall i | 0 <= i < |pushed'|
      ensures pushed'[i] in rank' && rank'[pushed'[i]] == i
    {
      if i < |pushed| {
        assert pushed'[i] == pushed[i];
      }
    }
    forall q | q in rank'
      ensures rank'[q] < |pushed'| && q in pushed'
    {
      if q != next {
        assert q in pushed;
      }
    }
  }

  /** What the neighbour loop keeps while it visits the neighbours of an expanded position:
      the search tree, the push log and the priority bound, every frontier entry recorded, and
      only pushes since the loop began (from `frontier0`, `priorities0` and `pushed0`). */
  ghost predicate Visiting(g: Grid, start: Pos, target: Pos, done: set<Pos>,
                           frontier0: seq<PathState>, priorities0: map<Pos, nat>, pushed0: seq<Pos>,
                           frontier: seq<PathState>, priorities: map<Pos, nat>,
                           cameFrom: map<Pos, Pos>, rank: map<Pos, nat>, pushed: seq<Pos>) {
    Tree(g, start, priorities, cameFrom, rank, done) &&
    Logged(g, start, rank, pushed) && Bounded(priorities, target) &&
    (forall j :: 0 <= j < |frontier| ==> frontier[j].position in priorities) &&
    priorities0.Keys <= priorities.Keys &&
    (forall q :: q in Positions(frontier0) ==> q in Positions(frontier)) &&
    (forall q :: q in priorities ==> q in priorities0 || q in Positions(frontier)) &&
    ((|pushed| == |pushed0| && |frontier| == |frontier0|) || |pushed| > |pushed0|)
  }

  /** One neighbour of the neighbour loop: push `next` when it has no recorded priority or a
      larger one, recording its priority and `current` as where it came from. */
  method Visit(g: Grid, start: Pos, target: Pos, current: Pos, next: Pos, ghost done: set<Pos>,
               ghost frontier0: seq<PathState>, ghost priorities0: map<Pos, nat>,
               ghost pushed0: seq<Pos>,
               frontier: seq<PathState>, priorities: map<Pos, nat>, cameFrom: map<Pos, Pos>,
               ghost rank: map<Pos, nat>, ghost pushed: seq<Pos>)
    returns (frontier': seq<PathState>, priorities': map<Pos, nat>, cameFrom': map<Pos, Pos>,
             ghost rank': map<Pos, nat>, ghost pushed': seq<Pos>)
    requires Interior(g, current) && current in done
    requires next in Neighbors(g, current) && InGrid(g, next)
    requires Visiting(g, start, target, done, frontier0, priorities0, pushed0,
                      frontier, priorities, cameFrom, rank, pushed)
    ensures Visiting(g, start, target, done, frontier0, priorities0, pushed0,
                     frontier', priorities', cameFrom', rank', pushed')
    ensures (forall q :: q in priorities ==> q in priorities') && next in priorities'
  {
    frontier', priorities', cameFrom', rank', pushed' := frontier, priorities, cameFrom, rank, pushed;
    var priority := 1 + Heuristic(next, target);
    if next !in priorities || priority < priorities[next] {
      assert next !in priorities;
      PushKeeps(g, start, target, current, next, priorities, cameFrom, rank, pushed, done);
      priorities' := priorities[next := priority];
      frontier' := frontier + [PathState(next, priority)];
      cameFrom' := cameFrom[next := current];
      rank' := rank[next := |pushed|];
      pushed' := pushed + [next];
      forall q | q in Positions(frontier) || q == next
        ensures q in Positions(frontier')
      {
        AppendKeeps(frontier, PathState(next, priority), q);
      }
    }
  }

  /** The neighbour loop of astar: visit every neighbour of `current` in get_neighbors order. */
  method Expand(g: Grid, start: Pos, target: Pos, current: Pos, frontier: seq<PathState>,
                priorities: map<Pos, nat>, cameFrom: map<Pos, Pos>,
                ghost rank: map<Pos, nat>, ghost pushed: seq<Pos>, ghost done: set<Pos>)
    returns (frontier': seq<PathState>, priorities': map<Pos, nat>, cameFrom': map<Pos, Pos>,
             ghost rank': map<Pos, nat>, ghost pushed': seq<Pos>)
    requires Interior(g, current) && current in done
    requires Tree(g, start, priorities, cameFrom, rank, done)
    requires Logged(g, start, rank, pushed) && Bounded(priorities, target)
    requires forall i :: 0 <= i < |frontier| ==> frontier[i].position in priorities
    ensures Visiting(g, start, target, done, frontier, priorities, pushed,
                     frontier', priorities', cameFrom', rank', pushed')
    ensures forall n :: n in Neighbors(g, current) ==> n in priorities'
  {
    frontier', priorities', cameFrom', rank', pushed' := frontier, priorities, cameFrom, rank, pushed;
    var ns := Neighbors(g, current);
    NeighborsAreOpen(g, current);
    var i := 0;
    while i < |ns|
      invariant 0 <= i <= |ns|
      invariant Visiting(g, start, target, done, frontier, priorities, pushed,
                         frontier', priorities', cameFrom', rank', pushed')
      invariant forall j :: 0 <= j < i ==> ns[j] in priorities'
    {
      ghost var before := priorities';
      frontier', priorities', cameFrom', rank', pushed' :=
        Visit(g, start, target, current, ns[i], done, frontier, priorities, pushed,
              frontier', priorities', cameFrom', rank', pushed');
      forall j | 0 <= j <= i ensures ns[j] in priorities' {
        if j < i {
          assert ns[j] in before;
        }
      }
      i := i + 1;
    }
  }

  lemma ReversedDistinct<T>(s: seq<T>)
    requires Distinct(s)
    ensures Distinct(Reversed(s))
  {
    var r := Reversed(s);
    forall i, j | 0 <= i < j < |r| ensures r[i] != r[j] {
      assert r[i] == s[|s| - 1 - i] && r[j] == s[|s| - 1 - j];
    }
  }

  /** After `current` is expanded, the frontier and the expanded set are still tracked. */
  lemma RoundKeeps(g: Grid, current: Pos, frontier: seq<PathState>, frontier': seq<PathState>,
                   priorities: map<Pos, nat>, priorities': map<Pos, nat>, popped: set<Pos>)
    requires Tracked(frontier, priorities, popped + {current})
    requires Expanded(g, popped, priorities) && Interior(g, current)
    requires forall i :: 0 <= i < |frontier'| ==> frontier'[i].position in priorities'
    requires priorities.Keys <= priorities'.Keys
    requires forall n :: n in Neighbors(g, current) ==> n in priorities'
    requires forall q :: q in Positions(frontier) ==> q in Positions(frontier')
    requires forall q :: q in priorities' ==> q in priorities || q in Positions(frontier')
    ensures Tracked(frontier', priorities', popped + {current})
    ensures Expanded(g, popped + {current}, priorities')
  {
  }

  /** When the frontier runs empty, the expanded positions are closed under get_neighbors;
      if the target is not among them, no route reaches it. */
  lemma Exhausted(g: Grid, start: Pos, target: Pos, priorities: map<Pos, nat>, popped: set<Pos>)
    requires Tracked([], priorities, popped) && Expanded(g, popped, priorities)
    requires start in priorities && target !in popped
    ensures forall w :: !IsRoute(g, start, target, w)
  {
    assert Closed(g, popped);
    NoRouteOutside(g, popped, start, target);
  }

  /** The target test of astar: when `current` is the target, the path reconstructed from
      came_from replaces the stored one; otherwise the stored path is kept. */
  method Arrive(g: Grid, start: Pos, target: Pos, current: Pos, priorities: map<Pos, nat>,
                cameFrom: map<Pos, Pos>, finalPath: Option<seq<Pos>>,
                ghost rank: map<Pos, nat>, ghost done: set<Pos>)
    returns (finalPath': Option<seq<Pos>>)
    requires Tree(g, start, priorities, cameFrom, rank, done) && current in priorities
    requires finalPath.Some? ==>
      IsRoute(g, start, target, finalPath.value) && Distinct(finalPath.value)
    ensures current != target ==> finalPath' == finalPath
    ensures current == target ==> finalPath'.Some?
    ensures finalPath'.Some? ==>
      IsRoute(g, start, target, finalPath'.value) && Distinct(finalPath'.value)
  {
    finalPath' := finalPath;
    if current == target {
      var route := Reconstruct(g, start, current, priorities, cameFrom, rank, done);
      finalPath' := Some(route);
    }
  }

  /** frontier.pop(): remove an entry of least priority. Which of several such entries the
      heap yields is left open. */
  method Pop(frontier: seq<PathState>, ghost priorities: map<Pos, nat>, ghost popped: set<Pos>)
    returns (current: Pos, rest: seq<PathState>)
    requires frontier != [] && Tracked(frontier, priorities, popped)
    ensures exists k: nat ::
      IsMinAt(frontier, k) && current == frontier[k].position && rest == RemoveAt(frontier, k)
    ensures current in priorities && |rest| == |frontier| - 1
    ensures Tracked(rest, priorities, popped + {current})
  {
    assert IsMinAt(frontier, MinIndex(frontier));
    var k: nat :| k < |frontier| && IsMinAt(frontier, k);
    current := frontier[k].position;
    rest := RemoveAt(frontier, k);
    forall q | q in priorities && q !in popped && q != current
      ensures q in Positions(rest)
    {
      RemoveKeepsOthers(frontier, k, q);
    }
  }

  /** The loop invariant of astar: the search tree, the push log, the priority bound, the
      frontier bookkeeping, and the stored path, which is present exactly when the target has
      been popped and is then a route. */
  ghost predicate Searching(g: Grid, start: Pos, target: Pos, frontier: seq<PathState>,
                            priorities: map<Pos, nat>, cameFrom: map<Pos, Pos>,
                            finalPath: Option<seq<Pos>>, popped: set<Pos>, rank: map<Pos, nat>,
                            pushed: seq<Pos>) {
    Tree(g, start, priorities, cameFrom, rank, popped) &&
    Logged(g, start, rank, pushed) && Bounded(priorities, target) &&
    Tracked(frontier, priorities, popped) && Expanded(g, popped, priorities) &&
    (finalPath.Some? <==> target in popped) &&
    (finalPath.Some? ==> IsRoute(g, start, target, finalPath.value) && Distinct(finalPath.value)) &&
    |pushed| <= |Cells(g)| + 1
  }

  /** One round of astar's loop: pop a least-priority entry, test it against the target, and
      push its neighbours. `crashed` reports the panic get_neighbors raises on a border cell. */
  method Round(g: Grid, start: Pos, target: Pos, frontier: seq<PathState>,
               priorities: map<Pos, nat>, cameFrom: map<Pos, Pos>, finalPath: Option<seq<Pos>>,
               ghost popped: set<Pos>, ghost rank: map<Pos, nat>, ghost pushed: seq<Pos>)
    returns (crashed: bool, frontier': seq<PathState>, priorities': map<Pos, nat>,
             cameFrom': map<Pos, Pos>, finalPath': Option<seq<Pos>>,
             ghost popped': set<Pos>, ghost rank': map<Pos, nat>, ghost pushed': seq<Pos>)
    requires frontier != []
    requires Searching(g, start, target, frontier, priorities, cameFrom, finalPath, popped, rank, pushed)
    ensures !crashed ==>
      Searching(g, start, target, frontier', priorities', cameFrom', finalPath', popped', rank', pushed')
    ensures !crashed ==>
      |pushed'| > |pushed| || (|pushed'| == |pushed| && |frontier'| < |frontier|)
    // the search fails only on a popped position get_neighbors cannot be called on
    ensures crashed ==> exists k: nat :: IsMinAt(frontier, k) && !Interior(g, frontier[k].position)
  {
    var current, rest := Pop(frontier, priorities, popped);
    finalPath' := Arrive(g, start, target, current, priorities, cameFrom, finalPath, rank, popped);
    if !Interior(g, current) {
      ghost var k: nat :| IsMinAt(frontier, k) && current == frontier[k].position;
      assert !Interior(g, frontier[k].position);
      return true, rest, priorities, cameFrom, finalPath', popped, rank, pushed;
    }
    crashed := false;
    frontier', priorities', cameFrom', popped', rank', pushed' :=
      Advance(g, start, target, current, rest, priorities, cameFrom, finalPath', popped, rank, pushed);
  }

  /** The second half of a round, once the popped `current` is known to be interior: push its
      neighbours and count it as expanded. */
  method Advance(g: Grid, start: Pos, target: Pos, current: Pos, rest: seq<PathState>,
                 priorities: map<Pos, nat>, cameFrom: map<Pos, Pos>, finalPath: Option<seq<Pos>>,
                 ghost popped: set<Pos>, ghost rank: map<Pos, nat>, ghost pushed: seq<Pos>)
    returns (frontier': seq<PathState>, priorities': map<Pos, nat>, cameFrom': map<Pos, Pos>,
             ghost popped': set<Pos>, ghost rank': map<Pos, nat>, ghost pushed': seq<Pos>)
    requires Interior(g, current)
    requires Tree(g, start, priorities, cameFrom, rank, popped + {current})
    requires Logged(g, start, rank, pushed) && Bounded(priorities, target)
    requires Tracked(rest, priorities, popped + {current}) && Expanded(g, popped, priorities)
    requires finalPath.Some? <==> target in popped + {current}
    requires finalPath.Some? ==> IsRoute(g, start, target, finalPath.value) && Distinct(finalPath.value)
    ensures Searching(g, start, target, frontier', priorities', cameFrom', finalPath, popped', rank', pushed')
    ensures |pushed'| > |pushed| || (|pushed'| == |pushed| && |frontier'| == |rest|)
  {
    frontier', priorities', cameFrom', rank', pushed' :=
      Expand(g, start, target, current, rest, priorities, cameFrom, rank, pushed, popped + {current});
    RoundKeeps(g, current, rest, frontier', priorities, priorities', popped);
    PushedBound(g, start, rank', pushed');
    popped' := popped + {current};
  }

  /** astar from start towards target. `pushed` logs every position in the order it
      entered the frontier, the start first. */
  method AStar(start: Pos, target: Pos, g: Grid) returns (r: Search, ghost pushed: seq<Pos>)
    ensures r.Finished? && r.path.Some? ==>
      IsRoute(g, start, target, r.path.value) && Distinct(r.path.value)
    ensures r.Finished? && r.path.None? ==> forall w :: !IsRoute(g, start, target, w)
    ensures |pushed| >= 1 && pushed[0] == start && Distinct(pushed)
    ensures forall i :: 1 <= i < |pushed| ==> InGrid(g, pushed[i])
    // the search fails only on a position it reached that lies on the border of the grid
    ensures r.Crashed? ==> exists i :: 0 <= i < |pushed| && !Interior(g, pushed[i])
  {
    var frontier := [PathState(start, Heuristic(start, target))];
    var priorities: map<Pos, nat> := map[start := Heuristic(start, target)];
    var cameFrom: map<Pos, Pos> := map[];
    var finalPath: Option<seq<Pos>> := None;
    ghost var popped: set<Pos> := {};
    ghost var rank: map<Pos, nat> := map[start := 0];
    pushed := [start];
    assert Positions(frontier)[0] == start;
    PushedBound(g, start, rank, pushed);

    while frontier != []
      invariant Searching(g, start, target, frontier, priorities, cameFrom, finalPath, popped, rank, pushed)
      decreases |Cells(g)| + 1 - |pushed|, |frontier|
    {
      var crashed, frontier', priorities', cameFrom', finalPath';
      ghost var popped', rank', pushed';
      crashed, frontier', priorities', cameFrom', finalPath', popped', rank', pushed' :=
        Round(g, start, target, frontier, priorities, cameFrom, finalPath, popped, rank, pushed);
      if crashed {
        ghost var k: nat :| IsMinAt(frontier, k) && !Interior(g, frontier[k].position);
        ghost var q := frontier[k].position;
        assert q in pushed;
        LoggedDistinct(g, start, rank, pushed);
        return Crashed, pushed;
      }
      frontier, priorities, cameFrom, finalPath := frontier', priorities', cameFrom', finalPath';
      popped, rank, pushed := popped', rank', pushed';
    }

    if finalPath.None? {
      Exhausted(g, start, target, priorities, popped);
    }
    LoggedDistinct(g, start, rank, pushed);
    r := Finished(finalPath);
  }
}
