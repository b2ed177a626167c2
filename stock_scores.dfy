/**
 * The heuristic table of `precompute_stock_scores`: a breadth-first search that
 * starts from the objectives at level 0 and walks backwards from a stock to the
 * inputs of every process that outputs it, one level further each time. A stock
 * is scored on its first dequeue; the table's keys are the objectives and every
 * stock they can be made from, and each score is the length of the shortest
 * backward chain from that stock to an objective.
 */
module StockScores {

  import opened Resources

  /** Some process has `i` among its inputs and `o` among its outputs. */
  predicate Feeds(ps: seq<Process>, i: string, o: string)
  {
    exists j :: 0 <= j < |ps| && o in Names(ps[j].output) && i in Names(ps[j].input)
  }

  /** Every stock the search can ever meet: the objectives and all process inputs. */
  function Universe(ps: seq<Process>, objectives: seq<string>): set<string>
  {
    (set o | o in objectives) + (set j, k | 0 <= j < |ps| && 0 <= k < |ps[j].input| :: ps[j].input[k].0)
  }

  /** The inputs not yet visited, each paired with `score`, in input order. */
  function Unvisited(inputs: seq<(string, nat)>, visited: set<string>, score: nat): seq<(string, nat)>
  {
    if |inputs| == 0 then []
    else
      var name := inputs[|inputs| - 1].0;
      Unvisited(inputs[..|inputs| - 1], visited, score) + (if name !in visited then [(name, score)] else [])
  }

  /** What one process queues: its unvisited inputs, once for every output entry equal to `stock`. */
  function ProcessPushes(inputs: seq<(string, nat)>, outputs: seq<(string, nat)>, stock: string,
                         visited: set<string>, score: nat): seq<(string, nat)>
  {
    if |outputs| == 0 then []
    else
      ProcessPushes(inputs, outputs[..|outputs| - 1], stock, visited, score)
        + (if outputs[|outputs| - 1].0 == stock then Unvisited(inputs, visited, score) else [])
  }

  /** What scoring `stock` queues, process by process in declaration order. */
  function Pushes(ps: seq<Process>, stock: string, visited: set<string>, score: nat): seq<(string, nat)>
  {
    if |ps| == 0 then []
    else
      var p := ps[|ps| - 1];
      Pushes(ps[..|ps| - 1], stock, visited, score) + ProcessPushes(p.input, p.output, stock, visited, score)
  }

  /** `k`, scored `s`, is an input of a process whose output is scored `s - 1`. */
  predicate HasParent(ps: seq<Process>, scores: map<string, nat>, k: string, s: nat)
  {
    exists o :: o in scores && scores[o] + 1 == s && Feeds(ps, k, o)
  }

  /**
   * What the finished table satisfies: objectives score 0 and nothing else does,
   * every positive score comes from a neighbour one level lower, and every input
   * of a process that makes a scored stock is scored at most one level higher.
   */
  ghost predicate Levels(ps: seq<Process>, objectives: seq<string>, scores: map<string, nat>)
  {
    && (forall o :: o in objectives ==> o in scores && scores[o] == 0)
    && (forall k :: k in scores && scores[k] == 0 ==> k in objectives)
    && (forall k :: k in scores && scores[k] > 0 ==> HasParent(ps, scores, k, scores[k]))
    && (forall k, i :: k in scores && Feeds(ps, i, k) ==> i in scores && scores[i] <= scores[k] + 1)
  }

  /** A backward chain: starts at an objective, and each stock feeds the one before it. */
  predicate Chain(ps: seq<Process>, objectives: seq<string>, path: seq<string>)
  {
    && |path| > 0 && path[0] in objectives
    && forall j :: 0 < j < |path| ==> Feeds(ps, path[j], path[j - 1])
  }

  // ---------------------------------------------------------------------
  // The queue contents pushed for one scored stock

  lemma {:induction false} UnvisitedMembers(inputs: seq<(string, nat)>, visited: set<string>, score: nat, e: (string, nat))
    ensures e in Unvisited(inputs, visited, score) <==> e.1 == score && e.0 !in visited && e.0 in Names(inputs)
  {
    if |inputs| > 0 {
      UnvisitedMembers(inputs[..|inputs| - 1], visited, score, e);
      NamesPrefix(inputs);
    }
  }

  lemma {:induction false} ProcessPushesMembers(inputs: seq<(string, nat)>, outputs: seq<(string, nat)>, stock: string,
                                                visited: set<string>, score: nat, e: (string, nat))
    ensures e in ProcessPushes(inputs, outputs, stock, visited, score)
        <==> stock in Names(outputs) && e in Unvisited(inputs, visited, score)
  {
    if |outputs| > 0 {
      ProcessPushesMembers(inputs, outputs[..|outputs| - 1], stock, visited, score, e);
      NamesPrefix(outputs);
    }
  }

  lemma FeedsPrefix(ps: seq<Process>, i: string, o: string)
    requires |ps| > 0
    ensures Feeds(ps, i, o)
        <==> Feeds(ps[..|ps| - 1], i, o) || (o in Names(ps[|ps| - 1].output) && i in Names(ps[|ps| - 1].input))
  {
    var pre := ps[..|ps| - 1];
    if Feeds(ps, i, o) {
      var j :| 0 <= j < |ps| && o in Names(ps[j].output) && i in Names(ps[j].input);
      if j < |pre| {
        assert pre[j] == ps[j];
      }
    }
    if Feeds(pre, i, o) {
      var j :| 0 <= j < |pre| && o in Names(pre[j].output) && i in Names(pre[j].input);
      assert ps[j] == pre[j];
    }
  }

  /** Scoring `stock` queues exactly its unvisited feeders, one level further. */
  lemma {:induction false} PushesMembers(ps: seq<Process>, stock: string, visited: set<string>, score: nat, e: (string, nat))
    ensures e in Pushes(ps, stock, visited, score) <==> e.1 == score && e.0 !in visited && Feeds(ps, e.0, stock)
  {
    if |ps| > 0 {
      var p := ps[|ps| - 1];
      PushesMembers(ps[..|ps| - 1], stock, visited, score, e);
      ProcessPushesMembers(p.input, p.output, stock, visited, score, e);
      UnvisitedMembers(p.input, visited, score, e);
      FeedsPrefix(ps, e.0, stock);
    }
  }

  lemma FeedsInUniverse(ps: seq<Process>, objectives: seq<string>, i: string, o: string)
    requires Feeds(ps, i, o)
    ensures i in Universe(ps, objectives)
  {
    var j :| 0 <= j < |ps| && o in Names(ps[j].output) && i in Names(ps[j].input);
    var k :| 0 <= k < |ps[j].input| && ps[j].input[k].0 == i;
  }

  // ---------------------------------------------------------------------
  // The loops that fill the queue

  method PushInputs(queue: seq<(string, nat)>, inputs: seq<(string, nat)>, visited: set<string>, score: nat)
    returns (q: seq<(string, nat)>)
    ensures q == queue + Unvisited(inputs, visited, score)
  {
    q := queue;
    for k := 0 to |inputs|
      invariant q == queue + Unvisited(inputs[..k], visited, score)
    {
      assert inputs[..k + 1][..k] == inputs[..k];
      if inputs[k].0 !in visited {
        q := q + [(inputs[k].0, score)];
      }
    }
    assert inputs[..|inputs|] == inputs;
  }

  method PushForProcess(queue: seq<(string, nat)>, p: Process, stock: string, visited: set<string>, score: nat)
    returns (q: seq<(string, nat)>)
    ensures q == queue + ProcessPushes(p.input, p.output, stock, visited, score)
  {
    q := queue;
    for k := 0 to |p.output|
      invariant q == queue + ProcessPushes(p.input, p.output[..k], stock, visited, score)
    {
      assert p.output[..k + 1][..k] == p.output[..k];
      if p.output[k].0 == stock {
        q := PushInputs(q, p.input, visited, score);
      }
    }
    assert p.output[..|p.output|] == p.output;
  }

  method PushFeeders(queue: seq<(string, nat)>, ps: seq<Process>, stock: string, visited: set<string>, score: nat)
    returns (q: seq<(string, nat)>)
    ensures q == queue + Pushes(ps, stock, visited, score)
  {
    q := queue;
    for j := 0 to |ps|
      invariant q == queue + Pushes(ps[..j], stock, visited, score)
    {
      assert ps[..j + 1][..j] == ps[..j];
      q := PushForProcess(q, ps[j], stock, visited, score);
    }
    assert ps[..|ps|] == ps;
  }

  // ---------------------------------------------------------------------
  // The search

  /** The queue is sorted by level and spans `level` and `level + 1`; nothing scored lies above `level`. */
  ghost predicate Ordered(queue: seq<(string, nat)>, scores: map<string, nat>, level: nat)
  {
    && (forall j :: 0 <= j < |queue| ==> level <= queue[j].1 <= level + 1)
    && (forall j, k :: 0 <= j < k < |queue| ==> queue[j].1 <= queue[k].1)
    && (forall k :: k in scores ==> scores[k] <= level)
  }

  /** An objective not yet scored waits at level 0, and only objectives are at level 0. */
  ghost predicate Rooted(objectives: seq<string>, queue: seq<(string, nat)>, scores: map<string, nat>)
  {
    && (forall o :: o in objectives ==> (o in scores && scores[o] == 0) || (o, 0) in queue)
    && (forall k :: k in scores && scores[k] == 0 ==> k in objectives)
    && (forall j :: 0 <= j < |queue| && queue[j].1 == 0 ==> queue[j].0 in objectives)
  }

  /** Every scored or queued entry above level 0 has a scored parent one level lower. */
  ghost predicate Parented(ps: seq<Process>, queue: seq<(string, nat)>, scores: map<string, nat>)
  {
    && (forall k :: k in scores && scores[k] > 0 ==> HasParent(ps, scores, k, scores[k]))
    && (forall j :: 0 <= j < |queue| && queue[j].1 > 0 ==> HasParent(ps, scores, queue[j].0, queue[j].1))
  }

  /** Every feeder of a scored stock is scored at most one level higher, or waits at exactly that level. */
  ghost predicate Closed(ps: seq<Process>, queue: seq<(string, nat)>, scores: map<string, nat>)
  {
    forall k, i :: k in scores && Feeds(ps, i, k) ==> (i in scores && scores[i] <= scores[k] + 1) || (i, scores[k] + 1) in queue
  }

  /** What holds between two dequeues, `level` being the last level dequeued. */
  ghost predicate Searching(ps: seq<Process>, objectives: seq<string>, queue: seq<(string, nat)>,
                            scores: map<string, nat>, level: nat)
  {
    Ordered(queue, scores, level) && Rooted(objectives, queue, scores)
      && Parented(ps, queue, scores) && Closed(ps, queue, scores)
  }

  /** Before the first dequeue: every objective queued at level 0, nothing scored. */
  lemma SearchStarts(ps: seq<Process>, objectives: seq<string>, queue: seq<(string, nat)>)
    requires |queue| == |objectives| && forall k :: 0 <= k < |queue| ==> queue[k] == (objectives[k], 0)
    ensures Searching(ps, objectives, queue, map[], 0)
  {
    forall o | o in objectives ensures (o, 0) in queue {
      var k :| 0 <= k < |objectives| && objectives[k] == o;
      assert queue[k] == (o, 0);
    }
  }

  /** With the queue empty, the table has its levels. */
  lemma SearchEnds(ps: seq<Process>, objectives: seq<string>, scores: map<string, nat>, level: nat)
    requires Searching(ps, objectives, [], scores, level)
    ensures Levels(ps, objectives, scores)
  {
  }

  /** Dequeuing a stock that is already scored. */
  lemma SkipStep(ps: seq<Process>, objectives: seq<string>, queue: seq<(string, nat)>, scores: map<string, nat>, level: nat)
    requires Searching(ps, objectives, queue, scores, level) && |queue| > 0 && queue[0].0 in scores
    ensures Searching(ps, objectives, queue[1..], scores, queue[0].1)
  {
    var rest, s := queue[1..], queue[0].1;
    forall j | 0 <= j < |rest| ensures s <= rest[j].1 <= s + 1 {
      assert rest[j] == queue[j + 1];
    }
    forall o | o in objectives && o !in scores ensures (o, 0) in rest {
      assert (o, 0) in queue && (o, 0) != queue[0];
    }
    forall k, i | k in scores && Feeds(ps, i, k) && !(i in scores && scores[i] <= scores[k] + 1)
      ensures (i, scores[k] + 1) in rest
    {
      assert (i, scores[k] + 1) in queue && (i, scores[k] + 1) != queue[0];
    }
  }

  lemma ParentKept(ps: seq<Process>, scores: map<string, nat>, x: string, s: nat, k: string, t: nat)
    requires x !in scores && HasParent(ps, scores, k, t)
    ensures HasParent(ps, scores[x := s], k, t)
  {
    var o :| o in scores && scores[o] + 1 == t && Feeds(ps, k, o);
    assert o in scores[x := s] && scores[x := s][o] == scores[o];
  }

  /** The entries scoring `x` queues: its unvisited feeders, one level above `s`. */
  lemma PushedEntries(ps: seq<Process>, scores: map<string, nat>, x: string, s: nat)
    ensures forall e :: e in Pushes(ps, x, scores[x := s].Keys, s + 1)
              ==> e.1 == s + 1 && e.0 !in scores && e.0 != x && Feeds(ps, e.0, x)
  {
    forall e | e in Pushes(ps, x, scores[x := s].Keys, s + 1)
      ensures e.1 == s + 1 && e.0 !in scores && e.0 != x && Feeds(ps, e.0, x)
    {
      PushesMembers(ps, x, scores[x := s].Keys, s + 1, e);
    }
  }

  lemma VisitOrdered(queue: seq<(string, nat)>, scores: map<string, nat>, level: nat, pushed: seq<(string, nat)>)
    requires Ordered(queue, scores, level) && |queue| > 0
    requires forall e :: e in pushed ==> e.1 == queue[0].1 + 1
    ensures Ordered(queue[1..] + pushed, scores[queue[0].0 := queue[0].1], queue[0].1)
  {
    var s, rest := queue[0].1, queue[1..];
    var q' := rest + pushed;
    forall j | 0 <= j < |q'| ensures s <= q'[j].1 <= s + 1 {
      if j < |rest| {
        assert q'[j] == queue[j + 1];
      } else {
        assert q'[j] in pushed;
      }
    }
    forall j, k | 0 <= j < k < |q'| ensures q'[j].1 <= q'[k].1 {
      if k < |rest| {
        assert q'[j] == queue[j + 1] && q'[k] == queue[k + 1];
      } else {
        assert q'[k] in pushed;
      }
    }
  }

  lemma VisitRooted(objectives: seq<string>, queue: seq<(string, nat)>, scores: map<string, nat>, level: nat,
                    x: string, s: nat, pushed: seq<(string, nat)>)
    requires Ordered(queue, scores, level) && Rooted(objectives, queue, scores)
    requires |queue| > 0 && queue[0] == (x, s) && x !in scores
    requires forall e :: e in pushed ==> e.1 == s + 1
    ensures Rooted(objectives, queue[1..] + pushed, scores[x := s])
  {
    var scores' := scores[x := s];
    var rest := queue[1..];
    var q' := rest + pushed;
    forall o | o in objectives ensures (o in scores' && scores'[o] == 0) || (o, 0) in q' {
      if o !in scores && (o, 0) != queue[0] {
        assert (o, 0) in queue;
        assert (o, 0) in rest;
      }
    }
    assert s == 0 ==> x in objectives;
    forall j | 0 <= j < |q'| && q'[j].1 == 0 ensures q'[j].0 in objectives {
      if j < |rest| {
        assert q'[j] == queue[j + 1];
      }
    }
  }

  lemma VisitParented(ps: seq<Process>, queue: seq<(string, nat)>, scores: map<string, nat>,
                      x: string, s: nat, pushed: seq<(string, nat)>)
    requires Parented(ps, queue, scores) && |queue| > 0 && queue[0] == (x, s) && x !in scores
    requires forall e :: e in pushed ==> e.1 == s + 1 && Feeds(ps, e.0, x)
    ensures Parented(ps, queue[1..] + pushed, scores[x := s])
  {
    var scores' := scores[x := s];
    var rest := queue[1..];
    var q' := rest + pushed;
    forall k | k in scores' && scores'[k] > 0 ensures HasParent(ps, scores', k, scores'[k]) {
      if k == x {
        ParentKept(ps, scores, x, s, x, s);
      } else {
        ParentKept(ps, scores, x, s, k, scores[k]);
      }
    }
    forall j | 0 <= j < |q'| && q'[j].1 > 0 ensures HasParent(ps, scores', q'[j].0, q'[j].1) {
      if j < |rest| {
        assert q'[j] == queue[j + 1];
        ParentKept(ps, scores, x, s, q'[j].0, q'[j].1);
      } else {
        assert q'[j] in pushed;
        assert x in scores' && scores'[x] + 1 == q'[j].1;
      }
    }
  }

  lemma VisitClosed(ps: seq<Process>, queue: seq<(string, nat)>, scores: map<string, nat>,
                    x: string, s: nat, pushed: seq<(string, nat)>)
    requires Closed(ps, queue, scores) && |queue| > 0 && queue[0] == (x, s) && x !in scores
    requires forall k :: k in scores ==> scores[k] <= s
    requires forall i :: Feeds(ps, i, x) && i !in scores && i != x ==> (i, s + 1) in pushed
    ensures Closed(ps, queue[1..] + pushed, scores[x := s])
  {
    var scores' := scores[x := s];
    var rest := queue[1..];
    var q' := rest + pushed;
    forall k, i | k in scores' && Feeds(ps, i, k)
      ensures (i in scores' && scores'[i] <= scores'[k] + 1) || (i, scores'[k] + 1) in q'
    {
      if k != x && !(i in scores && scores[i] <= scores[k] + 1) && (i, scores[k] + 1) != queue[0] {
        assert (i, scores[k] + 1) in queue;
        assert (i, scores[k] + 1) in rest;
      }
    }
  }

  /** Scoring `x` queues every unvisited feeder of `x`. */
  lemma PushedFeeders(ps: seq<Process>, scores: map<string, nat>, x: string, s: nat)
    ensures forall i :: Feeds(ps, i, x) && i !in scores && i != x ==> (i, s + 1) in Pushes(ps, x, scores[x := s].Keys, s + 1)
  {
    forall i | Feeds(ps, i, x) && i !in scores && i != x ensures (i, s + 1) in Pushes(ps, x, scores[x := s].Keys, s + 1) {
      PushesMembers(ps, x, scores[x := s].Keys, s + 1, (i, s + 1));
    }
  }

  /** Dequeuing a stock for the first time: it is scored and its unvisited feeders are queued. */
  lemma VisitStep(ps: seq<Process>, objectives: seq<string>, queue: seq<(string, nat)>, scores: map<string, nat>, level: nat,
                  x: string, s: nat)
    requires Searching(ps, objectives, queue, scores, level) && |queue| > 0 && queue[0] == (x, s) && x !in scores
    ensures Searching(ps, objectives, queue[1..] + Pushes(ps, x, scores[x := s].Keys, s + 1), scores[x := s], s)
  {
    var pushed := Pushes(ps, x, scores[x := s].Keys, s + 1);
    PushedEntries(ps, scores, x, s);
    PushedFeeders(ps, scores, x, s);
    VisitOrdered(queue, scores, level, pushed);
    VisitRooted(objectives, queue, scores, level, x, s, pushed);
    VisitParented(ps, queue, scores, x, s, pushed);
    assert queue[0].1 >= level;
    VisitClosed(ps, queue, scores, x, s, pushed);
  }

  /** Each entry scoring `x` queues is a stock the search may meet. */
  lemma PushedInUniverse(ps: seq<Process>, objectives: seq<string>, visited: set<string>, x: string, s: nat)
    ensures forall e :: e in Pushes(ps, x, visited, s) ==> e.0 in Universe(ps, objectives)
  {
    forall e | e in Pushes(ps, x, visited, s) ensures e.0 in Universe(ps, objectives) {
      PushesMembers(ps, x, visited, s, e);
      FeedsInUniverse(ps, objectives, e.0, x);
    }
  }

  /** The table of `precompute_stock_scores`. */
  method PrecomputeStockScores(data: Data) returns (scores: map<string, nat>)
    ensures Levels(data.processes, data.objectives, scores)
  {
    var ps, objectives := data.processes, data.objectives;
    scores := map[];
    var queue: seq<(string, nat)> := [];
    var visited: set<string> := {};
    for j := 0 to |objectives|
      invariant |queue| == j && forall k :: 0 <= k < j ==> queue[k] == (objectives[k], 0)
    {
      queue := queue + [(objectives[j], 0)];
    }
    ghost var level := 0;
    ghost var universe := Universe(ps, objectives);
    SearchStarts(ps, objectives, queue);
    while |queue| > 0
      invariant visited == scores.Keys <= universe
      invariant forall e :: e in queue ==> e.0 in universe
      invariant Searching(ps, objectives, queue, scores, level)
      decreases universe - visited, |queue|
    {
      var (current, score) := queue[0];
      assert queue[0] in queue;
      if current in visited {
        SkipStep(ps, objectives, queue, scores, level);
        queue, level := queue[1..], score;
        continue;
      }
      VisitStep(ps, objectives, queue, scores, level, current, score);
      ghost var before := visited;
      visited := visited + {current};
      scores := scores[current := score];
      PushedInUniverse(ps, objectives, visited, current, score + 1);
      queue := PushFeeders(queue[1..], ps, current, visited, score + 1);
      level := score;
      assert current in universe - before && current !in universe - visited;
    }
    SearchEnds(ps, objectives, scores, level);
  }

  // ---------------------------------------------------------------------
  // What a level means

  /** No backward chain is shorter than the level of the stock it reaches. */
  lemma {:induction false} LevelAtMostChain(ps: seq<Process>, objectives: seq<string>, scores: map<string, nat>, path: seq<string>)
    requires Levels(ps, objectives, scores) && Chain(ps, objectives, path)
    ensures path[|path| - 1] in scores && scores[path[|path| - 1]] <= |path| - 1
  {
    if |path| > 1 {
      var pre := path[..|path| - 1];
      assert Chain(ps, objectives, pre) by {
        forall j | 0 < j < |pre| ensures Feeds(ps, pre[j], pre[j - 1]) {
          assert pre[j] == path[j] && pre[j - 1] == path[j - 1];
        }
      }
      LevelAtMostChain(ps, objectives, scores, pre);
      assert Feeds(ps, path[|path| - 1], pre[|pre| - 1]);
    }
  }

  /** A scored stock above level 0 is fed into a stock one level below it. */
  lemma {:induction false} ParentOf(ps: seq<Process>, objectives: seq<string>, scores: map<string, nat>, k: string)
    returns (o: string)
    requires Levels(ps, objectives, scores) && k in scores && scores[k] > 0
    ensures o in scores && scores[o] + 1 == scores[k] && Feeds(ps, k, o)
  {
    assert HasParent(ps, scores, k, scores[k]);
    o :| o in scores && scores[o] + 1 == scores[k] && Feeds(ps, k, o);
  }

  /** A backward chain grows by a stock that feeds its last one. */
  lemma {:induction false} ChainExtend(ps: seq<Process>, objectives: seq<string>, pre: seq<string>, k: string)
    requires Chain(ps, objectives, pre) && Feeds(ps, k, pre[|pre| - 1])
    ensures Chain(ps, objectives, pre + [k])
  {
    var path := pre + [k];
    forall j | 0 < j < |path| ensures Feeds(ps, path[j], path[j - 1]) {
      if j < |pre| {
        assert path[j] == pre[j] && path[j - 1] == pre[j - 1];
      }
    }
  }

  /** Every scored stock is reached by a backward chain exactly as long as its level. */
  lemma {:induction false} ChainOfLevel(ps: seq<Process>, objectives: seq<string>, scores: map<string, nat>, k: string)
    returns (path: seq<string>)
    requires Levels(ps, objectives, scores) && k in scores
    ensures Chain(ps, objectives, path) && path[|path| - 1] == k && |path| == scores[k] + 1
    decreases scores[k]
  {
    if scores[k] == 0 {
      path := [k];
    } else {
      var o := ParentOf(ps, objectives, scores, k);
      var pre := ChainOfLevel(ps, objectives, scores, o);
      ChainExtend(ps, objectives, pre, k);
      path := pre + [k];
    }
  }

  /**
   * The table holds exactly the stocks some backward chain reaches, each at the
   * length of the shortest such chain.
   */
  lemma LevelIsShortestChain(ps: seq<Process>, objectives: seq<string>, scores: map<string, nat>, k: string)
    requires Levels(ps, objectives, scores)
    ensures k in scores <==> exists path :: Chain(ps, objectives, path) && path[|path| - 1] == k
    ensures k in scores ==>
              && (exists path :: Chain(ps, objectives, path) && path[|path| - 1] == k && |path| == scores[k] + 1)
              && (forall path :: Chain(ps, objectives, path) && path[|path| - 1] == k ==> scores[k] + 1 <= |path|)
  {
    if k in scores {
      var path := ChainOfLevel(ps, objectives, scores, k);
    }
    forall path | Chain(ps, objectives, path) && path[|path| - 1] == k ensures k in scores && scores[k] + 1 <= |path| {
      LevelAtMostChain(ps, objectives, scores, path);
    }
  }
}
