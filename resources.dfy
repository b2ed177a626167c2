/**
 * The resource-flow model shared by every strategy and by the trace verifier:
 * stock snapshots, processes, and the one "fire a process n times" transition
 * that the source re-implements in each strategy.
 */
module Resources {

  import opened Wrappers

  /** A stock snapshot: stock name to quantity. A name that is not a key reads as 0. */
  type Stocks = map<string, nat>

  /** A process: consumes `input`, produces `output`, takes `time` units. */
  datatype Process = Process(id: string, input: seq<(string, nat)>, output: seq<(string, nat)>, time: nat)

  /** The problem: initial stocks, the processes in declaration order, and the objective names. */
  datatype Data = Data(stocks: Stocks, processes: seq<Process>, objectives: seq<string>)

  /** One entry of a strategy's execution log: process id, run count, time stamp. */
  datatype LogRecord = LogRecord(id: string, count: nat, time: nat)

  const U64_MAX: nat := 0xFFFF_FFFF_FFFF_FFFF

  function Get(s: Stocks, name: string): nat
  {
    if name in s then s[name] else 0
  }

  /** The names an input or output list mentions. */
  function Names(items: seq<(string, nat)>): set<string>
  {
    set i | 0 <= i < |items| :: items[i].0
  }

  predicate DistinctNames(items: seq<(string, nat)>)
  {
    forall i, j :: 0 <= i < j < |items| ==> items[i].0 != items[j].0
  }

  predicate PositiveAmounts(items: seq<(string, nat)>)
  {
    forall i :: 0 <= i < |items| ==> items[i].1 > 0
  }

  /**
   * What the firings of the model require: an input list names each stock once
   * and asks for a positive amount of it. The source checks neither. Where it
   * tests inputs entry by entry, a repeated input underflows the subtraction
   * (the A* and IDA* guard skips that count instead). A zero amount divides by
   * zero where the source computes `stock / amount`, and unwraps an absent key
   * where it tests availability with an absent stock counting as 0.
   */
  predicate ValidProcess(p: Process)
  {
    DistinctNames(p.input) && PositiveAmounts(p.input)
  }

  predicate ValidProcesses(ps: seq<Process>)
  {
    forall i :: 0 <= i < |ps| ==> ValidProcess(ps[i])
  }

  /** Total amount of `name` in an input or output list. */
  function Amount(items: seq<(string, nat)>, name: string): nat
  {
    if |items| == 0 then 0
    else Amount(items[..|items| - 1], name) + (if items[|items| - 1].0 == name then items[|items| - 1].1 else 0)
  }

  /** `n` runs are affordable when every input times `n` is available; an absent stock counts as 0. */
  predicate Covers(s: Stocks, items: seq<(string, nat)>, n: nat)
  {
    forall i :: 0 <= i < |items| ==> Get(s, items[i].0) >= items[i].1 * n
  }

  /** The stricter reading of SGS and ACO: an absent input stock makes the process not runnable. */
  predicate Holds(s: Stocks, items: seq<(string, nat)>)
  {
    forall i :: 0 <= i < |items| ==> items[i].0 in s && s[items[i].0] >= items[i].1
  }

  function Put(s: Stocks, name: string, q: nat): Stocks
  {
    s[name := Get(s, name) + q]
  }

  /** Subtraction that stops at 0; under the firing guards it never has to (see ConsumeGet). */
  function Take(s: Stocks, name: string, q: nat): Stocks
  {
    s[name := if Get(s, name) >= q then Get(s, name) - q else 0]
  }

  /** Subtract `amount * n` for each input entry, in list order. */
  function Consume(s: Stocks, items: seq<(string, nat)>, n: nat): Stocks
  {
    if |items| == 0 then s
    else Take(Consume(s, items[..|items| - 1], n), items[|items| - 1].0, items[|items| - 1].1 * n)
  }

  /** Add `amount * n` for each output entry, creating absent stocks at 0 first. */
  function Produce(s: Stocks, items: seq<(string, nat)>, n: nat): Stocks
  {
    if |items| == 0 then s
    else Put(Produce(s, items[..|items| - 1], n), items[|items| - 1].0, items[|items| - 1].1 * n)
  }

  /** Fire `p` `n` times at once: inputs first, then outputs. */
  function Fire(s: Stocks, p: Process, n: nat): Stocks
  {
    Produce(Consume(s, p.input, n), p.output, n)
  }

  /** The largest n that `Covers`: the minimum of available / amount over the inputs. */
  function MinRuns(s: Stocks, items: seq<(string, nat)>): nat
    requires |items| > 0 && PositiveAmounts(items)
  {
    var last := Get(s, items[|items| - 1].0) / items[|items| - 1].1;
    if |items| == 1 then last
    else
      var rest := MinRuns(s, items[..|items| - 1]);
      if rest <= last then rest else last
  }

  /** Sum of the objective stocks' quantities, each list entry counted, absent counting as 0. */
  function ObjectiveValue(s: Stocks, objectives: seq<string>): nat
  {
    if |objectives| == 0 then 0
    else ObjectiveValue(s, objectives[..|objectives| - 1]) + Get(s, objectives[|objectives| - 1])
  }

  /** The first process whose id is `id`, as `iter().find` returns it. */
  function Find(ps: seq<Process>, id: string): (r: Option<Process>)
    ensures r.Some? ==> r.value in ps && r.value.id == id
    ensures r.Some? ==> exists k :: 0 <= k < |ps| && ps[k] == r.value && forall j :: 0 <= j < k ==> ps[j].id != id
    ensures r.None? <==> forall i :: 0 <= i < |ps| ==> ps[i].id != id
    decreases |ps|
  {
    if |ps| == 0 then None
    else if ps[0].id == id then Some(ps[0])
    else Find(ps[1..], id)
  }


  // ---------------------------------------------------------------------
  // Lemmas about the firing transition

  lemma NamesPrefix(items: seq<(string, nat)>)
    requires |items| > 0
    ensures Names(items) == Names(items[..|items| - 1]) + {items[|items| - 1].0}
  {
    var pre := items[..|items| - 1];
    forall x | x in Names(items) ensures x in Names(pre) + {items[|items| - 1].0} {
      var i :| 0 <= i < |items| && items[i].0 == x;
      if i < |items| - 1 { assert pre[i].0 == x; }
    }
    forall x | x in Names(pre) ensures x in Names(items) {
      var i :| 0 <= i < |pre| && pre[i].0 == x;
      assert items[i].0 == x;
    }
  }

  /** Consuming keeps every key and adds the input names (a zero-saturated entry still appears). */
  lemma {:induction false} ConsumeKeys(s: Stocks, items: seq<(string, nat)>, n: nat)
    ensures Consume(s, items, n).Keys == s.Keys + Names(items)
  {
    if |items| > 0 {
      ConsumeKeys(s, items[..|items| - 1], n);
      NamesPrefix(items);
    }
  }

  lemma {:induction false} ProduceKeys(s: Stocks, items: seq<(string, nat)>, n: nat)
    ensures Produce(s, items, n).Keys == s.Keys + Names(items)
  {
    if |items| > 0 {
      ProduceKeys(s, items[..|items| - 1], n);
      NamesPrefix(items);
    }
  }

  lemma {:induction false} AmountAbsent(items: seq<(string, nat)>, name: string)
    requires name !in Names(items)
    ensures Amount(items, name) == 0
  {
    if |items| > 0 {
      NamesPrefix(items);
      AmountAbsent(items[..|items| - 1], name);
    }
  }

  /** In a list of distinct names, the last name does not occur earlier. */
  lemma LastNotInPrefix(items: seq<(string, nat)>)
    requires DistinctNames(items) && |items| > 0
    ensures items[|items| - 1].0 !in Names(items[..|items| - 1])
  {
    var pre := items[..|items| - 1];
    forall j | 0 <= j < |pre| ensures pre[j].0 != items[|items| - 1].0 {
      assert pre[j] == items[j];
    }
  }

  lemma AmountStep(items: seq<(string, nat)>, name: string, n: nat)
    requires |items| > 0
    ensures Amount(items, name) * n
         == Amount(items[..|items| - 1], name) * n + (if items[|items| - 1].0 == name then items[|items| - 1].1 * n else 0)
  {
    var x, y := Amount(items[..|items| - 1], name), (if items[|items| - 1].0 == name then items[|items| - 1].1 else 0);
    assert Amount(items, name) == x + y;
    Distrib(x, y, n);
  }

  lemma Distrib(x: nat, y: nat, n: nat)
    ensures (x + y) * n == x * n + y * n
    ensures n * (x + y) == n * x + n * y
  {
  }

  /** With distinct names, the amount of an entry's name is that entry's amount. */
  lemma {:induction false} AmountAt(items: seq<(string, nat)>, i: nat)
    requires DistinctNames(items) && i < |items|
    ensures Amount(items, items[i].0) == items[i].1
  {
    var pre := items[..|items| - 1];
    if i == |items| - 1 {
      LastNotInPrefix(items);
      AmountAbsent(pre, items[i].0);
    } else {
      AmountAt(pre, i);
      assert pre[i] == items[i];
    }
  }

  /** Covers, read entry by entry, bounds the total amount of every name (names being distinct). */
  lemma CoversAmount(s: Stocks, items: seq<(string, nat)>, n: nat, name: string)
    requires DistinctNames(items) && Covers(s, items, n)
    ensures Get(s, name) >= Amount(items, name) * n
  {
    if name in Names(items) {
      var i :| 0 <= i < |items| && items[i].0 == name;
      AmountAt(items, i);
    } else {
      AmountAbsent(items, name);
    }
  }

  /** Under the guard, consumption subtracts exactly `Amount * n` from each stock and never saturates. */
  lemma {:induction false} ConsumeGet(s: Stocks, items: seq<(string, nat)>, n: nat, name: string)
    requires DistinctNames(items) && Covers(s, items, n)
    ensures Get(Consume(s, items, n), name) + Amount(items, name) * n == Get(s, name)
  {
    if |items| > 0 {
      var pre := items[..|items| - 1];
      var (k, a) := items[|items| - 1];
      assert DistinctNames(pre) && Covers(s, pre, n);
      ConsumeGet(s, pre, n, name);
      if k == name {
        ConsumeGet(s, pre, n, k);
        LastNotInPrefix(items);
        AmountAbsent(pre, k);
        assert Get(s, k) >= a * n;
      }
      AmountStep(items, name, n);
    }
  }

  lemma {:induction false} ProduceGet(s: Stocks, items: seq<(string, nat)>, n: nat, name: string)
    ensures Get(Produce(s, items, n), name) == Get(s, name) + Amount(items, name) * n
  {
    if |items| > 0 {
      var pre := items[..|items| - 1];
      var (k, a) := items[|items| - 1];
      ProduceGet(s, pre, n, name);
      AmountStep(items, name, n);
    }
  }

  /** The effect of a covered firing on one stock: minus inputs times n, plus outputs times n. */
  lemma FireGet(s: Stocks, p: Process, n: nat, name: string)
    requires DistinctNames(p.input) && Covers(s, p.input, n)
    ensures Get(Fire(s, p, n), name) + Amount(p.input, name) * n == Get(s, name) + Amount(p.output, name) * n
  {
    ConsumeGet(s, p.input, n, name);
    ProduceGet(Consume(s, p.input, n), p.output, n, name);
  }

  /** A firing's key set: the old keys plus every input and output name. */
  lemma FireKeys(s: Stocks, p: Process, n: nat)
    ensures Fire(s, p, n).Keys == s.Keys + Names(p.input) + Names(p.output)
  {
    ConsumeKeys(s, p.input, n);
    ProduceKeys(Consume(s, p.input, n), p.output, n);
  }

  /** With positive amounts, one covered run means every input stock is present. */
  lemma CoversPresent(s: Stocks, items: seq<(string, nat)>, n: nat)
    requires PositiveAmounts(items) && n > 0 && Covers(s, items, n)
    ensures Names(items) <= s.Keys
  {
    forall x | x in Names(items) ensures x in s {
      var i :| 0 <= i < |items| && items[i].0 == x;
      assert items[i].1 * n > 0;
    }
  }

  /** The two readings of "runnable once" agree when amounts are positive. */
  lemma HoldsIffCovers(s: Stocks, items: seq<(string, nat)>)
    requires PositiveAmounts(items)
    ensures Holds(s, items) <==> Covers(s, items, 1)
  {
    if Covers(s, items, 1) {
      forall i | 0 <= i < |items| ensures items[i].0 in s && s[items[i].0] >= items[i].1 {
        assert Get(s, items[i].0) >= items[i].1 * 1;
      }
    }
  }

  /** Two stock maps are equal when they have the same keys and read the same everywhere. */
  lemma StocksExt(a: Stocks, b: Stocks)
    requires a.Keys == b.Keys
    requires forall k :: Get(a, k) == Get(b, k)
    ensures a == b
  {
    forall k | k in a ensures a[k] == b[k] {
      assert Get(a, k) == Get(b, k);
    }
  }

  lemma CoversLess(s: Stocks, items: seq<(string, nat)>, n1: nat, n2: nat)
    requires Covers(s, items, n1 + n2)
    ensures Covers(s, items, n1)
  {
    forall i | 0 <= i < |items| ensures Get(s, items[i].0) >= items[i].1 * n1 {
      MulMono(items[i].1, n1, n1 + n2);
    }
  }

  /** After n1 of n1 + n2 covered runs, the other n2 are still covered. */
  lemma FireLeavesRest(s: Stocks, p: Process, n1: nat, n2: nat)
    requires DistinctNames(p.input) && Covers(s, p.input, n1 + n2)
    ensures Covers(Fire(s, p, n1), p.input, n2)
  {
    CoversLess(s, p.input, n1, n2);
    forall i | 0 <= i < |p.input| ensures Get(Fire(s, p, n1), p.input[i].0) >= p.input[i].1 * n2 {
      FireGet(s, p, n1, p.input[i].0);
      AmountAt(p.input, i);
      Distrib(n1, n2, p.input[i].1);
    }
  }

  /** Firing n1 runs and then n2 runs is firing n1 + n2 runs at once. */
  lemma FireLinear(s: Stocks, p: Process, n1: nat, n2: nat)
    requires ValidProcess(p) && Covers(s, p.input, n1 + n2)
    ensures Covers(Fire(s, p, n1), p.input, n2)
    ensures Fire(Fire(s, p, n1), p, n2) == Fire(s, p, n1 + n2)
  {
    var s1 := Fire(s, p, n1);
    CoversLess(s, p.input, n1, n2);
    FireLeavesRest(s, p, n1, n2);
    var lhs := Fire(s1, p, n2);
    var rhs := Fire(s, p, n1 + n2);
    FireKeys(s, p, n1);
    FireKeys(s1, p, n2);
    FireKeys(s, p, n1 + n2);
    forall k ensures Get(lhs, k) == Get(rhs, k) {
      FireGet(s, p, n1, k);
      FireGet(s1, p, n2, k);
      FireGet(s, p, n1 + n2, k);
      Distrib(n1, n2, Amount(p.input, k));
      Distrib(n1, n2, Amount(p.output, k));
    }
    StocksExt(lhs, rhs);
  }

  /** For a positive divisor, q * a <= g exactly when q <= g / a. */
  lemma DivBound(g: nat, a: nat, q: nat)
    requires a > 0
    ensures a * q <= g <==> q <= g / a
  {
    var d := g / a;
    assert g == a * d + g % a;
    if q <= d {
      assert a * q <= a * d by { MulMono(a, q, d); }
    } else {
      assert a * (d + 1) <= a * q by { MulMono(a, d + 1, q); }
      assert a * (d + 1) == a * d + a;
    }
  }

  lemma MulMono(a: nat, x: nat, y: nat)
    requires x <= y
    ensures a * x <= a * y
  {
    assert a * y == a * x + a * (y - x);
  }

  /** `MinRuns` is the largest run count that the snapshot covers. */
  lemma {:induction false} MinRunsCovers(s: Stocks, items: seq<(string, nat)>, n: nat)
    requires |items| > 0 && PositiveAmounts(items)
    ensures Covers(s, items, n) <==> n <= MinRuns(s, items)
  {
    var (k, a) := items[|items| - 1];
    DivBound(Get(s, k), a, n);
    assert a * n == items[|items| - 1].1 * n;
    if |items| > 1 {
      var pre := items[..|items| - 1];
      MinRunsCovers(s, pre, n);
      assert Covers(s, items, n) <==> Covers(s, pre, n) && Get(s, k) >= a * n by {
        if Covers(s, pre, n) && Get(s, k) >= a * n {
          forall i | 0 <= i < |items| ensures Get(s, items[i].0) >= items[i].1 * n {
            if i < |pre| { assert items[i] == pre[i]; }
          }
        }
      }
    }
  }

  /** More stock never means fewer feasible runs. */
  lemma MinRunsMonotone(s: Stocks, t: Stocks, items: seq<(string, nat)>)
    requires |items| > 0 && PositiveAmounts(items)
    requires forall k :: Get(s, k) <= Get(t, k)
    ensures MinRuns(s, items) <= MinRuns(t, items)
  {
    var m := MinRuns(s, items);
    MinRunsCovers(s, items, m);
    MinRunsCovers(t, items, m);
  }

  // ---------------------------------------------------------------------
  // The per-entry loops every strategy writes for a firing

  /** Before entry `i` is subtracted, its stock still holds what the snapshot held. */
  lemma ConsumeUntouched(s: Stocks, items: seq<(string, nat)>, n: nat, i: nat)
    requires DistinctNames(items) && Covers(s, items, n) && i < |items|
    ensures Get(Consume(s, items[..i], n), items[i].0) == Get(s, items[i].0)
  {
    var pre := items[..i];
    assert items[..i + 1][..i] == pre;
    assert DistinctNames(items[..i + 1]);
    LastNotInPrefix(items[..i + 1]);
    assert DistinctNames(pre) && Covers(s, pre, n);
    ConsumeGet(s, pre, n, items[i].0);
    AmountAbsent(pre, items[i].0);
  }

  /**
   * The input loop of a firing, `*stocks.get_mut(name).unwrap() -= amount * n`:
   * under the availability guard every input stock is present and large enough,
   * so neither the unwrap nor the subtraction can fail.
   */
  method ConsumeChecked(s: Stocks, items: seq<(string, nat)>, n: nat) returns (r: Stocks)
    requires DistinctNames(items) && PositiveAmounts(items) && n > 0 && Covers(s, items, n)
    ensures r == Consume(s, items, n)
  {
    r := s;
    var i := 0;
    while i < |items|
      invariant 0 <= i <= |items|
      invariant r == Consume(s, items[..i], n)
    {
      assert items[..i + 1][..i] == items[..i];
      var (name, amount) := items[i];
      ConsumeUntouched(s, items, n, i);
      assert amount * n > 0;
      r := r[name := r[name] - amount * n];
      i := i + 1;
    }
    assert items[..i] == items;
  }

  /** The output loop of a firing, `*stocks.entry(name).or_insert(0) += amount * n`. */
  method ProduceEntries(s: Stocks, items: seq<(string, nat)>, n: nat) returns (r: Stocks)
    ensures r == Produce(s, items, n)
  {
    r := s;
    var j := 0;
    while j < |items|
      invariant 0 <= j <= |items|
      invariant r == Produce(s, items[..j], n)
    {
      assert items[..j + 1][..j] == items[..j];
      var (name, amount) := items[j];
      r := r[name := Get(r, name) + amount * n];
      j := j + 1;
    }
    assert items[..j] == items;
  }

  /** Both loops of a covered firing: inputs out first, then outputs in. */
  method ApplyFiring(s: Stocks, p: Process, n: nat) returns (r: Stocks)
    requires ValidProcess(p) && n > 0 && Covers(s, p.input, n)
    ensures r == Fire(s, p, n)
  {
    r := ConsumeChecked(s, p.input, n);
    r := ProduceEntries(r, p.output, n);
  }
}
