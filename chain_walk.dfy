/**
 * The combination step shared by `Criteria.getQueryBuilder` and
 * `Criteria.getFilterBuilder`: the links of a criteria chain are visited in
 * insertion order, each contributes one tree, and the trees are gathered into
 * the `must` and `should` lists of one boolean node.  The tree of a FIRST link
 * is held back until the next link decides where it goes (with an AND-like
 * link into `must`, with an OR-like link into `should`); a tree still held at
 * the end goes into `must`.
 */
module ChainWalk {
  import opened Common

  /** Criteria.ConjunctionOperator */
  datatype Conj = First | And | Or | AndSub | OrSub
  {
    /** The linked criteria contributes its whole chain rather than its own leaf. */
    predicate IsSub() { this == AndSub || this == OrSub }

    predicate JoinsMust() { this == And || this == AndSub }
  }

  /** The state of the walk: the two lists built so far and the held FIRST tree. */
  datatype Acc<T> = Acc(must: seq<T>, should: seq<T>, pending: Option<T>)

  function Held<T>(p: Option<T>): seq<T>
  {
    if p.Some? then [p.value] else []
  }

  /** One iteration of the loop over the chain's entries. */
  function Step<T>(acc: Acc<T>, op: Conj, t: T): Acc<T>
  {
    match op
    case First => acc.(pending := Some(t))
    case And | AndSub => Acc(acc.must + Held(acc.pending) + [t], acc.should, None)
    case Or | OrSub => Acc(acc.must, acc.should + Held(acc.pending) + [t], None)
  }

  /** The walk over the first |ops| links, `ts` being their trees. */
  function Fold<T>(ops: seq<Conj>, ts: seq<T>): Acc<T>
    requires |ops| == |ts|
    decreases |ops|
  {
    if ops == [] then Acc([], [], None)
    else Step(Fold(ops[..|ops| - 1], ts[..|ts| - 1]), ops[|ops| - 1], ts[|ts| - 1])
  }

  /** The `must` list after the trailing "only one element" step. */
  function Musts<T>(acc: Acc<T>): seq<T>
  {
    acc.must + Held(acc.pending)
  }

  /** Extending the walk by one link is one more `Step`. */
  lemma FoldSnoc<T>(ops: seq<Conj>, ts: seq<T>, op: Conj, t: T)
    requires |ops| == |ts|
    ensures Fold(ops + [op], ts + [t]) == Step(Fold(ops, ts), op, t)
  {
    assert (ops + [op])[..|ops|] == ops;
    assert (ts + [t])[..|ts|] == ts;
  }

  /** A FIRST link followed by one more: both trees go to the list the second link's operator selects. */
  lemma TwoLinkFold<T>(op: Conj, a: T, b: T)
    requires op != First
    ensures var acc := Fold([First, op], [a, b]);
      && Musts(acc) == (if op.JoinsMust() then [a, b] else [])
      && acc.should == (if op.JoinsMust() then [] else [a, b])
  {
    FoldSnoc([], [], First, a);
    FoldSnoc([First], [a], op, b);
    assert [] + [First] == [First] && [First] + [op] == [First, op];
    assert [] + [a] == [a] && [a] + [b] == [a, b];
  }

  /**
   * A chain as the fluent API builds it: its creator's FIRST link, then
   * only AND / OR / AND_SUBCRITERIA / OR_SUBCRITERIA links.
   */
  predicate Rooted(ops: seq<Conj>)
  {
    |ops| > 0 && ops[0] == First && forall i :: 0 < i < |ops| ==> ops[i] != First
  }

  /**
   * Reference routing, independent of the walk: a link's tree goes to `must`
   * when its own operator is AND-like; the FIRST tree follows the operator of
   * the link after it, and goes to `must` when it stands alone.
   */
  predicate RoutedToMust(ops: seq<Conj>, i: nat)
    requires i < |ops|
  {
    if ops[i] == First then i + 1 == |ops| || ops[i + 1].JoinsMust() else ops[i].JoinsMust()
  }

  /** The trees among the first n whose routing is `toMust`, in chain order. */
  function Select<T>(ops: seq<Conj>, ts: seq<T>, toMust: bool, n: nat): seq<T>
    requires n <= |ops| == |ts|
  {
    if n == 0 then []
    else Select(ops, ts, toMust, n - 1) + (if RoutedToMust(ops, n - 1) == toMust then [ts[n - 1]] else [])
  }

  /** Every tree is routed to exactly one of the two lists. */
  lemma {:induction false} SelectPartition<T>(ops: seq<Conj>, ts: seq<T>, n: nat)
    requires n <= |ops| == |ts|
    ensures |Select(ops, ts, true, n)| + |Select(ops, ts, false, n)| == n
  {
    if n > 0 {
      SelectPartition(ops, ts, n - 1);
    }
  }

  /** The walk over a prefix of a rooted chain: after the second link nothing is held any more. */
  lemma {:induction false} FoldPrefix<T>(ops: seq<Conj>, ts: seq<T>, n: nat)
    requires Rooted(ops) && |ops| == |ts| && 2 <= n <= |ops|
    ensures Fold(ops[..n], ts[..n]) == Acc(Select(ops, ts, true, n), Select(ops, ts, false, n), None)
  {
    if n == 2 {
      FoldFirstTwo(ops, ts);
    } else {
      FoldPrefix(ops, ts, n - 1);
      FoldPrefixStep(ops, ts, n);
    }
  }

  /** The first two links: the held FIRST tree is released to the list the second link selects. */
  lemma FoldFirstTwo<T>(ops: seq<Conj>, ts: seq<T>)
    requires Rooted(ops) && |ops| == |ts| && 2 <= |ops|
    ensures Fold(ops[..2], ts[..2]) == Acc(Select(ops, ts, true, 2), Select(ops, ts, false, 2), None)
  {
    assert ops[..1] == [] + [First] && ts[..1] == [] + [ts[0]];
    FoldSnoc([], [], First, ts[0]);
    assert ops[..2] == ops[..1] + [ops[1]] && ts[..2] == ts[..1] + [ts[1]];
    FoldSnoc(ops[..1], ts[..1], ops[1], ts[1]);
    assert Select(ops, ts, true, 1) == (if RoutedToMust(ops, 0) then [ts[0]] else []);
    assert Select(ops, ts, false, 1) == (if RoutedToMust(ops, 0) then [] else [ts[0]]);
  }

  /** A later link goes straight to the list its own operator selects. */
  lemma FoldPrefixStep<T>(ops: seq<Conj>, ts: seq<T>, n: nat)
    requires Rooted(ops) && |ops| == |ts| && 3 <= n <= |ops|
    requires Fold(ops[..n - 1], ts[..n - 1]) == Acc(Select(ops, ts, true, n - 1), Select(ops, ts, false, n - 1), None)
    ensures Fold(ops[..n], ts[..n]) == Acc(Select(ops, ts, true, n), Select(ops, ts, false, n), None)
  {
    assert ops[..n] == ops[..n - 1] + [ops[n - 1]] && ts[..n] == ts[..n - 1] + [ts[n - 1]];
    FoldSnoc(ops[..n - 1], ts[..n - 1], ops[n - 1], ts[n - 1]);
    assert ops[n - 1] != First;
  }

  /**
   * The walk over a whole rooted chain agrees with the reference routing:
   * the `must` and `should` lists are exactly the trees routed there, in chain order.
   */
  lemma RootedFold<T>(ops: seq<Conj>, ts: seq<T>)
    requires Rooted(ops) && |ops| == |ts|
    ensures Musts(Fold(ops, ts)) == Select(ops, ts, true, |ops|)
    ensures Fold(ops, ts).should == Select(ops, ts, false, |ops|)
  {
    if |ops| == 1 {
      assert ops == [] + [First] && ts == [] + [ts[0]];
      FoldSnoc([], [], First, ts[0]);
    } else {
      FoldPrefix(ops, ts, |ops|);
      assert ops[..|ops|] == ops && ts[..|ts|] == ts;
    }
  }
}
