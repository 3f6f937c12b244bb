/** Fluent chains such as
      root->property('project')->property('repositories')->key(0)->end()->end()
    as a sequence of calls, each made on the node the previous one returned,
    with the first failure aborting the rest; and what such chains keep true
    of paths and contexts. */
module Chains {
  import opened Wrappers
  import opened Values
  import opened Paths
  import opened Constraints
  import opened ObjectAsserter

  /** One call in a chain. */
  datatype Step =
    | PropertyStep(name: string, constraint: Arg)
    | KeyStep(index: ArrayKey, constraint: Arg)
    | IsStep(constraint: Arg)
    | IsArrayStep
    | IsObjectStep
    | EndStep

  /** Calls that descend one level. */
  predicate Descends(s: Step) {
    s.PropertyStep? || s.KeyStep?
  }

  function Apply(n: Node, s: Step): Outcome {
    match s
    case PropertyStep(name, a) => Property(n, name, a)
    case KeyStep(index, a) => Key(n, index, a)
    case IsStep(a) => Is(n, a)
    case IsArrayStep => IsArray(n)
    case IsObjectStep => IsObject(n)
    case EndStep => Ok(End(n))
  }

  /** Runs the calls left to right; a failing call ends the chain. */
  function Run(n: Node, steps: seq<Step>): Outcome
    decreases |steps|
  {
    if |steps| == 0 then Ok(n)
    else
      var next :- Apply(n, steps[0]);
      Run(next, steps[1..])
  }

  /** Number of `end()` calls that lead from `n` to the root. */
  function Depth(n: Node): nat {
    match n.context
    case None => 0
    case Some(p) => Depth(p) + 1
  }

  /** The root a node descends from. */
  function Top(n: Node): Node {
    match n.context
    case None => n
    case Some(p) => Top(p)
  }

  /** `end()` called `k` times. */
  function EndN(n: Node, k: nat): Node {
    if k == 0 then n else EndN(End(n), k - 1)
  }

  /** The shape every node reached from a root has: the root's path is
      exactly "$root", and each other node's path is its creator's path with
      one token appended. */
  ghost predicate WellFormed(n: Node) {
    match n.context
    case None => n.path == [RootToken]
    case Some(p) =>
      && WellFormed(p)
      && |n.path| == |p.path| + 1
      && n.path[..|p.path|] == p.path
  }

  /** Composing chains: running `a + b` is running `a`, then `b` on the node
      `a` returned, unless `a` already failed. */
  lemma {:induction false} RunAppend(n: Node, a: seq<Step>, b: seq<Step>)
    ensures Run(n, a + b) == (match Run(n, a) case Ok(m) => Run(m, b) case Fail(e) => Fail(e))
    decreases |a|
  {
    if |a| == 0 {
      assert a + b == b;
    } else {
      assert (a + b)[1..] == a[1..] + b;
      match Apply(n, a[0])
      case Fail(_) =>
      case Ok(next) => RunAppend(next, a[1..], b);
    }
  }

  /** A failing chain reports the failure of its first failing call, made on
      the node that the calls before it returned. */
  lemma {:induction false} FirstFailure(n: Node, steps: seq<Step>)
    requires Run(n, steps).Fail?
    ensures exists k ::
      && 0 <= k < |steps|
      && Run(n, steps[..k]).Ok?
      && Apply(Run(n, steps[..k]).value, steps[k]) == Run(n, steps)
    decreases |steps|
  {
    assert steps[..0] == [];
    match Apply(n, steps[0])
    case Fail(_) =>
      assert Run(n, steps[..0]) == Ok(n);
      assert Apply(Run(n, steps[..0]).value, steps[0]) == Run(n, steps);
    case Ok(next) =>
      assert Run(n, steps) == Run(next, steps[1..]);
      FirstFailure(next, steps[1..]);
      var k :| 0 <= k < |steps[1..]| && Run(next, steps[1..][..k]).Ok? &&
        Apply(Run(next, steps[1..][..k]).value, steps[1..][k]) == Run(next, steps[1..]);
      assert steps[..k + 1][0] == steps[0];
      assert steps[..k + 1][1..] == steps[1..][..k];
      assert Run(n, steps[..k + 1]) == Run(next, steps[1..][..k]);
      assert steps[k + 1] == steps[1..][k];
      assert Apply(Run(n, steps[..k + 1]).value, steps[k + 1]) == Run(n, steps);
  }

  /** `is`, `isArray` and `isObject` return the node they were called on, so
      a run of them passes the node through unchanged. */
  lemma {:induction false} ChecksStayPut(n: Node, steps: seq<Step>)
    requires forall i :: 0 <= i < |steps| ==> steps[i].IsStep? || steps[i].IsArrayStep? || steps[i].IsObjectStep?
    requires Run(n, steps).Ok?
    ensures Run(n, steps).value == n
    decreases |steps|
  {
    if |steps| > 0 {
      ChecksStayPut(n, steps[1..]);
    }
  }

  /** Every call keeps a node well formed and keeps the root it descends
      from; the root a chain starts at is well formed. */
  lemma ApplyPreservesWellFormed(n: Node, s: Step)
    requires WellFormed(n) && Apply(n, s).Ok?
    ensures WellFormed(Apply(n, s).value)
    ensures Top(Apply(n, s).value) == Top(n)
  {
  }

  /** A root is well formed and is its own top. */
  lemma RootWellFormed(v: Value)
    requires Root(v).Ok?
    ensures WellFormed(Root(v).value) && Top(Root(v).value) == Root(v).value
    ensures Depth(Root(v).value) == 0
  {
  }

  /** Whole chains keep a node well formed and never leave its root. */
  lemma {:induction false} RunPreservesWellFormed(n: Node, steps: seq<Step>)
    requires WellFormed(n) && Run(n, steps).Ok?
    ensures WellFormed(Run(n, steps).value)
    ensures Top(Run(n, steps).value) == Top(n)
    decreases |steps|
  {
    if |steps| > 0 {
      var next := Apply(n, steps[0]).value;
      ApplyPreservesWellFormed(n, steps[0]);
      RunPreservesWellFormed(next, steps[1..]);
    }
  }

  /** The path only grows by appending: the node `k` levels up holds the
      first `|path| - k` tokens, the path length is one more than the depth,
      and every path starts with "$root". */
  lemma {:induction false} AncestorPathIsPrefix(n: Node, k: nat)
    requires WellFormed(n) && k <= Depth(n)
    ensures |n.path| == Depth(n) + 1
    ensures EndN(n, k).path == n.path[..|n.path| - k]
    ensures n.path[0] == RootToken
    decreases n
  {
    match n.context
    case None =>
    case Some(p) =>
      AncestorPathIsPrefix(p, if k == 0 then 0 else k - 1);
      if k > 0 {
        assert n.path[..|n.path| - k] == p.path[..|p.path| - (k - 1)];
      }
  }

  /** `end()` called depth-many times reaches the root, and further calls stay
      there: the root is its own context. */
  lemma {:induction false} EndReachesTop(n: Node, extra: nat)
    ensures EndN(n, Depth(n) + extra) == Top(n)
    ensures Top(n).context.None? && End(Top(n)) == Top(n)
    decreases n, extra
  {
    match n.context
    case None =>
      if extra > 0 {
        EndReachesTop(n, extra - 1);
      }
    case Some(p) =>
      EndReachesTop(p, extra);
  }

  /** Anything a chain from a root reaches goes back to that root after
      depth-many `end()` calls, and its rendered path starts with "$root". */
  lemma ChainFromRoot(v: Value, steps: seq<Step>)
    requires Root(v).Ok? && Run(Root(v).value, steps).Ok?
    ensures var m := Run(Root(v).value, steps).value;
            EndN(m, Depth(m)) == Root(v).value && RootToken <= PathOf(m)
  {
    var root := Root(v).value;
    var m := Run(root, steps).value;
    RootWellFormed(v);
    RunPreservesWellFormed(root, steps);
    EndReachesTop(m, 0);
    AncestorPathIsPrefix(m, 0);
    RenderSingle(RootToken);
    PrefixRendersAsPrefix(m.path, 1);
    assert m.path[..1] == [RootToken];
  }

  /** Number of descending calls in a chain. */
  function Descents(steps: seq<Step>): nat {
    if |steps| == 0 then 0
    else (if Descends(steps[0]) then 1 else 0) + Descents(steps[1..])
  }

  lemma {:induction false} EndNSucc(n: Node, k: nat)
    ensures EndN(n, k + 1) == End(EndN(n, k))
    decreases k
  {
    if k > 0 {
      EndNSucc(End(n), k - 1);
    }
  }

  /** Descend-then-return: after a chain of `property`, `key` and checks,
      one `end()` per descent leads back to the node the chain started at. */
  lemma {:induction false} DescentsUndoneByEnd(n: Node, steps: seq<Step>)
    requires forall i :: 0 <= i < |steps| ==> !steps[i].EndStep?
    requires Run(n, steps).Ok?
    ensures EndN(Run(n, steps).value, Descents(steps)) == n
    decreases |steps|
  {
    if |steps| > 0 {
      var next := Apply(n, steps[0]).value;
      assert Run(n, steps) == Run(next, steps[1..]);
      DescentsUndoneByEnd(next, steps[1..]);
      var m := Run(n, steps).value;
      if Descends(steps[0]) {
        assert Descents(steps) == Descents(steps[1..]) + 1;
        assert End(next) == n;
        EndNSucc(m, Descents(steps[1..]));
      } else {
        assert Descents(steps) == Descents(steps[1..]);
        assert next == n;
      }
    }
  }

  /** The explicit round trip of the two descending calls. */
  lemma DescendThenEnd(n: Node, s: Step)
    requires Descends(s) && Apply(n, s).Ok?
    ensures Run(n, [s, EndStep]) == Ok(n)
  {
    var next := Apply(n, s).value;
    assert End(next) == n;
    assert [s, EndStep][1..] == [EndStep];
    assert Run(next, [EndStep]) == Run(n, []);
  }
}
