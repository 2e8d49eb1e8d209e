/**
 * The two list-building patterns the client's loops follow: keeping what a
 * per-item extraction yields (`FilterMap`), and concatenating the results of
 * pages 1..k until the first failure (`Gather`).
 */
module Sequences {

  import opened Wrappers

  function AsSeq<T>(o: Option<T>): (r: seq<T>)
    ensures |r| <= 1
  {
    match o
    case Some(x) => [x]
    case None => []
  }

  /** The values `f` yields on the items of `xs`, in order; items it yields nothing for are skipped. */
  function FilterMap<A, B>(f: A -> Option<B>, xs: seq<A>): (r: seq<B>)
    ensures |r| <= |xs|
  {
    if xs == [] then []
    else FilterMap(f, xs[..|xs| - 1]) + AsSeq(f(xs[|xs| - 1]))
  }

  /** A prefix one item longer is the prefix with that item appended. */
  lemma TakeOneMore<T>(xs: seq<T>, i: nat)
    requires i < |xs|
    ensures xs[..i + 1] == xs[..i] + [xs[i]]
  {
  }

  /** Appending one item appends what it yields. */
  lemma FilterMapSnoc<A, B>(f: A -> Option<B>, xs: seq<A>, x: A)
    ensures FilterMap(f, xs + [x]) == FilterMap(f, xs) + AsSeq(f(x))
  {
    var ys := xs + [x];
    assert ys[..|ys| - 1] == xs;
    assert ys[|ys| - 1] == x;
  }

  /** Order is kept: the items of a split list are processed part by part. */
  lemma {:induction false} FilterMapAppend<A, B>(f: A -> Option<B>, a: seq<A>, b: seq<A>)
    ensures FilterMap(f, a + b) == FilterMap(f, a) + FilterMap(f, b)
    decreases |b|
  {
    if b == [] {
      assert a + b == a;
    } else {
      var front, x := b[..|b| - 1], b[|b| - 1];
      assert b == front + [x];
      assert a + b == (a + front) + [x];
      FilterMapAppend(f, a, front);
      calc {
        FilterMap(f, a + b);
        { FilterMapSnoc(f, a + front, x); }
        FilterMap(f, a + front) + AsSeq(f(x));
        (FilterMap(f, a) + FilterMap(f, front)) + AsSeq(f(x));
        FilterMap(f, a) + (FilterMap(f, front) + AsSeq(f(x)));
        { FilterMapSnoc(f, front, x); }
        FilterMap(f, a) + FilterMap(f, b);
      }
    }
  }

  /** A value is in the result exactly when some item yields it. */
  lemma {:induction false} FilterMapMembership<A, B>(f: A -> Option<B>, xs: seq<A>, y: B)
    ensures y in FilterMap(f, xs) <==> exists i | 0 <= i < |xs| :: f(xs[i]) == Some(y)
    decreases |xs|
  {
    if xs != [] {
      var n := |xs| - 1;
      var front := xs[..n];
      FilterMapMembership(f, front, y);
      assert FilterMap(f, xs) == FilterMap(f, front) + AsSeq(f(xs[n]));
      assert forall i | 0 <= i < n :: front[i] == xs[i];
    }
  }

  /** When `f` yields something on every item, nothing is skipped. */
  lemma {:induction false} FilterMapTotal<A, B>(f: A -> Option<B>, xs: seq<A>)
    requires forall i | 0 <= i < |xs| :: f(xs[i]).Some?
    ensures |FilterMap(f, xs)| == |xs|
    ensures forall i | 0 <= i < |xs| :: FilterMap(f, xs)[i] == f(xs[i]).value
    decreases |xs|
  {
    if xs != [] {
      var front := xs[..|xs| - 1];
      FilterMapTotal(f, front);
      forall i | 0 <= i < |xs| ensures FilterMap(f, xs)[i] == f(xs[i]).value {
        if i < |front| {
          assert front[i] == xs[i];
        }
      }
    }
  }

  /** `f` applied to every item, in order. */
  function Map<A, B>(f: A -> B, xs: seq<A>): (r: seq<B>)
    ensures |r| == |xs|
  {
    if xs == [] then [] else Map(f, xs[..|xs| - 1]) + [f(xs[|xs| - 1])]
  }

  /** Item `i` of the result is `f` of item `i`. */
  lemma {:induction false} MapAt<A, B>(f: A -> B, xs: seq<A>)
    ensures forall i | 0 <= i < |xs| :: Map(f, xs)[i] == f(xs[i])
    decreases |xs|
  {
    if xs != [] {
      var front := xs[..|xs| - 1];
      MapAt(f, front);
      assert forall i | 0 <= i < |front| :: front[i] == xs[i];
    }
  }

  /** Appending one item appends its image. */
  lemma MapSnoc<A, B>(f: A -> B, xs: seq<A>, x: A)
    ensures Map(f, xs + [x]) == Map(f, xs) + [f(x)]
  {
    assert (xs + [x])[..|xs|] == xs;
  }

  /** Regrouping three concatenated pieces. */
  lemma Regroup3<T>(a: seq<T>, b: seq<T>, c: seq<T>)
    ensures a + b + c == a + (b + c)
  {
  }

  /** Regrouping four concatenated pieces. */
  lemma Regroup<T>(a: seq<T>, b: seq<T>, c: seq<T>, d: seq<T>)
    ensures a + b + c + d == a + (b + c + d)
  {
    calc {
      a + b + c + d;
      a + (b + c) + d;
      a + (b + c + d);
    }
  }

  /** `f(n, x)` for the n-th item `x`, counting from 1. */
  function Numbered<A, B>(f: (nat, A) -> B, xs: seq<A>): (r: seq<B>)
    ensures |r| == |xs|
  {
    if xs == [] then [] else Numbered(f, xs[..|xs| - 1]) + [f(|xs|, xs[|xs| - 1])]
  }

  /** Item `i` (counting from 0) becomes `f(i + 1, xs[i])`. */
  lemma {:induction false} NumberedAt<A, B>(f: (nat, A) -> B, xs: seq<A>)
    ensures forall i | 0 <= i < |xs| :: Numbered(f, xs)[i] == f(i + 1, xs[i])
    decreases |xs|
  {
    if xs != [] {
      var front := xs[..|xs| - 1];
      NumberedAt(f, front);
      assert forall i | 0 <= i < |front| :: front[i] == xs[i];
    }
  }

  /** One more item is numbered one past the items before it. */
  lemma NumberedSnoc<A, B>(f: (nat, A) -> B, xs: seq<A>, x: A)
    ensures Numbered(f, xs + [x]) == Numbered(f, xs) + [f(|xs| + 1, x)]
  {
    assert (xs + [x])[..|xs|] == xs;
  }

  /** The blocks `f(n, x)` of the items, numbered from 1, concatenated in order. */
  function NumberedBlocks<A, B>(f: (nat, A) -> seq<B>, xs: seq<A>): seq<B> {
    if xs == [] then [] else NumberedBlocks(f, xs[..|xs| - 1]) + f(|xs|, xs[|xs| - 1])
  }

  /** One more item adds its block, numbered one past the items before it. */
  lemma NumberedBlocksSnoc<A, B>(f: (nat, A) -> seq<B>, xs: seq<A>, x: A)
    ensures NumberedBlocks(f, xs + [x]) == NumberedBlocks(f, xs) + f(|xs| + 1, x)
  {
    assert (xs + [x])[..|xs|] == xs;
  }

  /** The blocks of a prefix of the items begin the blocks of all of them. */
  lemma {:induction false} NumberedBlocksPrefix<A, B>(f: (nat, A) -> seq<B>, xs: seq<A>, k: nat)
    requires k <= |xs|
    ensures var p, q := NumberedBlocks(f, xs[..k]), NumberedBlocks(f, xs);
      |p| <= |q| && q[..|p|] == p
    decreases |xs| - k
  {
    if k < |xs| {
      NumberedBlocksPrefix(f, xs, k + 1);
      NumberedBlocksSnoc(f, xs[..k], xs[k]);
      assert xs[..k] + [xs[k]] == xs[..k + 1];
    } else {
      assert xs[..k] == xs;
    }
  }

  /** Item `k` (counting from 0) is rendered as block `k + 1`, right after the blocks of the items before it. */
  lemma NumberedBlockAt<A, B>(f: (nat, A) -> seq<B>, xs: seq<A>, k: nat)
    requires k < |xs|
    ensures var o, b, q := |NumberedBlocks(f, xs[..k])|, f(k + 1, xs[k]), NumberedBlocks(f, xs);
      o + |b| <= |q| && q[o..o + |b|] == b
  {
    NumberedBlocksPrefix(f, xs, k + 1);
    NumberedBlocksSnoc(f, xs[..k], xs[k]);
    assert xs[..k] + [xs[k]] == xs[..k + 1];
    var p := NumberedBlocks(f, xs[..k + 1]);
    var q := NumberedBlocks(f, xs);
    var o, b := |NumberedBlocks(f, xs[..k])|, f(k + 1, xs[k]);
    assert p[o..o + |b|] == b;
    assert q[..|p|] == p;
    assert q[o..o + |b|] == p[o..o + |b|];
  }

  /** Pages 1..k taken in ascending order and concatenated; the first failing page ends it. */
  function Gather<T, E>(pages: nat -> Result<seq<T>, E>, k: nat): Result<seq<T>, E> {
    if k == 0 then Success([])
    else
      match Gather(pages, k - 1)
      case Failure(e) => Failure(e)
      case Success(prefix) =>
        match pages(k)
        case Failure(e) => Failure(e)
        case Success(items) => Success(prefix + items)
  }

  /** One more page that loads extends the gathered items by its items. */
  lemma GatherLoaded<T, E>(pages: nat -> Result<seq<T>, E>, k: nat, prefix: seq<T>, items: seq<T>)
    requires Gather(pages, k) == Success(prefix) && pages(k + 1) == Success(items)
    ensures Gather(pages, k + 1) == Success(prefix + items)
  {
  }

  /** One more page that fails ends the gathering with its failure. */
  lemma GatherFailed<T, E>(pages: nat -> Result<seq<T>, E>, k: nat, prefix: seq<T>, e: E)
    requires Gather(pages, k) == Success(prefix) && pages(k + 1) == Failure(e)
    ensures Gather(pages, k + 1) == Failure(e)
  {
  }

  /** Once a page fails, gathering more pages returns that same failure. */
  lemma {:induction false} GatherFailurePersists<T, E>(pages: nat -> Result<seq<T>, E>, j: nat, k: nat)
    requires j <= k && Gather(pages, j).Failure?
    ensures Gather(pages, k) == Gather(pages, j)
    decreases k
  {
    if j < k {
      GatherFailurePersists(pages, j, k - 1);
    }
  }

  /** Gathering k pages succeeds exactly when each of pages 1..k succeeds. */
  lemma {:induction false} GatherSucceedsIffPagesLoad<T, E>(pages: nat -> Result<seq<T>, E>, k: nat)
    ensures Gather(pages, k).Success? <==> forall n | 1 <= n <= k :: pages(n).Success?
    decreases k
  {
    if k > 0 {
      GatherSucceedsIffPagesLoad(pages, k - 1);
    }
  }

  /** A failed gathering reports the failure of the first page that failed. */
  lemma {:induction false} GatherFailureIsFirst<T, E>(pages: nat -> Result<seq<T>, E>, k: nat)
    requires Gather(pages, k).Failure?
    ensures exists n | 1 <= n <= k ::
      pages(n) == Failure(Gather(pages, k).error) && Gather(pages, n - 1).Success?
    decreases k
  {
    if Gather(pages, k - 1).Failure? {
      GatherFailureIsFirst(pages, k - 1);
      var n :| 1 <= n <= k - 1 && pages(n) == Failure(Gather(pages, k - 1).error) && Gather(pages, n - 1).Success?;
      assert pages(n) == Failure(Gather(pages, k).error);
    } else {
      assert pages(k) == Failure(Gather(pages, k).error);
    }
  }

  /** Results arrive in page order: the first j pages' results begin the first k pages' results. */
  lemma {:induction false} GatherPrefix<T, E>(pages: nat -> Result<seq<T>, E>, j: nat, k: nat)
    requires j <= k && Gather(pages, k).Success?
    ensures Gather(pages, j).Success?
    ensures var p, q := Gather(pages, j).value, Gather(pages, k).value;
      |p| <= |q| && q[..|p|] == p
    decreases k
  {
    if j < k {
      GatherPrefix(pages, j, k - 1);
      var p := Gather(pages, j).value;
      var m := Gather(pages, k - 1).value;
      var q := Gather(pages, k).value;
      assert q[..|m|] == m;
      assert q[..|p|] == m[..|p|];
    }
  }

  /**
   * Gathering k pages fails exactly when one of pages 1..k fails, and then
   * with the first failure; when it succeeds, page 1's items come first.
   */
  lemma GatherSpec<T, E>(pages: nat -> Result<seq<T>, E>, k: nat)
    ensures Gather(pages, k).Failure? <==> exists n | 1 <= n <= k :: pages(n).Failure?
    ensures Gather(pages, k).Failure? ==>
      exists n | 1 <= n <= k :: pages(n) == Failure(Gather(pages, k).error) && Gather(pages, n - 1).Success?
    ensures Gather(pages, k).Success? && 1 <= k ==>
      && pages(1).Success?
      && var p, q := pages(1).value, Gather(pages, k).value;
        |p| <= |q| && q[..|p|] == p
  {
    GatherSucceedsIffPagesLoad(pages, k);
    if Gather(pages, k).Failure? {
      GatherFailureIsFirst(pages, k);
    } else if 1 <= k {
      GatherPrefix(pages, 1, k);
      assert Gather(pages, 1).value == [] + pages(1).value;
    }
  }
}
