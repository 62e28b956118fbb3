/** Dense matrices with abstract entries, the block arithmetic of the
    multi-user channel, and the numerical routines the interference-alignment
    solver calls, reduced to what they promise about shapes. */
module Matrices {

  import opened Wrappers

  /** A `rows` x `cols` matrix stored row by row. The entries are of an
      abstract type: nothing in the model depends on their values. */
  datatype Mat<E> = Mat(rows: nat, cols: nat, data: seq<seq<E>>)

  /** The stored rows agree with the declared shape. */
  predicate WellFormed<E>(m: Mat<E>)
  {
    |m.data| == m.rows && forall i :: 0 <= i < |m.data| ==> |m.data[i]| == m.cols
  }

  predicate Shaped<E>(m: Mat<E>, rows: nat, cols: nat)
  {
    WellFormed(m) && m.rows == rows && m.cols == cols
  }

  /** numpy's `m[r0:r1, c0:c1]` for in-range bounds. */
  function SubMatrix<E>(m: Mat<E>, r0: nat, r1: nat, c0: nat, c1: nat): (b: Mat<E>)
    requires WellFormed(m) && r0 <= r1 <= m.rows && c0 <= c1 <= m.cols
    ensures Shaped(b, r1 - r0, c1 - c0)
    ensures forall i, j :: 0 <= i < r1 - r0 && 0 <= j < c1 - c0 ==> b.data[i][j] == m.data[r0 + i][c0 + j]
  {
    Mat(r1 - r0, c1 - c0, seq(r1 - r0, i requires 0 <= i < r1 - r0 => m.data[r0 + i][c0..c1]))
  }

  /** numpy's `hstack([a, b])`: the columns of `a` followed by those of `b`. */
  function HStack<E>(a: Mat<E>, b: Mat<E>): (r: Mat<E>)
    requires WellFormed(a) && WellFormed(b) && a.rows == b.rows
    ensures Shaped(r, a.rows, a.cols + b.cols)
    ensures forall i, j :: 0 <= i < a.rows && 0 <= j < a.cols ==> r.data[i][j] == a.data[i][j]
    ensures forall i, j :: 0 <= i < a.rows && 0 <= j < b.cols ==> r.data[i][a.cols + j] == b.data[i][j]
  {
    Mat(a.rows, a.cols + b.cols, seq(a.rows, i requires 0 <= i < a.rows => a.data[i] + b.data[i]))
  }

  /** numpy's `m[0:n]`: the first `n` rows (all of them when `n` is larger). */
  function TopRows<E>(m: Mat<E>, n: nat): (r: Mat<E>)
    requires WellFormed(m)
    ensures Shaped(r, if n <= m.rows then n else m.rows, m.cols)
    ensures forall i :: 0 <= i < r.rows ==> r.data[i] == m.data[i]
  {
    var k := if n <= m.rows then n else m.rows;
    Mat(k, m.cols, m.data[..k])
  }

  // ---------------------------------------------------------------------
  // Antenna counts and their running sums
  // ---------------------------------------------------------------------

  /** numpy's `sum` of a vector of counts. */
  function Sum(s: seq<nat>): (r: nat)
  {
    if s == [] then 0 else Sum(s[..|s| - 1]) + s[|s| - 1]
  }

  /** Every count is at most the total, and the total is zero exactly when
      every count is. */
  lemma {:induction false} SumBounds(s: seq<nat>)
    ensures forall i :: 0 <= i < |s| ==> s[i] <= Sum(s)
    ensures Sum(s) == 0 <==> forall i :: 0 <= i < |s| ==> s[i] == 0
  {
    if s != [] {
      var init := s[..|s| - 1];
      SumBounds(init);
      assert forall i :: 0 <= i < |init| ==> init[i] == s[i];
    }
  }

  /** `hstack([0, cumsum(s)])`: the running sums of `s`, starting at zero. */
  function Prefix(s: seq<nat>): (p: seq<nat>)
    ensures |p| == |s| + 1
    ensures p[0] == 0 && p[|s|] == Sum(s)
    ensures forall k {:trigger s[k]} :: 0 <= k < |s| ==> p[k + 1] == p[k] + s[k]
    ensures forall k :: 0 <= k <= |s| ==> p[k] <= Sum(s)
  {
    if s == [] then [0] else Prefix(s[..|s| - 1]) + [Sum(s)]
  }

  /** Running sums never decrease. */
  lemma {:induction false} PrefixMonotone(s: seq<nat>, a: nat, b: nat)
    requires a <= b <= |s|
    ensures Prefix(s)[a] <= Prefix(s)[b]
    decreases b - a
  {
    if a < b {
      assert Prefix(s)[a + 1] == Prefix(s)[a] + s[a];
      PrefixMonotone(s, a + 1, b);
    }
  }

  /** Every position below the total lies in exactly one of the intervals
      [Prefix(s)[k], Prefix(s)[k+1]): it is found here, and `PrefixSlotUnique`
      shows no other interval holds it. */
  function PrefixSlot(s: seq<nat>, x: nat): (k: nat)
    requires x < Sum(s)
    ensures k < |s| && Prefix(s)[k] <= x < Prefix(s)[k + 1]
    decreases |s|
  {
    if x < Sum(s[..|s| - 1]) then PrefixSlot(s[..|s| - 1], x) else |s| - 1
  }

  lemma PrefixSlotUnique(s: seq<nat>, x: nat, k: nat, k': nat)
    requires k < |s| && Prefix(s)[k] <= x < Prefix(s)[k + 1]
    requires k' < |s| && Prefix(s)[k'] <= x < Prefix(s)[k' + 1]
    ensures k == k'
  {
    if k < k' {
      PrefixMonotone(s, k + 1, k');
    } else if k' < k {
      PrefixMonotone(s, k' + 1, k);
    }
  }

  /** `x` lies in the k-th interval [Prefix(s)[k], Prefix(s)[k] + s[k]). */
  predicate InSlot(s: seq<nat>, k: nat, x: nat)
  {
    k < |s| && Prefix(s)[k] <= x < Prefix(s)[k] + s[k]
  }

  /** The interval `PrefixSlot` finds is the one and only interval holding `x`. */
  lemma PrefixSlotOnly(s: seq<nat>, x: nat)
    requires x < Sum(s)
    ensures forall k' :: InSlot(s, k', x) <==> k' == PrefixSlot(s, x)
  {
    var k := PrefixSlot(s, x);
    assert Prefix(s)[k + 1] == Prefix(s)[k] + s[k];
    forall k': nat | InSlot(s, k', x) ensures k' == k {
      assert Prefix(s)[k' + 1] == Prefix(s)[k'] + s[k'];
      PrefixSlotUnique(s, x, k, k');
    }
  }

  /** A count given either once for every user or as one number per user,
      as `randomize` and `randomizeF` accept them. */
  datatype Counts = Each(n: nat) | PerUser(counts: seq<nat>)

  /** `np.ones(K) * n` for a single count; a per-user list is kept as given. */
  function Broadcast(c: Counts, users: nat): (s: seq<nat>)
    ensures c.Each? ==> |s| == users && forall k :: 0 <= k < users ==> s[k] == c.n
    ensures c.PerUser? ==> s == c.counts
  {
    match c
    case Each(n) => seq(users, _ => n)
    case PerUser(counts) => counts
  }

  // ---------------------------------------------------------------------
  // Numerical routines the solver relies on, by their shapes only
  // ---------------------------------------------------------------------

  /** The complex linear algebra of the solver: random Gaussian draws,
      products, conjugate transposes, sums, identities, zeros, Frobenius
      normalisation, the dominant and least dominant eigenvectors, and the
      inverse (None for a singular matrix). `randn(d, rows, cols)` is the
      d-th draw from numpy's global generator: every draw has its own
      number, so the model never equates two draws. */
  datatype Kernel<!E(!new)> = Kernel(
    randn: (nat, nat, nat) -> Mat<E>,
    dot: (Mat<E>, Mat<E>) -> Mat<E>,
    adjoint: Mat<E> -> Mat<E>,
    add: (Mat<E>, Mat<E>) -> Mat<E>,
    sub: (Mat<E>, Mat<E>) -> Mat<E>,
    eye: nat -> Mat<E>,
    zeros: (nat, nat) -> Mat<E>,
    normalize: Mat<E> -> Mat<E>,
    peig: (Mat<E>, nat) -> Mat<E>,
    leig: (Mat<E>, nat) -> Mat<E>,
    inv: Mat<E> -> Option<Mat<E>>)
  {
    /** What each routine promises about the shape of its result. */
    ghost predicate Sound()
    {
      && (forall d: nat, r: nat, c: nat {:trigger randn(d, r, c)} :: Shaped(randn(d, r, c), r, c))
      && (forall a: Mat<E>, b: Mat<E> {:trigger dot(a, b)} :: WellFormed(a) && WellFormed(b) && a.cols == b.rows ==> Shaped(dot(a, b), a.rows, b.cols))
      && (forall a: Mat<E> {:trigger adjoint(a)} :: WellFormed(a) ==> Shaped(adjoint(a), a.cols, a.rows))
      && (forall a: Mat<E>, b: Mat<E> {:trigger add(a, b)} :: Shaped(a, b.rows, b.cols) && WellFormed(b) ==> Shaped(add(a, b), a.rows, a.cols))
      && (forall a: Mat<E>, b: Mat<E> {:trigger sub(a, b)} :: Shaped(a, b.rows, b.cols) && WellFormed(b) ==> Shaped(sub(a, b), a.rows, a.cols))
      && (forall n: nat {:trigger eye(n)} :: Shaped(eye(n), n, n))
      && (forall r: nat, c: nat {:trigger zeros(r, c)} :: Shaped(zeros(r, c), r, c))
      && (forall a: Mat<E> {:trigger normalize(a)} :: WellFormed(a) ==> Shaped(normalize(a), a.rows, a.cols))
      && (forall a: Mat<E>, n: nat {:trigger peig(a, n)} :: Shaped(a, a.rows, a.rows) && n <= a.rows ==> Shaped(peig(a, n), a.rows, n))
      && (forall a: Mat<E>, n: nat {:trigger leig(a, n)} :: Shaped(a, a.rows, a.rows) && n <= a.rows ==> Shaped(leig(a, n), a.rows, n))
      && (forall a: Mat<E> {:trigger inv(a)} :: Shaped(a, a.rows, a.rows) && inv(a).Some? ==> Shaped(inv(a).value, a.rows, a.rows))
    }
  }
}
