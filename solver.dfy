/** `AlternatingMinIASolver` of ia/ia.py: per-user precoders F, interference
    bases C and receive filters W, updated in turn by the alternating
    minimisation. The numerical routines are the shape-only `Kernel`, so
    what is modelled and proved here is the dimension bookkeeping. */
module Solver {

  import opened Wrappers
  import opened Matrices
  import opened Channel

  // ---------------------------------------------------------------------
  // The quantities one step computes, as functions of the solver's state
  // ---------------------------------------------------------------------

  /** A consistent channel of |nr| users with one stream count per user,
      at most both antenna counts of that user. */
  predicate Antennas<E>(h: Mat<E>, nr: seq<nat>, nt: seq<nat>, ns: seq<nat>)
  {
    && Shaped(h, Sum(nr), Sum(nt))
    && |nr| == |nt| == |ns|
    && forall l :: 0 <= l < |ns| ==> ns[l] <= nr[l] && ns[l] <= nt[l]
  }

  /** One precoder per user, F[l] of shape Nt[l] x Ns[l]. */
  predicate PrecodersShaped<E>(nt: seq<nat>, ns: seq<nat>, f: seq<Mat<E>>)
    requires |ns| == |nt|
  {
    |f| == |nt| && forall l :: 0 <= l < |f| ==> Shaped(f[l], nt[l], ns[l])
  }

  predicate Dims<E>(h: Mat<E>, nr: seq<nat>, nt: seq<nat>, f: seq<Mat<E>>, ns: seq<nat>)
  {
    Antennas(h, nr, nt, ns) && PrecodersShaped(nt, ns, f)
  }

  /** C[k] spans Nr[k] - Ns[k] dimensions of the Nr[k]-dimensional receive
      space of user k. */
  predicate BasesShaped<E>(nr: seq<nat>, ns: seq<nat>, c: seq<Mat<E>>)
    requires |ns| == |nr|
    requires forall k :: 0 <= k < |nr| ==> ns[k] <= nr[k]
  {
    |c| == |nr| && forall k :: 0 <= k < |c| ==> Shaped(c[k], nr[k], nr[k] - ns[k])
  }

  /** The interference covariance at receiver k from transmitters 0 to
      upto-1, the receiver's own transmitter excluded: the sum of
      (H_kl F_l)(H_kl F_l)^H, an Nr[k] x Nr[k] matrix. */
  function CovC<E(!new)>(kr: Kernel<E>, h: Mat<E>, nr: seq<nat>, nt: seq<nat>, f: seq<Mat<E>>,
                         ns: seq<nat>, k: nat, upto: nat): (m: Mat<E>)
    requires kr.Sound() && Dims(h, nr, nt, f, ns) && k < |nr| && upto <= |nr|
    ensures Shaped(m, nr[k], nr[k])
    decreases upto
  {
    if upto == 0 then kr.zeros(nr[k], nr[k])
    else
      var prev := CovC(kr, h, nr, nt, f, ns, k, upto - 1);
      var l := upto - 1;
      if l == k then prev
      else
        var hf := kr.dot(Block(h, nr, nt, k, l), f[l]);
        kr.add(prev, kr.dot(hf, kr.adjoint(hf)))
  }

  /** The new interference basis of receiver k: the Nr[k] - Ns[k] dominant
      eigenvectors of its interference covariance. */
  function Basis<E(!new)>(kr: Kernel<E>, h: Mat<E>, nr: seq<nat>, nt: seq<nat>, f: seq<Mat<E>>,
                          ns: seq<nat>, k: nat): (b: Mat<E>)
    requires kr.Sound() && Dims(h, nr, nt, f, ns) && k < |nr|
    ensures Shaped(b, nr[k], nr[k] - ns[k])
  {
    kr.peig(CovC(kr, h, nr, nt, f, ns, k, |nr|), nr[k] - ns[k])
  }

  /** The new interference bases of all receivers. */
  function NewC<E(!new)>(kr: Kernel<E>, h: Mat<E>, nr: seq<nat>, nt: seq<nat>, f: seq<Mat<E>>,
                         ns: seq<nat>): (c: seq<Mat<E>>)
    requires kr.Sound() && Dims(h, nr, nt, f, ns)
    ensures BasesShaped(nr, ns, c)
  {
    seq(|nr|, k requires 0 <= k < |nr| => Basis(kr, h, nr, nt, f, ns, k))
  }

  /** I - C C^H, the projector onto the complement of the interference
      subspace of a receiver with n antennas. */
  function Projector<E(!new)>(kr: Kernel<E>, c: Mat<E>, n: nat): (y: Mat<E>)
    requires kr.Sound() && WellFormed(c) && c.rows == n
    ensures Shaped(y, n, n)
  {
    kr.sub(kr.eye(n), kr.dot(c, kr.adjoint(c)))
  }

  /** The leakage covariance at transmitter l towards receivers 0 to
      upto-1, its own receiver excluded: the sum of H_kl^H Y_k H_kl, an
      Nt[l] x Nt[l] matrix. */
  function CovF<E(!new)>(kr: Kernel<E>, h: Mat<E>, nr: seq<nat>, nt: seq<nat>, y: seq<Mat<E>>,
                         l: nat, upto: nat): (m: Mat<E>)
    requires kr.Sound() && Shaped(h, Sum(nr), Sum(nt)) && |nr| == |nt| == |y|
    requires forall k :: 0 <= k < |y| ==> Shaped(y[k], nr[k], nr[k])
    requires l < |nt| && upto <= |nt|
    ensures Shaped(m, nt[l], nt[l])
    decreases upto
  {
    if upto == 0 then kr.zeros(nt[l], nt[l])
    else
      var prev := CovF(kr, h, nr, nt, y, l, upto - 1);
      var k := upto - 1;
      if k == l then prev
      else kr.add(prev, Leakage(kr, h, nr, nt, y[k], k, l))
  }

  /** H_kl^H Y_k H_kl: what transmitter l leaks into the signal space
      receiver k keeps. */
  function Leakage<E(!new)>(kr: Kernel<E>, h: Mat<E>, nr: seq<nat>, nt: seq<nat>, yk: Mat<E>, k: nat, l: nat): (m: Mat<E>)
    requires kr.Sound() && Shaped(h, Sum(nr), Sum(nt)) && |nr| == |nt| && k < |nr| && l < |nt|
    requires Shaped(yk, nr[k], nr[k])
    ensures Shaped(m, nt[l], nt[l])
  {
    var lh := Block(h, nr, nt, k, l);
    kr.dot(kr.dot(kr.adjoint(lh), yk), lh)
  }

  /** The projectors of all receivers. */
  function Projectors<E(!new)>(kr: Kernel<E>, nr: seq<nat>, c: seq<Mat<E>>): (y: seq<Mat<E>>)
    requires kr.Sound() && |c| == |nr| && forall k :: 0 <= k < |c| ==> WellFormed(c[k]) && c[k].rows == nr[k]
    ensures |y| == |nr| && forall k :: 0 <= k < |y| ==> Shaped(y[k], nr[k], nr[k])
  {
    seq(|nr|, k requires 0 <= k < |nr| => Projector(kr, c[k], nr[k]))
  }

  /** The new precoder of transmitter l: the Ns[l] least dominant
      eigenvectors of its leakage covariance, an Nt[l] x Ns[l] matrix. */
  function Precoder<E(!new)>(kr: Kernel<E>, h: Mat<E>, nr: seq<nat>, nt: seq<nat>, ns: seq<nat>,
                             y: seq<Mat<E>>, l: nat): (f: Mat<E>)
    requires kr.Sound() && Antennas(h, nr, nt, ns) && |y| == |nr|
    requires forall k :: 0 <= k < |y| ==> Shaped(y[k], nr[k], nr[k])
    requires l < |nt|
    ensures Shaped(f, nt[l], ns[l])
  {
    kr.leig(CovF(kr, h, nr, nt, y, l, |nt|), ns[l])
  }

  /** The new precoders, computed from the bases alone. They have the shape
      the precoders had, so a step leaves them ready for the next one. */
  function NewF<E(!new)>(kr: Kernel<E>, h: Mat<E>, nr: seq<nat>, nt: seq<nat>, ns: seq<nat>,
                         c: seq<Mat<E>>): (f: seq<Mat<E>>)
    requires kr.Sound() && Antennas(h, nr, nt, ns) && BasesShaped(nr, ns, c)
    ensures PrecodersShaped(nt, ns, f)
  {
    var y := Projectors(kr, nr, c);
    seq(|nt|, l requires 0 <= l < |nt| => Precoder(kr, h, nr, nt, ns, y, l))
  }

  /** [H_kk F_k | C_k]: the desired signal directions of receiver k next to
      its interference basis. Ns[k] + (Nr[k] - Ns[k]) columns make it
      square. */
  function StackedFilter<E(!new)>(kr: Kernel<E>, h: Mat<E>, nr: seq<nat>, nt: seq<nat>, f: seq<Mat<E>>,
                                  ns: seq<nat>, c: seq<Mat<E>>, k: nat): (t: Mat<E>)
    requires kr.Sound() && Dims(h, nr, nt, f, ns) && BasesShaped(nr, ns, c) && k < |nr|
    ensures Shaped(t, nr[k], nr[k])
  {
    HStack(kr.dot(Block(h, nr, nt, k, k), f[k]), c[k])
  }

  /** The zero-forcing filters of users 0 to upto-1: the first Ns[k] rows of
      the inverse of each stacked matrix, or the first user whose stacked
      matrix is singular. */
  function FiltersUpTo<E(!new)>(kr: Kernel<E>, h: Mat<E>, nr: seq<nat>, nt: seq<nat>, f: seq<Mat<E>>,
                                ns: seq<nat>, c: seq<Mat<E>>, upto: nat): (r: Result<seq<Mat<E>>, nat>)
    requires kr.Sound() && Dims(h, nr, nt, f, ns) && BasesShaped(nr, ns, c) && upto <= |nr|
    ensures r.Ok? ==> |r.value| == upto && forall k :: 0 <= k < upto ==> Shaped(r.value[k], ns[k], nr[k])
    ensures r.Err? ==> r.error < upto
    decreases upto
  {
    if upto == 0 then Ok([])
    else
      match FiltersUpTo(kr, h, nr, nt, f, ns, c, upto - 1)
      case Err(e) => Err(e)
      case Ok(w) =>
        match kr.inv(StackedFilter(kr, h, nr, nt, f, ns, c, upto - 1))
        case None => Err(upto - 1)
        case Some(i) => Ok(w + [TopRows(i, ns[upto - 1])])
  }

  /** The filters exist exactly when every stacked matrix is invertible. */
  lemma {:induction false} FiltersOkIffInvertible<E(!new)>(kr: Kernel<E>, h: Mat<E>, nr: seq<nat>, nt: seq<nat>,
                                                          f: seq<Mat<E>>, ns: seq<nat>, c: seq<Mat<E>>, upto: nat)
    requires kr.Sound() && Dims(h, nr, nt, f, ns) && BasesShaped(nr, ns, c) && upto <= |nr|
    ensures FiltersUpTo(kr, h, nr, nt, f, ns, c, upto).Ok? <==>
            forall k :: 0 <= k < upto ==> kr.inv(StackedFilter(kr, h, nr, nt, f, ns, c, k)).Some?
    decreases upto
  {
    if upto > 0 {
      FiltersOkIffInvertible(kr, h, nr, nt, f, ns, c, upto - 1);
      var prev := FiltersUpTo(kr, h, nr, nt, f, ns, c, upto - 1);
      var last := kr.inv(StackedFilter(kr, h, nr, nt, f, ns, c, upto - 1));
      assert FiltersUpTo(kr, h, nr, nt, f, ns, c, upto).Ok? <==> prev.Ok? && last.Some?;
    }
  }

  /** Otherwise the user reported is the first whose stacked matrix is
      singular. */
  lemma FiltersErrFirstSingular<E(!new)>(kr: Kernel<E>, h: Mat<E>, nr: seq<nat>, nt: seq<nat>,
                                         f: seq<Mat<E>>, ns: seq<nat>, c: seq<Mat<E>>, upto: nat)
    requires kr.Sound() && Dims(h, nr, nt, f, ns) && BasesShaped(nr, ns, c) && upto <= |nr|
    requires FiltersUpTo(kr, h, nr, nt, f, ns, c, upto).Err?
    ensures var e := FiltersUpTo(kr, h, nr, nt, f, ns, c, upto).error;
            && kr.inv(StackedFilter(kr, h, nr, nt, f, ns, c, e)).None?
            && forall k :: 0 <= k < e ==> kr.inv(StackedFilter(kr, h, nr, nt, f, ns, c, k)).Some?
  {
    var e := FiltersUpTo(kr, h, nr, nt, f, ns, c, upto).error;
    FiltersErrSingular(kr, h, nr, nt, f, ns, c, upto);
    FiltersErrPrefixInvertible(kr, h, nr, nt, f, ns, c, upto);
    FiltersOkIffInvertible(kr, h, nr, nt, f, ns, c, e);
  }

  /** The user a failure names has a singular stacked matrix. */
  lemma {:induction false} FiltersErrSingular<E(!new)>(kr: Kernel<E>, h: Mat<E>, nr: seq<nat>, nt: seq<nat>,
                                                      f: seq<Mat<E>>, ns: seq<nat>, c: seq<Mat<E>>, upto: nat)
    requires kr.Sound() && Dims(h, nr, nt, f, ns) && BasesShaped(nr, ns, c) && upto <= |nr|
    requires FiltersUpTo(kr, h, nr, nt, f, ns, c, upto).Err?
    ensures kr.inv(StackedFilter(kr, h, nr, nt, f, ns, c, FiltersUpTo(kr, h, nr, nt, f, ns, c, upto).error)).None?
    decreases upto
  {
    var prev := FiltersUpTo(kr, h, nr, nt, f, ns, c, upto - 1);
    if prev.Err? {
      FiltersErrSingular(kr, h, nr, nt, f, ns, c, upto - 1);
      assert FiltersUpTo(kr, h, nr, nt, f, ns, c, upto).error == prev.error;
    }
  }

  /** The filters of the users before the one a failure names all exist. */
  lemma {:induction false} FiltersErrPrefixInvertible<E(!new)>(kr: Kernel<E>, h: Mat<E>, nr: seq<nat>, nt: seq<nat>,
                                                              f: seq<Mat<E>>, ns: seq<nat>, c: seq<Mat<E>>, upto: nat)
    requires kr.Sound() && Dims(h, nr, nt, f, ns) && BasesShaped(nr, ns, c) && upto <= |nr|
    requires FiltersUpTo(kr, h, nr, nt, f, ns, c, upto).Err?
    ensures FiltersUpTo(kr, h, nr, nt, f, ns, c, FiltersUpTo(kr, h, nr, nt, f, ns, c, upto).error).Ok?
    decreases upto
  {
    var prev := FiltersUpTo(kr, h, nr, nt, f, ns, c, upto - 1);
    if prev.Err? {
      FiltersErrPrefixInvertible(kr, h, nr, nt, f, ns, c, upto - 1);
      assert FiltersUpTo(kr, h, nr, nt, f, ns, c, upto).error == prev.error;
    }
  }

  /** When the filters exist, filter k is the first Ns[k] rows of the
      inverse of user k's stacked matrix. */
  lemma {:induction false} FiltersContent<E(!new)>(kr: Kernel<E>, h: Mat<E>, nr: seq<nat>, nt: seq<nat>,
                                                  f: seq<Mat<E>>, ns: seq<nat>, c: seq<Mat<E>>, upto: nat)
    requires kr.Sound() && Dims(h, nr, nt, f, ns) && BasesShaped(nr, ns, c) && upto <= |nr|
    requires FiltersUpTo(kr, h, nr, nt, f, ns, c, upto).Ok?
    ensures forall k :: 0 <= k < upto ==>
              kr.inv(StackedFilter(kr, h, nr, nt, f, ns, c, k)).Some? &&
              FiltersUpTo(kr, h, nr, nt, f, ns, c, upto).value[k] ==
                TopRows(kr.inv(StackedFilter(kr, h, nr, nt, f, ns, c, k)).value, ns[k])
    decreases upto
  {
    if upto > 0 {
      FiltersContent(kr, h, nr, nt, f, ns, c, upto - 1);
    }
  }

  /** Once a user's stacked matrix is found singular, the filters of more
      users report that same user. */
  lemma {:induction false} FiltersErrPersists<E(!new)>(kr: Kernel<E>, h: Mat<E>, nr: seq<nat>, nt: seq<nat>,
                                                      f: seq<Mat<E>>, ns: seq<nat>, c: seq<Mat<E>>, m: nat, n: nat)
    requires kr.Sound() && Dims(h, nr, nt, f, ns) && BasesShaped(nr, ns, c) && m <= n <= |nr|
    requires FiltersUpTo(kr, h, nr, nt, f, ns, c, m).Err?
    ensures FiltersUpTo(kr, h, nr, nt, f, ns, c, n) == FiltersUpTo(kr, h, nr, nt, f, ns, c, m)
    decreases n - m
  {
    if m < n {
      FiltersErrPersists(kr, h, nr, nt, f, ns, c, m, n - 1);
      assert FiltersUpTo(kr, h, nr, nt, f, ns, c, n) == FiltersUpTo(kr, h, nr, nt, f, ns, c, n - 1);
    }
  }

  /** The first loop of the precoder update: the projector of every
      receiver. */
  method ComputeProjectors<E(!new)>(kr: Kernel<E>, nr: seq<nat>, c: seq<Mat<E>>) returns (y: seq<Mat<E>>)
    requires kr.Sound() && |c| == |nr| && forall k :: 0 <= k < |c| ==> WellFormed(c[k]) && c[k].rows == nr[k]
    ensures y == Projectors(kr, nr, c)
  {
    ghost var projectors := Projectors(kr, nr, c);
    y := [];
    var k := 0;
    while k < |nr|
      invariant k <= |nr| && y == projectors[..k]
    {
      y := y + [Projector(kr, c[k], nr[k])];
      k := k + 1;
    }
  }

  /** The inner loop of the interference-basis update: accumulates the
      interference covariance at receiver k over all other transmitters. */
  method InterferenceCovariance<E(!new)>(kr: Kernel<E>, h: Mat<E>, nr: seq<nat>, nt: seq<nat>, f: seq<Mat<E>>,
                                         ns: seq<nat>, k: nat)
    returns (acc: Mat<E>)
    requires kr.Sound() && Dims(h, nr, nt, f, ns) && k < |nr|
    ensures acc == CovC(kr, h, nr, nt, f, ns, k, |nr|) && Shaped(acc, nr[k], nr[k])
  {
    acc := kr.zeros(nr[k], nr[k]);
    var l := 0;
    while l < |nr|
      invariant l <= |nr| && acc == CovC(kr, h, nr, nt, f, ns, k, l)
    {
      acc := AddInterference(kr, h, nr, nt, f, ns, k, l, acc);
      l := l + 1;
    }
  }

  /** One pass of the inner loop: adds transmitter l's interference at
      receiver k, unless l is k itself. */
  method AddInterference<E(!new)>(kr: Kernel<E>, h: Mat<E>, nr: seq<nat>, nt: seq<nat>, f: seq<Mat<E>>,
                                  ns: seq<nat>, k: nat, l: nat, acc: Mat<E>)
    returns (next: Mat<E>)
    requires kr.Sound() && Dims(h, nr, nt, f, ns) && k < |nr| && l < |nr|
    requires acc == CovC(kr, h, nr, nt, f, ns, k, l)
    ensures next == CovC(kr, h, nr, nt, f, ns, k, l + 1)
  {
    next := acc;
    if k != l {
      var hf := kr.dot(Block(h, nr, nt, k, l), f[l]);
      next := kr.add(acc, kr.dot(hf, kr.adjoint(hf)));
    }
  }

  /** The inner loop of the precoder update: accumulates the leakage
      covariance of transmitter l over all other receivers. */
  method LeakageCovariance<E(!new)>(kr: Kernel<E>, h: Mat<E>, nr: seq<nat>, nt: seq<nat>, y: seq<Mat<E>>, l: nat)
    returns (acc: Mat<E>)
    requires kr.Sound() && Shaped(h, Sum(nr), Sum(nt)) && |nr| == |nt| == |y|
    requires forall k :: 0 <= k < |y| ==> Shaped(y[k], nr[k], nr[k])
    requires l < |nt|
    ensures acc == CovF(kr, h, nr, nt, y, l, |nt|) && Shaped(acc, nt[l], nt[l])
  {
    acc := kr.zeros(nt[l], nt[l]);
    var k := 0;
    while k < |nt|
      invariant k <= |nt| && acc == CovF(kr, h, nr, nt, y, l, k)
    {
      acc := AddLeakage(kr, h, nr, nt, y, l, k, acc);
      k := k + 1;
    }
  }

  /** One pass of the inner loop: adds what transmitter l leaks into
      receiver k, unless k is l itself. */
  method AddLeakage<E(!new)>(kr: Kernel<E>, h: Mat<E>, nr: seq<nat>, nt: seq<nat>, y: seq<Mat<E>>,
                             l: nat, k: nat, acc: Mat<E>)
    returns (next: Mat<E>)
    requires kr.Sound() && Shaped(h, Sum(nr), Sum(nt)) && |nr| == |nt| == |y|
    requires forall j :: 0 <= j < |y| ==> Shaped(y[j], nr[j], nr[j])
    requires l < |nt| && k < |nt|
    requires acc == CovF(kr, h, nr, nt, y, l, k)
    ensures next == CovF(kr, h, nr, nt, y, l, k + 1)
  {
    next := acc;
    if k != l {
      next := kr.add(acc, Leakage(kr, h, nr, nt, y[k], k, l));
    }
  }

  /** The outer loop of the interference-basis update: the basis of every
      receiver in turn. */
  method ComputeBases<E(!new)>(kr: Kernel<E>, h: Mat<E>, nr: seq<nat>, nt: seq<nat>, f: seq<Mat<E>>, ns: seq<nat>)
    returns (c: seq<Mat<E>>)
    requires kr.Sound() && Dims(h, nr, nt, f, ns)
    ensures c == NewC(kr, h, nr, nt, f, ns)
  {
    ghost var target := NewC(kr, h, nr, nt, f, ns);
    c := [];
    var k := 0;
    while k < |nr|
      invariant k <= |nr| && c == target[..k]
    {
      var acc := InterferenceCovariance(kr, h, nr, nt, f, ns, k);
      assert target[k] == kr.peig(acc, nr[k] - ns[k]);
      c := c + [kr.peig(acc, nr[k] - ns[k])];
      k := k + 1;
    }
    assert c == target;
  }

  /** The outer loops of the precoder update: the projectors, then the
      precoder of every transmitter in turn. */
  method ComputePrecoders<E(!new)>(kr: Kernel<E>, h: Mat<E>, nr: seq<nat>, nt: seq<nat>, ns: seq<nat>, c: seq<Mat<E>>)
    returns (f: seq<Mat<E>>)
    requires kr.Sound() && Antennas(h, nr, nt, ns) && BasesShaped(nr, ns, c)
    ensures f == NewF(kr, h, nr, nt, ns, c)
  {
    var y := ComputeProjectors(kr, nr, c);
    ghost var target := NewF(kr, h, nr, nt, ns, c);
    f := [];
    var l := 0;
    while l < |nt|
      invariant l <= |nt| && f == target[..l]
    {
      var acc := LeakageCovariance(kr, h, nr, nt, y, l);
      assert target[l] == kr.leig(acc, ns[l]);
      f := f + [kr.leig(acc, ns[l])];
      l := l + 1;
    }
    assert f == target;
  }

  /** The loop of the filter update: the filter of every receiver in turn,
      stopping at the first singular stacked matrix. */
  method ComputeFilters<E(!new)>(kr: Kernel<E>, h: Mat<E>, nr: seq<nat>, nt: seq<nat>, f: seq<Mat<E>>,
                                 ns: seq<nat>, c: seq<Mat<E>>)
    returns (r: Result<seq<Mat<E>>, nat>)
    requires kr.Sound() && Dims(h, nr, nt, f, ns) && BasesShaped(nr, ns, c)
    ensures r == FiltersUpTo(kr, h, nr, nt, f, ns, c, |nr|)
  {
    r := Ok([]);
    var k := 0;
    while k < |nr| && r.Ok?
      invariant k <= |nr| && r == FiltersUpTo(kr, h, nr, nt, f, ns, c, k)
    {
      r := NextFilter(kr, h, nr, nt, f, ns, c, k, r.value);
      k := k + 1;
    }
    if r.Err? {
      FiltersErrPersists(kr, h, nr, nt, f, ns, c, k, |nr|);
    }
  }

  /** One pass of the filter loop: the filter of user k appended to those
      of the users before it, or k reported when its stacked matrix is
      singular. */
  method NextFilter<E(!new)>(kr: Kernel<E>, h: Mat<E>, nr: seq<nat>, nt: seq<nat>, f: seq<Mat<E>>,
                             ns: seq<nat>, c: seq<Mat<E>>, k: nat, w: seq<Mat<E>>)
    returns (r: Result<seq<Mat<E>>, nat>)
    requires kr.Sound() && Dims(h, nr, nt, f, ns) && BasesShaped(nr, ns, c) && k < |nr|
    requires FiltersUpTo(kr, h, nr, nt, f, ns, c, k) == Ok(w)
    ensures r == FiltersUpTo(kr, h, nr, nt, f, ns, c, k + 1)
  {
    var inverse := kr.inv(StackedFilter(kr, h, nr, nt, f, ns, c, k));
    if inverse.None? {
      r := Err(k);
    } else {
      r := Ok(w + [TopRows(inverse.value, ns[k])]);
    }
  }

  // ---------------------------------------------------------------------
  // The solver object
  // ---------------------------------------------------------------------

  class AlternatingMinIASolver<E(!new)> {
    /** The numerical routines (numpy and the eigenvector helpers). */
    const kernel: Kernel<E>
    /** The channel of all users, owned by the solver. */
    const channel: MultiUserChannelMatrix<E>
    var F: seq<Mat<E>>
    var W: seq<Mat<E>>
    var C: seq<Mat<E>>
    var Ns: seq<nat>

    ghost predicate Valid()
      reads this, channel
    {
      kernel.Sound() && channel.Valid()
    }

    /** The state `step` needs: a channel whose K, Nr and Nt agree, and K
        precoders of shape Nt[k] x Ns[k] with Ns[k] at most Nr[k] and Nt[k]. */
    ghost predicate PrecodersReady()
      reads this, channel
    {
      Valid() && channel.K == |channel.Nr| && Dims(channel.H, channel.Nr, channel.Nt, F, Ns)
    }

    /** The number of users, read through to the channel. */
    function K(): (r: nat)
      reads this, channel
      ensures PrecodersReady() ==> r == |channel.Nr| == |channel.Nt| == |F| == |Ns|
    {
      channel.K
    }

    /** The receive antennas of all users, read through to the channel. */
    function Nr(): (r: seq<nat>)
      reads this, channel
      ensures Valid() ==> Sum(r) == channel.H.rows
      ensures PrecodersReady() ==> |r| == channel.K && forall k :: 0 <= k < |r| ==> Ns[k] <= r[k]
    {
      channel.Nr
    }

    /** The transmit antennas of all users, read through to the channel. */
    function Nt(): (r: seq<nat>)
      reads this, channel
      ensures Valid() ==> Sum(r) == channel.H.cols
      ensures PrecodersReady() ==> |r| == channel.K && forall l :: 0 <= l < |r| ==> F[l].rows == r[l]
    {
      channel.Nt
    }

    /** A solver with no precoders, filters or bases over a fresh empty
        channel. */
    constructor (kernel: Kernel<E>)
      requires kernel.Sound()
      ensures Valid() && fresh(channel)
      ensures this.kernel == kernel
      ensures F == [] && W == [] && C == [] && Ns == []
      ensures K() == 0 && Nr() == [] && Nt() == []
    {
      this.kernel := kernel;
      F := [];
      W := [];
      channel := new MultiUserChannelMatrix();
      C := [];
      Ns := [];
    }

    /** Delegates to the channel: on success the solver's K, Nr and Nt read
        the given values; on failure nothing changes. */
    method InitFromChannelMatrix(channelMatrix: Mat<E>, nr: seq<nat>, nt: seq<nat>, k: nat)
      returns (err: Option<ConfigError>)
      requires Valid() && WellFormed(channelMatrix)
      modifies channel
      ensures Valid()
      ensures err == CheckChannel(channelMatrix, nr, nt, k)
      ensures err.None? ==> channel.H == channelMatrix && K() == k && Nr() == nr && Nt() == nt
      ensures err.Some? ==> channel.H == old(channel.H) && K() == old(K()) && Nr() == old(Nr()) && Nt() == old(Nt())
    {
      err := channel.InitFromChannelMatrix(channelMatrix, nr, nt, k);
    }

    /** Delegates to the channel: a random channel for `k` users, taken by
        the generator's draw number `draw`. */
    method RandomizeH(nr: Counts, nt: Counts, k: nat, draw: nat) returns (next: nat)
      requires Valid()
      modifies channel
      ensures Valid()
      ensures Nr() == Broadcast(nr, k) && Nt() == Broadcast(nt, k) && K() == k
      ensures channel.H == kernel.randn(draw, Sum(Nr()), Sum(Nt()))
      ensures next == draw + 1
    {
      next := channel.Randomize(nr, nt, k, kernel, draw);
    }

    /** The channel from transmitter `l` to receiver `k`, read through to the
        channel object. */
    function GetChannel(k: nat, l: nat): (r: Option<Mat<E>>)
      reads this, channel
      requires Valid()
      ensures r.Some? <==> k < |Nr()| && l < |Nt()|
      ensures r.Some? ==> Shaped(r.value, Nr()[k], Nt()[l])
      ensures r.Some? ==> r.value == Block(channel.H, Nr(), Nt(), k, l)
    {
      channel.GetChannel(k, l)
    }

    /** Draws `k` normalised random precoders, F[i] of shape nt[i] x ns[i],
        after broadcasting single counts. Precoder i is the generator's draw
        number `draw + i`, so each user gets a draw of its own, and `next`
        is the number of the first draw not taken. A list shorter than `k`
        is an `IndexError` at its length: the precoders drawn before it are
        kept and Ns is not recorded. */
    method RandomizeF(nt: Counts, ns: Counts, k: nat, draw: nat) returns (indexError: bool, next: nat)
      requires Valid()
      modifies this
      ensures Valid() && W == old(W) && C == old(C)
      ensures indexError <==> |Broadcast(nt, k)| < k || |Broadcast(ns, k)| < k
      ensures !indexError ==> Ns == Broadcast(ns, k) && |F| == k
      ensures indexError ==> Ns == old(Ns) && |F| < k
      ensures indexError ==> |F| == |Broadcast(nt, k)| || |F| == |Broadcast(ns, k)|
      ensures forall i :: 0 <= i < |F| ==>
                i < |Broadcast(nt, k)| && i < |Broadcast(ns, k)| &&
                F[i] == kernel.normalize(kernel.randn(draw + i, Broadcast(nt, k)[i], Broadcast(ns, k)[i])) &&
                Shaped(F[i], Broadcast(nt, k)[i], Broadcast(ns, k)[i])
      ensures next == draw + |F|
    {
      var nt', ns' := Broadcast(nt, k), Broadcast(ns, k);
      F := [];
      var i := 0;
      while i < k
        invariant 0 <= i <= k && i <= |nt'| && i <= |ns'| && |F| == i
        invariant forall j :: 0 <= j < i ==>
                    F[j] == kernel.normalize(kernel.randn(draw + j, nt'[j], ns'[j])) && Shaped(F[j], nt'[j], ns'[j])
        invariant W == old(W) && C == old(C) && Ns == old(Ns)
      {
        if i >= |nt'| || i >= |ns'| {
          return true, draw + i;
        }
        F := F + [kernel.normalize(kernel.randn(draw + i, nt'[i], ns'[i]))];
        i := i + 1;
      }
      Ns := ns';
      indexError, next := false, draw + k;
    }

    /** Recomputes every interference basis from the current precoders. */
    method UpdateC()
      requires PrecodersReady()
      modifies this
      ensures PrecodersReady() && F == old(F) && Ns == old(Ns) && W == old(W)
      ensures C == NewC(kernel, channel.H, Nr(), Nt(), F, Ns)
      ensures BasesShaped(Nr(), Ns, C)
    {
      C := ComputeBases(kernel, channel.H, channel.Nr, channel.Nt, F, Ns);
    }

    /** Recomputes every precoder from the current interference bases; the
        precoders keep their shapes. */
    method UpdateF()
      requires PrecodersReady() && BasesShaped(Nr(), Ns, C)
      modifies this
      ensures PrecodersReady() && C == old(C) && Ns == old(Ns) && W == old(W)
      ensures F == NewF(kernel, channel.H, Nr(), Nt(), Ns, C)
    {
      F := ComputePrecoders(kernel, channel.H, channel.Nr, channel.Nt, Ns, C);
    }

    /** Recomputes the zero-forcing filters: W[k] is the first Ns[k] rows of
        the inverse of the square [H_kk F_k | C_k], an Ns[k] x Nr[k] matrix.
        A singular stacked matrix is a `LinAlgError` at that user, and W is
        then left as it was. */
    method UpdateW() returns (singular: Option<nat>)
      requires PrecodersReady() && BasesShaped(Nr(), Ns, C)
      modifies this
      ensures PrecodersReady() && F == old(F) && C == old(C) && Ns == old(Ns)
      ensures var r := FiltersUpTo(kernel, channel.H, Nr(), Nt(), F, Ns, C, K());
              && (singular.None? <==> r.Ok?)
              && (r.Ok? ==> W == r.value)
              && (r.Err? ==> singular == Some(r.error) && W == old(W))
    {
      var r := ComputeFilters(kernel, channel.H, channel.Nr, channel.Nt, F, Ns, C);
      if r.Err? {
        return Some(r.error);
      }
      W := r.value;
      singular := None;
    }

    /** One iteration: the bases from the precoders, then the precoders from
        the new bases, then the filters. The precoders end in the shape the
        next iteration needs. */
    method Step() returns (singular: Option<nat>)
      requires PrecodersReady()
      modifies this
      ensures PrecodersReady() && Ns == old(Ns)
      ensures C == NewC(kernel, channel.H, Nr(), Nt(), old(F), Ns) && BasesShaped(Nr(), Ns, C)
      ensures F == NewF(kernel, channel.H, Nr(), Nt(), Ns, C)
      ensures var r := FiltersUpTo(kernel, channel.H, Nr(), Nt(), F, Ns, C, K());
              && (singular.None? <==> r.Ok?)
              && (r.Ok? ==> W == r.value)
              && (r.Err? ==> singular == Some(r.error) && W == old(W))
    {
      UpdateC();
      UpdateF();
      singular := UpdateW();
    }
  }
}
