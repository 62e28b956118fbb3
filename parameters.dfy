/** The parameters of a simulation sweep: named values, some of them lists
    marked to be unpacked, and the cartesian product of the marked lists in
    C order (the last parameter varies fastest). */
module Parameters {
  import opened Wrappers

  /** A parameter value: one that is not iterable, or a list of items. */
  datatype Param<V> = Scalar(v: V) | Items(vs: seq<V>)

  // ---------------------------------------------------------------------
  // Products and positions in C order
  // ---------------------------------------------------------------------

  /** The number of elements of an array of the given shape (`np.prod`). */
  function Prod(shape: seq<nat>): (r: nat)
  {
    if |shape| == 0 then 1 else shape[0] * Prod(shape[1..])
  }

  /** An array has no elements exactly when one of its dimensions is zero. */
  lemma {:induction false} ProdZero(shape: seq<nat>)
    ensures Prod(shape) == 0 <==> exists i :: 0 <= i < |shape| && shape[i] == 0
  {
    if |shape| > 0 {
      var rest := shape[1..];
      ProdZero(rest);
      assert forall i :: 0 <= i < |rest| ==> rest[i] == shape[i + 1];
    }
  }

  /** Python's `reduce(lambda x, y: x * y, xs)`: a left fold seeded by the
      first element; it fails on an empty sequence, so it needs one. */
  function ReduceMul(xs: seq<nat>): (r: nat)
    requires |xs| > 0
    ensures r == 0 <==> exists i :: 0 <= i < |xs| && xs[i] == 0
  {
    if |xs| == 1 then xs[0]
    else
      var init := xs[..|xs| - 1];
      assert forall i :: 0 <= i < |init| ==> init[i] == xs[i];
      ReduceMul(init) * xs[|xs| - 1]
  }

  /** The product of all but the last element, times the last. */
  lemma {:induction false} ProdSnoc(xs: seq<nat>, x: nat)
    ensures Prod(xs + [x]) == Prod(xs) * x
    decreases |xs|
  {
    if |xs| > 0 {
      assert (xs + [x])[1..] == xs[1..] + [x];
      ProdSnoc(xs[1..], x);
    }
  }

  /** The left fold computes the product. */
  lemma {:induction false} ReduceMulIsProd(xs: seq<nat>)
    requires |xs| > 0
    ensures ReduceMul(xs) == Prod(xs)
    decreases |xs|
  {
    if |xs| == 1 {
      assert xs[1..] == [];
    } else {
      var init := xs[..|xs| - 1];
      ReduceMulIsProd(init);
      ProdSnoc(init, xs[|xs| - 1]);
      assert init + [xs[|xs| - 1]] == xs;
    }
  }

  /** Taking out one factor divides the product by it. */
  lemma {:induction false} ProdRemove(xs: seq<nat>, j: nat)
    requires j < |xs|
    ensures Prod(xs) == xs[j] * Prod(xs[..j] + xs[j + 1..])
    decreases |xs|
  {
    if j > 0 {
      ProdRemove(xs[1..], j - 1);
      assert xs[1..][..j - 1] + xs[1..][j..] == (xs[..j] + xs[j + 1..])[1..];
    } else {
      assert xs[..j] + xs[j + 1..] == xs[1..];
    }
  }

  /** Numpy's reading of one index on an axis of length `n`: a negative one
      counts from the end; one out of range is an `IndexError`. */
  function Wrap(i: int, n: nat): (w: Option<nat>)
    ensures w.Some? <==> -(n as int) <= i < n
    ensures w.Some? ==> w.value < n && (if i < 0 then w.value == i + n else w.value == i)
  {
    if 0 <= i < n then Some(i)
    else if -(n as int) <= i < 0 then Some(i + n)
    else None
  }

  /** Every index lies in range for its axis (negative ones included). */
  predicate InRange(indexes: seq<int>, shape: seq<nat>)
    requires |indexes| == |shape|
  {
    forall k :: 0 <= k < |shape| ==> -(shape[k] as int) <= indexes[k] < shape[k]
  }

  /** `ravel_multi_index`: the entry at `indexes` of
      `arange(prod(shape)).reshape(shape)`, that is the C-order position of
      that element. */
  function RavelMultiIndex(indexes: seq<int>, shape: seq<nat>): (r: Option<nat>)
    requires |indexes| == |shape|
    ensures r.Some? <==> InRange(indexes, shape)
    ensures r.Some? ==> r.value < Prod(shape)
    decreases |shape|
  {
    if |shape| == 0 then Some(0)
    else
      var rest := RavelMultiIndex(indexes[1..], shape[1..]);
      assert InRange(indexes, shape) <==> -(shape[0] as int) <= indexes[0] < shape[0] && InRange(indexes[1..], shape[1..]) by {
        if InRange(indexes[1..], shape[1..]) && -(shape[0] as int) <= indexes[0] < shape[0] {
          forall k | 0 <= k < |shape| ensures -(shape[k] as int) <= indexes[k] < shape[k] {
            if k > 0 {
              assert indexes[1..][k - 1] == indexes[k] && shape[1..][k - 1] == shape[k];
            }
          }
        }
      }
      match Wrap(indexes[0], shape[0])
      case None => None
      case Some(i) =>
        if rest.None? then None
        else
          PositionBound(i, shape[0], rest.value, Prod(shape[1..]));
          Some(i * Prod(shape[1..]) + rest.value)
  }

  /** A row-major position within a block of `p` elements stays within
      `n` blocks. */
  lemma PositionBound(i: nat, n: nat, r: nat, p: nat)
    requires i < n && r < p
    ensures i * p + r < n * p
  {
    assert (i + 1) * p <= n * p by {
      assert n * p == (i + 1) * p + (n - i - 1) * p;
    }
  }

  /** The index vector of a C-order position: the inverse of
      `RavelMultiIndex` on indexes in `[0, shape[k])`. */
  function Unravel(p: nat, shape: seq<nat>): (u: seq<nat>)
    requires p < Prod(shape)
    ensures |u| == |shape|
    decreases |shape|
  {
    if |shape| == 0 then []
    else
      var q := Prod(shape[1..]);
      DivBound(p, shape[0], q);
      [p / q] + Unravel(p % q, shape[1..])
  }

  /** Ravelling the index vector of a position gives back the position. */
  lemma {:induction false} RavelUnravel(p: nat, shape: seq<nat>)
    requires p < Prod(shape)
    ensures RavelMultiIndex(Unravel(p, shape), shape) == Some(p)
    ensures forall k :: 0 <= k < |shape| ==> Unravel(p, shape)[k] < shape[k]
    decreases |shape|
  {
    if |shape| > 0 {
      var q := Prod(shape[1..]);
      DivBound(p, shape[0], q);
      var d, m := p / q, p % q;
      var u := Unravel(p, shape);
      assert u[0] == d && u[1..] == Unravel(m, shape[1..]);
      RavelUnravel(m, shape[1..]);
      assert Wrap(u[0], shape[0]) == Some(d);
      assert RavelMultiIndex(u, shape) == Some(d * q + m);
    }
  }

  /** Unravelling the position of an index vector gives back the vector:
      distinct in-range combinations have distinct positions. */
  lemma {:induction false} UnravelRavel(indexes: seq<nat>, shape: seq<nat>)
    requires |indexes| == |shape| && forall k :: 0 <= k < |shape| ==> indexes[k] < shape[k]
    ensures RavelMultiIndex(indexes, shape).Some?
    ensures Unravel(RavelMultiIndex(indexes, shape).value, shape) == indexes
    decreases |shape|
  {
    if |shape| > 0 {
      var q := Prod(shape[1..]);
      UnravelRavel(indexes[1..], shape[1..]);
      var rest := RavelMultiIndex(indexes[1..], shape[1..]).value;
      var p := indexes[0] * q + rest;
      assert RavelMultiIndex(indexes, shape) == Some(p);
      assert p / q == indexes[0] && p % q == rest by {
        LinearDivMod(indexes[0], q, rest);
      }
      assert [indexes[0]] + indexes[1..] == indexes;
    }
  }

  /** `i * q + r` with `r < q` has quotient `i` and remainder `r`. */
  lemma LinearDivMod(i: nat, q: nat, r: nat)
    requires r < q
    ensures (i * q + r) / q == i && (i * q + r) % q == r
  {
    var a := i * q + r;
    var d, m := a / q, a % q;
    assert a == d * q + m && 0 <= m < q;
    if d > i {
      MulMono(d, i + 1, q);
    } else if d < i {
      MulMono(i, d + 1, q);
    }
  }

  lemma MulMono(a: nat, b: nat, c: nat)
    requires a >= b
    ensures a * c >= b * c
  {
    assert a * c == b * c + (a - b) * c;
  }

  /** A position below `n * q` lies in one of the first `n` blocks of `q`. */
  lemma DivBound(p: nat, n: nat, q: nat)
    requires p < n * q
    ensures q > 0 && p / q < n && p % q < q && p == (p / q) * q + p % q
  {
    if q > 0 && p / q >= n {
      MulMono(p / q, n, q);
    }
  }

  // ---------------------------------------------------------------------
  // The cartesian product
  // ---------------------------------------------------------------------

  /** The lengths of the lists. */
  function Lengths<V>(lists: seq<seq<V>>): (ls: seq<nat>)
    ensures |ls| == |lists| && forall k :: 0 <= k < |ls| ==> ls[k] == |lists[k]|
  {
    seq(|lists|, k requires 0 <= k < |lists| => |lists[k]|)
  }

  /** Each item of `xs` in turn, followed by each of the tails. */
  function PrefixAll<V>(xs: seq<V>, tails: seq<seq<V>>): (cs: seq<seq<V>>)
    ensures |cs| == |xs| * |tails|
    decreases |xs|
  {
    if |xs| == 0 then []
    else
      var cs := seq(|tails|, j requires 0 <= j < |tails| => [xs[0]] + tails[j]) + PrefixAll(xs[1..], tails);
      assert |xs| * |tails| == |tails| + (|xs| - 1) * |tails|;
      cs
  }

  /** Item `i` of `xs` followed by tail `j` sits at row-major position
      `i * |tails| + j`. */
  lemma {:induction false} PrefixAllAt<V>(xs: seq<V>, tails: seq<seq<V>>, i: nat, j: nat)
    requires i < |xs| && j < |tails|
    ensures i * |tails| + j < |PrefixAll(xs, tails)|
    ensures PrefixAll(xs, tails)[i * |tails| + j] == [xs[i]] + tails[j]
    decreases i
  {
    PositionBound(i, |xs|, j, |tails|);
    if i > 0 {
      PrefixAllAt(xs[1..], tails, i - 1, j);
      assert i * |tails| + j == |tails| + ((i - 1) * |tails| + j);
    }
  }

  /** Prefixing one item to tails of length `l` gives combinations of
      length `l + 1`. */
  lemma {:induction false} PrefixAllLength<V>(xs: seq<V>, tails: seq<seq<V>>, l: nat)
    requires forall t :: t in tails ==> |t| == l
    ensures forall c :: c in PrefixAll(xs, tails) ==> |c| == l + 1
    decreases |xs|
  {
    if |xs| > 0 {
      PrefixAllLength(xs[1..], tails, l);
      var head := seq(|tails|, j requires 0 <= j < |tails| => [xs[0]] + tails[j]);
      forall c | c in head ensures |c| == l + 1 {
        var j :| 0 <= j < |head| && head[j] == c;
        assert tails[j] in tails;
      }
    }
  }

  /** `itertools.product(*lists)`: every combination that takes one item
      from each list, the last list varying fastest. */
  function Combinations<V>(lists: seq<seq<V>>): (cs: seq<seq<V>>)
    ensures |cs| == Prod(Lengths(lists))
    ensures forall c :: c in cs ==> |c| == |lists|
    decreases |lists|
  {
    if |lists| == 0 then [[]]
    else
      var tails := Combinations(lists[1..]);
      assert Lengths(lists)[1..] == Lengths(lists[1..]);
      PrefixAllLength(lists[0], tails, |lists| - 1);
      PrefixAll(lists[0], tails)
  }

  /** The item each index selects from its list. */
  function Pick<V>(lists: seq<seq<V>>, indexes: seq<nat>): (c: seq<V>)
    requires |indexes| == |lists| && forall k :: 0 <= k < |lists| ==> indexes[k] < |lists[k]|
    ensures |c| == |lists| && forall k :: 0 <= k < |lists| ==> c[k] == lists[k][indexes[k]]
  {
    seq(|lists|, k requires 0 <= k < |lists| => lists[k][indexes[k]])
  }

  /** The combination at the C-order position of an index vector takes, from
      each list, the item that vector selects. */
  lemma {:induction false} CombinationAt<V>(lists: seq<seq<V>>, indexes: seq<nat>)
    requires |indexes| == |lists| && forall k :: 0 <= k < |lists| ==> indexes[k] < |lists[k]|
    ensures RavelMultiIndex(indexes, Lengths(lists)).Some?
    ensures var p := RavelMultiIndex(indexes, Lengths(lists)).value;
            p < |Combinations(lists)| && Combinations(lists)[p] == Pick(lists, indexes)
    decreases |lists|
  {
    var ls := Lengths(lists);
    assert InRange(indexes, ls);
    if |lists| > 0 {
      var tails := Combinations(lists[1..]);
      assert ls[1..] == Lengths(lists[1..]);
      CombinationAt(lists[1..], indexes[1..]);
      var j := RavelMultiIndex(indexes[1..], ls[1..]).value;
      RavelFirst(indexes, ls);
      PrefixAllAt(lists[0], tails, indexes[0], j);
      PickFirst(lists, indexes);
      assert Combinations(lists) == PrefixAll(lists[0], tails);
    }
  }

  /** An in-range position with a non-negative first index is that index's
      block of the rest, plus the position within the block. */
  lemma RavelFirst(indexes: seq<int>, shape: seq<nat>)
    requires |indexes| == |shape| > 0 && InRange(indexes, shape) && indexes[0] >= 0
    ensures RavelMultiIndex(indexes, shape).Some? && RavelMultiIndex(indexes[1..], shape[1..]).Some?
    ensures RavelMultiIndex(indexes, shape).value
            == indexes[0] * Prod(shape[1..]) + RavelMultiIndex(indexes[1..], shape[1..]).value
  {
  }

  /** A pick is the first list's item followed by the pick from the rest. */
  lemma PickFirst<V>(lists: seq<seq<V>>, indexes: seq<nat>)
    requires |indexes| == |lists| > 0 && forall k :: 0 <= k < |lists| ==> indexes[k] < |lists[k]|
    ensures Pick(lists, indexes) == [lists[0][indexes[0]]] + Pick(lists[1..], indexes[1..])
  {
    var c, rest := Pick(lists, indexes), Pick(lists[1..], indexes[1..]);
    forall k | 0 <= k < |c| ensures ([lists[0][indexes[0]]] + rest)[k] == c[k] {
      if k > 0 {
        assert lists[1..][k - 1] == lists[k] && indexes[1..][k - 1] == indexes[k];
      }
    }
  }

  /** The example of `get_unpacked_params_list`: unpacking `c = [3, 4]` and
      `d = [5, 6]` gives the four combinations (3, 5), (3, 6), (4, 5) and
      (4, 6), in that order, `d` varying fastest. */
  lemma CombinationsExample<V>(c0: V, c1: V, d0: V, d1: V)
    ensures Combinations([[c0, c1], [d0, d1]]) == [[c0, d0], [c0, d1], [c1, d0], [c1, d1]]
  {
    var lists := [[c0, c1], [d0, d1]];
    var cs := Combinations(lists);
    assert Lengths(lists) == [2, 2];
    assert [2, 2][1..] == [2] && [2][1..] == [];
    assert |cs| == 4;
    ExampleEntry(lists, 0, 0);
    ExampleEntry(lists, 0, 1);
    ExampleEntry(lists, 1, 0);
    ExampleEntry(lists, 1, 1);
  }

  lemma ExampleEntry<V>(lists: seq<seq<V>>, i: nat, j: nat)
    requires |lists| == 2 && |lists[0]| == 2 && |lists[1]| == 2 && i < 2 && j < 2
    ensures 2 * i + j < |Combinations(lists)|
    ensures Combinations(lists)[2 * i + j] == [lists[0][i], lists[1][j]]
  {
    var ls := Lengths(lists);
    assert ls == [2, 2];
    CombinationAt(lists, [i, j]);
    RavelFirst([i, j], ls);
    assert [i, j][1..] == [j] && ls[1..] == [2];
    RavelFirst([j], [2]);
    assert [j][1..] == [] && [2][1..] == [];
    assert RavelMultiIndex([i, j], ls).value == 2 * i + j;
    assert Pick(lists, [i, j]) == [lists[0][i], lists[1][j]];
  }

  // ---------------------------------------------------------------------
  // Enumerations of the set of unpacked names
  // ---------------------------------------------------------------------

  /** `order` lists each name of `s` exactly once: the order in which
      iteration over the set happens to visit them. */
  predicate Enumerates(order: seq<string>, s: set<string>)
  {
    (forall i, j :: 0 <= i < j < |order| ==> order[i] != order[j]) &&
    (forall n :: n in order ==> n in s) && (forall n :: n in s ==> n in order)
  }

  /** Only the empty set has an empty enumeration. */
  lemma EnumeratesEmpty(order: seq<string>, s: set<string>)
    requires Enumerates(order, s)
    ensures |order| == 0 <==> s == {}
  {
    if |order| > 0 {
      assert order[0] in s;
    }
  }

  /** Every listed name is a list parameter. */
  predicate AllItems<V>(parameters: map<string, Param<V>>, order: seq<string>)
  {
    forall k :: 0 <= k < |order| ==> order[k] in parameters && parameters[order[k]].Items?
  }

  /** The lists of the listed names, in that order. */
  function Lists<V>(parameters: map<string, Param<V>>, order: seq<string>): (lists: seq<seq<V>>)
    requires AllItems(parameters, order)
    ensures |lists| == |order| && forall k :: 0 <= k < |order| ==> lists[k] == parameters[order[k]].vs
  {
    seq(|order|, k requires 0 <= k < |order| => parameters[order[k]].vs)
  }

  /** Two enumerations of one set agree on whether every name is a list. */
  lemma AllItemsOrderFree<V>(parameters: map<string, Param<V>>, o1: seq<string>, o2: seq<string>, s: set<string>)
    requires Enumerates(o1, s) && Enumerates(o2, s)
    ensures AllItems(parameters, o1) <==> AllItems(parameters, o2)
    ensures |o1| == 0 <==> |o2| == 0
  {
    if AllItems(parameters, o1) {
      forall k | 0 <= k < |o2| ensures o2[k] in parameters && parameters[o2[k]].Items? {
        assert o2[k] in o1;
      }
    }
    if AllItems(parameters, o2) {
      forall k | 0 <= k < |o1| ensures o1[k] in parameters && parameters[o1[k]].Items? {
        assert o1[k] in o2;
      }
    }
    if |o1| > 0 {
      assert o1[0] in o2;
    }
    if |o2| > 0 {
      assert o2[0] in o1;
    }
  }

  /** Leaving out one name of an enumeration enumerates the rest of the
      set. */
  lemma EnumeratesWithout(o: seq<string>, s: set<string>, j: nat)
    requires Enumerates(o, s) && j < |o|
    ensures Enumerates(o[..j] + o[j + 1..], s - {o[j]})
  {
    var r := o[..j] + o[j + 1..];
    forall a, b | 0 <= a < b < |r| ensures r[a] != r[b] {
      var a' := if a < j then a else a + 1;
      var b' := if b < j then b else b + 1;
      assert r[a] == o[a'] && r[b] == o[b'];
    }
    forall m | m in r ensures m in s - {o[j]} {
      var i :| 0 <= i < |r| && r[i] == m;
      var i' := if i < j then i else i + 1;
      assert o[i'] == m && i' != j;
    }
    forall m | m in s - {o[j]} ensures m in r {
      assert m in o;
      var i :| 0 <= i < |o| && o[i] == m;
      if i < j {
        assert r[i] == m;
      } else {
        assert r[i - 1] == m;
      }
    }
  }

  /** The lengths of the lists of an enumeration without one name are the
      lengths without that name's. */
  lemma LengthsWithout<V>(parameters: map<string, Param<V>>, o: seq<string>, j: nat)
    requires AllItems(parameters, o) && j < |o|
    ensures AllItems(parameters, o[..j] + o[j + 1..])
    ensures var ls := Lengths(Lists(parameters, o));
            Lengths(Lists(parameters, o[..j] + o[j + 1..])) == ls[..j] + ls[j + 1..]
  {
    var r := o[..j] + o[j + 1..];
    forall k | 0 <= k < |r| ensures r[k] == o[if k < j then k else k + 1] {
    }
  }

  /** The number of variations does not depend on the order in which the
      unpacked names are visited. */
  lemma {:induction false} ProdIndependentOfOrder<V>(parameters: map<string, Param<V>>, o1: seq<string>, o2: seq<string>, s: set<string>)
    requires Enumerates(o1, s) && Enumerates(o2, s) && AllItems(parameters, o1) && AllItems(parameters, o2)
    ensures Prod(Lengths(Lists(parameters, o1))) == Prod(Lengths(Lists(parameters, o2)))
    decreases |o1|
  {
    AllItemsOrderFree(parameters, o1, o2, s);
    if |o1| > 0 {
      var n := o1[0];
      assert n in o2;
      var j :| 0 <= j < |o2| && o2[j] == n;
      EnumeratesWithout(o1, s, 0);
      EnumeratesWithout(o2, s, j);
      LengthsWithout(parameters, o1, 0);
      LengthsWithout(parameters, o2, j);
      ProdIndependentOfOrder(parameters, o1[..0] + o1[1..], o2[..j] + o2[j + 1..], s - {n});
      var l1, l2 := Lengths(Lists(parameters, o1)), Lengths(Lists(parameters, o2));
      ProdRemove(l1, 0);
      ProdRemove(l2, j);
    }
  }

  /** One parameter set of the sweep: the names in `order` take the items of
      `comb`, one each, and every other parameter keeps its value. */
  predicate IsVariation<V(==)>(d: map<string, Param<V>>, parameters: map<string, Param<V>>, order: seq<string>, comb: seq<V>)
    requires |comb| == |order|
  {
    d.Keys == parameters.Keys &&
    (forall k :: 0 <= k < |order| ==> order[k] in d && d[order[k]] == Scalar(comb[k])) &&
    (forall n :: n in parameters && n !in order ==> d[n] == parameters[n])
  }

  class SimulationParameters<V(==)> {
    /** The parameters by name. */
    var parameters: map<string, Param<V>>
    /** The names of the parameters marked to be unpacked. */
    var unpacked: set<string>

    ghost predicate Valid()
      reads this
    {
      unpacked <= parameters.Keys
    }

    constructor ()
      ensures Valid() && parameters == map[] && unpacked == {}
    {
      parameters := map[];
      unpacked := {};
    }

    /** `create`: a new object holding (a copy of) the given parameters,
        none of them marked. */
    static method Create(params: map<string, Param<V>>) returns (p: SimulationParameters<V>)
      ensures fresh(p) && p.Valid() && p.parameters == params && p.unpacked == {}
    {
      p := new SimulationParameters();
      p.parameters := params;
    }

    /** `add`: stores the value under the name, replacing any previous one;
        the marks stay as they are. */
    method Add(name: string, value: Param<V>)
      requires Valid()
      modifies this
      ensures Valid()
      ensures parameters == old(parameters)[name := value] && unpacked == old(unpacked)
    {
      parameters := parameters[name := value];
    }

    /** `set_unpack_parameter`: marks a list parameter to be unpacked. An
        unknown name or a value that is not iterable is a `ValueError` and
        changes nothing. `unpackBool` is ignored: marking cannot be undone. */
    method SetUnpackParameter(name: string, unpackBool: bool) returns (valueError: bool)
      requires Valid()
      modifies this
      ensures Valid() && parameters == old(parameters)
      ensures valueError <==> name !in parameters || parameters[name].Scalar?
      ensures unpacked == if valueError then old(unpacked) else old(unpacked) + {name}
    {
      if name in parameters {
        if parameters[name].Items? {
          unpacked := unpacked + {name};
          valueError := false;
        } else {
          valueError := true;
        }
      } else {
        valueError := true;
      }
    }

    /** `get_num_unpacked_variations`: the product of the lengths of the
        marked lists, folded in the order the set is visited. The fold fails
        (a `TypeError`) when nothing is marked, and taking the length of a
        marked name since replaced by a value that is not a list fails too. */
    function NumUnpackedVariations(order: seq<string>): (r: Option<nat>)
      requires Valid() && Enumerates(order, unpacked)
      reads this
      ensures r.Some? <==> |order| > 0 && AllItems(parameters, order)
      ensures r.Some? ==> r.value == Prod(Lengths(Lists(parameters, order)))
    {
      if |order| == 0 then None
      else if forall k :: 0 <= k < |order| ==> parameters[order[k]].Items? then
        var ls := Lengths(Lists(parameters, order));
        ReduceMulIsProd(ls);
        Some(ReduceMul(ls))
      else None
    }

    /** The count of variations is the same whatever order the set is
        visited in. */
    lemma NumUnpackedVariationsOrderFree(o1: seq<string>, o2: seq<string>)
      requires Valid() && Enumerates(o1, unpacked) && Enumerates(o2, unpacked)
      ensures NumUnpackedVariations(o1) == NumUnpackedVariations(o2)
    {
      AllItemsOrderFree(parameters, o1, o2, unpacked);
      if |o1| > 0 && AllItems(parameters, o1) {
        ProdIndependentOfOrder(parameters, o1, o2, unpacked);
      }
    }

    /** The inner loops of `get_unpacked_params_list` for one combination:
        the marked names take its items, then the regular parameters are
        copied. */
    method BuildVariation(order: seq<string>, comb: seq<V>) returns (d: map<string, Param<V>>)
      requires Valid() && Enumerates(order, unpacked) && |comb| == |order|
      ensures IsVariation(d, parameters, order, comb)
    {
      d := map[];
      var index := 0;
      while index < |order|
        invariant 0 <= index <= |order|
        invariant d.Keys == set k | 0 <= k < index :: order[k]
        invariant forall k :: 0 <= k < index ==> d[order[k]] == Scalar(comb[k])
      {
        d := d[order[index] := Scalar(comb[index])];
        index := index + 1;
      }
      assert d.Keys == unpacked by {
        forall n ensures n in d <==> n in unpacked {
          if n in unpacked {
            var k :| 0 <= k < |order| && order[k] == n;
          }
        }
      }
      var regular := parameters.Keys - unpacked;
      var todo := regular;
      while todo != {}
        invariant todo <= regular
        invariant d.Keys == unpacked + (regular - todo)
        invariant forall k :: 0 <= k < |order| ==> d[order[k]] == Scalar(comb[k])
        invariant forall n :: n in regular - todo ==> d[n] == parameters[n]
        decreases todo
      {
        var param :| param in todo;
        d := d[param := parameters[param]];
        todo := todo - {param};
      }
    }

    /** The first loop of `get_unpacked_params_list`, which takes an
        iterator of each marked parameter: it fails at a value that is not
        a list. */
    method AllIterable(order: seq<string>) returns (ok: bool)
      requires Valid() && Enumerates(order, unpacked)
      ensures ok <==> AllItems(parameters, order)
    {
      var k := 0;
      while k < |order|
        invariant 0 <= k <= |order|
        invariant forall j :: 0 <= j < k ==> parameters[order[j]].Items?
      {
        if parameters[order[k]].Scalar? {
          return false;
        }
        k := k + 1;
      }
      ok := true;
    }

    /** The loop of `get_unpacked_params_list` over the combinations: one
        parameter set per combination, in the same order. */
    method BuildVariations(order: seq<string>, all: seq<seq<V>>) returns (dicts: seq<map<string, Param<V>>>)
      requires Valid() && Enumerates(order, unpacked)
      requires forall c :: c in all ==> |c| == |order|
      ensures |dicts| == |all|
      ensures forall i :: 0 <= i < |all| ==> |all[i]| == |order| && IsVariation(dicts[i], parameters, order, all[i])
    {
      dicts := [];
      var i := 0;
      while i < |all|
        invariant 0 <= i <= |all| && |dicts| == i
        invariant forall j :: 0 <= j < i ==> |all[j]| == |order| && IsVariation(dicts[j], parameters, order, all[j])
      {
        assert all[i] in all;
        var d := BuildVariation(order, all[i]);
        dicts := dicts + [d];
        i := i + 1;
      }
    }

    /** `get_unpacked_params_list`: with nothing marked, the parameters
        themselves; otherwise one parameter set per combination of the marked
        lists, as many as `get_num_unpacked_variations` counts, in the order
        `itertools.product` yields them. A marked name whose value is no
        longer a list fails (a `TypeError`). */
    method GetUnpackedParamsList(order: seq<string>) returns (r: Option<seq<map<string, Param<V>>>>)
      requires Valid() && Enumerates(order, unpacked)
      ensures r.None? <==> !AllItems(parameters, order)
      ensures |order| == 0 ==> r == Some([parameters])
      ensures r.Some? && |order| > 0 ==> Some(|r.value|) == NumUnpackedVariations(order)
      ensures r.Some? ==> forall i :: 0 <= i < |r.value| ==>
                var cs := Combinations(Lists(parameters, order));
                i < |cs| && |cs[i]| == |order| && IsVariation(r.value[i], parameters, order, cs[i])
    {
      EnumeratesEmpty(order, unpacked);
      if unpacked == {} {
        return Some([parameters]);
      }
      var iterable := AllIterable(order);
      if !iterable {
        return None;
      }
      var all := Combinations(Lists(parameters, order));
      var dicts := BuildVariations(order, all);
      r := Some(dicts);
    }
  }
}
