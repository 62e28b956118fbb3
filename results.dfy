/** `Result` and `SimulationResults` of util/simulations.py: a typed
    accumulator for one simulation output, and a store of such accumulators
    by name. */
module Results {

  import opened Wrappers

  // ---------------------------------------------------------------------
  // Result types
  // ---------------------------------------------------------------------

  /** How a result combines with a new sample. The class constants SUMTYPE,
      RATIOTYPE, STRINGTYPE and FLOATTYPE are 0 to 3; any other code is kept
      as `Unknown`, which the update rule treats as "no update". */
  datatype UpdateType = SumType | RatioType | StringType | FloatType | Unknown(code: int)

  function TypeOfCode(code: int): (t: UpdateType)
    ensures t.Unknown? <==> !(0 <= code < 4)
    ensures t.Unknown? ==> t.code == code
  {
    if code == 0 then SumType
    else if code == 1 then RatioType
    else if code == 2 then StringType
    else if code == 3 then FloatType
    else Unknown(code)
  }

  /** The code `get_type` returns. */
  function CodeOf(t: UpdateType): (c: int)
    ensures !t.Unknown? ==> 0 <= c < 4
    ensures t.Unknown? ==> c == t.code
  {
    match t
    case SumType => 0
    case RatioType => 1
    case StringType => 2
    case FloatType => 3
    case Unknown(c) => c
  }

  /** The code a result is created with is the code it reports, and a named
      type survives the round trip through its code. */
  lemma CodeRoundTrip(code: int, t: UpdateType)
    ensures CodeOf(TypeOfCode(code)) == code
    ensures !t.Unknown? ==> TypeOfCode(CodeOf(t)) == t
  {
  }

  // ---------------------------------------------------------------------
  // The state of one Result and its update and merge rules
  // ---------------------------------------------------------------------

  /** The fields of a `Result`: its name, its type, the accumulated value,
      the accumulated total (the denominator of a ratio) and the number of
      updates. */
  datatype Tally = Tally(name: string, kind: UpdateType, value: int, total: int, numUpdates: nat)

  function Fresh(name: string, kind: UpdateType): (r: Tally)
  {
    Tally(name, kind, 0, 0, 0)
  }

  /** A ratio sample passes the `value <= total` assertion; samples of the
      other types always pass. */
  predicate Accepts(kind: UpdateType, value: int, total: int)
  {
    kind == RatioType ==> value <= total
  }

  /** `update(value, total)`: the update count grows by one whatever
      happens; a sum adds the value; a ratio adds value and total, unless
      the total is zero (ignored) or the value exceeds the total (the
      assertion fails after the count has grown); strings and floats
      replace the value; an unknown type changes nothing else. */
  function Updated(t: Tally, value: int, total: int): (u: Tally)
    ensures u.name == t.name && u.kind == t.kind && u.numUpdates == t.numUpdates + 1
    ensures t.kind == SumType ==> u.value == t.value + value && u.total == t.total
    ensures t.kind == RatioType && value <= total && total != 0 ==>
              u.value == t.value + value && u.total == t.total + total
    ensures t.kind == RatioType && !(value <= total && total != 0) ==>
              u.value == t.value && u.total == t.total
    ensures (t.kind == StringType || t.kind == FloatType) ==> u.value == value && u.total == t.total
    ensures t.kind.Unknown? ==> u.value == t.value && u.total == t.total
  {
    var t' := t.(numUpdates := t.numUpdates + 1);
    match t.kind
    case SumType => t'.(value := t.value + value)
    case RatioType =>
      if value <= total && total != 0 then t'.(value := t.value + value, total := t.total + total) else t'
    case StringType => t'.(value := value)
    case FloatType => t'.(value := value)
    case Unknown(_) => t'
  }

  /** `merge(other)`: allowed only between results of the same type and name
      and not of the string type; then counts, values and totals add up. */
  function Merged(a: Tally, b: Tally): (m: Option<Tally>)
    ensures m.Some? <==> a.kind == b.kind && a.kind != StringType && a.name == b.name
    ensures m.Some? ==> m.value == Tally(a.name, a.kind, a.value + b.value, a.total + b.total, a.numUpdates + b.numUpdates)
  {
    if a.kind == b.kind && a.kind != StringType && a.name == b.name then
      Some(Tally(a.name, a.kind, a.value + b.value, a.total + b.total, a.numUpdates + b.numUpdates))
    else None
  }

  /** What `get_result` returns: the string "Nothing yet" before any update,
      the pair behind the float value/total for a ratio (a
      `ZeroDivisionError` when every ratio update was ignored), and the value
      otherwise. */
  datatype Outcome = NothingYet | Ratio(num: int, den: int) | Plain(value: int) | ZeroDivision

  function ResultOf(t: Tally): (o: Outcome)
    ensures o == NothingYet <==> t.numUpdates == 0
    ensures o == ZeroDivision <==> t.numUpdates > 0 && t.kind == RatioType && t.total == 0
    ensures o.Ratio? <==> t.numUpdates > 0 && t.kind == RatioType && t.total != 0
    ensures o.Ratio? ==> o.num == t.value && o.den == t.total
    ensures o.Plain? ==> o.value == t.value && t.kind != RatioType
  {
    if t.numUpdates == 0 then NothingYet
    else if t.kind == RatioType then (if t.total == 0 then ZeroDivision else Ratio(t.value, t.total))
    else Plain(t.value)
  }

  /** A sample: the arguments of one `update` call. */
  datatype Sample = Sample(value: int, total: int)

  /** The state after the given samples, one `update` call each. */
  function Run(t: Tally, samples: seq<Sample>): (u: Tally)
    ensures u.name == t.name && u.kind == t.kind
    ensures u.numUpdates == t.numUpdates + |samples|
  {
    if samples == [] then t
    else
      var last := samples[|samples| - 1];
      Updated(Run(t, samples[..|samples| - 1]), last.value, last.total)
  }

  lemma {:induction false} RunAppend(t: Tally, xs: seq<Sample>, ys: seq<Sample>)
    ensures Run(t, xs + ys) == Run(Run(t, xs), ys)
    decreases |ys|
  {
    if ys == [] {
      assert xs + ys == xs;
    } else {
      var ys' := ys[..|ys| - 1];
      assert (xs + ys)[..|xs + ys| - 1] == xs + ys';
      RunAppend(t, xs, ys');
    }
  }

  /** For the accumulating types, merging commutes with a further update. */
  lemma MergeThenUpdate(a: Tally, b: Tally, s: Sample)
    requires a.kind == b.kind && a.name == b.name
    requires a.kind == SumType || a.kind == RatioType || a.kind.Unknown?
    ensures Merged(a, Updated(b, s.value, s.total)) == Some(Updated(Merged(a, b).value, s.value, s.total))
  {
  }

  /** Merging two results that accumulated samples separately gives the
      result that accumulates all of them, for sums, ratios and unknown
      types. (Strings cannot be merged, and floats are replaced on update
      but added on merge.) */
  lemma {:induction false} MergeOfRuns(a: Tally, name: string, kind: UpdateType, ys: seq<Sample>)
    requires a.name == name && a.kind == kind
    requires kind == SumType || kind == RatioType || kind.Unknown?
    ensures Merged(a, Run(Fresh(name, kind), ys)) == Some(Run(a, ys))
    decreases |ys|
  {
    if ys != [] {
      var ys' := ys[..|ys| - 1];
      var last := ys[|ys| - 1];
      MergeOfRuns(a, name, kind, ys');
      MergeThenUpdate(a, Run(Fresh(name, kind), ys'), last);
    }
  }

  lemma MergeOfSplitRun(name: string, kind: UpdateType, xs: seq<Sample>, ys: seq<Sample>)
    requires kind == SumType || kind == RatioType || kind.Unknown?
    ensures Merged(Run(Fresh(name, kind), xs), Run(Fresh(name, kind), ys)) == Some(Run(Fresh(name, kind), xs + ys))
  {
    MergeOfRuns(Run(Fresh(name, kind), xs), name, kind, ys);
    RunAppend(Fresh(name, kind), xs, ys);
  }

  /** Merging is symmetric. */
  lemma MergeCommutes(a: Tally, b: Tally)
    ensures Merged(a, b) == Merged(b, a)
  {
  }

  /** A ratio never exceeds one: accepted samples have value <= total, and
      rejected or ignored ones change neither. */
  lemma {:induction false} RatioAtMostTotal(t: Tally, samples: seq<Sample>)
    requires t.kind == RatioType && t.value <= t.total
    ensures Run(t, samples).value <= Run(t, samples).total
    decreases |samples|
  {
    if samples != [] {
      RatioAtMostTotal(t, samples[..|samples| - 1]);
    }
  }

  /** The doctests of the class: a sum of 13 and 4, and the ratio 4/10 and
      3/4 merged into 3/11. */
  lemma ResultExamples()
    ensures var s := Run(Fresh("name", SumType), [Sample(13, 0), Sample(4, 0)]);
            s.value == 17 && s.numUpdates == 2 && ResultOf(s) == Plain(17) && CodeOf(s.kind) == 0
    ensures var r2 := Run(Fresh("name2", RatioType), [Sample(4, 10), Sample(3, 4)]);
            r2.value == 7 && r2.total == 14 && ResultOf(r2) == Ratio(7, 14) &&
            var other := Run(Fresh("name2", RatioType), [Sample(3, 11)]);
            Merged(other, r2) == Some(Tally("name2", RatioType, 10, 25, 3)) &&
            ResultOf(Merged(other, r2).value) == Ratio(10, 25) && CodeOf(r2.kind) == 1
  {
    assert [Sample(13, 0), Sample(4, 0)][..1] == [Sample(13, 0)];
    assert [Sample(4, 10), Sample(3, 4)][..1] == [Sample(4, 10)];
  }

  // ---------------------------------------------------------------------
  // The Result object
  // ---------------------------------------------------------------------

  class Result {
    var name: string
    var kind: UpdateType
    var value: int
    var total: int
    var numUpdates: nat

    function Snapshot(): (r: Tally)
      reads this
    {
      Tally(name, kind, value, total, numUpdates)
    }

    constructor (name: string, updateType: int)
      ensures Snapshot() == Fresh(name, TypeOfCode(updateType))
    {
      this.name := name;
      kind := TypeOfCode(updateType);
      value := 0;
      total := 0;
      numUpdates := 0;
    }

    /** `Result.create`: a new result updated once. */
    static method Create(name: string, updateType: int, value: int, total: int) returns (r: Result, ok: bool)
      ensures fresh(r)
      ensures r.Snapshot() == Updated(Fresh(name, TypeOfCode(updateType)), value, total)
      ensures ok <==> Accepts(TypeOfCode(updateType), value, total)
    {
      r := new Result(name, updateType);
      ok := r.Update(value, total);
    }

    /** Returns false where the ratio assertion fails; the update count has
        grown by then. */
    method Update(value: int, total: int) returns (ok: bool)
      modifies this
      ensures Snapshot() == Updated(old(Snapshot()), value, total)
      ensures ok <==> Accepts(kind, value, total)
    {
      numUpdates := numUpdates + 1;
      ok := true;
      match kind
      case SumType =>
        this.value := this.value + value;
      case RatioType =>
        if !(value <= total) {
          return false;
        }
        if total != 0 {
          this.value := this.value + value;
          this.total := this.total + total;
        }
      case StringType =>
        this.value := value;
      case FloatType =>
        this.value := value;
      case Unknown(_) =>
    }

    /** Returns false where one of the three assertions fails, and then
        nothing has changed. `other` may be this very result. */
    method Merge(other: Result) returns (ok: bool)
      modifies this
      ensures var m := Merged(old(Snapshot()), old(other.Snapshot()));
              && (ok <==> m.Some?)
              && (ok ==> Snapshot() == m.value)
              && (!ok ==> Snapshot() == old(Snapshot()))
    {
      if kind != other.kind || kind == StringType || name != other.name {
        return false;
      }
      var n, v, t := other.numUpdates, other.value, other.total;
      numUpdates := numUpdates + n;
      value := value + v;
      total := total + t;
      ok := true;
    }

    function GetResult(): (o: Outcome)
      reads this
      ensures o == ResultOf(Snapshot())
    {
      ResultOf(Snapshot())
    }
  }

  // ---------------------------------------------------------------------
  // The store of results by name
  // ---------------------------------------------------------------------

  /** Every stored name holds a non-empty list of results of that name. */
  predicate WellNamed(s: map<string, seq<Tally>>)
  {
    forall n :: n in s ==> |s[n]| > 0 && forall i :: 0 <= i < |s[n]| ==> s[n][i].name == n
  }

  /** The list stored under `n`, empty when there is none. */
  function Existing(s: map<string, seq<Tally>>, n: string): (r: seq<Tally>)
  {
    if n in s then s[n] else []
  }

  /** `append_result`: adds to the list of the result's name, starting one
      when there is none. */
  function Appended(s: map<string, seq<Tally>>, r: Tally): (s': map<string, seq<Tally>>)
    ensures s'.Keys == s.Keys + {r.name}
    ensures WellNamed(s) ==> WellNamed(s')
    ensures forall n :: n in s && n != r.name ==> s'[n] == s[n]
    ensures s'[r.name] == Existing(s, r.name) + [r]
  {
    s[r.name := Existing(s, r.name) + [r]]
  }

  /** `append_all_results` after the names in `done` have been visited: the
      lists of `o` follow those of `s`. */
  function AppendedOver(s: map<string, seq<Tally>>, o: map<string, seq<Tally>>, done: set<string>): (s': map<string, seq<Tally>>)
    requires done <= o.Keys
    ensures s'.Keys == s.Keys + done
    ensures forall n :: n in s' ==> s'[n] == Existing(s, n) + (if n in done then o[n] else [])
  {
    map n | n in s.Keys + done :: Existing(s, n) + (if n in done then o[n] else [])
  }

  /** Appending a result to a name's list extended by `prefix` extends it by
      one more. */
  lemma AppendedAgain(s: map<string, seq<Tally>>, n: string, prefix: seq<Tally>, r: Tally)
    requires r.name == n
    ensures Appended(s[n := Existing(s, n) + prefix], r) == s[n := Existing(s, n) + (prefix + [r])]
  {
    var a := s[n := Existing(s, n) + prefix];
    assert Existing(a, n) + [r] == Existing(s, n) + (prefix + [r]);
  }

  lemma AppendedOverStep(s: map<string, seq<Tally>>, o: map<string, seq<Tally>>, done: set<string>, n: string)
    requires done <= o.Keys && n in o && n !in done
    ensures var a := AppendedOver(s, o, done);
            a[n := Existing(a, n) + o[n]] == AppendedOver(s, o, done + {n})
  {
    var a := AppendedOver(s, o, done);
    assert Existing(a, n) == Existing(s, n);
  }

  lemma AppendedOverNone(s: map<string, seq<Tally>>, o: map<string, seq<Tally>>)
    ensures AppendedOver(s, o, {}) == s
  {
    assert forall n :: n in s ==> Existing(s, n) + [] == s[n];
  }

  function AllAppended(s: map<string, seq<Tally>>, o: map<string, seq<Tally>>): (r: map<string, seq<Tally>>)
  {
    AppendedOver(s, o, o.Keys)
  }

  /** Appending all of a well-named store keeps a store well named. */
  lemma AllAppendedWellNamed(s: map<string, seq<Tally>>, o: map<string, seq<Tally>>)
    requires WellNamed(s) && WellNamed(o)
    ensures WellNamed(AllAppended(s, o))
  {
    var r: map<string, seq<Tally>> := AllAppended(s, o);
    forall n: string | n in r ensures |r[n]| > 0 && forall i: int :: 0 <= i < |r[n]| ==> r[n][i].name == n {
      assert r[n] == Existing(s, n) + Existing(o, n);
    }
  }

  /** The last result stored under `n` in `s` merges with the last one
      stored under `n` in `o`. */
  predicate LastMerges(s: map<string, seq<Tally>>, o: map<string, seq<Tally>>, n: string)
    requires WellNamed(s) && WellNamed(o) && n in s
  {
    n in o && Merged(s[n][|s[n]| - 1], o[n][|o[n]| - 1]).Some?
  }

  /** The list under `n` with its last result merged with the last of `o`. */
  function MergedLast(s: map<string, seq<Tally>>, o: map<string, seq<Tally>>, n: string): (l: seq<Tally>)
    requires WellNamed(s) && WellNamed(o) && n in s && LastMerges(s, o, n)
    ensures |l| == |s[n]| && l[..|l| - 1] == s[n][..|s[n]| - 1]
    ensures forall i :: 0 <= i < |l| ==> l[i].name == n
  {
    var l := s[n];
    l[..|l| - 1] + [Merged(l[|l| - 1], o[n][|o[n]| - 1]).value]
  }

  /** The store after the names in `done` have been merged. */
  function PartlyMerged(s: map<string, seq<Tally>>, o: map<string, seq<Tally>>, done: set<string>): (r: map<string, seq<Tally>>)
    requires WellNamed(s) && WellNamed(o)
    requires forall n :: n in done && n in s ==> LastMerges(s, o, n)
    ensures r.Keys == s.Keys && WellNamed(r)
    ensures forall n :: n in r ==> r[n] == if n in done then MergedLast(s, o, n) else s[n]
  {
    map n | n in s :: if n in done then MergedLast(s, o, n) else s[n]
  }

  lemma PartlyMergedStep(s: map<string, seq<Tally>>, o: map<string, seq<Tally>>, done: set<string>, n: string)
    requires WellNamed(s) && WellNamed(o) && n in s && n !in done && LastMerges(s, o, n)
    requires forall m :: m in done && m in s ==> LastMerges(s, o, m)
    ensures PartlyMerged(s, o, done)[n := MergedLast(s, o, n)] == PartlyMerged(s, o, done + {n})
  {
  }

  /** `merge_all_results` when every name can be merged: an empty store
      takes the other's lists; otherwise each list keeps its length and its
      last result absorbs the other's last result of that name. */
  function AllMerged(s: map<string, seq<Tally>>, o: map<string, seq<Tally>>): (r: map<string, seq<Tally>>)
    requires WellNamed(s) && WellNamed(o)
    requires |s| != 0 ==> forall n :: n in s ==> LastMerges(s, o, n)
    ensures WellNamed(r)
    ensures |s| != 0 ==> r.Keys == s.Keys && forall n :: n in r ==> |r[n]| == |s[n]|
    ensures |s| == 0 ==> r == o
    ensures |s| != 0 ==> forall n :: n in r ==> r[n] == MergedLast(s, o, n)
  {
    if |s| == 0 then o
    else map n | n in s :: MergedLast(s, o, n)
  }

  /** Once every name has been visited the partial merge is the whole one. */
  lemma PartlyMergedAll(s: map<string, seq<Tally>>, o: map<string, seq<Tally>>)
    requires WellNamed(s) && WellNamed(o) && |s| != 0
    requires forall n :: n in s ==> LastMerges(s, o, n)
    ensures PartlyMerged(s, o, s.Keys) == AllMerged(s, o)
  {
  }

  /** The results of the class doctest: "lala" sums 13 (then 7 in a
      second result, then 2 in another store), "lele" is the ratio 3/10 +
      8/10 (and 1/2 + 3/3 in the other store). */
  function Lala(v: int): (r: Tally)
  {
    Tally("lala", SumType, v, 0, 1)
  }

  function Lele(): (r: Tally)
  {
    Tally("lele", RatioType, 11, 20, 2)
  }

  function Lele2(): (r: Tally)
  {
    Tally("lele", RatioType, 4, 5, 2)
  }

  /** These are the states the doctest's `update` calls produce. */
  lemma DoctestTallies(v: int)
    ensures Lala(v) == Run(Fresh("lala", SumType), [Sample(v, 0)])
    ensures Lele() == Run(Fresh("lele", RatioType), [Sample(3, 10), Sample(8, 10)])
    ensures Lele2() == Run(Fresh("lele", RatioType), [Sample(1, 2), Sample(3, 3)])
  {
    assert [Sample(v, 0)][..0] == [];
    assert [Sample(3, 10), Sample(8, 10)][..1] == [Sample(3, 10)];
    assert [Sample(1, 2), Sample(3, 3)][..1] == [Sample(1, 2)];
    assert [Sample(3, 10)][..0] == [] && [Sample(1, 2)][..0] == [];
  }

  /** The stores of the doctest: the first after appending the second
      "lala" result, and the second before merging. */
  function Store1(): (r: map<string, seq<Tally>>)
  {
    Appended(map["lala" := [Lala(13)], "lele" := [Lele()]], Lala(7))
  }

  function Store2(): (r: map<string, seq<Tally>>)
  {
    map["lala" := [Lala(2)], "lele" := [Lele2()]]
  }

  /** Appending a second "lala" result keeps two names, and "lala" lists the
      values 13 and 7. */
  lemma AppendExample()
    ensures Store1() == map["lala" := [Lala(13), Lala(7)], "lele" := [Lele()]]
    ensures |Store1()| == 2 && Lala(13).value == 13 && Lala(7).value == 7
  {
    var s := map["lala" := [Lala(13)], "lele" := [Lele()]];
    assert Existing(s, "lala") + [Lala(7)] == [Lala(13), Lala(7)];
    assert Store1().Keys == {"lala", "lele"};
  }

  /** Both doctest stores are well named and every name of the second
      merges with the first. */
  lemma MergeExampleAllowed()
    ensures WellNamed(Store1()) && WellNamed(Store2())
    ensures forall n :: n in Store2() ==> LastMerges(Store2(), Store1(), n)
  {
    AppendExample();
    assert Store2().Keys == {"lala", "lele"};
  }

  /** Merging the first store into the second keeps its two names. */
  lemma MergeExampleKeys()
    ensures WellNamed(Store1()) && WellNamed(Store2())
    ensures forall n :: n in Store2() ==> LastMerges(Store2(), Store1(), n)
    ensures AllMerged(Store2(), Store1()).Keys == {"lala", "lele"}
  {
    MergeExampleAllowed();
  }

  /** Merging adds 2 + 7 for "lala": only the last "lala" result of the
      first store takes part. */
  lemma MergeExampleSum()
    ensures WellNamed(Store1()) && WellNamed(Store2())
    ensures forall n :: n in Store2() ==> LastMerges(Store2(), Store1(), n)
    ensures AllMerged(Store2(), Store1())["lala"] == [Tally("lala", SumType, 9, 0, 2)]
  {
    MergeExampleAllowed();
    AppendExample();
    assert AllMerged(Store2(), Store1())["lala"] == MergedLast(Store2(), Store1(), "lala");
    assert Merged(Lala(2), Lala(7)) == Some(Tally("lala", SumType, 9, 0, 2));
  }

  /** Merging adds 4/5 + 11/20 = 15/25 for "lele". */
  lemma MergeExampleRatio()
    ensures WellNamed(Store1()) && WellNamed(Store2())
    ensures forall n :: n in Store2() ==> LastMerges(Store2(), Store1(), n)
    ensures AllMerged(Store2(), Store1())["lele"] == [Tally("lele", RatioType, 15, 25, 4)]
  {
    MergeExampleAllowed();
    AppendExample();
    assert AllMerged(Store2(), Store1())["lele"] == MergedLast(Store2(), Store1(), "lele");
    assert Merged(Lele2(), Lele()) == Some(Tally("lele", RatioType, 15, 25, 4));
  }

  /** Appending a store to an empty one copies its lists. */
  lemma AllAppendedToEmpty(o: map<string, seq<Tally>>)
    ensures AllAppended(map[], o) == o
  {
    assert forall n :: n in o ==> Existing(map[], n) + o[n] == o[n];
  }

  class SimulationResults {
    /** The results stored under each name. */
    var results: map<string, seq<Tally>>

    ghost predicate Valid()
      reads this
    {
      WellNamed(results)
    }

    constructor ()
      ensures Valid() && results == map[]
    {
      results := map[];
    }

    /** Replaces whatever is stored under the result's name by that result
        alone. */
    method AddResult(r: Tally)
      requires Valid()
      modifies this
      ensures Valid()
      ensures results == old(results)[r.name := [r]]
    {
      results := results[r.name := [r]];
    }

    method AppendResult(r: Tally)
      requires Valid()
      modifies this
      ensures Valid()
      ensures results == Appended(old(results), r)
    {
      if r.name in results {
        results := results[r.name := results[r.name] + [r]];
      } else {
        assert Existing(old(results), r.name) + [r] == [r];
        AddResult(r);
      }
    }

    /** The inner loop of `append_all_results`: appends the results of one
        name, one `append_result` call each. */
    method AppendResults(rs: seq<Tally>, ghost n: string)
      requires Valid() && rs != [] && forall i :: 0 <= i < |rs| ==> rs[i].name == n
      modifies this
      ensures Valid()
      ensures results == old(results)[n := Existing(old(results), n) + rs]
    {
      var i := 0;
      while i < |rs|
        invariant 0 <= i <= |rs| && Valid()
        invariant i == 0 ==> results == old(results)
        invariant i > 0 ==> results == old(results)[n := Existing(old(results), n) + rs[..i]]
      {
        assert rs[..i + 1] == rs[..i] + [rs[i]];
        if i > 0 {
          AppendedAgain(old(results), n, rs[..i], rs[i]);
        } else {
          assert rs[..1] == [rs[0]];
        }
        AppendResult(rs[i]);
        i := i + 1;
      }
      assert rs[..i] == rs;
    }

    /** One pass of the outer loop of `append_all_results`. */
    method AppendAllOf(theirs: map<string, seq<Tally>>, n: string, ghost s: map<string, seq<Tally>>, ghost done: set<string>)
      requires Valid() && WellNamed(theirs) && n in theirs && n !in done && done <= theirs.Keys
      requires results == AppendedOver(s, theirs, done)
      modifies this
      ensures Valid()
      ensures results == AppendedOver(s, theirs, done + {n})
    {
      AppendResults(theirs[n], n);
      AppendedOverStep(s, theirs, done, n);
    }

    /** Appends every result of `other`, name by name in any order. With
        `other` this very store the loop would never end. */
    method AppendAllResults(other: SimulationResults)
      requires Valid() && other.Valid() && other != this
      modifies this
      ensures Valid()
      ensures results == AllAppended(old(results), other.results)
    {
      var theirs := other.results;
      ghost var s0 := results;
      var todo := theirs.Keys;
      ghost var done: set<string> := {};
      AppendedOverNone(results, theirs);
      while todo != {}
        invariant todo + done == theirs.Keys && todo !! done
        invariant Valid()
        invariant results == AppendedOver(s0, theirs, done)
        decreases todo
      {
        var n :| n in todo;
        AppendAllOf(theirs, n, s0, done);
        todo := todo - {n};
        done := done + {n};
      }
    }

    /** The first branch of `merge_all_results`: an empty store takes the
        other's lists, name by name in any order. */
    method CopyAll(theirs: map<string, seq<Tally>>)
      requires results == map[]
      modifies this
      ensures results == theirs
    {
      var todo := theirs.Keys;
      while todo != {}
        invariant todo <= theirs.Keys
        invariant results.Keys == theirs.Keys - todo
        invariant forall n :: n in results ==> results[n] == theirs[n]
        decreases todo
      {
        var n :| n in todo;
        results := results[n := theirs[n]];
        todo := todo - {n};
      }
      assert results == theirs;
    }

    /** One pass of the loop of `merge_all_results`: the last result stored
        under `n` absorbs the other's last result of that name. `ok` is false
        on a `KeyError` or a failed merge, and nothing changes then. */
    method MergeLast(theirs: map<string, seq<Tally>>, n: string, ghost mine: map<string, seq<Tally>>, ghost done: set<string>)
      returns (ok: bool)
      requires WellNamed(mine) && WellNamed(theirs) && n in mine && n !in done
      requires done <= mine.Keys && forall m :: m in done ==> LastMerges(mine, theirs, m)
      requires results == PartlyMerged(mine, theirs, done)
      modifies this
      ensures ok <==> LastMerges(mine, theirs, n)
      ensures ok ==> results == PartlyMerged(mine, theirs, done + {n})
      ensures !ok ==> results == old(results)
    {
      assert results[n] == mine[n];
      if n !in theirs {
        return false;
      }
      var l := results[n];
      var m := Merged(l[|l| - 1], theirs[n][|theirs[n]| - 1]);
      if m.None? {
        return false;
      }
      assert l[..|l| - 1] + [m.value] == MergedLast(mine, theirs, n);
      PartlyMergedStep(mine, theirs, done, n);
      results := results[n := l[..|l| - 1] + [m.value]];
      ok := true;
    }

    /** The second branch of `merge_all_results`: the loop over the names of
        this store, stopping at the first name whose last result cannot be
        merged. `done` is the set of names merged before it. */
    method MergeLasts(theirs: map<string, seq<Tally>>, ghost mine: map<string, seq<Tally>>)
      returns (failed: Option<string>, ghost done: set<string>)
      requires results == mine && WellNamed(mine) && WellNamed(theirs)
      modifies this
      ensures done <= mine.Keys && forall n :: n in done ==> LastMerges(mine, theirs, n)
      ensures results == PartlyMerged(mine, theirs, done)
      ensures failed.None? ==> done == mine.Keys
      ensures failed.Some? ==> failed.value in mine && !LastMerges(mine, theirs, failed.value)
    {
      var todo := results.Keys;
      done := {};
      while todo != {}
        invariant todo + done == mine.Keys && todo !! done
        invariant forall n :: n in done ==> LastMerges(mine, theirs, n)
        invariant results == PartlyMerged(mine, theirs, done)
        decreases todo
      {
        var n :| n in todo;
        var ok := MergeLast(theirs, n, mine, done);
        if !ok {
          return Some(n), done;
        }
        todo := todo - {n};
        done := done + {n};
      }
      failed := None;
    }

    /** An empty store takes the other's lists; otherwise the last result of
        each name absorbs the other's last result of that name, name by name
        in any order. A name missing from `other` (a `KeyError`) or a merge
        that fails its assertions stops the loop at that name, with the names
        visited before it already merged. */
    method MergeAllResults(other: SimulationResults) returns (failed: Option<string>)
      requires Valid() && other.Valid()
      modifies this
      ensures Valid()
      ensures failed.None? <==> |old(results)| == 0 || forall n :: n in old(results) ==> LastMerges(old(results), old(other.results), n)
      ensures failed.None? ==> results == AllMerged(old(results), old(other.results))
      ensures failed.Some? ==> failed.value in old(results) && !LastMerges(old(results), old(other.results), failed.value)
      ensures |old(results)| != 0 ==> results.Keys == old(results).Keys
      ensures |old(results)| != 0 ==> forall n :: n in results ==>
                results[n] == old(results)[n] ||
                (LastMerges(old(results), old(other.results), n) && results[n] == MergedLast(old(results), old(other.results), n))
    {
      var theirs := other.results;
      ghost var mine := results;
      if |results| == 0 {
        CopyAll(theirs);
        return None;
      }
      ghost var done;
      failed, done := MergeLasts(theirs, mine);
      if failed.None? {
        PartlyMergedAll(mine, theirs);
      }
    }

    /** `len`: the number of names, not of results. */
    function Len(): (n: nat)
      reads this
      ensures n == |results.Keys|
    {
      |results|
    }

    /** The values of the results stored under `name`; a `KeyError` when
        there are none. */
    function GetResultValuesList(name: string): (vs: Option<seq<int>>)
      reads this
      ensures vs.Some? <==> name in results
      ensures vs.Some? ==> |vs.value| == |results[name]|
      ensures vs.Some? ==> forall i :: 0 <= i < |vs.value| ==> vs.value[i] == results[name][i].value
    {
      if name in results then
        var l := results[name];
        Some(seq(|l|, i requires 0 <= i < |l| => l[i].value))
      else None
    }
  }

  /** Appending a result adds a name only when the name is new, so `len`
      counts names, not results. */
  lemma AppendedLen(s: map<string, seq<Tally>>, r: Tally)
    ensures |Appended(s, r)| == if r.name in s then |s| else |s| + 1
  {
    var s' := Appended(s, r);
    if r.name in s {
      assert s'.Keys == s.Keys;
    } else {
      assert s'.Keys == s.Keys + {r.name};
    }
  }
}
