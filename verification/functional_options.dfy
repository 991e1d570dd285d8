/**
 The functional-options pattern, stated once for both resolvers.

 In the Go code an option is a closure that mutates one field of a configuration
 record, and a resolver runs `for _, opt := range opts { opt(o) }` over a baseline.
 Here an option is a value of some type `O`, `apply` gives its effect on a record
 of type `R`, and `ApplyAll` is the loop. A record is observed field by field
 through `get`, where each option writes the single field `target(o)` with the
 value `value(o)`; `FieldGranular` says that `apply` does exactly that and
 nothing else.

 The reference for the fold is `Effective`: the value of a field after the loop
 is the value written by the LAST option that targets it, or the baseline's own
 value when no option does. `LastWriteWins` connects the two.
 */
module FunctionalOptions {
  import opened Wrappers

  /** Applies the options to `base` in list order, first option first. */
  function ApplyAll<R, O>(apply: (R, O) -> R, base: R, opts: seq<O>): R
    decreases |opts|
  {
    if |opts| == 0 then base else ApplyAll(apply, apply(base, opts[0]), opts[1..])
  }

  /** Each option writes its own field with its own value and leaves every other field as it was. */
  ghost predicate FieldGranular<R(!new), O(!new), F(!new), V>(
    apply: (R, O) -> R, target: O -> F, get: (R, F) -> V, value: O -> V)
  {
    forall r, o, f :: get(apply(r, o), f) == if target(o) == f then value(o) else get(r, f)
  }

  /** No two options of the list target the same field. */
  ghost predicate DistinctTargets<O, F>(target: O -> F, opts: seq<O>)
  {
    forall i, j :: 0 <= i < j < |opts| ==> target(opts[i]) != target(opts[j])
  }

  /** The index of the last option in `opts` that targets field `f`, if any. */
  function LastWriter<O, F(==)>(target: O -> F, opts: seq<O>, f: F): (r: Option<nat>)
    ensures r.Some? ==> r.value < |opts| && target(opts[r.value]) == f
    ensures r.Some? ==> forall j :: r.value < j < |opts| ==> target(opts[j]) != f
    ensures r.None? <==> forall j :: 0 <= j < |opts| ==> target(opts[j]) != f
    decreases |opts|
  {
    if |opts| == 0 then None
    else if target(opts[|opts| - 1]) == f then Some(|opts| - 1)
    else LastWriter(target, opts[..|opts| - 1], f)
  }

  /** Reference definition: the value field `f` holds once `opts` have been applied to `base`. */
  function Effective<R, O, F(==), V>(
    target: O -> F, get: (R, F) -> V, value: O -> V, base: R, opts: seq<O>, f: F): V
  {
    match LastWriter(target, opts, f)
    case Some(i) => value(opts[i])
    case None => get(base, f)
  }

  /** Applying `p` and then `s` is applying `p + s`. */
  lemma {:induction false} ApplyAllAppend<R, O>(apply: (R, O) -> R, base: R, p: seq<O>, s: seq<O>)
    ensures ApplyAll(apply, base, p + s) == ApplyAll(apply, ApplyAll(apply, base, p), s)
    decreases |p|
  {
    if |p| == 0 {
      assert p + s == s;
    } else {
      assert (p + s)[0] == p[0];
      assert (p + s)[1..] == p[1..] + s;
      ApplyAllAppend(apply, apply(base, p[0]), p[1..], s);
    }
  }

  /** Appending one option applies it to the record the earlier options produced. */
  lemma ApplyAllSnoc<R, O>(apply: (R, O) -> R, base: R, opts: seq<O>, o: O)
    ensures ApplyAll(apply, base, opts + [o]) == apply(ApplyAll(apply, base, opts), o)
  {
    ApplyAllAppend(apply, base, opts, [o]);
    var mid := ApplyAll(apply, base, opts);
    assert ApplyAll(apply, mid, [o]) == ApplyAll(apply, apply(mid, o), []);
  }

  /** Every field ends up holding the value of its last writer, or the baseline's value. */
  lemma {:induction false} LastWriteWins<R(!new), O(!new), F(!new), V>(
    apply: (R, O) -> R, target: O -> F, get: (R, F) -> V, value: O -> V, base: R, opts: seq<O>, f: F)
    requires FieldGranular(apply, target, get, value)
    ensures get(ApplyAll(apply, base, opts), f) == Effective(target, get, value, base, opts, f)
    decreases |opts|
  {
    if |opts| > 0 {
      var n := |opts| - 1;
      assert opts == opts[..n] + [opts[n]];
      ApplyAllSnoc(apply, base, opts[..n], opts[n]);
      LastWriteWins(apply, target, get, value, base, opts[..n], f);
    }
  }

  /** A field that no option targets keeps its baseline value. */
  lemma Untouched<R(!new), O(!new), F(!new), V>(
    apply: (R, O) -> R, target: O -> F, get: (R, F) -> V, value: O -> V, base: R, opts: seq<O>, f: F)
    requires FieldGranular(apply, target, get, value)
    requires forall j :: 0 <= j < |opts| ==> target(opts[j]) != f
    ensures get(ApplyAll(apply, base, opts), f) == get(base, f)
  {
    LastWriteWins(apply, target, get, value, base, opts, f);
  }

  /** In a list with distinct targets, an option that targets `f` is the last writer of `f`. */
  lemma DistinctWriter<O, F>(target: O -> F, opts: seq<O>, o: O)
    requires DistinctTargets(target, opts)
    requires o in opts
    ensures LastWriter(target, opts, target(o)).Some?
    ensures opts[LastWriter(target, opts, target(o)).value] == o
  {
  }

  /**
   Two lists of options with distinct targets and the same members give every field
   the same value, whatever their order.
   */
  lemma SameMembersSameEffect<R, O, F, V>(
    target: O -> F, get: (R, F) -> V, value: O -> V, base: R, opts: seq<O>, opts': seq<O>, f: F)
    requires DistinctTargets(target, opts) && DistinctTargets(target, opts')
    requires forall o :: o in opts <==> o in opts'
    ensures Effective(target, get, value, base, opts, f) == Effective(target, get, value, base, opts', f)
  {
    if o :| o in opts && target(o) == f {
      DistinctWriter(target, opts, o);
      DistinctWriter(target, opts', o);
    } else {
      forall j | 0 <= j < |opts|
        ensures target(opts[j]) != f
      {
        assert opts[j] in opts;
      }
      forall j | 0 <= j < |opts'|
        ensures target(opts'[j]) != f
      {
        assert opts'[j] in opts;
      }
    }
  }

  /**
   Options on pairwise distinct fields commute: any reordering of such a list
   leaves every field with the same value.
   */
  lemma OrderIrrelevant<R(!new), O(!new), F(!new), V>(
    apply: (R, O) -> R, target: O -> F, get: (R, F) -> V, value: O -> V, base: R, opts: seq<O>, opts': seq<O>)
    requires FieldGranular(apply, target, get, value)
    requires DistinctTargets(target, opts) && DistinctTargets(target, opts')
    requires forall o :: o in opts <==> o in opts'
    ensures forall f :: get(ApplyAll(apply, base, opts), f) == get(ApplyAll(apply, base, opts'), f)
  {
    forall f
      ensures get(ApplyAll(apply, base, opts), f) == get(ApplyAll(apply, base, opts'), f)
    {
      LastWriteWins(apply, target, get, value, base, opts, f);
      LastWriteWins(apply, target, get, value, base, opts', f);
      SameMembersSameEffect(target, get, value, base, opts, opts', f);
    }
  }

  /**
   Swapping two adjacent options on different fields, anywhere in a list, leaves
   every field with the same value; the rest of the list may target anything.
   */
  lemma SwapDisjoint<R(!new), O(!new), F(!new), V>(
    apply: (R, O) -> R, target: O -> F, get: (R, F) -> V, value: O -> V,
    base: R, p: seq<O>, a: O, b: O, s: seq<O>)
    requires FieldGranular(apply, target, get, value)
    requires target(a) != target(b)
    ensures forall f :: get(ApplyAll(apply, base, p + [a, b] + s), f) == get(ApplyAll(apply, base, p + [b, a] + s), f)
  {
    var mid := ApplyAll(apply, base, p);
    var ab := apply(apply(mid, a), b);
    var ba := apply(apply(mid, b), a);
    assert [a, b][1..] == [b] && [b, a][1..] == [a];
    assert ApplyAll(apply, mid, [a, b]) == ApplyAll(apply, apply(mid, a), [b]) == ab;
    assert ApplyAll(apply, mid, [b, a]) == ApplyAll(apply, apply(mid, b), [a]) == ba;
    ApplyAllAppend(apply, base, p, [a, b]);
    ApplyAllAppend(apply, base, p, [b, a]);
    ApplyAllAppend(apply, base, p + [a, b], s);
    ApplyAllAppend(apply, base, p + [b, a], s);
    forall f
      ensures get(ApplyAll(apply, base, p + [a, b] + s), f) == get(ApplyAll(apply, base, p + [b, a] + s), f)
    {
      LastWriteWins(apply, target, get, value, ab, s, f);
      LastWriteWins(apply, target, get, value, ba, s, f);
    }
  }
}
