// The logical filters (src/filters/logical.rs): `And`, `Or` and `Invert`
// over other filters. A filter's check is a function of the query `Q` (the
// bot, the update and the context); `validate` is a loop that stops at the
// first deciding filter, so the methods also report how many filters they
// asked.
module LogicalFilters {
  type Filter<!Q> = Q -> bool

  datatype And<!Q> = And(filters: seq<Filter<Q>>)
  datatype Or<!Q> = Or(filters: seq<Filter<Q>>)
  datatype Invert<!Q> = Invert(filter: Filter<Q>)

  /** `And::new`: exactly the one filter. */
  function NewAnd<Q>(filter: Filter<Q>): (a: And<Q>)
    ensures a.filters == [filter]
  {
    And([filter])
  }

  /** `And::and`: one more filter, after the others. */
  function AddAnd<Q>(a: And<Q>, filter: Filter<Q>): (r: And<Q>)
    ensures |r.filters| == |a.filters| + 1 && r.filters[..|a.filters|] == a.filters && r.filters[|a.filters|] == filter
  {
    And(a.filters + [filter])
  }

  /** `Or::new`. */
  function NewOr<Q>(filter: Filter<Q>): (o: Or<Q>)
    ensures o.filters == [filter]
  {
    Or([filter])
  }

  /** `Or::or`. */
  function AddOr<Q>(o: Or<Q>, filter: Filter<Q>): (r: Or<Q>)
    ensures |r.filters| == |o.filters| + 1 && r.filters[..|o.filters|] == o.filters && r.filters[|o.filters|] == filter
  {
    Or(o.filters + [filter])
  }

  /** The position of the first filter that answers `answer`, or the number
      of filters when none does. */
  function FirstAnswering<Q>(filters: seq<Filter<Q>>, q: Q, answer: bool): (k: nat)
    ensures k <= |filters|
    ensures forall j | 0 <= j < k :: filters[j](q) != answer
    ensures k < |filters| ==> filters[k](q) == answer
    decreases |filters|
  {
    if |filters| == 0 then 0
    else if filters[0](q) == answer then 0
    else 1 + FirstAnswering(filters[1..], q, answer)
  }

  /** `And::validate`: true when every filter passes; the filters after the
      first failing one are not asked. */
  method ValidateAnd<Q>(a: And<Q>, q: Q) returns (b: bool, asked: nat)
    ensures b <==> forall i | 0 <= i < |a.filters| :: a.filters[i](q)
    ensures asked == if b then |a.filters| else FirstAnswering(a.filters, q, false) + 1
  {
    asked := 0;
    for i := 0 to |a.filters|
      invariant asked == i && forall j | 0 <= j < i :: a.filters[j](q)
    {
      asked := asked + 1;
      if !a.filters[i](q) {
        FirstIsUnique(a.filters, q, false, i);
        return false, asked;
      }
    }
    return true, asked;
  }

  /** `Or::validate`: true when some filter passes; the filters after the
      first passing one are not asked. */
  method ValidateOr<Q>(o: Or<Q>, q: Q) returns (b: bool, asked: nat)
    ensures b <==> exists i | 0 <= i < |o.filters| :: o.filters[i](q)
    ensures asked == if b then FirstAnswering(o.filters, q, true) + 1 else |o.filters|
  {
    asked := 0;
    for i := 0 to |o.filters|
      invariant asked == i && forall j | 0 <= j < i :: !o.filters[j](q)
    {
      asked := asked + 1;
      if o.filters[i](q) {
        FirstIsUnique(o.filters, q, true, i);
        return true, asked;
      }
    }
    return false, asked;
  }

  /** A position before which no filter answers `answer` and at which one
      does is the first. */
  lemma {:induction false} FirstIsUnique<Q>(filters: seq<Filter<Q>>, q: Q, answer: bool, i: nat)
    requires i < |filters| && filters[i](q) == answer
    requires forall j | 0 <= j < i :: filters[j](q) != answer
    ensures FirstAnswering(filters, q, answer) == i
    decreases i
  {
    if i > 0 {
      FirstIsUnique(filters[1..], q, answer, i - 1);
    }
  }

  /** `Invert::validate`. */
  function ValidateInvert<Q>(inv: Invert<Q>, q: Q): (b: bool)
    ensures b != inv.filter(q)
  {
    !inv.filter(q)
  }

  /** De Morgan: inverting each filter of an `Or` gives an `And` that
      passes exactly when the `Or` fails. */
  lemma InvertedOrIsAnd<Q>(o: Or<Q>, q: Q)
    ensures var a := And(seq(|o.filters|, i requires 0 <= i < |o.filters| => (x: Q) => ValidateInvert(Invert(o.filters[i]), x)));
      (forall i | 0 <= i < |a.filters| :: a.filters[i](q)) <==> !(exists i | 0 <= i < |o.filters| :: o.filters[i](q))
  {
    var a := And(seq(|o.filters|, i requires 0 <= i < |o.filters| => (x: Q) => ValidateInvert(Invert(o.filters[i]), x)));
    assert forall i | 0 <= i < |o.filters| :: a.filters[i](q) == !o.filters[i](q);
  }

  /** Adding a filter to an `And` narrows it and to an `Or` widens it. */
  lemma AddingNarrowsAndWidens<Q>(a: And<Q>, o: Or<Q>, f: Filter<Q>, q: Q)
    ensures (forall i | 0 <= i < |AddAnd(a, f).filters| :: AddAnd(a, f).filters[i](q))
       <==> (forall i | 0 <= i < |a.filters| :: a.filters[i](q)) && f(q)
    ensures (exists i | 0 <= i < |AddOr(o, f).filters| :: AddOr(o, f).filters[i](q))
       <==> (exists i | 0 <= i < |o.filters| :: o.filters[i](q)) || f(q)
  {
    var ra := AddAnd(a, f);
    assert forall i | 0 <= i < |a.filters| :: ra.filters[i] == a.filters[i];
    assert ra.filters[|a.filters|] == f;
    var r := AddOr(o, f);
    if f(q) {
      assert r.filters[|o.filters|](q);
    }
    if exists i | 0 <= i < |o.filters| :: o.filters[i](q) {
      var i :| 0 <= i < |o.filters| && o.filters[i](q);
      assert r.filters[i] == o.filters[i];
    }
  }
}
