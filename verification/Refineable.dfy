/** The code that `derive(Refineable)` generates, over arbitrarily nested records.

    A record has plain fields, optional fields and fields that are refineable records
    themselves.  Its refinement has an optional value for each of the first two and a nested
    refinement for the third.
 */
module Refineable {
  import opened Basics

  datatype Value<T> = Plain(value: T) | Optional(option: Option<T>) | Record(fields: seq<Value<T>>)

  datatype Refinement<T> = Set(option: Option<T>) | Nested(fields: seq<Refinement<T>>)

  // ---- Shapes ----

  /** `r` is a refinement for records shaped like `x`. */
  predicate Fits<T>(x: Value<T>, r: Refinement<T>)
    decreases x
  {
    match x
    case Plain(_) => r.Set?
    case Optional(_) => r.Set?
    case Record(xs) => r.Nested? && |r.fields| == |xs| && forall i :: 0 <= i < |xs| ==> Fits(xs[i], r.fields[i])
  }

  predicate SameShape<T>(a: Refinement<T>, b: Refinement<T>)
    decreases a
  {
    match a
    case Set(_) => b.Set?
    case Nested(rs) => b.Nested? && |b.fields| == |rs| && forall i :: 0 <= i < |rs| ==> SameShape(rs[i], b.fields[i])
  }

  /** `x` and `y` are values of the same record type. */
  predicate SameSchema<T>(x: Value<T>, y: Value<T>)
    decreases x
  {
    match x
    case Plain(_) => y.Plain?
    case Optional(_) => y.Optional?
    case Record(xs) => y.Record? && |y.fields| == |xs| && forall i :: 0 <= i < |xs| ==> SameSchema(xs[i], y.fields[i])
  }

  // ---- The generated operations ----

  /** `refined` on records. */
  function Refined<T>(x: Value<T>, r: Refinement<T>): (y: Value<T>)
    requires Fits(x, r)
    ensures SameSchema(x, y)
    decreases x
  {
    match x
    case Plain(_) => if r.option.Some? then Plain(r.option.value) else x
    case Optional(_) => if r.option.Some? then Optional(r.option) else x
    case Record(xs) => Record(seq(|xs|, i requires 0 <= i < |xs| => Refined(xs[i], r.fields[i])))
  }

  /** `refined` on refinements. */
  function Merge<T>(a: Refinement<T>, b: Refinement<T>): (c: Refinement<T>)
    requires SameShape(a, b)
    ensures SameShape(a, c)
    decreases a
  {
    match a
    case Set(_) => if b.option.Some? then b else a
    case Nested(rs) => Nested(seq(|rs|, i requires 0 <= i < |rs| => Merge(rs[i], b.fields[i])))
  }

  predicate IsEmpty<T>(r: Refinement<T>) {
    match r
    case Set(o) => o.None?
    case Nested(rs) => forall i :: 0 <= i < |rs| ==> IsEmpty(rs[i])
  }

  /** The generated `is_some` returns at the first field that is set. */
  predicate IsSome<T>(r: Refinement<T>) {
    match r
    case Set(o) => o.Some?
    case Nested(rs) => exists i :: 0 <= i < |rs| && IsSome(rs[i])
  }

  predicate IsSupersetOf<T(==)>(x: Value<T>, r: Refinement<T>)
    requires Fits(x, r)
    decreases x
  {
    match x
    case Plain(v) => r.option.Some? ==> r.option.value == v
    case Optional(o) => r.option.Some? ==> r.option == o
    case Record(xs) => forall i :: 0 <= i < |xs| ==> IsSupersetOf(xs[i], r.fields[i])
  }

  predicate MergeIsSuperset<T(==)>(a: Refinement<T>, b: Refinement<T>)
    requires SameShape(a, b)
    decreases a
  {
    match a
    case Set(o) => b.option.Some? ==> b.option == o
    case Nested(rs) => forall i :: 0 <= i < |rs| ==> MergeIsSuperset(rs[i], b.fields[i])
  }

  /** `subtract` on records. */
  function Subtract<T(==)>(x: Value<T>, r: Refinement<T>): (d: Refinement<T>)
    requires Fits(x, r)
    ensures Fits(x, d)
    decreases x
  {
    match x
    case Plain(v) => if r.option == Some(v) then Set(None) else Set(Some(v))
    case Optional(o) => if o == r.option then Set(None) else Set(o)
    case Record(xs) => Nested(seq(|xs|, i requires 0 <= i < |xs| => Subtract(xs[i], r.fields[i])))
  }

  /** `subtract` on refinements. */
  function Difference<T(==)>(a: Refinement<T>, b: Refinement<T>): (d: Refinement<T>)
    requires SameShape(a, b)
    ensures SameShape(a, d)
    decreases a
  {
    match a
    case Set(o) => if o == b.option then Set(None) else a
    case Nested(rs) => Nested(seq(|rs|, i requires 0 <= i < |rs| => Difference(rs[i], b.fields[i])))
  }

  /** `From`: a record of the given type from a refinement, with defaults for what is not set. */
  function FromRefinement<T>(schema: Value<T>, r: Refinement<T>, default: T): Value<T>
    requires Fits(schema, r)
    decreases schema
  {
    match schema
    case Plain(_) => Plain(if r.option.Some? then r.option.value else default)
    case Optional(_) => Optional(r.option)
    case Record(xs) => Record(seq(|xs|, i requires 0 <= i < |xs| => FromRefinement(xs[i], r.fields[i], default)))
  }

  function DefaultOf<T>(schema: Value<T>, default: T): (x: Value<T>)
    ensures SameSchema(schema, x)
  {
    match schema
    case Plain(_) => Plain(default)
    case Optional(_) => Optional(None)
    case Record(xs) => Record(seq(|xs|, i requires 0 <= i < |xs| => DefaultOf(xs[i], default)))
  }

  /** `refine`: the fields are assigned one by one; the outcome is that of `refined`. */
  method Refine<T>(x: Value<T>, r: Refinement<T>) returns (y: Value<T>)
    requires Fits(x, r)
    ensures y == Refined(x, r)
    decreases x
  {
    match x {
      case Plain(_) =>
        y := x;
        if r.option.Some? { y := Plain(r.option.value); }
      case Optional(_) =>
        y := x;
        if r.option.Some? { y := Optional(r.option); }
      case Record(xs) =>
        var fields := xs;
        for i := 0 to |xs|
          invariant |fields| == |xs|
          invariant forall j :: 0 <= j < i ==> fields[j] == Refined(xs[j], r.fields[j])
          invariant forall j :: i <= j < |xs| ==> fields[j] == xs[j]
        {
          var field := Refine(xs[i], r.fields[i]);
          fields := fields[i := field];
        }
        y := Record(fields);
        assert y == Refined(x, r);
    }
  }

  // ---- Shapes carry over ----

  lemma {:induction false} ShapeSymmetric<T>(a: Refinement<T>, b: Refinement<T>)
    requires SameShape(a, b)
    ensures SameShape(b, a)
  {
    if a.Nested? {
      forall i | 0 <= i < |a.fields| ensures SameShape(b.fields[i], a.fields[i]) {
        ShapeSymmetric(a.fields[i], b.fields[i]);
      }
    }
  }

  lemma {:induction false} ShapeTransitive<T>(a: Refinement<T>, b: Refinement<T>, c: Refinement<T>)
    requires SameShape(a, b) && SameShape(b, c)
    ensures SameShape(a, c)
  {
    if a.Nested? {
      forall i | 0 <= i < |a.fields| ensures SameShape(a.fields[i], c.fields[i]) {
        ShapeTransitive(a.fields[i], b.fields[i], c.fields[i]);
      }
    }
  }

  /** Everything of the same type takes the same refinements. */
  lemma {:induction false} FitsSame<T>(x: Value<T>, y: Value<T>, r: Refinement<T>, s: Refinement<T>)
    requires SameSchema(x, y) && Fits(x, r) && SameShape(r, s)
    ensures Fits(y, s)
    decreases x
  {
    if x.Record? {
      forall i | 0 <= i < |x.fields| ensures Fits(y.fields[i], s.fields[i]) {
        FitsSame(x.fields[i], y.fields[i], r.fields[i], s.fields[i]);
      }
    }
  }

  lemma {:induction false} ShapeReflexive<T>(a: Refinement<T>)
    ensures SameShape(a, a)
  {
    if a.Nested? {
      forall i | 0 <= i < |a.fields| ensures SameShape(a.fields[i], a.fields[i]) {
        ShapeReflexive(a.fields[i]);
      }
    }
  }

  lemma {:induction false} SchemaReflexive<T>(x: Value<T>)
    ensures SameSchema(x, x)
  {
    if x.Record? {
      forall i | 0 <= i < |x.fields| ensures SameSchema(x.fields[i], x.fields[i]) {
        SchemaReflexive(x.fields[i]);
      }
    }
  }

  // ---- Laws ----

  /** Refinements act on records: refining twice is refining once by the merge. */
  lemma {:induction false} RefinedTwice<T>(x: Value<T>, a: Refinement<T>, b: Refinement<T>)
    requires Fits(x, a) && SameShape(a, b)
    ensures Fits(Refined(x, a), b) && Fits(x, Merge(a, b))
    ensures Refined(Refined(x, a), b) == Refined(x, Merge(a, b))
    decreases x
  {
    SchemaReflexive(x);
    ShapeReflexive(a);
    FitsSame(x, Refined(x, a), a, b);
    FitsSame(x, x, a, Merge(a, b));
    if x.Record? {
      forall i | 0 <= i < |x.fields|
        ensures Fits(Refined(x.fields[i], a.fields[i]), b.fields[i])
        ensures Fits(x.fields[i], Merge(a.fields[i], b.fields[i]))
        ensures Refined(Refined(x.fields[i], a.fields[i]), b.fields[i]) ==
                Refined(x.fields[i], Merge(a.fields[i], b.fields[i]))
      {
        RefinedTwice(x.fields[i], a.fields[i], b.fields[i]);
      }
    }
  }

  /** Merging is associative. */
  lemma {:induction false} MergeAssociative<T>(a: Refinement<T>, b: Refinement<T>, c: Refinement<T>)
    requires SameShape(a, b) && SameShape(b, c)
    ensures SameShape(Merge(a, b), c) && SameShape(a, Merge(b, c))
    ensures Merge(Merge(a, b), c) == Merge(a, Merge(b, c))
  {
    ShapeSymmetric(a, Merge(a, b));
    ShapeTransitive(Merge(a, b), a, b);
    ShapeTransitive(Merge(a, b), b, c);
    ShapeTransitive(a, b, Merge(b, c));
    if a.Nested? {
      forall i | 0 <= i < |a.fields|
        ensures SameShape(Merge(a.fields[i], b.fields[i]), c.fields[i])
        ensures SameShape(a.fields[i], Merge(b.fields[i], c.fields[i]))
        ensures Merge(Merge(a.fields[i], b.fields[i]), c.fields[i]) ==
                Merge(a.fields[i], Merge(b.fields[i], c.fields[i]))
      {
        MergeAssociative(a.fields[i], b.fields[i], c.fields[i]);
      }
    }
  }

  /** The empty refinement is the identity, on either side and on records. */
  lemma {:induction false} EmptyIsIdentity<T>(x: Value<T>, a: Refinement<T>, e: Refinement<T>)
    requires Fits(x, a) && SameShape(a, e) && SameShape(e, a) && IsEmpty(e)
    ensures Fits(x, e) && Refined(x, e) == x
    ensures Merge(a, e) == a && Merge(e, a) == a
    decreases x
  {
    SchemaReflexive(x);
    FitsSame(x, x, a, e);
    if x.Record? {
      forall i | 0 <= i < |x.fields|
        ensures Refined(x.fields[i], e.fields[i]) == x.fields[i]
        ensures Merge(a.fields[i], e.fields[i]) == a.fields[i] && Merge(e.fields[i], a.fields[i]) == a.fields[i]
      {
        EmptyIsIdentity(x.fields[i], a.fields[i], e.fields[i]);
      }
    }
  }

  /** `is_some` is exactly "not empty". */
  lemma {:induction false} IsSomeIsNotEmpty<T>(r: Refinement<T>)
    ensures IsSome(r) <==> !IsEmpty(r)
  {
    if r.Nested? {
      forall i | 0 <= i < |r.fields| ensures IsSome(r.fields[i]) <==> !IsEmpty(r.fields[i]) {
        IsSomeIsNotEmpty(r.fields[i]);
      }
    }
  }

  /** The fields of a refinement, nested ones included, in order. */
  function Leaves<T>(r: Refinement<T>): seq<Option<T>>
    decreases r, 0
  {
    match r
    case Set(o) => [o]
    case Nested(rs) => AllLeaves(rs)
  }

  function AllLeaves<T>(rs: seq<Refinement<T>>): seq<Option<T>>
    decreases rs, 1
  {
    if rs == [] then [] else Leaves(rs[0]) + AllLeaves(rs[1..])
  }

  /** What the comment on `is_some` says: all fields are set. */
  predicate AllSome<T>(r: Refinement<T>) {
    match r
    case Set(o) => o.Some?
    case Nested(rs) => forall i :: 0 <= i < |rs| ==> AllSome(rs[i])
  }

  ghost predicate SomeSet<T>(fields: seq<Option<T>>) { exists o :: o in fields && o.Some? }

  ghost predicate AllSet<T>(fields: seq<Option<T>>) { forall o :: o in fields ==> o.Some? }

  lemma {:induction false} LeavesTell<T>(r: Refinement<T>)
    ensures IsSome(r) <==> SomeSet(Leaves(r))
    ensures AllSome(r) <==> AllSet(Leaves(r))
    decreases r, 0
  {
    match r {
      case Set(o) => assert o in Leaves(r);
      case Nested(rs) => AllLeavesTell(rs);
    }
  }

  lemma {:induction false} AllLeavesTell<T>(rs: seq<Refinement<T>>)
    ensures IsSome(Nested(rs)) <==> SomeSet(AllLeaves(rs))
    ensures AllSome(Nested(rs)) <==> AllSet(AllLeaves(rs))
    decreases rs, 1
  {
    if rs != [] {
      LeavesTell(rs[0]);
      AllLeavesTell(rs[1..]);
      var first, rest := Leaves(rs[0]), AllLeaves(rs[1..]);
      assert forall o :: o in AllLeaves(rs) <==> o in first || o in rest;
      assert forall i :: 0 < i < |rs| ==> rs[i] == rs[1..][i - 1];
      assert IsSome(Nested(rs)) <==> IsSome(rs[0]) || IsSome(Nested(rs[1..]));
    }
  }

  /** `is_some` means what its comment says exactly for refinements with a field, and all
      fields alike: all set, or none. */
  lemma IsSomeAsDocumented<T>(r: Refinement<T>)
    ensures (IsSome(r) <==> AllSome(r)) <==>
            Leaves(r) != [] && forall a, b | a in Leaves(r) && b in Leaves(r) :: a.Some? == b.Some?
  {
    LeavesTell(r);
    if Leaves(r) != [] {
      assert Leaves(r)[0] in Leaves(r);
    }
  }

  /** One field set and one not: `is_some` holds, though not all fields are set. */
  lemma IsSomeOfHalf<T>(t: T)
    ensures var r := Nested([Set(Some(t)), Set(None)]); IsSome(r) && !AllSome(r)
  {
    var r := Nested([Set(Some(t)), Set(None)]);
    assert IsSome(r.fields[0]) && !AllSome(r.fields[1]);
  }

  /** A refinement that is not empty changes some record of every type it fits, as soon as
      field types have two values: `is_empty` says exactly that nothing can change. */
  lemma {:induction false} NonEmptyHasEffect<T>(schema: Value<T>, r: Refinement<T>, t1: T, t2: T) returns (x: Value<T>)
    requires Fits(schema, r) && !IsEmpty(r) && t1 != t2
    ensures SameSchema(schema, x) && Fits(x, r) && Refined(x, r) != x
    decreases schema
  {
    match schema {
      case Plain(_) => x := Plain(if r.option.value == t1 then t2 else t1);
      case Optional(_) => x := Optional(None);
      case Record(xs) =>
        var i :| 0 <= i < |xs| && !IsEmpty(r.fields[i]);
        var y := NonEmptyHasEffect(xs[i], r.fields[i], t1, t2);
        x := Record(xs[i := y]);
        forall j | 0 <= j < |xs| ensures SameSchema(xs[j], x.fields[j]) { SchemaReflexive(xs[j]); }
        assert Refined(x, r).fields[i] == Refined(y, r.fields[i]);
    }
  }

  /** `is_superset_of` holds exactly when refining changes nothing. */
  lemma {:induction false} SupersetMeansNoChange<T>(x: Value<T>, r: Refinement<T>)
    requires Fits(x, r)
    ensures IsSupersetOf(x, r) <==> Refined(x, r) == x
    decreases x
  {
    if x.Record? {
      forall i | 0 <= i < |x.fields|
        ensures IsSupersetOf(x.fields[i], r.fields[i]) <==> Refined(x.fields[i], r.fields[i]) == x.fields[i]
      {
        SupersetMeansNoChange(x.fields[i], r.fields[i]);
      }
      if Refined(x, r) == x {
        forall i | 0 <= i < |x.fields| ensures IsSupersetOf(x.fields[i], r.fields[i]) {
          assert Refined(x, r).fields[i] == x.fields[i];
        }
      }
    }
  }

  lemma {:induction false} MergeSupersetMeansNoChange<T>(a: Refinement<T>, b: Refinement<T>)
    requires SameShape(a, b)
    ensures MergeIsSuperset(a, b) <==> Merge(a, b) == a
  {
    if a.Nested? {
      forall i | 0 <= i < |a.fields|
        ensures MergeIsSuperset(a.fields[i], b.fields[i]) <==> Merge(a.fields[i], b.fields[i]) == a.fields[i]
      {
        MergeSupersetMeansNoChange(a.fields[i], b.fields[i]);
      }
      if Merge(a, b) == a {
        forall i | 0 <= i < |a.fields| ensures MergeIsSuperset(a.fields[i], b.fields[i]) {
          assert Merge(a, b).fields[i] == a.fields[i];
        }
      }
    }
  }

  /** Over `b`, the difference of `a` and `b` says all that `a` says. */
  lemma {:induction false} DifferenceSuffices<T>(a: Refinement<T>, b: Refinement<T>)
    requires SameShape(a, b)
    ensures SameShape(b, a) && SameShape(b, Difference(a, b))
    ensures Merge(b, Difference(a, b)) == Merge(b, a)
  {
    ShapeSymmetric(a, b);
    ShapeTransitive(b, a, Difference(a, b));
    if a.Nested? {
      forall i | 0 <= i < |a.fields|
        ensures SameShape(b.fields[i], a.fields[i]) && SameShape(b.fields[i], Difference(a.fields[i], b.fields[i]))
        ensures Merge(b.fields[i], Difference(a.fields[i], b.fields[i])) == Merge(b.fields[i], a.fields[i])
      {
        DifferenceSuffices(a.fields[i], b.fields[i]);
      }
    }
  }

  /** Where `x` has no value, neither has `z`. */
  predicate NoneAgrees<T>(x: Value<T>, z: Value<T>)
    requires SameSchema(x, z)
    decreases x
  {
    match x
    case Plain(_) => true
    case Optional(o) => o.None? ==> z.option.None?
    case Record(xs) => forall i :: 0 <= i < |xs| ==> NoneAgrees(xs[i], z.fields[i])
  }

  /** A record is rebuilt from any record of its type, a refinement and the difference to it,
      exactly when no optional field would have to be unset. */
  lemma {:induction false} SubtractRebuilds<T>(x: Value<T>, y: Value<T>, r: Refinement<T>)
    requires SameSchema(x, y) && Fits(x, r) && Fits(y, r)
    ensures SameSchema(x, Refined(y, r)) && Fits(Refined(y, r), Subtract(x, r))
    ensures Refined(Refined(y, r), Subtract(x, r)) == x <==> NoneAgrees(x, Refined(y, r))
    decreases x
  {
    if x.Record? {
      var z, d := Refined(y, r), Subtract(x, r);
      forall i | 0 <= i < |x.fields|
        ensures SameSchema(x.fields[i], z.fields[i]) && Fits(z.fields[i], d.fields[i])
        ensures Refined(z.fields[i], d.fields[i]) == x.fields[i] <==> NoneAgrees(x.fields[i], z.fields[i])
      {
        SubtractRebuilds(x.fields[i], y.fields[i], r.fields[i]);
      }
      if Refined(z, d) == x {
        forall i | 0 <= i < |x.fields| ensures NoneAgrees(x.fields[i], z.fields[i]) {
          assert Refined(z, d).fields[i] == x.fields[i];
        }
      }
    }
  }

  /** `d` sets every field that `e` sets. */
  predicate SetsAll<T>(d: Refinement<T>, e: Refinement<T>)
    decreases e
  {
    match e
    case Set(o) => o.Some? ==> d.Set? && d.option.Some?
    case Nested(es) => d.Nested? && |d.fields| == |es| && forall i :: 0 <= i < |es| ==> SetsAll(d.fields[i], es[i])
  }

  /** `z` has every value that `x` has. */
  predicate HasValuesOf<T(==)>(z: Value<T>, x: Value<T>)
    requires SameSchema(x, z)
    decreases x
  {
    match x
    case Plain(_) => z == x
    case Optional(o) => o.Some? ==> z == x
    case Record(xs) => forall i :: 0 <= i < |xs| ==> HasValuesOf(z.fields[i], xs[i])
  }

  function Contrary<T(==)>(v: T, t1: T, t2: T): (w: T)
    ensures t1 != t2 ==> w != v
  {
    if v == t1 then t2 else t1
  }

  /** Nothing less than the difference will do.  There is a record `y` of the type such that every
      refinement that leads back from `y`, refined by `r`, to the values of `x` sets all the fields
      that `subtract` sets: what `r` says of `x` already is left out, and nothing else is. */
  lemma {:induction false} SubtractIsLeast<T>(x: Value<T>, r: Refinement<T>, t1: T, t2: T) returns (y: Value<T>)
    requires Fits(x, r) && t1 != t2
    ensures SameSchema(x, y) && Fits(y, r)
    ensures forall d | Fits(x, d) :: LeadsBack(x, y, r, d) ==> SetsAll(d, Subtract(x, r))
    decreases x
  {
    match x {
      case Plain(v) => y := Plain(Contrary(v, t1, t2));
      case Optional(o) => y := Optional(if o.Some? then Some(Contrary(o.value, t1, t2)) else None);
      case Record(xs) =>
        var ys := [];
        for i := 0 to |xs|
          invariant |ys| == i
          invariant forall j :: 0 <= j < i ==> SameSchema(xs[j], ys[j]) && Fits(ys[j], r.fields[j])
          invariant forall j :: 0 <= j < i ==>
                      forall d | Fits(xs[j], d) ::
                        LeadsBack(xs[j], ys[j], r.fields[j], d) ==> SetsAll(d, Subtract(xs[j], r.fields[j]))
        {
          var z := SubtractIsLeast(xs[i], r.fields[i], t1, t2);
          ys := ys + [z];
        }
        y := Record(ys);
        forall d | Fits(x, d) && LeadsBack(x, y, r, d) ensures SetsAll(d, Subtract(x, r)) {
          forall j | 0 <= j < |xs| ensures SetsAll(d.fields[j], Subtract(xs[j], r.fields[j])) {
            assert LeadsBack(xs[j], ys[j], r.fields[j], d.fields[j]);
          }
        }
    }
  }

  /** Refining `y` by `r` and then by `d` gives a record with every value of `x`. */
  ghost predicate LeadsBack<T>(x: Value<T>, y: Value<T>, r: Refinement<T>, d: Refinement<T>) {
    && SameSchema(x, y) && Fits(y, r) && Fits(Refined(y, r), d) && SameSchema(x, Refined(Refined(y, r), d))
    && HasValuesOf(Refined(Refined(y, r), d), x)
  }

  /** The same on refinements: whatever has the effect of `a` over `b` sets all that the difference
      of `a` and `b` sets. */
  lemma {:induction false} DifferenceIsLeast<T>(a: Refinement<T>, b: Refinement<T>, d: Refinement<T>)
    requires SameShape(a, b) && SameShape(b, d) && SameShape(b, a) && Merge(b, d) == Merge(b, a)
    ensures SetsAll(d, Difference(a, b))
  {
    if a.Nested? {
      forall i | 0 <= i < |a.fields| ensures SetsAll(d.fields[i], Difference(a.fields[i], b.fields[i])) {
        assert Merge(b, d).fields[i] == Merge(b, a).fields[i];
        DifferenceIsLeast(a.fields[i], b.fields[i], d.fields[i]);
      }
    }
  }

  /** A refined record has everything that the refinement sets. */
  lemma {:induction false} RefinedHasAll<T>(x: Value<T>, r: Refinement<T>)
    requires Fits(x, r)
    ensures Fits(Refined(x, r), r) && IsSupersetOf(Refined(x, r), r)
    decreases x
  {
    if x.Record? {
      forall i | 0 <= i < |x.fields|
        ensures Fits(Refined(x, r).fields[i], r.fields[i]) && IsSupersetOf(Refined(x, r).fields[i], r.fields[i])
      {
        RefinedHasAll(x.fields[i], r.fields[i]);
      }
    }
  }

  /** The default of a record: plain fields have the default value, optional fields none. */
  lemma DefaultOfRecord<T>(a: T, b: T, c: T, default: T)
    ensures DefaultOf(Record([Plain(a), Optional(Some(b)), Record([Optional(None), Plain(c)])]), default) ==
            Record([Plain(default), Optional(None), Record([Optional(None), Plain(default)])])
  {
    var inner := [Optional(None), Plain(c)];
    assert DefaultOf(Record(inner), default) == Record([Optional(None), Plain(default)]);
  }

  /** `From` is the fieldwise default, refined. */
  lemma {:induction false} FromIsDefaultRefined<T>(schema: Value<T>, r: Refinement<T>, default: T)
    requires Fits(schema, r)
    ensures Fits(DefaultOf(schema, default), r)
    ensures FromRefinement(schema, r, default) == Refined(DefaultOf(schema, default), r)
    decreases schema
  {
    if schema.Record? {
      forall i | 0 <= i < |schema.fields|
        ensures Fits(DefaultOf(schema.fields[i], default), r.fields[i])
        ensures FromRefinement(schema.fields[i], r.fields[i], default) ==
                Refined(DefaultOf(schema.fields[i], default), r.fields[i])
      {
        FromIsDefaultRefined(schema.fields[i], r.fields[i], default);
      }
    }
  }

  // ---- Cascades ----

  /** A cascade's slots after the base: each may be empty; all are of one record type. */
  predicate SlotsOk<T>(base: Refinement<T>, slots: seq<Option<Refinement<T>>>) {
    forall i :: 0 <= i < |slots| && slots[i].Some? ==> SameShape(base, slots[i].value)
  }

  function MergedUpTo<T>(base: Refinement<T>, slots: seq<Option<Refinement<T>>>): (m: Refinement<T>)
    requires SlotsOk(base, slots)
    ensures SameShape(base, m)
    decreases |slots|
  {
    if slots == [] then (ShapeReflexive(base); base)
    else
      var m := MergedUpTo(base, slots[..|slots| - 1]);
      match slots[|slots| - 1]
      case None => m
      case Some(r) =>
        ShapeSymmetric(base, m);
        ShapeTransitive(m, base, r);
        ShapeTransitive(base, m, Merge(m, r));
        Merge(m, r)
  }

  /** Applying the slots to a record one after the other, in order. */
  function Applied<T>(x: Value<T>, base: Refinement<T>, slots: seq<Option<Refinement<T>>>): (y: Value<T>)
    requires Fits(x, base) && SlotsOk(base, slots)
    ensures SameSchema(x, y) && Fits(y, base)
    decreases |slots|
  {
    if slots == [] then
      (SchemaReflexive(x); ShapeReflexive(base); FitsSame(x, Refined(x, base), base, base); Refined(x, base))
    else
      var y := Applied(x, base, slots[..|slots| - 1]);
      match slots[|slots| - 1]
      case None => y
      case Some(r) =>
        SchemaReflexive(y); ShapeReflexive(base);
        FitsSame(y, y, base, r);
        SchemaTransitive(x, y, Refined(y, r));
        FitsSame(y, Refined(y, r), base, base);
        Refined(y, r)
  }

  lemma {:induction false} SchemaTransitive<T>(x: Value<T>, y: Value<T>, z: Value<T>)
    requires SameSchema(x, y) && SameSchema(y, z)
    ensures SameSchema(x, z)
    decreases x
  {
    if x.Record? {
      forall i | 0 <= i < |x.fields| ensures SameSchema(x.fields[i], z.fields[i]) {
        SchemaTransitive(x.fields[i], y.fields[i], z.fields[i]);
      }
    }
  }

  /** `merged`: folds the slots, skipping empty ones. */
  method Merged<T>(base: Refinement<T>, slots: seq<Option<Refinement<T>>>) returns (merged: Refinement<T>)
    requires SlotsOk(base, slots)
    ensures merged == MergedUpTo(base, slots)
  {
    merged := base;
    for i := 0 to |slots|
      invariant merged == MergedUpTo(base, slots[..i])
    {
      assert slots[..i + 1][..i] == slots[..i];
      if slots[i].Some? {
        ShapeSymmetric(base, merged);
        ShapeTransitive(merged, base, slots[i].value);
        merged := Merge(merged, slots[i].value);
      }
    }
    assert slots[..|slots|] == slots;
  }

  /** Refining by the merged cascade is refining by its slots in order: later slots win. */
  lemma {:induction false} CascadeAppliesInOrder<T>(x: Value<T>, base: Refinement<T>, slots: seq<Option<Refinement<T>>>)
    requires Fits(x, base) && SlotsOk(base, slots)
    ensures Fits(x, MergedUpTo(base, slots))
    ensures Refined(x, MergedUpTo(base, slots)) == Applied(x, base, slots)
    decreases |slots|
  {
    SchemaReflexive(x);
    FitsSame(x, x, base, MergedUpTo(base, slots));
    if slots != [] {
      var init := slots[..|slots| - 1];
      CascadeAppliesInOrder(x, base, init);
      if slots[|slots| - 1].Some? {
        var m, r := MergedUpTo(base, init), slots[|slots| - 1].value;
        ShapeSymmetric(base, m);
        ShapeTransitive(m, base, r);
        RefinedTwice(x, m, r);
      }
    }
  }
}
