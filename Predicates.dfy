/**
 * The predicate library of the provider: the builders `eq`, `eqN`, `startsWithN`,
 * `endsWithN`, `containsN`, `containsCIN`, `countOccurrencesGTN`, `and`, `or` over
 * string fields, `eq` over the interface flag, and `arrayContainsN` plus the
 * anonymous protocol-implementation test over the interface array. Each builder is
 * a constructor of a closed datatype; `Apply` interprets it. Predicates whose name
 * ends in N treat a `null` spec as a wildcard and reject a `null` value.
 */
module Predicates {
  import opened Optional
  import opened Strings

  /** A Java `String` reference; `None` is `null`. */
  type JString = Option<string>

  datatype StringPredicate =
    | Eq(spec: JString)
    | EqN(spec: JString)
    | StartsWithN(spec: JString)
    | EndsWithN(spec: JString)
    | ContainsN(spec: JString)
    | ContainsCIN(spec: JString)
    | CountOccurrencesGTN(of: Option<NonEmptyString>, gt: int)
      /** The anonymous `List.contains` predicates over a constant list of names. */
    | InList(items: seq<string>)
    | And(left: StringPredicate, right: StringPredicate)
    | Or(left: StringPredicate, right: StringPredicate)

  /** `countOccurrences(of, in)`: -1 for a `null` pattern, 0 for a `null` string,
      otherwise the length removed by `in.replace(of, "")` divided by `|of|`. */
  function CountOccurrences(of: Option<NonEmptyString>, within: JString): (r: int)
    ensures of.None? ==> r == -1
    ensures of.Some? && within.None? ==> r == 0
    ensures of.Some? && within.Some? ==> r == Occurrences(within.value, of.value)
  {
    if of.None? then -1
    else if within.None? then 0
    else
      RemoveAllLength(within.value, of.value);
      MulDivCancel(|of.value|, Occurrences(within.value, of.value));
      (|within.value| - |RemoveAll(within.value, of.value)|) / |of.value|
  }

  /** Dividing a multiple of `b` by `b` is exact. */
  lemma MulDivCancel(b: int, n: int)
    requires b > 0
    ensures (b * n) / b == n
  {
    var q, r := (b * n) / b, (b * n) % b;
    assert b * (n - q) == r;
    MulAwayFromZero(b, n - q);
  }

  /** A non-zero multiple of a positive `b` is at least `b` away from zero. */
  lemma MulAwayFromZero(b: int, k: int)
    requires b > 0
    ensures k >= 1 ==> b * k >= b
    ensures k <= -1 ==> b * k <= -b
  {
  }

  /** `p.apply(v)` for every string predicate the provider builds. */
  predicate Apply(p: StringPredicate, v: JString) {
    match p
    // `spec == v || (spec != null && spec.equals(v))`
    case Eq(spec) => spec == v
    // `spec == null || spec.equals(v)`
    case EqN(spec) => spec.None? || spec == v
    case StartsWithN(spec) => spec.None? || (v.Some? && StartsWith(v.value, spec.value))
    case EndsWithN(spec) => spec.None? || (v.Some? && EndsWith(v.value, spec.value))
    case ContainsN(spec) => spec.None? || (v.Some? && Contains(v.value, spec.value))
    case ContainsCIN(spec) =>
      spec.None? || (v.Some? && Contains(ToLower(v.value), ToLower(spec.value)))
    case CountOccurrencesGTN(of, gt) => of.None? || (v.Some? && CountOccurrences(of, v) > gt)
    // `List.contains(null)` is false: the lists hold no `null`
    case InList(items) => v.Some? && v.value in items
    case And(l, r) => Apply(l, v) && Apply(r, v)
    case Or(l, r) => Apply(l, v) || Apply(r, v)
  }

  /** `p` rules out every string under `lead`: it is an `eqN` or a `startsWithN` of a
      constant that diverges from `lead`, or a conjunction whose left side is. */
  predicate ExcludesLead(p: StringPredicate, lead: string) {
    match p
    case EqN(spec) => spec.Some? && Diverge(lead, spec.value)
    case StartsWithN(spec) => spec.Some? && Diverge(lead, spec.value)
    case And(l, _) => ExcludesLead(l, lead)
    case _ => false
  }

  lemma {:induction false} ExcludesLeadRejects(p: StringPredicate, lead: string, v: string)
    requires ExcludesLead(p, lead) && StartsWith(v, lead)
    ensures !Apply(p, Some(v))
  {
    match p
    case EqN(spec) =>
      if spec == Some(v) {
        DivergeExcludes(v, lead, v);
        PrefixStartsWith(v, v);
      }
    case StartsWithN(spec) =>
      DivergeExcludes(v, lead, spec.value);
    case And(l, _) =>
      ExcludesLeadRejects(l, lead, v);
  }

  /** The one predicate over the primitive `isInterface` flag: `eq(true)` (or `eq(false)`). */
  datatype BoolPredicate = BoolEq(spec: bool)

  predicate ApplyBool(p: BoolPredicate, v: bool) {
    p.spec == v
  }

  datatype ArrayPredicate =
    | ArrayContainsN(spec: JString)
      /** The anonymous protocol-implementation test: `interfaces` meets `items`. */
    | Intersects(items: seq<string>)

  /** Some non-null element of `v` equals `spec`. */
  predicate ArrayContains(spec: JString, v: seq<JString>) {
    exists i | 0 <= i < |v| :: v[i].Some? && v[i] == spec
  }

  /** Some non-null element of `v` is one of `items`. */
  predicate Meets(v: seq<JString>, items: seq<string>) {
    exists i | 0 <= i < |v| :: v[i].Some? && v[i].value in items
  }

  predicate ApplyArray(p: ArrayPredicate, v: seq<JString>) {
    match p
    case ArrayContainsN(spec) => ArrayContains(spec, v)
    case Intersects(items) => Meets(v, items)
  }

  /** `arrayContainsN(spec).apply(v)`: the for-each loop with its early return. */
  method ArrayContainsNApply(spec: JString, v: array<JString>) returns (found: bool)
    ensures found == ArrayContains(spec, v[..])
  {
    for i := 0 to v.Length
      invariant forall j | 0 <= j < i :: !(v[j].Some? && v[j] == spec)
    {
      if v[i].Some? && v[i] == spec {
        assert v[..][i] == v[i];
        return true;
      }
    }
    return false;
  }

  /** The protocol-implementation predicate: copy `interfaces` into a set, keep only
      the members of `items` (`retainAll`), and test the result for emptiness. */
  method IntersectsApply(interfaces: array<JString>, items: seq<string>) returns (b: bool)
    ensures b == Meets(interfaces[..], items)
  {
    var intersection: set<JString> := {};
    for i := 0 to interfaces.Length
      invariant intersection == set j | 0 <= j < i :: interfaces[j]
    {
      intersection := intersection + {interfaces[i]};
    }
    ghost var copied := intersection;
    intersection := set x | x in intersection && x.Some? && x.value in items;
    b := intersection != {};
    if b {
      var x :| x in intersection;
      var j :| 0 <= j < interfaces.Length && interfaces[j] == x;
      assert interfaces[..][j] == x;
    }
    forall j | 0 <= j < interfaces.Length
      ensures interfaces[..][j].Some? && interfaces[..][j].value in items ==> interfaces[j] in intersection
    {
      assert interfaces[j] in copied;
    }
  }

  /** A `null` spec makes `eqN`, `startsWithN`, `endsWithN`, `containsN`, `containsCIN`
      and `countOccurrencesGTN` accept every value, `null` included. */
  lemma NullSpecIsWildcard(v: JString, gt: int)
    ensures Apply(EqN(None), v) && Apply(StartsWithN(None), v) && Apply(EndsWithN(None), v)
    ensures Apply(ContainsN(None), v) && Apply(ContainsCIN(None), v)
    ensures Apply(CountOccurrencesGTN(None, gt), v)
  {
  }

  /** A present spec makes the same predicates reject a `null` value. */
  lemma NullValueIsRejected(spec: string, of: NonEmptyString, gt: int)
    ensures !Apply(EqN(Some(spec)), None) && !Apply(StartsWithN(Some(spec)), None)
    ensures !Apply(EndsWithN(Some(spec)), None) && !Apply(ContainsN(Some(spec)), None)
    ensures !Apply(ContainsCIN(Some(spec)), None)
    ensures !Apply(CountOccurrencesGTN(Some(of), gt), None)
  {
  }

  /** `eq` is not a wildcard: `eq(null)` accepts `null` only, while `eqN(null)` accepts
      everything; with a present spec both accept exactly that string. */
  lemma EqVersusEqN(spec: JString, v: JString)
    ensures Apply(Eq(None), v) <==> v.None?
    ensures Apply(EqN(None), v)
    ensures spec.Some? ==> (Apply(Eq(spec), v) <==> v == spec) && (Apply(EqN(spec), v) <==> v == spec)
  {
  }

  /** `countOccurrencesGTN(of, gt)` on a present value compares the non-overlapping
      count of `of` with `gt`. */
  lemma CountOccurrencesGTNCounts(of: NonEmptyString, gt: int, v: string)
    ensures Apply(CountOccurrencesGTN(Some(of), gt), Some(v)) <==> Occurrences(v, of) > gt
  {
  }

  /** Two `$` signs are more than one, a single `$` is not. */
  lemma DollarCountExamples()
    ensures Apply(CountOccurrencesGTN(Some("$"), 1), Some("a$b$c"))
    ensures !Apply(CountOccurrencesGTN(Some("$"), 1), Some("a$b"))
  {
    assert "a$b$c"[1..] == "$b$c" && "$b$c"[1..] == "b$c" && "b$c"[1..] == "$c";
    assert "$c"[1..] == "c" && "c"[1..] == "";
    assert Occurrences("a$b$c", "$") == 2;
    assert "a$b"[1..] == "$b" && "$b"[1..] == "b" && "b"[1..] == "";
    assert Occurrences("a$b", "$") == 1;
  }

  /** `containsCIN` is weaker than `containsN`: a case-sensitive hit is a case-insensitive one. */
  lemma ContainsNImpliesContainsCIN(spec: JString, v: JString)
    requires Apply(ContainsN(spec), v)
    ensures Apply(ContainsCIN(spec), v)
  {
    if spec.Some? {
      ContainsToLower(v.value, spec.value);
    }
  }

  /** `containsCIN` does not see case: lower-casing the spec or the value changes nothing. */
  lemma ContainsCINIgnoresCase(spec: string, v: string)
    ensures Apply(ContainsCIN(Some(spec)), Some(v)) == Apply(ContainsCIN(Some(ToLower(spec))), Some(ToLower(v)))
  {
    ToLowerIdempotent(spec);
    ToLowerIdempotent(v);
  }

  /** `arrayContainsN` breaks the wildcard convention: a `null` spec matches no array. */
  lemma ArrayContainsNullSpec(v: seq<JString>)
    ensures !ApplyArray(ArrayContainsN(None), v)
  {
  }

  /** The interfaces meet `items` exactly when `arrayContainsN` holds for one of them. */
  lemma MeetsIsSomeArrayContains(v: seq<JString>, items: seq<string>)
    ensures Meets(v, items) <==> exists k | 0 <= k < |items| :: ArrayContains(Some(items[k]), v)
  {
    if Meets(v, items) {
      var i :| 0 <= i < |v| && v[i].Some? && v[i].value in items;
      var k :| 0 <= k < |items| && items[k] == v[i].value;
      assert ArrayContains(Some(items[k]), v);
    }
  }
}
