/**
 * Rules and the decision-list evaluator. A rule is the `InstrumentMatcher` that the
 * provider's `m*` helpers build: it binds some fields of the class/method descriptor
 * to predicates, the rest stay unbound, and it carries the suspendable type to
 * report (or `null`) and the message its action logs. The evaluator scans the rules
 * in order and the first rule that matches decides.
 */
module Rules {
  import opened Optional
  import opened Predicates
  import opened Messages
  import opened Strings

  /** `MethodDatabase.SuspendableType`. */
  datatype SuspendableType = NonSuspendable | Suspendable | SuspendableSuper

  /** What a rule can look at: the criteria fields that the helpers bind
      (source file, interface flag, class, superclass, interfaces, method name). */
  datatype Descriptor = Descriptor(
    source: JString,
    isInterface: bool,
    className: JString,
    superClassName: JString,
    interfaces: seq<JString>,
    methodName: JString)

  /** `new InstrumentMatcher(sourceP, _, isInterfaceP, classNameP, superClassNameP,
      interfacesP, methodNameP, _, _, _, t, a)`: `None` is an unbound (`null`) predicate,
      an `outcome` of `None` is the `null` type, `message` is what `a(msg)` logs. */
  datatype Rule = Rule(
    sourceP: Option<StringPredicate>,
    isInterfaceP: Option<BoolPredicate>,
    classNameP: Option<StringPredicate>,
    superClassNameP: Option<StringPredicate>,
    interfacesP: Option<ArrayPredicate>,
    methodNameP: Option<StringPredicate>,
    outcome: Option<SuspendableType>,
    message: Message)

  /** An unbound predicate accepts every value. */
  predicate Holds(p: Option<StringPredicate>, v: JString) {
    p.None? || Apply(p.value, v)
  }

  /** A rule matches when every field it binds satisfies its predicate. */
  predicate Matches(r: Rule, d: Descriptor) {
    && Holds(r.sourceP, d.source)
    && (r.isInterfaceP.None? || ApplyBool(r.isInterfaceP.value, d.isInterface))
    && Holds(r.classNameP, d.className)
    && Holds(r.superClassNameP, d.superClassName)
    && (r.interfacesP.None? || ApplyArray(r.interfacesP.value, d.interfaces))
    && Holds(r.methodNameP, d.methodName)
  }

  /** The evaluator's answer: the first matching rule's type (possibly the `null`
      "no opinion" type) and message, or no match at all. */
  datatype Classification = Matched(outcome: Option<SuspendableType>, message: Message) | Unclassified

  /** Rule `k` matches `d` and no earlier rule does. */
  predicate FirstMatchAt(rules: seq<Rule>, d: Descriptor, k: int) {
    0 <= k < |rules| && Matches(rules[k], d) && forall j | 0 <= j < k :: !Matches(rules[j], d)
  }

  /** First match wins: scan top to bottom. */
  function Classify(rules: seq<Rule>, d: Descriptor): (r: Classification)
    decreases rules
  {
    if rules == [] then Unclassified
    else if Matches(rules[0], d) then Matched(rules[0].outcome, rules[0].message)
    else Classify(rules[1..], d)
  }

  /** `Classify` reports no match exactly when no rule matches, and otherwise reports
      the outcome and message of the first matching rule. */
  lemma {:induction false} ClassifyIsFirstMatch(rules: seq<Rule>, d: Descriptor)
    ensures Classify(rules, d).Unclassified? <==> forall r | r in rules :: !Matches(r, d)
    ensures Classify(rules, d).Matched? ==>
      exists k :: FirstMatchAt(rules, d, k) && Classify(rules, d) == Matched(rules[k].outcome, rules[k].message)
    decreases rules
  {
    if rules == [] {
    } else if Matches(rules[0], d) {
      assert FirstMatchAt(rules, d, 0);
    } else {
      ClassifyIsFirstMatch(rules[1..], d);
      assert forall r | r in rules :: r == rules[0] || r in rules[1..];
      var c := Classify(rules[1..], d);
      if c.Matched? {
        var k :| FirstMatchAt(rules[1..], d, k) && c == Matched(rules[1..][k].outcome, rules[1..][k].message);
        assert FirstMatchAt(rules, d, k + 1);
      }
    }
  }

  /** There is only one first match. */
  lemma FirstMatchUnique(rules: seq<Rule>, d: Descriptor, k: int, k': int)
    requires FirstMatchAt(rules, d, k) && FirstMatchAt(rules, d, k')
    ensures k == k'
  {
  }

  /** The first matching rule decides the outcome and message. */
  lemma FirstMatchDecides(rules: seq<Rule>, d: Descriptor, k: int)
    requires FirstMatchAt(rules, d, k)
    ensures Classify(rules, d) == Matched(rules[k].outcome, rules[k].message)
  {
    var c := Classify(rules, d);
    ClassifyIsFirstMatch(rules, d);
    assert rules[k] in rules;
    var k' :| FirstMatchAt(rules, d, k') && c == Matched(rules[k'].outcome, rules[k'].message);
    FirstMatchUnique(rules, d, k, k');
  }

  /** The first match in `rules` decides `rules` followed by anything. */
  lemma FirstMatchDecidesPrefix(rules: seq<Rule>, later: seq<Rule>, d: Descriptor, k: int)
    requires FirstMatchAt(rules, d, k)
    ensures Classify(rules + later, d) == Matched(rules[k].outcome, rules[k].message)
  {
    FirstMatchDecides(rules, d, k);
    ClassifyAppend(rules, later, d);
  }

  /** Scanning `a + b` is scanning `a`, then `b` if nothing in `a` matched. */
  lemma {:induction false} ClassifyAppend(a: seq<Rule>, b: seq<Rule>, d: Descriptor)
    ensures Classify(a + b, d) == if Classify(a, d).Matched? then Classify(a, d) else Classify(b, d)
    decreases a
  {
    if a == [] {
      assert a + b == b;
    } else {
      assert (a + b)[0] == a[0];
      assert (a + b)[1..] == a[1..] + b;
      ClassifyAppend(a[1..], b, d);
    }
  }

  /** Rules placed after a rule that already matches never change the result. */
  lemma AppendAfterMatch(rules: seq<Rule>, later: seq<Rule>, d: Descriptor)
    requires Classify(rules, d).Matched?
    ensures Classify(rules + later, d) == Classify(rules, d)
  {
    ClassifyAppend(rules, later, d);
  }

  /** Inserting a rule after the position at which `d` is already decided leaves the
      result unchanged, whatever the new rule says. */
  lemma InsertAfterMatch(rules: seq<Rule>, k: nat, r: Rule, d: Descriptor)
    requires k <= |rules| && Classify(rules[..k], d).Matched?
    ensures Classify(rules[..k] + [r] + rules[k..], d) == Classify(rules, d)
  {
    assert rules[..k] + [r] + rules[k..] == rules[..k] + ([r] + rules[k..]);
    ClassifyAppend(rules[..k], [r] + rules[k..], d);
    assert rules == rules[..k] + rules[k..];
    ClassifyAppend(rules[..k], rules[k..], d);
  }

  /** A rule that can only match where an earlier rule already matches is dead: it is
      never the first match and deleting it changes nothing. */
  lemma ShadowedRuleIsDead(rules: seq<Rule>, i: nat, j: nat, d: Descriptor)
    requires i < j < |rules|
    requires Matches(rules[j], d) ==> Matches(rules[i], d)
    ensures !FirstMatchAt(rules, d, j)
    ensures Classify(rules[..j] + rules[j + 1..], d) == Classify(rules, d)
  {
    assert rules == rules[..j] + ([rules[j]] + rules[j + 1..]);
    ClassifyAppend(rules[..j], [rules[j]] + rules[j + 1..], d);
    ClassifyAppend(rules[..j], rules[j + 1..], d);
    if Matches(rules[j], d) {
      assert rules[..j][i] == rules[i];
      assert rules[i] in rules[..j];
      ClassifyIsFirstMatch(rules[..j], d);
    }
  }

  /** When every rule reports `o` and one of them matches, the result is `o`. */
  lemma UniformOutcome(rules: seq<Rule>, d: Descriptor, o: Option<SuspendableType>)
    requires forall k | 0 <= k < |rules| :: rules[k].outcome == o
    requires exists k | 0 <= k < |rules| :: Matches(rules[k], d)
    ensures Classify(rules, d).Matched? && Classify(rules, d).outcome == o
  {
    var c := Classify(rules, d);
    ClassifyIsFirstMatch(rules, d);
    var i :| 0 <= i < |rules| && Matches(rules[i], d);
    assert rules[i] in rules;
    assert c.Matched?;
    var k :| FirstMatchAt(rules, d, k) && Classify(rules, d) == Matched(rules[k].outcome, rules[k].message);
  }

  /** A scan in which no rule matches finds nothing. */
  lemma NoMatchUnclassified(rules: seq<Rule>, d: Descriptor)
    requires forall k | 0 <= k < |rules| :: !Matches(rules[k], d)
    ensures Classify(rules, d).Unclassified?
  {
    ClassifyIsFirstMatch(rules, d);
  }

  /** A scan that finds something found a rule that matches. */
  lemma MatchedAt(rules: seq<Rule>, d: Descriptor) returns (k: nat)
    requires Classify(rules, d).Matched?
    ensures k < |rules| && Matches(rules[k], d)
  {
    ClassifyIsFirstMatch(rules, d);
    k :| FirstMatchAt(rules, d, k) && Classify(rules, d) == Matched(rules[k].outcome, rules[k].message);
  }

  /** When every rule tests the method name with `p1` or `p2`, whatever the scan finds
      satisfies one of them. */
  lemma MatchedMethodEither(rules: seq<Rule>, d: Descriptor, p1: StringPredicate, p2: StringPredicate)
    requires Classify(rules, d).Matched?
    requires forall k | 0 <= k < |rules| :: rules[k].methodNameP == Some(p1) || rules[k].methodNameP == Some(p2)
    ensures Apply(p1, d.methodName) || Apply(p2, d.methodName)
  {
    var k := MatchedAt(rules, d);
  }

  /** When every rule's verdict is among `vs`, so is the scan's, or it finds nothing. */
  lemma VerdictAmong(rules: seq<Rule>, d: Descriptor, vs: set<Classification>)
    requires forall k | 0 <= k < |rules| :: Matched(rules[k].outcome, rules[k].message) in vs
    ensures Classify(rules, d).Matched? ==> Classify(rules, d) in vs
  {
    ClassifyIsFirstMatch(rules, d);
    if Classify(rules, d).Matched? {
      var k :| FirstMatchAt(rules, d, k) && Classify(rules, d) == Matched(rules[k].outcome, rules[k].message);
    }
  }

  // The helpers that build the rules of the table; each binds exactly the fields in its name.

  function MSrcAndIfs(sourceP: StringPredicate, interfacesP: ArrayPredicate, t: Option<SuspendableType>, msg: Message): (r: Rule) {
    Rule(Some(sourceP), None, None, None, Some(interfacesP), None, t, msg)
  }

  function MSrcAndClassAndSuperAndMeth(sourceP: StringPredicate, classNameP: StringPredicate, superClassNameP: StringPredicate,
                                       methodNameP: StringPredicate, t: Option<SuspendableType>, msg: Message): (r: Rule) {
    Rule(Some(sourceP), None, Some(classNameP), Some(superClassNameP), None, Some(methodNameP), t, msg)
  }

  function MSrcAndClass(sourceP: StringPredicate, classNameP: StringPredicate, t: Option<SuspendableType>, msg: Message): (r: Rule) {
    Rule(Some(sourceP), None, Some(classNameP), None, None, None, t, msg)
  }

  function MSrcAndMeth(sourceP: StringPredicate, methodNameP: StringPredicate, t: Option<SuspendableType>, msg: Message): (r: Rule) {
    Rule(Some(sourceP), None, None, None, None, Some(methodNameP), t, msg)
  }

  function MSrcAndIsIf(sourceP: StringPredicate, isInterfaceP: BoolPredicate, t: Option<SuspendableType>, msg: Message): (r: Rule) {
    Rule(Some(sourceP), Some(isInterfaceP), None, None, None, None, t, msg)
  }

  function MMethAndIfs(methodNameP: StringPredicate, interfacesP: ArrayPredicate, t: Option<SuspendableType>, msg: Message): (r: Rule) {
    Rule(None, None, None, None, Some(interfacesP), Some(methodNameP), t, msg)
  }

  function MClass(classNameP: StringPredicate, t: Option<SuspendableType>, msg: Message): (r: Rule) {
    Rule(None, None, Some(classNameP), None, None, None, t, msg)
  }

  function MClassAndMeth(classNameP: StringPredicate, methodNameP: StringPredicate, t: Option<SuspendableType>, msg: Message): (r: Rule) {
    Rule(None, None, Some(classNameP), None, None, Some(methodNameP), t, msg)
  }

  function MMeth(methodNameP: StringPredicate, t: Option<SuspendableType>, msg: Message): (r: Rule) {
    Rule(None, None, None, None, None, Some(methodNameP), t, msg)
  }

  /** What varies between the `mClassAndMeth(c, m, t, a(msg))` rules of one block. */
  datatype Entry = Entry(classNameP: StringPredicate, methodNameP: StringPredicate, t: Option<SuspendableType>)

  /** A block of `mClassAndMeth(c, m, t, a(msg))` rules, one per entry, in order. */
  function ClassAndMethodRules(entries: seq<Entry>, msg: Message): seq<Rule> {
    seq(|entries|, i requires 0 <= i < |entries| => MClassAndMeth(entries[i].classNameP, entries[i].methodNameP, entries[i].t, msg))
  }

  lemma EntriesMatchedInvocation(entries: seq<Entry>, msg: Message, d: Descriptor, a: string, b: string)
    requires forall k | 0 <= k < |entries| :: entries[k].methodNameP == EqN(Some(a)) || entries[k].methodNameP == Or(EqN(Some(a)), EqN(Some(b)))
    ensures Classify(ClassAndMethodRules(entries, msg), d).Matched? ==> d.methodName == Some(a) || d.methodName == Some(b)
  {
    if Classify(ClassAndMethodRules(entries, msg), d).Matched? {
      EntriesMatchedMethod(entries, msg, d, EqN(Some(a)), Or(EqN(Some(a)), EqN(Some(b))));
    }
  }

  /** When every entry of a block has type `t`, the block's verdict, if any, is `t`
      with the block's message. */
  lemma EntriesUniformVerdict(entries: seq<Entry>, msg: Message, d: Descriptor, t: Option<SuspendableType>)
    requires forall k | 0 <= k < |entries| :: entries[k].t == t
    ensures Classify(ClassAndMethodRules(entries, msg), d).Matched? ==> Classify(ClassAndMethodRules(entries, msg), d) == Matched(t, msg)
  {
    ClassifyIsFirstMatch(ClassAndMethodRules(entries, msg), d);
  }

  /** When every entry of a block tests the method with `p1` or `p2`, a rule of the
      block can only match a method that one of them accepts. */
  lemma EntriesMatchedMethod(entries: seq<Entry>, msg: Message, d: Descriptor, p1: StringPredicate, p2: StringPredicate)
    requires forall k | 0 <= k < |entries| :: entries[k].methodNameP == p1 || entries[k].methodNameP == p2
    requires Classify(ClassAndMethodRules(entries, msg), d).Matched?
    ensures Apply(p1, d.methodName) || Apply(p2, d.methodName)
  {
    MatchedMethodEither(ClassAndMethodRules(entries, msg), d, p1, p2);
  }

  /** A block of `mClass(startsWithN(p), t, a(msg))` rules, one per prefix, in order. */
  function ClassPrefixRules(prefixes: seq<string>, t: Option<SuspendableType>, msg: Message): seq<Rule> {
    seq(|prefixes|, i requires 0 <= i < |prefixes| => MClass(StartsWithN(Some(prefixes[i])), t, msg))
  }

  /** A block of `mMethAndIfs(startsWithN(p), arrayContainsN(iface), t, a(msg))` rules,
      one per prefix, in order. */
  function MethodPrefixRules(prefixes: seq<string>, iface: string, t: Option<SuspendableType>, msg: Message): seq<Rule> {
    seq(|prefixes|, i requires 0 <= i < |prefixes| => MMethAndIfs(StartsWithN(Some(prefixes[i])), ArrayContainsN(Some(iface)), t, msg))
  }

  /** The value is present and starts with one of the prefixes. */
  predicate StartsWithOneOf(v: JString, prefixes: seq<string>) {
    v.Some? && exists k | 0 <= k < |prefixes| :: StartsWith(v.value, prefixes[k])
  }

  /** Splitting off the first prefix. */
  lemma StartsWithOneOfFirst(v: JString, prefixes: seq<string>)
    requires prefixes != []
    ensures StartsWithOneOf(v, prefixes)
        <==> v.Some? && (StartsWith(v.value, prefixes[0]) || StartsWithOneOf(v, prefixes[1..]))
  {
    if StartsWithOneOf(v, prefixes[1..]) {
      var k :| 0 <= k < |prefixes[1..]| && StartsWith(v.value, prefixes[1..][k]);
      assert StartsWith(v.value, prefixes[k + 1]);
    }
    if StartsWithOneOf(v, prefixes) {
      var k :| 0 <= k < |prefixes| && StartsWith(v.value, prefixes[k]);
      if k > 0 {
        assert StartsWith(v.value, prefixes[1..][k - 1]);
      }
    }
  }

  /** A class-prefix block decides exactly the classes under one of its prefixes. */
  lemma {:induction false} ClassifyClassPrefixRules(prefixes: seq<string>, t: Option<SuspendableType>, msg: Message, d: Descriptor)
    ensures Classify(ClassPrefixRules(prefixes, t, msg), d)
         == if StartsWithOneOf(d.className, prefixes) then Matched(t, msg) else Unclassified
    decreases prefixes
  {
    if prefixes != [] {
      var rules := ClassPrefixRules(prefixes, t, msg);
      assert rules[0] == MClass(StartsWithN(Some(prefixes[0])), t, msg);
      assert rules[1..] == ClassPrefixRules(prefixes[1..], t, msg);
      ClassifyClassPrefixRules(prefixes[1..], t, msg, d);
      StartsWithOneOfFirst(d.className, prefixes);
    }
  }

  /** A method-prefix block decides exactly the methods under one of its prefixes whose
      class implements its interface. */
  lemma {:induction false} ClassifyMethodPrefixRules(prefixes: seq<string>, iface: string, t: Option<SuspendableType>,
                                                     msg: Message, d: Descriptor)
    ensures Classify(MethodPrefixRules(prefixes, iface, t, msg), d)
         == if ArrayContains(Some(iface), d.interfaces) && StartsWithOneOf(d.methodName, prefixes)
            then Matched(t, msg) else Unclassified
    decreases prefixes
  {
    if prefixes != [] {
      var rules := MethodPrefixRules(prefixes, iface, t, msg);
      assert rules[0] == MMethAndIfs(StartsWithN(Some(prefixes[0])), ArrayContainsN(Some(iface)), t, msg);
      assert rules[1..] == MethodPrefixRules(prefixes[1..], iface, t, msg);
      ClassifyMethodPrefixRules(prefixes[1..], iface, t, msg, d);
      StartsWithOneOfFirst(d.methodName, prefixes);
    }
  }

  /** A class under `p` misses every rule of a class-prefix block whose prefixes all
      diverge from `p`. */
  lemma ClassPrefixRulesMiss(prefixes: seq<string>, t: Option<SuspendableType>, msg: Message, d: Descriptor, p: string)
    requires d.className.Some? && StartsWith(d.className.value, p)
    requires forall k | 0 <= k < |prefixes| :: Diverge(p, prefixes[k])
    ensures Classify(ClassPrefixRules(prefixes, t, msg), d).Unclassified?
  {
    ClassifyClassPrefixRules(prefixes, t, msg, d);
    forall k | 0 <= k < |prefixes|
      ensures !StartsWith(d.className.value, prefixes[k])
    {
      DivergeExcludes(d.className.value, p, prefixes[k]);
    }
  }

  /** A method-prefix block reports its own outcome and message or nothing. */
  lemma MethodPrefixRulesOutcome(prefixes: seq<string>, iface: string, t: Option<SuspendableType>, msg: Message, d: Descriptor)
    ensures Classify(MethodPrefixRules(prefixes, iface, t, msg), d).Matched? ==>
      Classify(MethodPrefixRules(prefixes, iface, t, msg), d) == Matched(t, msg)
  {
    ClassifyMethodPrefixRules(prefixes, iface, t, msg, d);
  }

  /** A class-prefix block reports its own outcome and message or nothing. */
  lemma ClassPrefixRulesOutcome(prefixes: seq<string>, t: Option<SuspendableType>, msg: Message, d: Descriptor)
    ensures Classify(ClassPrefixRules(prefixes, t, msg), d).Matched? ==>
      Classify(ClassPrefixRules(prefixes, t, msg), d) == Matched(t, msg)
  {
    ClassifyClassPrefixRules(prefixes, t, msg, d);
  }

  /** The rule's class-name predicate rules out every class under `p`. */
  predicate ClassSpecDiverges(r: Rule, p: string) {
    r.classNameP.Some? && ExcludesLead(r.classNameP.value, p)
  }

  /** A class under `p` misses every rule whose class-name predicate rules `p` out. */
  lemma ClassLeadMisses(rules: seq<Rule>, d: Descriptor, p: string)
    requires d.className.Some? && StartsWith(d.className.value, p)
    requires forall k | 0 <= k < |rules| :: ClassSpecDiverges(rules[k], p)
    ensures Classify(rules, d).Unclassified?
  {
    forall k | 0 <= k < |rules|
      ensures !Matches(rules[k], d)
    {
      ExcludesLeadRejects(rules[k].classNameP.value, p, d.className.value);
    }
    NoMatchUnclassified(rules, d);
  }
}
