/**
 * Structural suppression: the generated Clojure runtime support and the JDK and
 * known third-party packages are never instrumented. Each property is proved about
 * its section first, then lifted to the whole table with the lemma of `MatchList`
 * that lets that section decide.
 */
module Suppression {
  import opened Optional
  import opened Strings
  import opened Predicates
  import opened Messages
  import opened Rules
  import opened MatchList

  /** The module-loading, special and technical-method rules all say "not suspendable". */
  lemma GeneratedSupportOutcome(d: Descriptor)
    ensures Classify(GeneratedSupportRules(), d).Matched? ==> Classify(GeneratedSupportRules(), d).outcome == Some(NonSuspendable)
  {
    var ns := Some(NonSuspendable);
    var vs := {Matched(ns, CljModMsg), Matched(ns, SpecialMsg), Matched(ns, CljTyMsg), Matched(ns, CljRPMsg), Matched(ns, CljProxyMsg)};
    assert forall k | 0 <= k < |GeneratedSupportRules()| ::
      Matched(GeneratedSupportRules()[k].outcome, GeneratedSupportRules()[k].message) in vs;
    VerdictAmong(GeneratedSupportRules(), d, vs);
  }

  /** Every rule of the generated-runtime section says "not suspendable". */
  lemma GeneratedRuntimeOutcome(d: Descriptor)
    ensures Classify(GeneratedRuntimeRules(), d).Matched? ==> Classify(GeneratedRuntimeRules(), d).outcome == Some(NonSuspendable)
  {
    ClassifyAppend(GeneratedSupportRules(), RecordMethodRules(), d);
    if Classify(GeneratedSupportRules(), d).Matched? {
      GeneratedSupportOutcome(d);
    } else {
      MethodPrefixRulesOutcome(RecordMethodPrefixes, IRecord, Some(NonSuspendable), CljRecMsg, d);
    }
  }

  /** Whatever the generated-runtime section catches is never instrumented, whatever
      the later sections say. */
  lemma GeneratedRuntimeNeverSuspendable(d: Descriptor)
    requires Classify(GeneratedRuntimeRules(), d).Matched?
    ensures Classify(GetMatchList(), d) == Classify(GeneratedRuntimeRules(), d)
    ensures Classify(GetMatchList(), d).outcome == Some(NonSuspendable)
  {
    GeneratedRuntimeOutcome(d);
    GeneratedRuntimeDecides(d);
  }

  /** Class names containing "$loading__" belong to module loaders: the first rule decides. */
  lemma ModuleLoadingSection(d: Descriptor)
    requires d.className.Some? && Contains(d.className.value, "$loading__")
    ensures Classify(GeneratedRuntimeRules(), d) == Matched(Some(NonSuspendable), CljModMsg)
  {
    assert Matches(GeneratedSupportRules()[0], d);
    ClassifyAppend(GeneratedSupportRules(), RecordMethodRules(), d);
  }

  lemma ModuleLoadingNeverSuspendable(d: Descriptor)
    requires d.className.Some? && Contains(d.className.value, "$loading__")
    ensures Classify(GetMatchList(), d) == Matched(Some(NonSuspendable), CljModMsg)
  {
    ModuleLoadingSection(d);
    GeneratedRuntimeDecides(d);
  }

  /** Methods whose names start with "<" (constructors and static initialisers) are
      special; only module loaders come before them. */
  lemma SpecialMethodsSection(d: Descriptor)
    requires d.methodName.Some? && StartsWith(d.methodName.value, "<")
    ensures Classify(GeneratedRuntimeRules(), d)
         == Matched(Some(NonSuspendable),
                    if d.className.Some? && Contains(d.className.value, "$loading__") then CljModMsg else SpecialMsg)
  {
    if d.className.Some? && Contains(d.className.value, "$loading__") {
      ModuleLoadingSection(d);
    } else {
      assert !Matches(GeneratedSupportRules()[0], d);
      assert Matches(GeneratedSupportRules()[1], d);
      FirstMatchDecidesPrefix(GeneratedSupportRules(), RecordMethodRules(), d, 1);
    }
  }

  lemma SpecialMethodsNeverSuspendable(d: Descriptor)
    requires d.methodName.Some? && StartsWith(d.methodName.value, "<")
    ensures Classify(GetMatchList(), d)
         == Matched(Some(NonSuspendable),
                    if d.className.Some? && Contains(d.className.value, "$loading__") then CljModMsg else SpecialMsg)
  {
    SpecialMethodsSection(d);
    GeneratedRuntimeDecides(d);
  }

  /** The technical `getBasis` method of a deftype (a class implementing
      clojure/lang/IType) is never instrumented. */
  lemma DeftypeBasisSection(d: Descriptor)
    requires d.methodName.Some? && StartsWith(d.methodName.value, "getBasis")
    requires ArrayContains(Some(IType), d.interfaces)
    requires !(d.className.Some? && Contains(d.className.value, "$loading__"))
    ensures Classify(GeneratedRuntimeRules(), d) == Matched(Some(NonSuspendable), CljTyMsg)
  {
    DivergeExcludes(d.methodName.value, "getBasis", "<");
    assert !Matches(GeneratedSupportRules()[0], d);
    assert !Matches(GeneratedSupportRules()[1], d);
    assert Matches(GeneratedSupportRules()[2], d);
    FirstMatchDecidesPrefix(GeneratedSupportRules(), RecordMethodRules(), d, 2);
  }

  lemma DeftypeBasisNeverSuspendable(d: Descriptor)
    requires d.methodName.Some? && StartsWith(d.methodName.value, "getBasis")
    requires ArrayContains(Some(IType), d.interfaces)
    requires !(d.className.Some? && Contains(d.className.value, "$loading__"))
    ensures Classify(GetMatchList(), d) == Matched(Some(NonSuspendable), CljTyMsg)
  {
    DeftypeBasisSection(d);
    GeneratedRuntimeDecides(d);
  }

  /** The record rule for `getBasis` is not shadowed by the deftype rule before it: a
      class implementing clojure/lang/IRecord but not clojure/lang/IType reaches it. */
  lemma RecordBasisReachesRecordRule(d: Descriptor)
    requires d.methodName.Some? && StartsWith(d.methodName.value, "getBasis")
    requires ArrayContains(Some(IRecord), d.interfaces) && !ArrayContains(Some(IType), d.interfaces)
    requires !(d.className.Some? && Contains(d.className.value, "$loading__"))
    ensures Classify(GetMatchList(), d) == Matched(Some(NonSuspendable), CljRecMsg)
  {
    BasisSkipsSupportRules(d);
    BasisIsRecordPrefix();
    RecordRuleCatches(d, 0);
  }

  lemma BasisIsRecordPrefix()
    ensures |RecordMethodPrefixes| > 0 && RecordMethodPrefixes[0] == "getBasis"
  {
  }

  lemma BasisSkipsSupportRules(d: Descriptor)
    requires d.methodName.Some? && StartsWith(d.methodName.value, "getBasis")
    requires !ArrayContains(Some(IType), d.interfaces)
    requires !(d.className.Some? && Contains(d.className.value, "$loading__"))
    ensures Classify(GeneratedSupportRules(), d).Unclassified?
  {
    BasisForeignToSupportMethods();
    var m := d.methodName.value;
    DivergeExcludes(m, "getBasis", "<");
    DivergeExcludes(m, "getBasis", "meta");
    DivergeExcludes(m, "getBasis", "withMeta");
    DivergeExcludes(m, "getBasis", "__initClojureFnMappings");
    DivergeExcludes(m, "getBasis", "__updateClojureFnMappings");
    DivergeExcludes(m, "getBasis", "__getClojureFnMappings");
    NoMatchUnclassified(GeneratedSupportRules(), d);
  }

  lemma BasisForeignToSupportMethods()
    ensures Diverge("getBasis", "<") && Diverge("getBasis", "meta") && Diverge("getBasis", "withMeta")
    ensures Diverge("getBasis", "__initClojureFnMappings") && Diverge("getBasis", "__updateClojureFnMappings")
    ensures Diverge("getBasis", "__getClojureFnMappings")
  {
  }

  /** Likewise the record rule for `meta` is not shadowed by the proxy/reify rule: a
      class implementing clojure/lang/IRecord but not clojure/lang/IObj reaches it. */
  lemma RecordMetaReachesRecordRule(d: Descriptor)
    requires d.methodName.Some? && StartsWith(d.methodName.value, "meta")
    requires ArrayContains(Some(IRecord), d.interfaces) && !ArrayContains(Some(IObj), d.interfaces)
    requires !(d.className.Some? && Contains(d.className.value, "$loading__"))
    ensures Classify(GetMatchList(), d) == Matched(Some(NonSuspendable), CljRecMsg)
  {
    MetaSkipsSupportRules(d);
    MetaIsRecordPrefix();
    RecordRuleCatches(d, 5);
  }

  lemma MetaIsRecordPrefix()
    ensures |RecordMethodPrefixes| > 5 && RecordMethodPrefixes[5] == "meta"
  {
  }

  lemma MetaSkipsSupportRules(d: Descriptor)
    requires d.methodName.Some? && StartsWith(d.methodName.value, "meta")
    requires !ArrayContains(Some(IObj), d.interfaces)
    requires !(d.className.Some? && Contains(d.className.value, "$loading__"))
    ensures Classify(GeneratedSupportRules(), d).Unclassified?
  {
    MetaForeignToSupportMethods();
    var m := d.methodName.value;
    DivergeExcludes(m, "meta", "<");
    DivergeExcludes(m, "meta", "getBasis");
    DivergeExcludes(m, "meta", "__initClojureFnMappings");
    DivergeExcludes(m, "meta", "__updateClojureFnMappings");
    DivergeExcludes(m, "meta", "__getClojureFnMappings");
    NoMatchUnclassified(GeneratedSupportRules(), d);
  }

  lemma MetaForeignToSupportMethods()
    ensures Diverge("meta", "<") && Diverge("meta", "getBasis")
    ensures Diverge("meta", "__initClojureFnMappings") && Diverge("meta", "__updateClojureFnMappings")
    ensures Diverge("meta", "__getClojureFnMappings")
  {
  }

  /** Once the support rules let a record method through, its record rule decides. */
  lemma RecordRuleCatches(d: Descriptor, k: nat)
    requires k < |RecordMethodPrefixes| && d.methodName.Some? && StartsWith(d.methodName.value, RecordMethodPrefixes[k])
    requires ArrayContains(Some(IRecord), d.interfaces)
    requires Classify(GeneratedSupportRules(), d).Unclassified?
    ensures Classify(GetMatchList(), d) == Matched(Some(NonSuspendable), CljRecMsg)
  {
    ClassifyMethodPrefixRules(RecordMethodPrefixes, IRecord, Some(NonSuspendable), CljRecMsg, d);
    ClassifyAppend(GeneratedSupportRules(), RecordMethodRules(), d);
    GeneratedRuntimeDecides(d);
  }

  /** The technical methods of a defrecord (a class implementing clojure/lang/IRecord)
      are never instrumented. */
  lemma RecordMethodsSection(d: Descriptor)
    requires ArrayContains(Some(IRecord), d.interfaces) && StartsWithOneOf(d.methodName, RecordMethodPrefixes)
    ensures Classify(GeneratedRuntimeRules(), d).Matched?
  {
    ClassifyMethodPrefixRules(RecordMethodPrefixes, IRecord, Some(NonSuspendable), CljRecMsg, d);
    ClassifyAppend(GeneratedSupportRules(), RecordMethodRules(), d);
  }

  lemma RecordMethodsNeverSuspendable(d: Descriptor)
    requires ArrayContains(Some(IRecord), d.interfaces) && StartsWithOneOf(d.methodName, RecordMethodPrefixes)
    ensures Classify(GetMatchList(), d).Matched? && Classify(GetMatchList(), d).outcome == Some(NonSuspendable)
  {
    RecordMethodsSection(d);
    GeneratedRuntimeNeverSuspendable(d);
  }

  /** The second "assoc" record rule (the 39th rule of the table) repeats the 26th, so
      it is never the first match and the table without it classifies everything the same. */
  lemma DuplicateAssocRuleIsDead(d: Descriptor)
    ensures |GetMatchList()| > 38 && GetMatchList()[38] == GetMatchList()[25]
    ensures !FirstMatchAt(GetMatchList(), d, 38)
    ensures Classify(GetMatchList()[..38] + GetMatchList()[39..], d) == Classify(GetMatchList(), d)
  {
    AssocRules();
    ShadowedRuleIsDead(GetMatchList(), 25, 38, d);
  }

  /** Rules 26 and 39 of the table are the two "assoc" record rules. */
  lemma AssocRules()
    ensures |GetMatchList()| > 38
    ensures GetMatchList()[25] == RecordMethodRules()[17] && GetMatchList()[38] == RecordMethodRules()[30]
    ensures RecordMethodRules()[17] == RecordMethodRules()[30]
  {
    var g := GeneratedRuntimeRules();
    var rest := ThirdPartyRules() + ClojureSuspendableRules() + ClojureRuntimeRules() + ParallelUniverseRules() + UserCodeRules();
    assert GetMatchList() == g + rest;
    assert g[25] == RecordMethodRules()[17] && g[38] == RecordMethodRules()[30];
  }

  /** The first two sections, 49 rules in all, only ever say "not suspendable". */
  lemma SuppressionRulesNonSuspendable()
    ensures |GeneratedRuntimeRules()| == 39 && |ThirdPartyRules()| == 10
    ensures forall k | 0 <= k < |GeneratedRuntimeRules()| + |ThirdPartyRules()| :: GetMatchList()[k].outcome == Some(NonSuspendable)
  {
  }

  /** A class in a JDK or known third-party package is decided by the third-party block. */
  lemma ThirdPartySection(d: Descriptor)
    ensures Classify(ThirdPartyRules(), d)
         == if StartsWithOneOf(d.className, ThirdPartyPrefixes) then Matched(Some(NonSuspendable), JdkOr3rdMsg) else Unclassified
  {
    ClassifyClassPrefixRules(ThirdPartyPrefixes, Some(NonSuspendable), JdkOr3rdMsg, d);
  }

  /** Classes under "java/", "sun/" and the other listed packages are never instrumented,
      whatever the other fields say; unless a generated-runtime rule caught them first,
      the third-party rule is the one reported. */
  lemma ThirdPartyNeverSuspendable(d: Descriptor)
    requires StartsWithOneOf(d.className, ThirdPartyPrefixes)
    ensures Classify(GetMatchList(), d).Matched? && Classify(GetMatchList(), d).outcome == Some(NonSuspendable)
    ensures Classify(GeneratedRuntimeRules(), d).Unclassified? ==>
      Classify(GetMatchList(), d) == Matched(Some(NonSuspendable), JdkOr3rdMsg)
  {
    ThirdPartySection(d);
    if Classify(GeneratedRuntimeRules(), d).Matched? {
      GeneratedRuntimeNeverSuspendable(d);
    } else {
      ThirdPartyDecides(d);
    }
  }

  /** Methods under `lead` are under none of the method prefixes of the generated-runtime
      section, and no such prefix is under `lead`. */
  predicate ForeignToRuntimeMethods(lead: string) {
    && (forall k | 0 <= k < |RecordMethodPrefixes| :: Diverge(lead, RecordMethodPrefixes[k]))
    && Diverge(lead, "<") && Diverge(lead, "getBasis") && Diverge(lead, "meta") && Diverge(lead, "withMeta")
    && Diverge(lead, "__initClojureFnMappings") && Diverge(lead, "__updateClojureFnMappings")
    && Diverge(lead, "__getClojureFnMappings")
  }

  /** Invocation methods ("invoke", "invokePrim", ...) and "apply"-like methods are
      no technical methods. */
  lemma InvocationsForeignToRuntimeMethods()
    ensures ForeignToRuntimeMethods("inv")
  {
  }

  lemma ApplyForeignToRuntimeMethods()
    ensures ForeignToRuntimeMethods("ap")
  {
  }

  /** The two base invocation methods begin with "inv". */
  lemma InvocationMethodNames()
    ensures StartsWith("invoke", "inv") && StartsWith("invokePrim", "inv")
  {
    PrefixStartsWith("invoke", "inv");
    PrefixStartsWith("invokePrim", "inv");
  }

  /** `invoke` and `invokePrim` of a class that is no module loader pass the
      generated-runtime section: no technical method is an invocation method. */
  lemma InvocationSkipsGeneratedRuntime(d: Descriptor)
    requires d.methodName == Some("invoke") || d.methodName == Some("invokePrim")
    requires !(d.className.Some? && Contains(d.className.value, "$loading__"))
    ensures Classify(GeneratedRuntimeRules(), d).Unclassified?
  {
    InvocationMethodNames();
    InvocationsForeignToRuntimeMethods();
    GeneratedRuntimeSkipsMethods(d, "inv");
  }

  /** Methods under a lead foreign to the technical methods, of classes that are not
      module loaders, pass the generated-runtime section untouched. */
  lemma GeneratedRuntimeSkipsMethods(d: Descriptor, lead: string)
    requires ForeignToRuntimeMethods(lead)
    requires !(d.className.Some? && Contains(d.className.value, "$loading__"))
    requires d.methodName.Some? && StartsWith(d.methodName.value, lead)
    ensures Classify(GeneratedRuntimeRules(), d).Unclassified?
  {
    var m := d.methodName.value;
    DivergeExcludes(m, lead, "<");
    DivergeExcludes(m, lead, "getBasis");
    DivergeExcludes(m, lead, "meta");
    DivergeExcludes(m, lead, "withMeta");
    DivergeExcludes(m, lead, "__initClojureFnMappings");
    DivergeExcludes(m, lead, "__updateClojureFnMappings");
    DivergeExcludes(m, lead, "__getClojureFnMappings");
    NoMatchUnclassified(GeneratedSupportRules(), d);
    forall k | 0 <= k < |RecordMethodPrefixes|
      ensures !StartsWith(m, RecordMethodPrefixes[k])
    {
      DivergeExcludes(m, lead, RecordMethodPrefixes[k]);
    }
    ClassifyMethodPrefixRules(RecordMethodPrefixes, IRecord, Some(NonSuspendable), CljRecMsg, d);
    ClassifyAppend(GeneratedSupportRules(), RecordMethodRules(), d);
  }
}
