/**
 * The Clojure runtime: the explicitly suspendable runtime entry points come before
 * the blanket "not suspendable" rules for the Clojure core and utility namespaces,
 * so they are exceptions to them.
 */
module ClojureRuntime {
  import opened Optional
  import opened Strings
  import opened Predicates
  import opened Messages
  import opened Rules
  import opened MatchList
  import opened Suppression

  /** The blanket section: the core namespaces first, then the utilities. */
  lemma ClojureRuntimeSection(d: Descriptor)
    ensures Classify(ClojureRuntimeRules(), d)
         == if StartsWithOneOf(d.className, ClojureCorePrefixes) then Matched(Some(NonSuspendable), CljCoreMsg)
            else if StartsWithOneOf(d.className, ClojureUtilPrefixes) then Matched(Some(NonSuspendable), CljUtilMsg)
            else Unclassified
  {
    ClassifyAppend(ClassPrefixRules(ClojureCorePrefixes, Some(NonSuspendable), CljCoreMsg),
                   ClassPrefixRules(ClojureUtilPrefixes, Some(NonSuspendable), CljUtilMsg), d);
    ClassifyClassPrefixRules(ClojureCorePrefixes, Some(NonSuspendable), CljCoreMsg, d);
    ClassifyClassPrefixRules(ClojureUtilPrefixes, Some(NonSuspendable), CljUtilMsg, d);
  }

  /** A class whose name begins with "cl", "pr" or "b" is in no JDK or third-party package. */
  lemma LeadSkipsThirdParty(d: Descriptor, lead: string)
    requires lead == "cl" || lead == "pr" || lead == "b"
    requires d.className.Some? && StartsWith(d.className.value, lead)
    ensures Classify(ThirdPartyRules(), d).Unclassified?
  {
    assert forall k | 0 <= k < |ThirdPartyPrefixes| ::
      Diverge("cl", ThirdPartyPrefixes[k]) && Diverge("pr", ThirdPartyPrefixes[k]) && Diverge("b", ThirdPartyPrefixes[k]);
    ClassPrefixRulesMiss(ThirdPartyPrefixes, Some(NonSuspendable), JdkOr3rdMsg, d, lead);
  }

  /** The core namespaces begin with "cl", "pr" or "b", the utilities with "cl". */
  lemma RuntimePrefixLeads()
    ensures forall k | 0 <= k < |ClojureCorePrefixes| ::
      StartsWith(ClojureCorePrefixes[k], "cl") || StartsWith(ClojureCorePrefixes[k], "pr") || StartsWith(ClojureCorePrefixes[k], "b")
    ensures forall k | 0 <= k < |ClojureUtilPrefixes| :: StartsWith(ClojureUtilPrefixes[k], "cl")
  {
  }

  /** Every runtime class name begins with "cl", "pr" or "b". */
  lemma RuntimeClassLead(d: Descriptor) returns (lead: string)
    requires StartsWithOneOf(d.className, ClojureCorePrefixes) || StartsWithOneOf(d.className, ClojureUtilPrefixes)
    ensures lead == "cl" || lead == "pr" || lead == "b"
    ensures StartsWith(d.className.value, lead)
  {
    RuntimePrefixLeads();
    var p: string;
    if StartsWithOneOf(d.className, ClojureCorePrefixes) {
      var k :| 0 <= k < |ClojureCorePrefixes| && StartsWith(d.className.value, ClojureCorePrefixes[k]);
      p := ClojureCorePrefixes[k];
    } else {
      var k :| 0 <= k < |ClojureUtilPrefixes| && StartsWith(d.className.value, ClojureUtilPrefixes[k]);
      p := ClojureUtilPrefixes[k];
    }
    lead := if StartsWith(p, "cl") then "cl" else if StartsWith(p, "pr") then "pr" else "b";
    StartsWithTransitive(d.className.value, p, lead);
  }

  /** The verdicts of the suspendable runtime entry points. */
  lemma ClojureSuspendableRuleVerdicts()
    ensures forall k | 0 <= k < |ClojureSuspendableRules()| ::
      Matched(ClojureSuspendableRules()[k].outcome, ClojureSuspendableRules()[k].message)
        in {Matched(Some(Suspendable), CljSusFnCoreMsg), Matched(Some(SuspendableSuper), CljSusFnCoreMsg)}
  {
  }

  /** The suspendable runtime entry points report `cljSusFnCoreMsg` with an
      instrumenting type, or nothing. */
  lemma ClojureSuspendableVerdicts(d: Descriptor)
    ensures Classify(ClojureSuspendableRules(), d).Matched? ==>
      Classify(ClojureSuspendableRules(), d).message == CljSusFnCoreMsg
      && (Classify(ClojureSuspendableRules(), d).outcome == Some(Suspendable)
          || Classify(ClojureSuspendableRules(), d).outcome == Some(SuspendableSuper))
  {
    ClojureSuspendableRuleVerdicts();
    VerdictAmong(ClojureSuspendableRules(), d, {Matched(Some(Suspendable), CljSusFnCoreMsg), Matched(Some(SuspendableSuper), CljSusFnCoreMsg)});
  }

  /** A class of the Clojure runtime is decided by the generated-runtime support if that
      catches it, otherwise by the suspendable entry points if one of them does, and
      otherwise by the blanket rules; the third-party rules never see it. */
  lemma ClojureRuntimeClasses(d: Descriptor)
    requires StartsWithOneOf(d.className, ClojureCorePrefixes) || StartsWithOneOf(d.className, ClojureUtilPrefixes)
    ensures Classify(GetMatchList(), d)
         == if Classify(GeneratedRuntimeRules(), d).Matched? then Classify(GeneratedRuntimeRules(), d)
            else if Classify(ClojureSuspendableRules(), d).Matched? then Classify(ClojureSuspendableRules(), d)
            else Classify(ClojureRuntimeRules(), d)
  {
    var lead := RuntimeClassLead(d);
    LeadSkipsThirdParty(d, lead);
    ClojureRuntimeSection(d);
    if Classify(GeneratedRuntimeRules(), d).Matched? {
      GeneratedRuntimeDecides(d);
    } else if Classify(ClojureSuspendableRules(), d).Matched? {
      ClojureSuspendableDecides(d);
    } else {
      ClojureRuntimeDecides(d);
    }
  }

  /** The explicit entry points are the only way into instrumentation for the Clojure
      runtime: such a class always gets a verdict, and an instrumenting one comes from
      the suspendable-runtime section. */
  lemma ClojureRuntimeOnlyExceptionsSuspendable(d: Descriptor)
    requires StartsWithOneOf(d.className, ClojureCorePrefixes) || StartsWithOneOf(d.className, ClojureUtilPrefixes)
    ensures Classify(GetMatchList(), d).Matched?
    ensures Classify(GetMatchList(), d).outcome != Some(NonSuspendable) ==>
      Classify(GetMatchList(), d) == Classify(ClojureSuspendableRules(), d)
  {
    ClojureRuntimeClasses(d);
    ClojureRuntimeSection(d);
    GeneratedRuntimeOutcome(d);
  }

  /** `clojure/lang/Reflector` is no module loader (its name has no "$") and lies
      under the first core prefix. */
  lemma ReflectorIsNoModuleLoader(d: Descriptor)
    requires d.className == Some("clojure/lang/Reflector")
    ensures !(d.className.Some? && Contains(d.className.value, "$loading__"))
    ensures StartsWithOneOf(d.className, ClojureCorePrefixes)
  {
    MissingCharNotContained("clojure/lang/Reflector", "$loading__", 0);
    PrefixStartsWith("clojure/lang/Reflector", ClojureCorePrefixes[0]);
  }

  /** Reflective instance-method calls are instrumented although the blanket
      "clojure/lang" rule also matches them: the exception comes first. */
  lemma ReflectorIsSuspendable(d: Descriptor)
    requires d.className == Some("clojure/lang/Reflector") && d.methodName == Some("invokeInstanceMethod")
    ensures Matches(ClojureRuntimeRules()[0], d)
    ensures Classify(GetMatchList(), d) == Matched(Some(Suspendable), CljSusFnCoreMsg)
  {
    BlanketCoreRuleMatchesReflector(d);
    ReflectorIsNoModuleLoader(d);
    InvokeInstanceMethodIsInvocation();
    InvocationsForeignToRuntimeMethods();
    GeneratedRuntimeSkipsMethods(d, "inv");
    ReflectorEntryPoint(d);
    ClojureRuntimeClasses(d);
  }

  lemma InvokeInstanceMethodIsInvocation()
    ensures StartsWith("invokeInstanceMethod", "inv")
  {
    PrefixStartsWith("invokeInstanceMethod", "inv");
  }

  /** The first blanket rule, "clojure/lang", covers `Reflector`. */
  lemma BlanketCoreRuleMatchesReflector(d: Descriptor)
    requires d.className == Some("clojure/lang/Reflector")
    ensures Matches(ClojureRuntimeRules()[0], d)
  {
    var core := ClassPrefixRules(ClojureCorePrefixes, Some(NonSuspendable), CljCoreMsg);
    assert ClojureRuntimeRules()[0] == core[0];
    PrefixStartsWith("clojure/lang/Reflector", ClojureCorePrefixes[0]);
  }

  /** The second suspendable entry point is the first to match `Reflector.invokeInstanceMethod`. */
  lemma ReflectorEntryPoint(d: Descriptor)
    requires d.className == Some("clojure/lang/Reflector") && d.methodName == Some("invokeInstanceMethod")
    ensures Classify(ClojureSuspendableRules(), d) == Matched(Some(Suspendable), CljSusFnCoreMsg)
  {
    assert FirstMatchAt(ClojureSuspendableRules(), d, 1);
    FirstMatchDecides(ClojureSuspendableRules(), d, 1);
  }

  /** Function calls through `IFn.invoke` are instrumented in the implementing classes
      (`SUSPENDABLE_SUPER`), although the blanket "clojure/lang" rule also matches the
      interface: the exception comes first. */
  lemma IFnInvokeIsSuspendableSuper(d: Descriptor)
    requires d.className == Some("clojure/lang/IFn") && d.methodName == Some("invoke")
    ensures Matches(ClojureRuntimeRules()[0], d)
    ensures Classify(GetMatchList(), d) == Matched(Some(SuspendableSuper), CljSusFnCoreMsg)
  {
    BlanketCoreRuleMatchesIFn(d);
    IFnNames();
    InvocationsForeignToRuntimeMethods();
    GeneratedRuntimeSkipsMethods(d, "inv");
    IFnEntryPoint(d);
    ClojureRuntimeClasses(d);
  }

  lemma BlanketCoreRuleMatchesIFn(d: Descriptor)
    requires d.className == Some("clojure/lang/IFn")
    ensures Matches(ClojureRuntimeRules()[0], d)
  {
    var core := ClassPrefixRules(ClojureCorePrefixes, Some(NonSuspendable), CljCoreMsg);
    assert ClojureRuntimeRules()[0] == core[0];
    IFnNames();
  }

  lemma IFnNames()
    ensures !Contains("clojure/lang/IFn", "$loading__")
    ensures StartsWith("clojure/lang/IFn", ClojureCorePrefixes[0])
    ensures StartsWith("invoke", "inv")
  {
    MissingCharNotContained("clojure/lang/IFn", "$loading__", 0);
    PrefixStartsWith("clojure/lang/IFn", ClojureCorePrefixes[0]);
    PrefixStartsWith("invoke", "inv");
  }

  /** The eleventh entry point is the first to match `IFn.invoke`. */
  lemma IFnEntryPoint(d: Descriptor)
    requires d.className == Some("clojure/lang/IFn") && d.methodName == Some("invoke")
    ensures Classify(ClojureSuspendableRules(), d) == Matched(Some(SuspendableSuper), CljSusFnCoreMsg)
  {
    PrefixStartsWith("clojure/lang/IFn", "clojure/lang/IFn");
    IFnPassesEarlierEntryPoints();
    assert ClojureSuspendableRules()[10] == MClassAndMeth(StartsWithN(Some("clojure/lang/IFn")), EqN(Some("invoke")), Some(SuspendableSuper), CljSusFnCoreMsg);
    forall j | 0 <= j < 10
      ensures !Matches(ClojureSuspendableRules()[j], d)
    {
      assert ClojureSuspendableRules()[j].classNameP == Some(ClojureEntryPoints[j].classNameP);
    }
    assert FirstMatchAt(ClojureSuspendableRules(), d, 10);
    FirstMatchDecides(ClojureSuspendableRules(), d, 10);
  }

  /** The ten entry points before it name other classes. */
  lemma IFnPassesEarlierEntryPoints()
    ensures forall j | 0 <= j < 10 :: !Apply(ClojureEntryPoints[j].classNameP, Some("clojure/lang/IFn"))
  {
    MismatchNotStartsWith("clojure/lang/IFn", "clojure/core/protocols$", 8);
  }
}
