/**
 * Parallel Universe's own code: a list of suspendable runtime functions, the Clojure
 * tests and examples, and a short circuit that gives every other class under
 * "co/paralleluniverse/" the `null` type, so that user-code rules never see it.
 */
module ParallelUniverse {
  import opened Optional
  import opened Strings
  import opened Predicates
  import opened Messages
  import opened Rules
  import opened MatchList
  import opened Suppression

  /** The three verdicts of the section. */
  lemma ParallelUniverseRuleVerdicts()
    ensures forall k | 0 <= k < |ParallelUniverseRules()| ::
      Matched(ParallelUniverseRules()[k].outcome, ParallelUniverseRules()[k].message)
        in {Matched(Some(Suspendable), SusPUMeth), Matched(Some(Suspendable), TestExamplePUMsg), Matched(None, PuMsg)}
  {
  }

  /** The section instruments its runtime functions and its tests and examples, and says
      nothing about the rest. */
  lemma ParallelUniverseVerdicts(d: Descriptor)
    ensures Classify(ParallelUniverseRules(), d).Matched? ==>
      (|| Classify(ParallelUniverseRules(), d) == Matched(Some(Suspendable), SusPUMeth)
       || Classify(ParallelUniverseRules(), d) == Matched(Some(Suspendable), TestExamplePUMsg)
       || Classify(ParallelUniverseRules(), d) == Matched(None, PuMsg))
  {
    ParallelUniverseRuleVerdicts();
    VerdictAmong(ParallelUniverseRules(), d,
      {Matched(Some(Suspendable), SusPUMeth), Matched(Some(Suspendable), TestExamplePUMsg), Matched(None, PuMsg)});
  }

  /** The runtime functions are listed by their invocation methods only. */
  lemma RuntimeEntryMethods()
    ensures forall k | 0 <= k < |ParallelUniverseEntryPoints| ::
      (|| ParallelUniverseEntryPoints[k].methodNameP == EqN(Some("invoke"))
       || ParallelUniverseEntryPoints[k].methodNameP == Or(EqN(Some("invoke")), EqN(Some("invokePrim"))))
  {
  }

  /** Only `invoke` and `invokePrim` can be suspendable runtime methods. */
  lemma ParallelUniverseRuntimeMethods(d: Descriptor)
    ensures Classify(ParallelUniverseRuntimeRules(), d).Matched? ==>
      d.methodName == Some("invoke") || d.methodName == Some("invokePrim")
  {
    RuntimeEntryMethods();
    EntriesMatchedInvocation(ParallelUniverseEntryPoints, SusPUMeth, d, "invoke", "invokePrim");
  }

  /** Every class under "co/paralleluniverse/" gets a verdict from the section, if only
      that of the short circuit. */
  lemma ParallelUniverseSection(d: Descriptor)
    requires d.className.Some? && StartsWith(d.className.value, "co/paralleluniverse/")
    ensures Classify(ParallelUniverseRules(), d).Matched?
  {
    ClassifyAppend(ParallelUniverseRuntimeRules() + ParallelUniverseTestRules(), [ParallelUniverseShortCircuit()], d);
  }

  /** No class name under "co/" is a JDK, third-party or Clojure runtime name. */
  lemma CoDivergesFromEarlierClasses()
    ensures forall k | 0 <= k < |ThirdPartyPrefixes| :: Diverge("co/", ThirdPartyPrefixes[k])
    ensures forall k | 0 <= k < |ClojureCorePrefixes| :: Diverge("co/", ClojureCorePrefixes[k])
    ensures forall k | 0 <= k < |ClojureUtilPrefixes| :: Diverge("co/", ClojureUtilPrefixes[k])
  {
  }

  /** The Clojure entry points all name classes under "clojure/". */
  lemma CoDivergesFromEntryPoints()
    ensures forall k | 0 <= k < |ClojureSuspendableRules()| :: ClassSpecDiverges(ClojureSuspendableRules()[k], "co/")
  {
  }

  /** A class under "co/" passes the third-party and both Clojure runtime sections. */
  lemma CoSkipsEarlierClassSections(d: Descriptor)
    requires d.className.Some? && StartsWith(d.className.value, "co/")
    ensures Classify(ThirdPartyRules(), d).Unclassified?
    ensures Classify(ClojureSuspendableRules(), d).Unclassified?
    ensures Classify(ClojureRuntimeRules(), d).Unclassified?
  {
    CoDivergesFromEarlierClasses();
    CoDivergesFromEntryPoints();
    ClassPrefixRulesMiss(ThirdPartyPrefixes, Some(NonSuspendable), JdkOr3rdMsg, d, "co/");
    ClassLeadMisses(ClojureSuspendableRules(), d, "co/");
    ClassPrefixRulesMiss(ClojureCorePrefixes, Some(NonSuspendable), CljCoreMsg, d, "co/");
    ClassPrefixRulesMiss(ClojureUtilPrefixes, Some(NonSuspendable), CljUtilMsg, d, "co/");
    ClassifyAppend(ClassPrefixRules(ClojureCorePrefixes, Some(NonSuspendable), CljCoreMsg),
                   ClassPrefixRules(ClojureUtilPrefixes, Some(NonSuspendable), CljUtilMsg), d);
  }

  /** A Clojure test or example of Parallel Universe (a class whose name mentions "test"
      or "example" in any case, compiled from a ".clj" file or from no known source) is
      instrumented, unless the generated-runtime support claims it; if no runtime rule
      names it, the verdict is that of the test rule. */
  lemma ParallelUniverseTestsSuspendable(d: Descriptor)
    requires d.className.Some? && StartsWith(d.className.value, "co/paralleluniverse/")
    requires Apply(TestOrExample(), d.className)
    requires d.source.None? || EndsWith(d.source.value, ClojureSourceExtension)
    requires Classify(GeneratedRuntimeRules(), d).Unclassified?
    ensures Classify(GetMatchList(), d).Matched? && Classify(GetMatchList(), d).outcome == Some(Suspendable)
    ensures Classify(ParallelUniverseRuntimeRules(), d).Unclassified? ==>
      Classify(GetMatchList(), d) == Matched(Some(Suspendable), TestExamplePUMsg)
  {
    ParallelUniverseClasses(d);
    TestClassRuleMatches(d);
    RuntimeEntriesSuspendable();
    EntriesUniformVerdict(ParallelUniverseEntryPoints, SusPUMeth, d, Some(Suspendable));
    ClassifyAppend(ParallelUniverseRuntimeRules(), ParallelUniverseTestRules(), d);
    ClassifyAppend(ParallelUniverseRuntimeRules() + ParallelUniverseTestRules(), [ParallelUniverseShortCircuit()], d);
  }

  /** Every runtime function is suspendable. */
  lemma RuntimeEntriesSuspendable()
    ensures forall k | 0 <= k < |ParallelUniverseEntryPoints| :: ParallelUniverseEntryPoints[k].t == Some(Suspendable)
  {
  }

  /** The first test rule catches such a class. */
  lemma TestClassRuleMatches(d: Descriptor)
    requires d.className.Some? && StartsWith(d.className.value, "co/paralleluniverse/")
    requires Apply(TestOrExample(), d.className)
    requires d.source.None? || EndsWith(d.source.value, ClojureSourceExtension)
    ensures Classify(ParallelUniverseTestRules(), d) == Matched(Some(Suspendable), TestExamplePUMsg)
  {
    ParallelUniverseUnderItsName();
    StartsWithTransitive(d.className.value, "co/paralleluniverse/", "co/paralleluniverse");
    assert Matches(ParallelUniverseTestRules()[0], d);
  }

  lemma ParallelUniverseUnderItsName()
    ensures StartsWith("co/paralleluniverse/", "co/paralleluniverse")
  {
    PrefixStartsWith("co/paralleluniverse/", "co/paralleluniverse");
  }

  /** A Parallel Universe class is decided by the generated-runtime support if that
      catches it and by its own section otherwise; user-code rules never see it. */
  lemma ParallelUniverseClasses(d: Descriptor)
    requires d.className.Some? && StartsWith(d.className.value, "co/paralleluniverse/")
    ensures Classify(GetMatchList(), d)
         == if Classify(GeneratedRuntimeRules(), d).Matched? then Classify(GeneratedRuntimeRules(), d)
            else Classify(ParallelUniverseRules(), d)
    ensures Classify(GetMatchList(), d).Matched?
  {
    ParallelUniverseUnderCo();
    StartsWithTransitive(d.className.value, "co/paralleluniverse/", "co/");
    CoSkipsEarlierClassSections(d);
    ParallelUniverseSection(d);
    if Classify(GeneratedRuntimeRules(), d).Matched? {
      GeneratedRuntimeDecides(d);
    } else {
      ParallelUniverseDecides(d);
    }
  }

  /** A Parallel Universe class that neither a runtime rule nor a test rule catches
      gets the neutral `null` type from the short circuit: a verdict, but no opinion. */
  lemma ParallelUniverseShortCircuitDecides(d: Descriptor)
    requires d.className.Some? && StartsWith(d.className.value, "co/paralleluniverse/")
    requires Classify(GeneratedRuntimeRules(), d).Unclassified?
    requires Classify(ParallelUniverseRuntimeRules(), d).Unclassified?
    requires Classify(ParallelUniverseTestRules(), d).Unclassified?
    ensures Classify(GetMatchList(), d) == Matched(None, PuMsg)
  {
    ParallelUniverseClasses(d);
    ClassifyAppend(ParallelUniverseRuntimeRules(), ParallelUniverseTestRules(), d);
    ClassifyAppend(ParallelUniverseRuntimeRules() + ParallelUniverseTestRules(), [ParallelUniverseShortCircuit()], d);
  }

  /** A Parallel Universe class never receives a user-code verdict unless the
      generated-runtime section claimed it. */
  lemma ParallelUniverseNeverUserCode(d: Descriptor)
    requires d.className.Some? && StartsWith(d.className.value, "co/paralleluniverse/")
    ensures Classify(GeneratedRuntimeRules(), d).Unclassified? ==>
      (|| Classify(GetMatchList(), d) == Matched(Some(Suspendable), SusPUMeth)
       || Classify(GetMatchList(), d) == Matched(Some(Suspendable), TestExamplePUMsg)
       || Classify(GetMatchList(), d) == Matched(None, PuMsg))
  {
    ParallelUniverseClasses(d);
    ParallelUniverseVerdicts(d);
  }

  /** `ClojureHelper.apply`, compiled from Java, falls through to the short circuit. */
  lemma ClojureHelperIsLeftAlone(d: Descriptor)
    requires d.className == Some("co/paralleluniverse/pulsar/ClojureHelper")
    requires d.methodName == Some("apply") && d.source == Some("ClojureHelper.java")
    ensures Classify(GetMatchList(), d) == Matched(None, PuMsg)
  {
    ClojureHelperSkipsGeneratedRuntime(d);
    ClojureHelperSection(d);
    ParallelUniverseClasses(d);
  }

  lemma ClojureHelperSkipsGeneratedRuntime(d: Descriptor)
    requires d.className == Some("co/paralleluniverse/pulsar/ClojureHelper") && d.methodName == Some("apply")
    ensures Classify(GeneratedRuntimeRules(), d).Unclassified?
    ensures StartsWith(d.className.value, "co/paralleluniverse/")
  {
    ClojureHelperNames();
    ApplyForeignToRuntimeMethods();
    GeneratedRuntimeSkipsMethods(d, "ap");
  }

  lemma ClojureHelperNames()
    ensures !Contains("co/paralleluniverse/pulsar/ClojureHelper", "$loading__")
    ensures StartsWith("apply", "ap")
    ensures StartsWith("co/paralleluniverse/pulsar/ClojureHelper", "co/paralleluniverse/")
  {
    MissingCharNotContained("co/paralleluniverse/pulsar/ClojureHelper", "$loading__", 0);
    PrefixStartsWith("apply", "ap");
    PrefixStartsWith("co/paralleluniverse/pulsar/ClojureHelper", "co/paralleluniverse/");
  }

  lemma ParallelUniverseUnderCo()
    ensures StartsWith("co/paralleluniverse/", "co/")
  {
    PrefixStartsWith("co/paralleluniverse/", "co/");
  }

  lemma ClojureHelperSection(d: Descriptor)
    requires d.className == Some("co/paralleluniverse/pulsar/ClojureHelper")
    requires d.methodName == Some("apply") && d.source == Some("ClojureHelper.java")
    ensures Classify(ParallelUniverseRules(), d) == Matched(None, PuMsg)
  {
    ParallelUniverseRuntimeMethods(d);
    JavaSourceIsNotClojure();
    TestRulesNeedClojureSource();
    NoMatchUnclassified(ParallelUniverseTestRules(), d);
    ClojureHelperNames();
    ClassifyAppend(ParallelUniverseRuntimeRules(), ParallelUniverseTestRules(), d);
    ClassifyAppend(ParallelUniverseRuntimeRules() + ParallelUniverseTestRules(), [ParallelUniverseShortCircuit()], d);
  }

  /** The primitive entry point of `sleep` is suspendable. */
  lemma SleepIsSuspendable(d: Descriptor)
    requires d.className == Some("co/paralleluniverse/pulsar/core$sleep") && d.methodName == Some("invokePrim")
    ensures Classify(GetMatchList(), d) == Matched(Some(Suspendable), SusPUMeth)
  {
    SleepSkipsGeneratedRuntime(d);
    SleepSection(d);
    ParallelUniverseClasses(d);
  }

  lemma SleepSection(d: Descriptor)
    requires d.className == Some("co/paralleluniverse/pulsar/core$sleep") && d.methodName == Some("invokePrim")
    ensures Classify(ParallelUniverseRules(), d) == Matched(Some(Suspendable), SusPUMeth)
  {
    SleepRuntimeRule(d);
    AppendAfterMatch(ParallelUniverseRuntimeRules(), ParallelUniverseTestRules() + [ParallelUniverseShortCircuit()], d);
    assert ParallelUniverseRules() == ParallelUniverseRuntimeRules() + (ParallelUniverseTestRules() + [ParallelUniverseShortCircuit()]);
  }

  lemma SleepSkipsGeneratedRuntime(d: Descriptor)
    requires d.className == Some("co/paralleluniverse/pulsar/core$sleep") && d.methodName == Some("invokePrim")
    ensures Classify(GeneratedRuntimeRules(), d).Unclassified?
    ensures StartsWith(d.className.value, "co/paralleluniverse/")
  {
    MissingCharNotContained("co/paralleluniverse/pulsar/core$sleep", "$loading__", 8);
    PrefixStartsWith("co/paralleluniverse/pulsar/core$sleep", "co/paralleluniverse/");
    InvocationSkipsGeneratedRuntime(d);
  }

  lemma SleepRuntimeRule(d: Descriptor)
    requires d.className == Some("co/paralleluniverse/pulsar/core$sleep") && d.methodName == Some("invokePrim")
    ensures Classify(ParallelUniverseRuntimeRules(), d) == Matched(Some(Suspendable), SusPUMeth)
  {
    SleepRule();
    assert FirstMatchAt(ParallelUniverseRuntimeRules(), d, 9);
    FirstMatchDecides(ParallelUniverseRuntimeRules(), d, 9);
  }

  /** The `sleep` rule is the tenth, after nine rules about `invoke` alone. */
  lemma SleepRule()
    ensures |ParallelUniverseRuntimeRules()| > 9
    ensures forall j | 0 <= j < 9 :: ParallelUniverseRuntimeRules()[j].methodNameP == Some(EqN(Some("invoke")))
    ensures ParallelUniverseRuntimeRules()[9]
         == MClassAndMeth(EqN(Some("co/paralleluniverse/pulsar/core$sleep")), Or(EqN(Some("invoke")), EqN(Some("invokePrim"))),
                          Some(Suspendable), SusPUMeth)
  {
  }

  /** Both test and example rules require a Clojure source. */
  lemma TestRulesNeedClojureSource()
    ensures forall k | 0 <= k < |ParallelUniverseTestRules()| :: ParallelUniverseTestRules()[k].sourceP == Some(SrcP())
  {
  }

  lemma JavaSourceIsNotClojure()
    ensures !Apply(SrcP(), Some("ClojureHelper.java"))
  {
    assert "ClojureHelper.java"[14..] == "java";
  }
}
