/**
 * User code: once the runtime and library sections have passed a method by, four
 * rules instrument the user's own Clojure code (protocol definitions, proxy methods,
 * functions and protocol implementations). Their meaning is stated here in plain
 * terms and the rules are proved to implement it.
 */
module UserCode {
  import opened Optional
  import opened Strings
  import opened Predicates
  import opened Messages
  import opened Rules
  import opened MatchList
  import opened Suppression
  import opened ParallelUniverse

  /** Compiled from a ".clj" file, or of unknown origin. */
  predicate FromClojureOrUnknown(source: JString) {
    source.None? || EndsWith(source.value, ClojureSourceExtension)
  }

  /** An anonymous proxy class: "proxy$" in its name and more than one "$" in all. */
  predicate ProxyClass(className: JString) {
    && className.Some?
    && Contains(className.value, ClojureProxyAnonymousClassNameMarker)
    && Occurrences(className.value, "$") > 1
  }

  /** An invocation method of a class compiled from a Clojure function. */
  predicate FunctionMethod(d: Descriptor) {
    && d.className.Some? && Contains(d.className.value, ClojureFunctionClassNameMarker)
    && d.superClassName.Some? && d.superClassName.value in ClojureFunctionBaseClasses
    && d.methodName.Some?
    && (d.methodName.value in ClojureFunctionBaseInvocationMethods
        || d.methodName.value in ClojureFunctionAdditionalInvocationMethods)
  }

  /** The class implements one of `IObj`, `IType` and `IRecord`. */
  predicate ProtocolImplementation(interfaces: seq<JString>) {
    exists k | 0 <= k < |ClojureDatatypeInterfaces| :: ArrayContains(Some(ClojureDatatypeInterfaces[k]), interfaces)
  }

  /** The verdict on user code, case by case in the order of the rules. */
  function UserCodeVerdict(d: Descriptor): (r: Classification) {
    if !FromClojureOrUnknown(d.source) then Unclassified
    else if d.isInterface then Matched(Some(SuspendableSuper), CljSusProtoDefMsg)
    else if ProxyClass(d.className) then Matched(Some(Suspendable), CljSusProxyMsg)
    else if FunctionMethod(d) then Matched(Some(Suspendable), CljSusFnMsg)
    else if ProtocolImplementation(d.interfaces) then Matched(Some(Suspendable), CljSusProtoImplMsg)
    else Unclassified
  }

  /** `srcP` accepts exactly the Clojure sources and the missing source. */
  lemma SrcPAcceptsClojureOrUnknown(source: JString)
    ensures Apply(SrcP(), source) <==> FromClojureOrUnknown(source)
  {
  }

  /** The protocol-implementation predicate is `ProtocolImplementation`. */
  lemma IntersectsIsProtocolImplementation(interfaces: seq<JString>)
    ensures ApplyArray(Intersects(ClojureDatatypeInterfaces), interfaces) <==> ProtocolImplementation(interfaces)
  {
    MeetsIsSomeArrayContains(interfaces, ClojureDatatypeInterfaces);
  }

  /** Each user-code rule tests one case of `UserCodeVerdict`. */
  lemma ProtocolDefinitionRule(d: Descriptor)
    ensures Matches(UserCodeRules()[0], d) <==> FromClojureOrUnknown(d.source) && d.isInterface
  {
    SrcPAcceptsClojureOrUnknown(d.source);
  }

  lemma ProxyRule(d: Descriptor)
    ensures Matches(UserCodeRules()[1], d) <==> FromClojureOrUnknown(d.source) && ProxyClass(d.className)
  {
    SrcPAcceptsClojureOrUnknown(d.source);
    if d.className.Some? {
      CountOccurrencesGTNCounts("$", 1, d.className.value);
      var r := UserCodeRules()[1];
      assert r.sourceP == Some(SrcP()) && r.isInterfaceP.None? && r.superClassNameP.None? && r.interfacesP.None? && r.methodNameP.None?;
      assert Matches(r, d) <==> Apply(SrcP(), d.source) && Apply(r.classNameP.value, d.className);
      assert Apply(r.classNameP.value, d.className) <==> ProxyClass(d.className);
    }
  }

  lemma FunctionRule(d: Descriptor)
    ensures Matches(UserCodeRules()[2], d) <==> FromClojureOrUnknown(d.source) && FunctionMethod(d)
  {
    SrcPAcceptsClojureOrUnknown(d.source);
    var r := UserCodeRules()[2];
    assert r.sourceP == Some(SrcP()) && r.isInterfaceP.None? && r.interfacesP.None?;
    assert r.classNameP == Some(ContainsN(Some(ClojureFunctionClassNameMarker)));
    assert r.superClassNameP == Some(FunctionBaseClassP()) && r.methodNameP == Some(FunctionInvocationMethodP());
    assert Matches(r, d)
       <==> Apply(SrcP(), d.source) && Holds(r.classNameP, d.className) && Holds(r.superClassNameP, d.superClassName)
            && Holds(r.methodNameP, d.methodName);
    assert Holds(r.classNameP, d.className) <==> d.className.Some? && Contains(d.className.value, ClojureFunctionClassNameMarker);
    assert Holds(r.superClassNameP, d.superClassName) <==> d.superClassName.Some? && d.superClassName.value in ClojureFunctionBaseClasses;
    assert Apply(FunctionInvocationMethodP(), d.methodName)
       <==> Apply(InList(ClojureFunctionBaseInvocationMethods), d.methodName)
            || Apply(InList(ClojureFunctionAdditionalInvocationMethods), d.methodName);
  }

  lemma ProtocolImplementationRule(d: Descriptor)
    ensures Matches(UserCodeRules()[3], d) <==> FromClojureOrUnknown(d.source) && ProtocolImplementation(d.interfaces)
  {
    SrcPAcceptsClojureOrUnknown(d.source);
    IntersectsIsProtocolImplementation(d.interfaces);
  }

  /** The user-code rules implement `UserCodeVerdict`. */
  lemma UserCodeSection(d: Descriptor)
    ensures Classify(UserCodeRules(), d) == UserCodeVerdict(d)
  {
    var rules := UserCodeRules();
    ProtocolDefinitionRule(d);
    ProxyRule(d);
    FunctionRule(d);
    ProtocolImplementationRule(d);
    assert rules[1..][0] == rules[1] && rules[1..][1..][0] == rules[2] && rules[1..][1..][1..][0] == rules[3];
    assert rules[1..][1..][1..][1..] == [];
  }

  /** Classes under `lead` are in no JDK, third-party, Clojure or Parallel Universe
      package the table names. */
  predicate ForeignToLibraryClasses(lead: string) {
    && (forall k | 0 <= k < |ThirdPartyPrefixes| :: Diverge(lead, ThirdPartyPrefixes[k]))
    && (forall k | 0 <= k < |ClojureCorePrefixes| :: Diverge(lead, ClojureCorePrefixes[k]))
    && (forall k | 0 <= k < |ClojureUtilPrefixes| :: Diverge(lead, ClojureUtilPrefixes[k]))
    && (forall k | 0 <= k < |ClojureSuspendableRules()| :: ClassSpecDiverges(ClojureSuspendableRules()[k], lead))
    && (forall k | 0 <= k < |ParallelUniverseRuntimeRules()| :: ClassSpecDiverges(ParallelUniverseRuntimeRules()[k], lead))
    && ClassSpecDiverges(ParallelUniverseTestRules()[0], lead)
    && ClassSpecDiverges(ParallelUniverseShortCircuit(), lead)
  }

  /** An application under "myapp/" is such a class. */
  lemma MyAppIsForeignToLibraryClasses()
    ensures ForeignToLibraryClasses("myapp/")
  {
    MyAppOutsidePackages();
    MyAppOutsideRuntimeEntryPoints();
    MyAppOutsideParallelUniverse();
  }

  lemma MyAppOutsidePackages()
    ensures forall k | 0 <= k < |ThirdPartyPrefixes| :: Diverge("myapp/", ThirdPartyPrefixes[k])
    ensures forall k | 0 <= k < |ClojureCorePrefixes| :: Diverge("myapp/", ClojureCorePrefixes[k])
    ensures forall k | 0 <= k < |ClojureUtilPrefixes| :: Diverge("myapp/", ClojureUtilPrefixes[k])
  {
  }

  lemma MyAppOutsideRuntimeEntryPoints()
    ensures forall k | 0 <= k < |ClojureSuspendableRules()| :: ClassSpecDiverges(ClojureSuspendableRules()[k], "myapp/")
  {
  }

  lemma MyAppOutsideParallelUniverse()
    ensures forall k | 0 <= k < |ParallelUniverseRuntimeRules()| :: ClassSpecDiverges(ParallelUniverseRuntimeRules()[k], "myapp/")
    ensures ClassSpecDiverges(ParallelUniverseTestRules()[0], "myapp/")
    ensures ClassSpecDiverges(ParallelUniverseShortCircuit(), "myapp/")
  {
  }

  /** A class foreign to the libraries passes the third-party and Clojure sections. */
  lemma ForeignClassSkipsClojure(d: Descriptor, lead: string)
    requires ForeignToLibraryClasses(lead)
    requires d.className.Some? && StartsWith(d.className.value, lead)
    ensures Classify(ThirdPartyRules(), d).Unclassified?
    ensures Classify(ClojureSuspendableRules(), d).Unclassified?
    ensures Classify(ClojureRuntimeRules(), d).Unclassified?
  {
    ClassPrefixRulesMiss(ThirdPartyPrefixes, Some(NonSuspendable), JdkOr3rdMsg, d, lead);
    ClassLeadMisses(ClojureSuspendableRules(), d, lead);
    ClassPrefixRulesMiss(ClojureCorePrefixes, Some(NonSuspendable), CljCoreMsg, d, lead);
    ClassPrefixRulesMiss(ClojureUtilPrefixes, Some(NonSuspendable), CljUtilMsg, d, lead);
    ClassifyAppend(ClassPrefixRules(ClojureCorePrefixes, Some(NonSuspendable), CljCoreMsg),
                   ClassPrefixRules(ClojureUtilPrefixes, Some(NonSuspendable), CljUtilMsg), d);
  }

  /** Of the Parallel Universe section only the method-name test rule, which names no
      class, can catch a class foreign to the libraries. */
  lemma ForeignClassParallelUniverse(d: Descriptor, lead: string)
    requires ForeignToLibraryClasses(lead)
    requires d.className.Some? && StartsWith(d.className.value, lead)
    ensures Classify(ParallelUniverseRules(), d)
         == if FromClojureOrUnknown(d.source) && Apply(TestOrExample(), d.methodName)
            then Matched(Some(Suspendable), TestExamplePUMsg) else Unclassified
  {
    ForeignClassMissesParallelUniverseClasses(d, lead);
    ForeignClassTestRules(d, lead);
    ClassifyAppend(ParallelUniverseRuntimeRules(), ParallelUniverseTestRules(), d);
    ClassifyAppend(ParallelUniverseRuntimeRules() + ParallelUniverseTestRules(), [ParallelUniverseShortCircuit()], d);
  }

  lemma ForeignClassMissesParallelUniverseClasses(d: Descriptor, lead: string)
    requires ForeignToLibraryClasses(lead)
    requires d.className.Some? && StartsWith(d.className.value, lead)
    ensures Classify(ParallelUniverseRuntimeRules(), d).Unclassified?
    ensures Classify([ParallelUniverseShortCircuit()], d).Unclassified?
  {
    ClassLeadMisses(ParallelUniverseRuntimeRules(), d, lead);
    ClassLeadMisses([ParallelUniverseShortCircuit()], d, lead);
  }

  /** Only the second test rule, on the method name, can catch such a class. */
  lemma ForeignClassTestRules(d: Descriptor, lead: string)
    requires ForeignToLibraryClasses(lead)
    requires d.className.Some? && StartsWith(d.className.value, lead)
    ensures Classify(ParallelUniverseTestRules(), d)
         == if FromClojureOrUnknown(d.source) && Apply(TestOrExample(), d.methodName)
            then Matched(Some(Suspendable), TestExamplePUMsg) else Unclassified
  {
    var tests := ParallelUniverseTestRules();
    ClassLeadMisses(tests[..1], d, lead);
    SrcPAcceptsClojureOrUnknown(d.source);
    assert tests == tests[..1] + [tests[1]];
    assert Matches(tests[1], d) <==> FromClojureOrUnknown(d.source) && Apply(TestOrExample(), d.methodName);
    ClassifyAppend(tests[..1], [tests[1]], d);
  }

  /** User code: once the generated-runtime section has passed a class foreign to the
      libraries by, the table gives the user-code verdict, except that a method whose
      name contains "test" or "example" (in any case) in Clojure code is taken for a
      Parallel Universe test or example. */
  lemma UserClasses(d: Descriptor, lead: string)
    requires ForeignToLibraryClasses(lead)
    requires d.className.Some? && StartsWith(d.className.value, lead)
    requires Classify(GeneratedRuntimeRules(), d).Unclassified?
    ensures Classify(GetMatchList(), d)
         == if FromClojureOrUnknown(d.source) && Apply(TestOrExample(), d.methodName)
            then Matched(Some(Suspendable), TestExamplePUMsg) else UserCodeVerdict(d)
  {
    ForeignClassSkipsClojure(d, lead);
    ForeignClassParallelUniverse(d, lead);
    UserCodeSection(d);
    if Classify(ParallelUniverseRules(), d).Matched? {
      ParallelUniverseDecides(d);
    } else {
      UserCodeDecides(d);
    }
  }

  /** A user function: `invoke` of a class compiled from "core.clj" is instrumented. */
  lemma UserFunctionIsSuspendable(d: Descriptor)
    requires d.source == Some("core.clj") && !d.isInterface
    requires d.className == Some("myapp/core$handler") && d.superClassName == Some("clojure/lang/AFunction")
    requires d.methodName == Some("invoke")
    ensures Classify(GetMatchList(), d) == Matched(Some(Suspendable), CljSusFnMsg)
  {
    HandlerIsUserCode(d);
    HandlerVerdict(d);
  }

  lemma HandlerIsUserCode(d: Descriptor)
    requires d.className == Some("myapp/core$handler") && d.methodName == Some("invoke")
    ensures Classify(GetMatchList(), d) == UserCodeVerdict(d)
  {
    HandlerSkipsGeneratedRuntime(d);
    MyAppIsForeignToLibraryClasses();
    UserClasses(d, "myapp/");
  }

  lemma HandlerSkipsGeneratedRuntime(d: Descriptor)
    requires d.className == Some("myapp/core$handler") && d.methodName == Some("invoke")
    ensures Classify(GeneratedRuntimeRules(), d).Unclassified?
    ensures StartsWith(d.className.value, "myapp/") && !Apply(TestOrExample(), d.methodName)
  {
    MissingCharNotContained("myapp/core$handler", "$loading__", 8);
    PrefixStartsWith("myapp/core$handler", "myapp/");
    InvocationSkipsGeneratedRuntime(d);
    InvokeIsNoTestName();
  }

  lemma InvokeIsNoTestName()
    ensures !Apply(TestOrExample(), Some("invoke"))
  {
    ToLowerOfLower("invoke");
    ToLowerOfLower("test");
    ToLowerOfLower("example");
    MissingCharNotContained("invoke", "test", 0);
    MissingCharNotContained("invoke", "example", 1);
  }

  lemma HandlerVerdict(d: Descriptor)
    requires d.source == Some("core.clj") && !d.isInterface
    requires d.className == Some("myapp/core$handler") && d.superClassName == Some("clojure/lang/AFunction")
    requires d.methodName == Some("invoke")
    ensures UserCodeVerdict(d) == Matched(Some(Suspendable), CljSusFnMsg)
  {
    assert "core.clj"[4..] == ".clj";
    MissingCharNotContained("myapp/core$handler", "proxy$", 3);
    OccurrenceContains("myapp/core$handler", "$", 10);
  }

  /** "latest" contains "test": a protocol method of that name, in Clojure code, is
      taken for a Parallel Universe test and made suspendable, not suspendable-super. */
  lemma ProtocolMethodNamedLikeATest(d: Descriptor)
    requires d.source == Some("feed.clj") && d.isInterface
    requires d.className == Some("myapp/Feed") && d.methodName == Some("latest")
    ensures UserCodeVerdict(d) == Matched(Some(SuspendableSuper), CljSusProtoDefMsg)
    ensures Classify(GetMatchList(), d) == Matched(Some(Suspendable), TestExamplePUMsg)
  {
    assert "feed.clj"[4..] == ".clj";
    FeedSkipsGeneratedRuntime(d);
    MyAppIsForeignToLibraryClasses();
    UserClasses(d, "myapp/");
  }

  lemma FeedSkipsGeneratedRuntime(d: Descriptor)
    requires d.className == Some("myapp/Feed") && d.methodName == Some("latest")
    ensures Classify(GeneratedRuntimeRules(), d).Unclassified?
    ensures StartsWith(d.className.value, "myapp/") && Apply(TestOrExample(), d.methodName)
  {
    FeedNames();
    LatestForeignToRuntimeMethods();
    GeneratedRuntimeSkipsMethods(d, "la");
    LatestIsTestName();
  }

  lemma FeedNames()
    ensures !Contains("myapp/Feed", "$loading__")
    ensures StartsWith("latest", "la")
    ensures StartsWith("myapp/Feed", "myapp/")
  {
    MissingCharNotContained("myapp/Feed", "$loading__", 0);
    PrefixStartsWith("latest", "la");
    PrefixStartsWith("myapp/Feed", "myapp/");
  }

  lemma LatestForeignToRuntimeMethods()
    ensures ForeignToRuntimeMethods("la")
  {
  }

  lemma LatestIsTestName()
    ensures Apply(TestOrExample(), Some("latest"))
  {
    ToLowerOfLower("latest");
    ToLowerOfLower("test");
    OccurrenceContains("latest", "test", 2);
  }
}
