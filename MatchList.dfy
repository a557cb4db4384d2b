/**
 * The built-in match list of the Pulsar provider: six sections in the order of the
 * source, each with its rules in the order of the source. Blocks in which every rule
 * has the same shape are built from the list of names that varies, in list order.
 */
module MatchList {
  import opened Optional
  import opened Strings
  import opened Predicates
  import opened Messages
  import opened Rules

  const ClojureFunctionBaseInvocationMethods := ["invoke", "invokePrim"]
  const ClojureProxyAnonymousClassNameMarker := "proxy$"
  const ClojureFunctionClassNameMarker := "$"
  const ClojureFunctionBaseClasses := ["clojure/lang/AFn", "clojure/lang/AFunction", "clojure/lang/RestFn", "clojure/lang/MultiFn"]
  const ClojureFunctionAdditionalInvocationMethods := ["doInvoke", "applyTo", "applyToHelper", "call", "run"]
  const ClojureSourceExtension := ".clj"

  const IObj := "clojure/lang/IObj"
  const IType := "clojure/lang/IType"
  const IRecord := "clojure/lang/IRecord"
  const IProxy := "clojure/lang/IProxy"
  const ClojureDatatypeInterfaces := [IObj, IType, IRecord]

  /** `srcP`: no source file, or one ending in ".clj". */
  function SrcP(): StringPredicate {
    Or(Eq(None), EndsWithN(Some(ClojureSourceExtension)))
  }

  /** The method-name prefixes of the technical record methods, in table order (the
      misspelt "keySey" and the second "assoc" included). */
  const RecordMethodPrefixes := [
    "getBasis", "create", "hasheq", "hashCode", "equals", "meta", "withMeta", "valAt",
    "getLookupThunk", "count", "empty", "cons", "equiv", "containsKey", "entryAt", "seq",
    "iterator", "assoc", "without", "size", "isEmpty", "containsValue", "get", "put",
    "remove", "putAll", "clear", "keySey", "values", "entrySet", "assoc"]

  /** The technical record methods. */
  function RecordMethodRules(): seq<Rule> {
    MethodPrefixRules(RecordMethodPrefixes, IRecord, Some(NonSuspendable), CljRecMsg)
  }

  /** Module loading, special methods and the technical deftype, proxy/reify and proxy
      methods. */
  function GeneratedSupportRules(): seq<Rule> {
    [ MClass(ContainsN(Some("$loading__")), Some(NonSuspendable), CljModMsg),
      MMeth(StartsWithN(Some("<")), Some(NonSuspendable), SpecialMsg),
      MMethAndIfs(StartsWithN(Some("getBasis")), ArrayContainsN(Some(IType)), Some(NonSuspendable), CljTyMsg),
      MMethAndIfs(StartsWithN(Some("meta")), ArrayContainsN(Some(IObj)), Some(NonSuspendable), CljRPMsg),
      MMethAndIfs(StartsWithN(Some("withMeta")), ArrayContainsN(Some(IObj)), Some(NonSuspendable), CljRPMsg),
      MMethAndIfs(StartsWithN(Some("__initClojureFnMappings")), ArrayContainsN(Some(IProxy)), Some(NonSuspendable), CljProxyMsg),
      MMethAndIfs(StartsWithN(Some("__updateClojureFnMappings")), ArrayContainsN(Some(IProxy)), Some(NonSuspendable), CljProxyMsg),
      MMethAndIfs(StartsWithN(Some("__getClojureFnMappings")), ArrayContainsN(Some(IProxy)), Some(NonSuspendable), CljProxyMsg)
    ]
  }

  /** Non-suspendable generated runtime support, the technical record methods last. */
  function GeneratedRuntimeRules(): seq<Rule> {
    GeneratedSupportRules() + RecordMethodRules()
  }

  /** JDK and known non-suspendable third-party packages, in table order. */
  const ThirdPartyPrefixes := [
    "java/", "jsr166e/", "sun/", "oracle/", "com/oracle/", "org/cliffc/high_scale_lib/",
    "manifold/", "gloss/", "swiss/", "potemkin/"]

  function ThirdPartyRules(): seq<Rule> {
    ClassPrefixRules(ThirdPartyPrefixes, Some(NonSuspendable), JdkOr3rdMsg)
  }

  /** Suspendable Clojure runtime entry points: exceptions to the blanket rules below. */
  const ClojureEntryPoints := [
    Entry(EqN(Some("clojure/lang/Reflector")), EqN(Some("invokeNoArgInstanceMember")), Some(Suspendable)),
    Entry(EqN(Some("clojure/lang/Reflector")), EqN(Some("invokeInstanceMethod")), Some(Suspendable)),
    Entry(EqN(Some("clojure/lang/Reflector")), EqN(Some("invokeMatchingMethod")), Some(Suspendable)),
    Entry(EqN(Some("clojure/lang/Atom")), EqN(Some("swap")), Some(Suspendable)),
    Entry(EqN(Some("clojure/core$swap_BANG_")), EqN(Some("invoke")), Some(Suspendable)),
    Entry(EqN(Some("clojure/lang/IReduceInit")), EqN(Some("reduce")), Some(SuspendableSuper)),
    Entry(EqN(Some("clojure/lang/LongRange")), EqN(Some("reduce")), Some(Suspendable)),
    Entry(EqN(Some("clojure/lang/ArrayChunk")), EqN(Some("reduce")), Some(Suspendable)),
    Entry(EqN(Some("clojure/core$reduce")), EqN(Some("invoke")), Some(Suspendable)),
    Entry(StartsWithN(Some("clojure/core/protocols$")), EqN(Some("invoke")), Some(Suspendable)),
    Entry(StartsWithN(Some("clojure/lang/IFn")), EqN(Some("invoke")), Some(SuspendableSuper)),
    Entry(StartsWithN(Some("clojure/lang/IFn")), EqN(Some("invokePrim")), Some(SuspendableSuper)),
    Entry(StartsWithN(Some("clojure/lang/MultiFn")), EqN(Some("invoke")), Some(Suspendable)),
    Entry(StartsWithN(Some("clojure/lang/AFunction$1")), EqN(Some("doInvoke")), Some(Suspendable)),
    Entry(StartsWithN(Some("clojure/lang/AFn")), EqN(Some("applyTo")), Some(Suspendable))
    ]

  function ClojureSuspendableRules(): seq<Rule> {
    ClassAndMethodRules(ClojureEntryPoints, CljSusFnCoreMsg)
  }

  /** The Clojure core and Clojure utility namespaces, in table order. */
  const ClojureCorePrefixes := [
    "clojure/lang", "clojure/core", "clj_tuple", "primitive_math$", "byte_streams$", "clojure/set",
    "clojure/string", "clojure/uuid", "clojure/instant", "clojure/main"]
  const ClojureUtilPrefixes := [
    "clojure/pprint", "clojure/tools/logging", "clojure/walk", "clojure/test", "clojure/tools/analyzer"]

  /** The non-suspendable runtime library: blanket class-prefix rules. */
  function ClojureRuntimeRules(): seq<Rule> {
    ClassPrefixRules(ClojureCorePrefixes, Some(NonSuspendable), CljCoreMsg)
    + ClassPrefixRules(ClojureUtilPrefixes, Some(NonSuspendable), CljUtilMsg)
  }

  /** Suspendable Parallel Universe runtime methods. */
  const ParallelUniverseEntryPoints := [
    Entry(EqN(Some("co/paralleluniverse/pulsar/core$join")), EqN(Some("invoke")), Some(Suspendable)),
    Entry(EqN(Some("co/paralleluniverse/pulsar/core$join_STAR_")), EqN(Some("invoke")), Some(Suspendable)),
    Entry(EqN(Some("co/paralleluniverse/pulsar/core$rcv")), EqN(Some("invoke")), Some(Suspendable)),
    Entry(EqN(Some("co/paralleluniverse/pulsar/core$rcv_into")), EqN(Some("invoke")), Some(Suspendable)),
    Entry(EqN(Some("co/paralleluniverse/pulsar/core$snd")), EqN(Some("invoke")), Some(Suspendable)),
    Entry(EqN(Some("co/paralleluniverse/pulsar/core$snd_seq")), EqN(Some("invoke")), Some(Suspendable)),
    Entry(EqN(Some("co/paralleluniverse/pulsar/core$do_sel")), EqN(Some("invoke")), Some(Suspendable)),
    Entry(EqN(Some("co/paralleluniverse/pulsar/core$sel")), EqN(Some("invoke")), Some(Suspendable)),
    Entry(EqN(Some("co/paralleluniverse/pulsar/core$strampoline")), EqN(Some("invoke")), Some(Suspendable)),
    Entry(EqN(Some("co/paralleluniverse/pulsar/core$sleep")), Or(EqN(Some("invoke")), EqN(Some("invokePrim"))), Some(Suspendable)),
    Entry(EqN(Some("co/paralleluniverse/pulsar/actors$receive_timed")), EqN(Some("invoke")), Some(Suspendable)),
    Entry(StartsWithN(Some("co/paralleluniverse/pulsar/actors$create_actor$")), EqN(Some("invoke")), Some(Suspendable)),
    Entry(StartsWithN(Some("co/paralleluniverse/pulsar/async$put_BANG_")), EqN(Some("invoke")), Some(Suspendable)),
    Entry(StartsWithN(Some("co/paralleluniverse/pulsar/async$take_BANG_")), EqN(Some("invoke")), Some(Suspendable)),
    Entry(StartsWithN(Some("co/paralleluniverse/pulsar/async$_GT__BANG_")), EqN(Some("invoke")), Some(Suspendable)),
    Entry(StartsWithN(Some("co/paralleluniverse/pulsar/async$f__GT_chan")), EqN(Some("invoke")), Some(Suspendable)),
    Entry(StartsWithN(Some("co/paralleluniverse/pulsar/async$_LT__BANG_")), EqN(Some("invoke")), Some(Suspendable)),
    Entry(StartsWithN(Some("co/paralleluniverse/pulsar/async$last")), EqN(Some("invoke")), Some(Suspendable)),
    Entry(StartsWithN(Some("co/paralleluniverse/pulsar/async$reduce")), EqN(Some("invoke")), Some(Suspendable)),
    Entry(StartsWithN(Some("co/paralleluniverse/pulsar/async$pipe")), EqN(Some("invoke")), Some(Suspendable)),
    Entry(StartsWithN(Some("co/paralleluniverse/pulsar/async$onto_chan")), EqN(Some("invoke")), Some(Suspendable)),
    Entry(StartsWithN(Some("co/paralleluniverse/pulsar/async$rx_chan")), EqN(Some("invoke")), Some(Suspendable)),
    Entry(And(StartsWithN(Some("co/paralleluniverse/fiber/")), ContainsN(Some("$"))), EqN(Some("invoke")), Some(Suspendable))
    ]

  function ParallelUniverseRuntimeRules(): seq<Rule> {
    ClassAndMethodRules(ParallelUniverseEntryPoints, SusPUMeth)
  }

  /** `or(containsCIN("test"), containsCIN("example"))`. */
  function TestOrExample(): StringPredicate {
    Or(ContainsCIN(Some("test")), ContainsCIN(Some("example")))
  }

  /** Parallel Universe Clojure tests and examples. */
  function ParallelUniverseTestRules(): seq<Rule> {
    [ MSrcAndClass(SrcP(), And(StartsWithN(Some("co/paralleluniverse")), TestOrExample()), Some(Suspendable), TestExamplePUMsg),
      MSrcAndMeth(SrcP(), TestOrExample(), Some(Suspendable), TestExamplePUMsg)
    ]
  }

  /** The short circuit: the rest of Parallel Universe gets the `null` type. */
  function ParallelUniverseShortCircuit(): Rule {
    MClass(StartsWithN(Some("co/paralleluniverse/")), None, PuMsg)
  }

  function ParallelUniverseRules(): seq<Rule> {
    ParallelUniverseRuntimeRules() + ParallelUniverseTestRules() + [ParallelUniverseShortCircuit()]
  }

  /** The anonymous predicate of the user-function rule over the superclass name:
      `ClojureFunctionBaseClasses.contains(superClassName)`. */
  function FunctionBaseClassP(): StringPredicate {
    InList(ClojureFunctionBaseClasses)
  }

  /** The `or` of the two anonymous predicates of the user-function rule over the
      method name: one of the base or additional invocation methods. */
  function FunctionInvocationMethodP(): StringPredicate {
    Or(InList(ClojureFunctionBaseInvocationMethods), InList(ClojureFunctionAdditionalInvocationMethods))
  }

  /** Suspendable user code: protocol definitions, proxy methods, functions and
      protocol implementations. */
  function UserCodeRules(): seq<Rule> {
    [ MSrcAndIsIf(SrcP(), BoolEq(true), Some(SuspendableSuper), CljSusProtoDefMsg),
      MSrcAndClass(SrcP(), And(ContainsN(Some(ClojureProxyAnonymousClassNameMarker)), CountOccurrencesGTN(Some("$"), 1)), Some(Suspendable), CljSusProxyMsg),
      MSrcAndClassAndSuperAndMeth(SrcP(), ContainsN(Some(ClojureFunctionClassNameMarker)), FunctionBaseClassP(), FunctionInvocationMethodP(), Some(Suspendable), CljSusFnMsg),
      MSrcAndIfs(SrcP(), Intersects(ClojureDatatypeInterfaces), Some(Suspendable), CljSusProtoImplMsg)
    ]
  }

  /** `getMatchList()`: the whole table in order. */
  function GetMatchList(): (r: seq<Rule>) {
    GeneratedRuntimeRules() + ThirdPartyRules() + ClojureSuspendableRules() + ClojureRuntimeRules()
    + ParallelUniverseRules() + UserCodeRules()
  }

  /** The first of six consecutive blocks of rules to decide, in order. */
  function FirstDeciding(c1: Classification, c2: Classification, c3: Classification,
                         c4: Classification, c5: Classification, c6: Classification): Classification {
    if c1.Matched? then c1 else if c2.Matched? then c2 else if c3.Matched? then c3
    else if c4.Matched? then c4 else if c5.Matched? then c5 else c6
  }

  /** The first section that decides, in table order. */
  function BySection(d: Descriptor): Classification {
    FirstDeciding(Classify(GeneratedRuntimeRules(), d), Classify(ThirdPartyRules(), d),
                  Classify(ClojureSuspendableRules(), d), Classify(ClojureRuntimeRules(), d),
                  Classify(ParallelUniverseRules(), d), Classify(UserCodeRules(), d))
  }

  /** Classifying six consecutive blocks is classifying block by block. */
  lemma SixBlocks(s1: seq<Rule>, s2: seq<Rule>, s3: seq<Rule>, s4: seq<Rule>, s5: seq<Rule>, s6: seq<Rule>, d: Descriptor)
    ensures Classify(s1 + s2 + s3 + s4 + s5 + s6, d)
         == FirstDeciding(Classify(s1, d), Classify(s2, d), Classify(s3, d), Classify(s4, d), Classify(s5, d), Classify(s6, d))
  {
    var a2 := s1 + s2;
    var a3 := a2 + s3;
    var a4 := a3 + s4;
    var a5 := a4 + s5;
    ClassifyAppend(s1, s2, d);
    ClassifyAppend(a2, s3, d);
    ClassifyAppend(a3, s4, d);
    ClassifyAppend(a4, s5, d);
    ClassifyAppend(a5, s6, d);
  }

  // One lemma per block: the block that decides first decides the whole. Each
  // mentions only the blocks it needs, which keeps the proofs about the concrete table small.

  lemma FirstBlockDecides(s1: seq<Rule>, s2: seq<Rule>, s3: seq<Rule>, s4: seq<Rule>, s5: seq<Rule>, s6: seq<Rule>, d: Descriptor)
    requires Classify(s1, d).Matched?
    ensures Classify(s1 + s2 + s3 + s4 + s5 + s6, d) == Classify(s1, d)
  {
    SixBlocks(s1, s2, s3, s4, s5, s6, d);
  }

  lemma SecondBlockDecides(s1: seq<Rule>, s2: seq<Rule>, s3: seq<Rule>, s4: seq<Rule>, s5: seq<Rule>, s6: seq<Rule>, d: Descriptor)
    requires Classify(s1, d).Unclassified? && Classify(s2, d).Matched?
    ensures Classify(s1 + s2 + s3 + s4 + s5 + s6, d) == Classify(s2, d)
  {
    SixBlocks(s1, s2, s3, s4, s5, s6, d);
  }

  lemma ThirdBlockDecides(s1: seq<Rule>, s2: seq<Rule>, s3: seq<Rule>, s4: seq<Rule>, s5: seq<Rule>, s6: seq<Rule>, d: Descriptor)
    requires Classify(s1, d).Unclassified? && Classify(s2, d).Unclassified? && Classify(s3, d).Matched?
    ensures Classify(s1 + s2 + s3 + s4 + s5 + s6, d) == Classify(s3, d)
  {
    SixBlocks(s1, s2, s3, s4, s5, s6, d);
  }

  lemma FourthBlockDecides(s1: seq<Rule>, s2: seq<Rule>, s3: seq<Rule>, s4: seq<Rule>, s5: seq<Rule>, s6: seq<Rule>, d: Descriptor)
    requires Classify(s1, d).Unclassified? && Classify(s2, d).Unclassified? && Classify(s3, d).Unclassified?
    requires Classify(s4, d).Matched?
    ensures Classify(s1 + s2 + s3 + s4 + s5 + s6, d) == Classify(s4, d)
  {
    SixBlocks(s1, s2, s3, s4, s5, s6, d);
  }

  lemma FifthBlockDecides(s1: seq<Rule>, s2: seq<Rule>, s3: seq<Rule>, s4: seq<Rule>, s5: seq<Rule>, s6: seq<Rule>, d: Descriptor)
    requires Classify(s1, d).Unclassified? && Classify(s2, d).Unclassified? && Classify(s3, d).Unclassified?
    requires Classify(s4, d).Unclassified? && Classify(s5, d).Matched?
    ensures Classify(s1 + s2 + s3 + s4 + s5 + s6, d) == Classify(s5, d)
  {
    SixBlocks(s1, s2, s3, s4, s5, s6, d);
  }

  lemma LastBlockDecides(s1: seq<Rule>, s2: seq<Rule>, s3: seq<Rule>, s4: seq<Rule>, s5: seq<Rule>, s6: seq<Rule>, d: Descriptor)
    requires Classify(s1, d).Unclassified? && Classify(s2, d).Unclassified? && Classify(s3, d).Unclassified?
    requires Classify(s4, d).Unclassified? && Classify(s5, d).Unclassified?
    ensures Classify(s1 + s2 + s3 + s4 + s5 + s6, d) == Classify(s6, d)
  {
    SixBlocks(s1, s2, s3, s4, s5, s6, d);
  }

  /** Classifying with the whole table is classifying section by section. */
  lemma MatchListBySection(d: Descriptor)
    ensures Classify(GetMatchList(), d) == BySection(d)
  {
    SixBlocks(GeneratedRuntimeRules(), ThirdPartyRules(), ClojureSuspendableRules(),
      ClojureRuntimeRules(), ParallelUniverseRules(), UserCodeRules(), d);
  }

  lemma GeneratedRuntimeDecides(d: Descriptor)
    requires Classify(GeneratedRuntimeRules(), d).Matched?
    ensures Classify(GetMatchList(), d) == Classify(GeneratedRuntimeRules(), d)
  {
    FirstBlockDecides(GeneratedRuntimeRules(), ThirdPartyRules(), ClojureSuspendableRules(),
      ClojureRuntimeRules(), ParallelUniverseRules(), UserCodeRules(), d);
  }

  lemma ThirdPartyDecides(d: Descriptor)
    requires Classify(GeneratedRuntimeRules(), d).Unclassified?
    requires Classify(ThirdPartyRules(), d).Matched?
    ensures Classify(GetMatchList(), d) == Classify(ThirdPartyRules(), d)
  {
    SecondBlockDecides(GeneratedRuntimeRules(), ThirdPartyRules(), ClojureSuspendableRules(),
      ClojureRuntimeRules(), ParallelUniverseRules(), UserCodeRules(), d);
  }

  lemma ClojureSuspendableDecides(d: Descriptor)
    requires Classify(GeneratedRuntimeRules(), d).Unclassified? && Classify(ThirdPartyRules(), d).Unclassified?
    requires Classify(ClojureSuspendableRules(), d).Matched?
    ensures Classify(GetMatchList(), d) == Classify(ClojureSuspendableRules(), d)
  {
    ThirdBlockDecides(GeneratedRuntimeRules(), ThirdPartyRules(), ClojureSuspendableRules(),
      ClojureRuntimeRules(), ParallelUniverseRules(), UserCodeRules(), d);
  }

  lemma ClojureRuntimeDecides(d: Descriptor)
    requires Classify(GeneratedRuntimeRules(), d).Unclassified? && Classify(ThirdPartyRules(), d).Unclassified?
    requires Classify(ClojureSuspendableRules(), d).Unclassified?
    requires Classify(ClojureRuntimeRules(), d).Matched?
    ensures Classify(GetMatchList(), d) == Classify(ClojureRuntimeRules(), d)
  {
    FourthBlockDecides(GeneratedRuntimeRules(), ThirdPartyRules(), ClojureSuspendableRules(),
      ClojureRuntimeRules(), ParallelUniverseRules(), UserCodeRules(), d);
  }

  lemma ParallelUniverseDecides(d: Descriptor)
    requires Classify(GeneratedRuntimeRules(), d).Unclassified? && Classify(ThirdPartyRules(), d).Unclassified?
    requires Classify(ClojureSuspendableRules(), d).Unclassified? && Classify(ClojureRuntimeRules(), d).Unclassified?
    requires Classify(ParallelUniverseRules(), d).Matched?
    ensures Classify(GetMatchList(), d) == Classify(ParallelUniverseRules(), d)
  {
    FifthBlockDecides(GeneratedRuntimeRules(), ThirdPartyRules(), ClojureSuspendableRules(),
      ClojureRuntimeRules(), ParallelUniverseRules(), UserCodeRules(), d);
  }

  lemma UserCodeDecides(d: Descriptor)
    requires Classify(GeneratedRuntimeRules(), d).Unclassified? && Classify(ThirdPartyRules(), d).Unclassified?
    requires Classify(ClojureSuspendableRules(), d).Unclassified? && Classify(ClojureRuntimeRules(), d).Unclassified?
    requires Classify(ParallelUniverseRules(), d).Unclassified?
    ensures Classify(GetMatchList(), d) == Classify(UserCodeRules(), d)
  {
    LastBlockDecides(GeneratedRuntimeRules(), ThirdPartyRules(), ClojureSuspendableRules(),
      ClojureRuntimeRules(), ParallelUniverseRules(), UserCodeRules(), d);
  }
}
