# Pulsar's built-in instrumentation match list

Pulsar runs Clojure code on Quasar fibers. Quasar decides, method by method,
whether to instrument a method for suspension. Pulsar contributes an ordered list
of rules, `PulsarInstrumentListProvider.getMatchList()`. Each rule looks at a
method's descriptor: its source file, whether its class is an interface, the class
name, the superclass name, the implemented interfaces and the method name. A
matching rule reports a suspendable type (`NON_SUSPENDABLE`, `SUSPENDABLE`,
`SUSPENDABLE_SUPER`, or `null` for "no opinion") and logs a message. The first
matching rule wins.

This project models the match list, its predicate library and the first-match
evaluator, and proves what the list promises:

- the generated Clojure runtime support and the JDK and third-party packages are
  never instrumented;
- a few Clojure runtime entry points are exceptions to the blanket rules that follow
  them;
- Parallel Universe's own code is instrumented only where listed, and otherwise,
  unless the generated-runtime rules catch it first, gets the `null` type;
- the user-code heuristics apply only to what survives all of that, and they
  compute a verdict stated here in plain terms.

## Layout

- `Optional.dfy`: `Option`; `None` stands for Java `null`.
- `Strings.dfy`: the `java.lang.String` operations the predicates use:
  `startsWith`, `endsWith`, `contains`, ASCII `toLowerCase`, `replace(of, "")`
  (`RemoveAll`, used at `src/main/java/co/paralleluniverse/pulsar/PulsarInstrumentListProvider.java:460`) and counting occurrences (`Occurrences`).
- `Predicates.dfy`: the predicate builders of `src/main/java/co/paralleluniverse/pulsar/PulsarInstrumentListProvider.java:363-455` as a closed
  datatype with `Apply`.
  `countOccurrences` is a function. `Apply` evaluates `arrayContainsN` and the
  protocol-implementation predicate through the functions `ArrayContains` and
  `Meets`. The source's loops over arrays are the methods `ArrayContainsNApply` and
  `IntersectsApply`, proved to return what those functions give; the table itself
  does not call them.
- `Messages.dfy`: the diagnostic messages of `src/main/java/co/paralleluniverse/pulsar/PulsarInstrumentListProvider.java:45-66` as a datatype.
  `Messages.Text` records the words each message logs; no contract uses it,
  since logging is left out.
- `Rules.dfy`: descriptors, rules (`Matches` applies a rule's six predicates),
  the `m*` helpers of `src/main/java/co/paralleluniverse/pulsar/PulsarInstrumentListProvider.java:326-361`, the evaluator `Classify`, and general lemmas
  about first-match-wins scans. `Classify` scans the array that `getMatchList`
  returns and stops at the first rule whose predicates all hold, as the comments at
  `src/main/java/co/paralleluniverse/pulsar/PulsarInstrumentListProvider.java:89-91` rely on.
- `MatchList.dfy`: the table itself, `GetMatchList`, built as in
  `src/main/java/co/paralleluniverse/pulsar/PulsarInstrumentListProvider.java:42-303` (the constants at lines 31-39, `srcP` at line 43), in six
  sections in source order.
- `Suppression.dfy`, `Clojure.dfy`, `ParallelUniverse.dfy`, `UserCode.dfy`:
  properties of the sections, lifted to the whole table.

## Notes on the code's behaviour

- A class under "co/paralleluniverse/" that no Parallel Universe runtime or test
  rule catches gets the `null` type only when the generated-runtime rules pass it,
  because those rules come first in the table.
  `ParallelUniverse.ParallelUniverseClasses` and
  `ParallelUniverse.ParallelUniverseShortCircuitDecides` state it with that
  condition.
- The two `assoc` record rules (lines 130 and 143) are the same rule, both on
  `IRecord`, and the second is dead (`Suppression.DuplicateAssocRuleIsDead`). The
  `getBasis` and `meta` rules come in pairs that differ in their interface (`IType`
  and `IObj` against `IRecord`), and both record rules of those pairs are reachable
  (`Suppression.RecordBasisReachesRecordRule`,
  `Suppression.RecordMetaReachesRecordRule`).
- The code has no check for an empty rule list: the list is a non-empty literal, and
  `Classify` of the empty list is simply `Unclassified`.
- The method-name test rule (line 246) names no class. It therefore applies to
  every class that reaches it, not only to Parallel Universe tests.
  `UserCode.UserClasses` states this, and `UserCode.ProtocolMethodNamedLikeATest`
  shows its effect on a user protocol method named "latest".

## Model

| member | source | states |
|---|---|---|
| Strings.StartsWithIsPrefix | src/main/java/co/paralleluniverse/pulsar/PulsarInstrumentListProvider.java:443 | `startsWith` as used by `startsWithN`: the string starts with `p` exactly when its first `|p|` characters are `p` |
| Strings.MismatchNotStartsWith | src/main/java/co/paralleluniverse/pulsar/PulsarInstrumentListProvider.java:443 | a string that disagrees with `p` at some position inside `p` (or is too short) does not start with `p` |
| Strings.StartsWithTransitive | src/main/java/co/paralleluniverse/pulsar/PulsarInstrumentListProvider.java:443 | starting with `p`, where `p` starts with `q`, means starting with `q` |
| Strings.EndsWithIsOccursAtEnd | src/main/java/co/paralleluniverse/pulsar/PulsarInstrumentListProvider.java:452 | `endsWith` as used by `endsWithN`: the string ends with `p` exactly when `p` fits and occurs at offset `|s| - |p|`, the way `String.endsWith` is defined through `startsWith` |
| Strings.EndsWithIsSuffix | src/main/java/co/paralleluniverse/pulsar/PulsarInstrumentListProvider.java:452 | the string ends with `p` exactly when `p` is no longer and its last `|p|` characters agree with `p` one by one |
| Strings.EndsWithTransitive | src/main/java/co/paralleluniverse/pulsar/PulsarInstrumentListProvider.java:452 | ending with `p`, where `p` ends with `q`, means ending with `q` |
| Strings.DivergeExcludes | src/main/java/co/paralleluniverse/pulsar/PulsarInstrumentListProvider.java:443 | a string under a prefix `p` that diverges from `q` cannot start with `q`; the basis of every "rule X cannot catch class Y" argument |
| Strings.ContainsIsOccurrence | src/main/java/co/paralleluniverse/pulsar/PulsarInstrumentListProvider.java:412 | `contains` as used by `containsN`: the string contains `t` exactly when `t` occurs at some position |
| Strings.MissingCharNotContained | src/main/java/co/paralleluniverse/pulsar/PulsarInstrumentListProvider.java:412 | a string lacking one of the characters of `t` does not contain `t` |
| Strings.LowerCharIgnoresCase | src/main/java/co/paralleluniverse/pulsar/PulsarInstrumentListProvider.java:421 | lower-casing a lower-cased character changes nothing, and two characters lower-case alike exactly when they are equal ignoring ASCII case |
| Strings.ToLowerIdempotent | src/main/java/co/paralleluniverse/pulsar/PulsarInstrumentListProvider.java:421 | lower-casing twice is lower-casing once |
| Strings.ContainsToLower | src/main/java/co/paralleluniverse/pulsar/PulsarInstrumentListProvider.java:421 | containment survives lower-casing both sides |
| Strings.RemoveAllLength | src/main/java/co/paralleluniverse/pulsar/PulsarInstrumentListProvider.java:460 | `replace(of, "")` shortens the string by `|of|` times the number of non-overlapping occurrences |
| Strings.OccurrencesOfChar | src/main/java/co/paralleluniverse/pulsar/PulsarInstrumentListProvider.java:460 | for a one-character pattern the non-overlapping count is the number of times that character appears |
| Predicates.CountOccurrences | src/main/java/co/paralleluniverse/pulsar/PulsarInstrumentListProvider.java:457-461 | `-1` for a `null` pattern, `0` for a `null` string, otherwise exactly the non-overlapping count (the division is exact) |
| Predicates.ExcludesLeadRejects | src/main/java/co/paralleluniverse/pulsar/PulsarInstrumentListProvider.java:399-406 | an `eqN`/`startsWithN` spec (or a conjunction led by one) that diverges from a prefix rejects every string under it |
| Predicates.NullSpecIsWildcard | src/main/java/co/paralleluniverse/pulsar/PulsarInstrumentListProvider.java:381-455 | with a `null` spec, `eqN`, `startsWithN`, `endsWithN`, `containsN`, `containsCIN` and `countOccurrencesGTN` accept every value, `null` included |
| Predicates.NullValueIsRejected | src/main/java/co/paralleluniverse/pulsar/PulsarInstrumentListProvider.java:381-455 | with a present spec the same predicates reject a `null` value |
| Predicates.EqVersusEqN | src/main/java/co/paralleluniverse/pulsar/PulsarInstrumentListProvider.java:390-406 | `eq(null)` accepts only `null`, `eqN(null)` accepts everything, and with a present spec both accept exactly that string |
| Predicates.CountOccurrencesGTNCounts | src/main/java/co/paralleluniverse/pulsar/PulsarInstrumentListProvider.java:381-388 | on a present value `countOccurrencesGTN(of, gt)` holds iff the non-overlapping count of `of` exceeds `gt` |
| Predicates.DollarCountExamples | src/main/java/co/paralleluniverse/pulsar/PulsarInstrumentListProvider.java:381-388 | `countOccurrencesGTN("$", 1)` accepts "a$b$c" and rejects "a$b" |
| Predicates.ContainsNImpliesContainsCIN | src/main/java/co/paralleluniverse/pulsar/PulsarInstrumentListProvider.java:408-424 | every value `containsN(spec)` accepts is accepted by `containsCIN(spec)` |
| Predicates.ContainsCINIgnoresCase | src/main/java/co/paralleluniverse/pulsar/PulsarInstrumentListProvider.java:417-424 | `containsCIN` gives the same answer after lower-casing spec and value |
| Predicates.ArrayContainsNApply | src/main/java/co/paralleluniverse/pulsar/PulsarInstrumentListProvider.java:426-437 | the loop with early return answers exactly whether some non-null element equals the spec |
| Predicates.ArrayContainsNullSpec | src/main/java/co/paralleluniverse/pulsar/PulsarInstrumentListProvider.java:426-437 | `arrayContainsN(null)` matches no array: it does not follow the wildcard convention |
| Predicates.IntersectsApply | src/main/java/co/paralleluniverse/pulsar/PulsarInstrumentListProvider.java:292-298 | copying the interfaces into a set, `retainAll` and the emptiness test answer exactly whether some non-null interface is in the list |
| Predicates.MeetsIsSomeArrayContains | src/main/java/co/paralleluniverse/pulsar/PulsarInstrumentListProvider.java:292-298 | the interfaces meet the list exactly when `arrayContainsN` holds for one of its members |
| Rules.ClassifyIsFirstMatch | src/main/java/co/paralleluniverse/pulsar/PulsarInstrumentListProvider.java:86-303 | no verdict iff no rule matches; otherwise the verdict is the type and message of the first matching rule |
| Rules.FirstMatchUnique | src/main/java/co/paralleluniverse/pulsar/PulsarInstrumentListProvider.java:86-303 | the first matching rule is unique |
| Rules.FirstMatchDecides | src/main/java/co/paralleluniverse/pulsar/PulsarInstrumentListProvider.java:86-303 | the first matching rule decides type and message |
| Rules.FirstMatchDecidesPrefix | src/main/java/co/paralleluniverse/pulsar/PulsarInstrumentListProvider.java:86-303 | a first match in a prefix of the table decides the whole table |
| Rules.ClassifyAppend | src/main/java/co/paralleluniverse/pulsar/PulsarInstrumentListProvider.java:86-303 | scanning two consecutive blocks is scanning the first, then the second when the first has no match |
| Rules.AppendAfterMatch | src/main/java/co/paralleluniverse/pulsar/PulsarInstrumentListProvider.java:86-303 | rules after a match never change the verdict |
| Rules.InsertAfterMatch | src/main/java/co/paralleluniverse/pulsar/PulsarInstrumentListProvider.java:86-303 | inserting any rule after the point at which a descriptor is already decided leaves its verdict unchanged |
| Rules.ShadowedRuleIsDead | src/main/java/co/paralleluniverse/pulsar/PulsarInstrumentListProvider.java:86-303 | a rule that can only match where an earlier one matches is never the first match and can be deleted without effect |
| Rules.UniformOutcome | src/main/java/co/paralleluniverse/pulsar/PulsarInstrumentListProvider.java:86-303 | if every rule of a block has type `o` and one matches, the verdict's type is `o` |
| Rules.NoMatchUnclassified | src/main/java/co/paralleluniverse/pulsar/PulsarInstrumentListProvider.java:86-303 | if no rule matches there is no verdict |
| Rules.MatchedAt | src/main/java/co/paralleluniverse/pulsar/PulsarInstrumentListProvider.java:86-303 | a verdict comes from a rule that matches |
| Rules.MatchedMethodEither | src/main/java/co/paralleluniverse/pulsar/PulsarInstrumentListProvider.java:86-303 | if every rule tests the method with `p1` or `p2`, a verdict implies the method satisfies one of them |
| Rules.VerdictAmong | src/main/java/co/paralleluniverse/pulsar/PulsarInstrumentListProvider.java:86-303 | if every rule's type and message are among a set, so is the verdict |
| Rules.EntriesUniformVerdict | src/main/java/co/paralleluniverse/pulsar/PulsarInstrumentListProvider.java:220-242 | a block of `mClassAndMeth` rules that all carry type `t` gives `t` with the block's message, or nothing |
| Rules.EntriesMatchedInvocation | src/main/java/co/paralleluniverse/pulsar/PulsarInstrumentListProvider.java:220-242 | a block of `mClassAndMeth` rules testing the method with `eqN(a)` or `or(eqN(a), eqN(b))` only ever catches methods `a` and `b` |
| Rules.EntriesMatchedMethod | src/main/java/co/paralleluniverse/pulsar/PulsarInstrumentListProvider.java:355-357 | a block of `mClassAndMeth` rules whose method predicates are all `p1` or `p2` only catches methods satisfying one of them |
| Rules.StartsWithOneOfFirst | src/main/java/co/paralleluniverse/pulsar/PulsarInstrumentListProvider.java:146-155 | starting with one of a list of prefixes is starting with the first or with one of the rest |
| Rules.ClassifyClassPrefixRules | src/main/java/co/paralleluniverse/pulsar/PulsarInstrumentListProvider.java:146-155 | a block of `mClass(startsWithN(p))` rules gives its verdict exactly for classes under one of its prefixes |
| Rules.ClassifyMethodPrefixRules | src/main/java/co/paralleluniverse/pulsar/PulsarInstrumentListProvider.java:113-143 | a block of `mMethAndIfs(startsWithN(p), arrayContainsN(i))` rules gives its verdict exactly for methods under one of its prefixes of classes implementing `i` |
| Rules.ClassPrefixRulesMiss | src/main/java/co/paralleluniverse/pulsar/PulsarInstrumentListProvider.java:146-155 | a class under a prefix that diverges from all of a block's prefixes gets no verdict from it |
| Rules.MethodPrefixRulesOutcome | src/main/java/co/paralleluniverse/pulsar/PulsarInstrumentListProvider.java:113-143 | a method-prefix block reports its own type and message or nothing |
| Rules.ClassPrefixRulesOutcome | src/main/java/co/paralleluniverse/pulsar/PulsarInstrumentListProvider.java:146-155 | a class-prefix block reports its own type and message or nothing |
| Rules.ClassLeadMisses | src/main/java/co/paralleluniverse/pulsar/PulsarInstrumentListProvider.java:86-303 | a class under a prefix that every rule's class predicate rules out gets no verdict from those rules |
| MatchList.SixBlocks | src/main/java/co/paralleluniverse/pulsar/PulsarInstrumentListProvider.java:86-303 | scanning six consecutive blocks is taking the verdict of the first block that has one |
| MatchList.FirstBlockDecides | src/main/java/co/paralleluniverse/pulsar/PulsarInstrumentListProvider.java:86-303 | a verdict of the first block is the table's |
| MatchList.SecondBlockDecides | src/main/java/co/paralleluniverse/pulsar/PulsarInstrumentListProvider.java:86-303 | if the first block passes a descriptor, a verdict of the second block is the table's |
| MatchList.ThirdBlockDecides | src/main/java/co/paralleluniverse/pulsar/PulsarInstrumentListProvider.java:86-303 | likewise for the third block once the first two pass |
| MatchList.FourthBlockDecides | src/main/java/co/paralleluniverse/pulsar/PulsarInstrumentListProvider.java:86-303 | likewise for the fourth block once the first three pass |
| MatchList.FifthBlockDecides | src/main/java/co/paralleluniverse/pulsar/PulsarInstrumentListProvider.java:86-303 | likewise for the fifth block once the first four pass |
| MatchList.LastBlockDecides | src/main/java/co/paralleluniverse/pulsar/PulsarInstrumentListProvider.java:86-303 | if the first five blocks pass a descriptor, the sixth decides |
| MatchList.MatchListBySection | src/main/java/co/paralleluniverse/pulsar/PulsarInstrumentListProvider.java:86-303 | `getMatchList()` classifies as its six sections taken in order: generated runtime, third party, suspendable Clojure runtime, Clojure runtime, Parallel Universe, user code |
| MatchList.GeneratedRuntimeDecides | src/main/java/co/paralleluniverse/pulsar/PulsarInstrumentListProvider.java:94-143 | a verdict of the generated-runtime section is final |
| MatchList.ThirdPartyDecides | src/main/java/co/paralleluniverse/pulsar/PulsarInstrumentListProvider.java:145-155 | once the generated-runtime section passes a descriptor, a third-party verdict is final |
| MatchList.ClojureSuspendableDecides | src/main/java/co/paralleluniverse/pulsar/PulsarInstrumentListProvider.java:162-185 | once the first two sections pass, a suspendable-runtime verdict is final |
| MatchList.ClojureRuntimeDecides | src/main/java/co/paralleluniverse/pulsar/PulsarInstrumentListProvider.java:194-211 | once the first three sections pass, a Clojure runtime verdict is final |
| MatchList.ParallelUniverseDecides | src/main/java/co/paralleluniverse/pulsar/PulsarInstrumentListProvider.java:220-249 | once the first four sections pass, a Parallel Universe verdict is final |
| MatchList.UserCodeDecides | src/main/java/co/paralleluniverse/pulsar/PulsarInstrumentListProvider.java:256-302 | once the first five sections pass, the user-code rules decide |
| Suppression.GeneratedSupportOutcome | src/main/java/co/paralleluniverse/pulsar/PulsarInstrumentListProvider.java:94-110 | the module-loading, special-method, deftype, proxy/reify and proxy rules only say `NON_SUSPENDABLE` |
| Suppression.GeneratedRuntimeOutcome | src/main/java/co/paralleluniverse/pulsar/PulsarInstrumentListProvider.java:94-143 | the whole generated-runtime section only says `NON_SUSPENDABLE` |
| Suppression.GeneratedRuntimeNeverSuspendable | src/main/java/co/paralleluniverse/pulsar/PulsarInstrumentListProvider.java:88-143 | whatever the generated-runtime section catches is `NON_SUSPENDABLE` in the whole table |
| Suppression.ModuleLoadingSection | src/main/java/co/paralleluniverse/pulsar/PulsarInstrumentListProvider.java:95 | a class name containing "$loading__" is caught by the first rule |
| Suppression.ModuleLoadingNeverSuspendable | src/main/java/co/paralleluniverse/pulsar/PulsarInstrumentListProvider.java:95 | such a class is `NON_SUSPENDABLE` with the module-loading message, whatever else it is |
| Suppression.SpecialMethodsSection | src/main/java/co/paralleluniverse/pulsar/PulsarInstrumentListProvider.java:95-98 | a method starting with "<" is caught by the special-method rule unless the module-loading rule catches it first |
| Suppression.SpecialMethodsNeverSuspendable | src/main/java/co/paralleluniverse/pulsar/PulsarInstrumentListProvider.java:95-98 | such a method is `NON_SUSPENDABLE` in the whole table, whatever the other fields |
| Suppression.DeftypeBasisSection | src/main/java/co/paralleluniverse/pulsar/PulsarInstrumentListProvider.java:101 | a method starting with `getBasis` of a class implementing `IType` that is no module loader (its name has no "$loading__") is caught by the deftype rule |
| Suppression.DeftypeBasisNeverSuspendable | src/main/java/co/paralleluniverse/pulsar/PulsarInstrumentListProvider.java:101 | such a method is `NON_SUSPENDABLE` with the deftype message in the whole table |
| Suppression.RecordBasisReachesRecordRule | src/main/java/co/paralleluniverse/pulsar/PulsarInstrumentListProvider.java:101-113 | the record rule for `getBasis` is reachable: a method starting with `getBasis` of an `IRecord` class that is no `IType` and no module loader (its name has no "$loading__") is `NON_SUSPENDABLE` with the record message in the whole table |
| Suppression.BasisSkipsSupportRules | src/main/java/co/paralleluniverse/pulsar/PulsarInstrumentListProvider.java:95-110 | `getBasis` of a non-`IType` class that is no module loader passes the eight support rules |
| Suppression.RecordMetaReachesRecordRule | src/main/java/co/paralleluniverse/pulsar/PulsarInstrumentListProvider.java:104-118 | the record rule for `meta` is reachable: a method starting with `meta` of an `IRecord` class that is no `IObj` and no module loader (its name has no "$loading__") is `NON_SUSPENDABLE` with the record message in the whole table |
| Suppression.MetaSkipsSupportRules | src/main/java/co/paralleluniverse/pulsar/PulsarInstrumentListProvider.java:95-110 | `meta` of a non-`IObj` class that is no module loader passes the eight support rules |
| Suppression.RecordRuleCatches | src/main/java/co/paralleluniverse/pulsar/PulsarInstrumentListProvider.java:113-143 | a record method of an `IRecord` class that passes the support rules gets the record message |
| Suppression.RecordMethodsSection | src/main/java/co/paralleluniverse/pulsar/PulsarInstrumentListProvider.java:113-143 | every technical record method of an `IRecord` class gets a generated-runtime verdict |
| Suppression.RecordMethodsNeverSuspendable | src/main/java/co/paralleluniverse/pulsar/PulsarInstrumentListProvider.java:113-143 | every technical record method of an `IRecord` class is `NON_SUSPENDABLE` |
| Suppression.DuplicateAssocRuleIsDead | src/main/java/co/paralleluniverse/pulsar/PulsarInstrumentListProvider.java:130-143 | the second `assoc`/`IRecord` rule equals the first, is never the first match, and removing it changes no verdict |
| Suppression.AssocRules | src/main/java/co/paralleluniverse/pulsar/PulsarInstrumentListProvider.java:130-143 | rules 26 and 39 of the table are the two identical `assoc` record rules |
| Suppression.SuppressionRulesNonSuspendable | src/main/java/co/paralleluniverse/pulsar/PulsarInstrumentListProvider.java:95-155 | the first 49 rules (39 generated-runtime, 10 third-party) all carry `NON_SUSPENDABLE` |
| Suppression.ThirdPartySection | src/main/java/co/paralleluniverse/pulsar/PulsarInstrumentListProvider.java:146-155 | the third-party block gives its verdict exactly to classes under one of its ten package prefixes |
| Suppression.ThirdPartyNeverSuspendable | src/main/java/co/paralleluniverse/pulsar/PulsarInstrumentListProvider.java:95-155 | a class under "java/", "sun/" or another listed package is `NON_SUSPENDABLE` whatever the other fields, with the third-party message unless a generated-runtime rule came first |
| Suppression.GeneratedRuntimeSkipsMethods | src/main/java/co/paralleluniverse/pulsar/PulsarInstrumentListProvider.java:95-143 | a method under a lead foreign to every technical method prefix, of a class that is no module loader, passes the generated-runtime section |
| Suppression.InvocationsForeignToRuntimeMethods | src/main/java/co/paralleluniverse/pulsar/PulsarInstrumentListProvider.java:95-143 | methods beginning "inv" are under no technical method prefix |
| Suppression.InvocationSkipsGeneratedRuntime | src/main/java/co/paralleluniverse/pulsar/PulsarInstrumentListProvider.java:95-143 | `invoke` and `invokePrim` of a class that is no module loader pass the generated-runtime section |
| Suppression.ApplyForeignToRuntimeMethods | src/main/java/co/paralleluniverse/pulsar/PulsarInstrumentListProvider.java:95-143 | methods beginning "ap" are under no technical method prefix |
| ClojureRuntime.ClojureRuntimeSection | src/main/java/co/paralleluniverse/pulsar/PulsarInstrumentListProvider.java:194-211 | the blanket section: a class under a core prefix gets the core message, else under a utility prefix the utility message, else nothing |
| ClojureRuntime.LeadSkipsThirdParty | src/main/java/co/paralleluniverse/pulsar/PulsarInstrumentListProvider.java:146-155 | classes beginning "cl", "pr" or "b" are in no third-party package |
| ClojureRuntime.RuntimePrefixLeads | src/main/java/co/paralleluniverse/pulsar/PulsarInstrumentListProvider.java:194-211 | every core prefix begins "cl", "pr" or "b" and every utility prefix "cl" |
| ClojureRuntime.RuntimeClassLead | src/main/java/co/paralleluniverse/pulsar/PulsarInstrumentListProvider.java:194-211 | every Clojure runtime class begins "cl", "pr" or "b" |
| ClojureRuntime.ClojureSuspendableRuleVerdicts | src/main/java/co/paralleluniverse/pulsar/PulsarInstrumentListProvider.java:163-185 | every suspendable entry point carries `SUSPENDABLE` or `SUSPENDABLE_SUPER` and the fn-core message |
| ClojureRuntime.ClojureSuspendableVerdicts | src/main/java/co/paralleluniverse/pulsar/PulsarInstrumentListProvider.java:163-185 | the suspendable runtime section only says `SUSPENDABLE` or `SUSPENDABLE_SUPER`, with the fn-core message |
| ClojureRuntime.ClojureRuntimeClasses | src/main/java/co/paralleluniverse/pulsar/PulsarInstrumentListProvider.java:158-211 | a Clojure runtime class is decided by the generated-runtime section, else by a suspendable entry point, else by the blanket rules |
| ClojureRuntime.ClojureRuntimeOnlyExceptionsSuspendable | src/main/java/co/paralleluniverse/pulsar/PulsarInstrumentListProvider.java:158-211 | a Clojure runtime class always gets a verdict, and any verdict other than `NON_SUSPENDABLE` is that of the entry points placed before the blanket rules |
| ClojureRuntime.ReflectorIsNoModuleLoader | src/main/java/co/paralleluniverse/pulsar/PulsarInstrumentListProvider.java:163-195 | `clojure/lang/Reflector` is no module loader and is under the core prefix "clojure/lang" |
| ClojureRuntime.ReflectorIsSuspendable | src/main/java/co/paralleluniverse/pulsar/PulsarInstrumentListProvider.java:164 | `Reflector.invokeInstanceMethod` is `SUSPENDABLE` although the blanket "clojure/lang" rule also matches it |
| ClojureRuntime.BlanketCoreRuleMatchesReflector | src/main/java/co/paralleluniverse/pulsar/PulsarInstrumentListProvider.java:195 | the blanket "clojure/lang" rule matches `Reflector` |
| ClojureRuntime.ReflectorEntryPoint | src/main/java/co/paralleluniverse/pulsar/PulsarInstrumentListProvider.java:163-164 | the second entry point is the first to match `Reflector.invokeInstanceMethod` |
| ClojureRuntime.IFnInvokeIsSuspendableSuper | src/main/java/co/paralleluniverse/pulsar/PulsarInstrumentListProvider.java:181 | `IFn.invoke` is `SUSPENDABLE_SUPER` although the blanket "clojure/lang" rule also matches it |
| ClojureRuntime.BlanketCoreRuleMatchesIFn | src/main/java/co/paralleluniverse/pulsar/PulsarInstrumentListProvider.java:195 | the blanket "clojure/lang" rule matches `IFn` |
| ClojureRuntime.IFnEntryPoint | src/main/java/co/paralleluniverse/pulsar/PulsarInstrumentListProvider.java:163-181 | the eleventh entry point is the first to match `IFn.invoke` |
| ClojureRuntime.IFnPassesEarlierEntryPoints | src/main/java/co/paralleluniverse/pulsar/PulsarInstrumentListProvider.java:163-178 | the ten earlier entry points name classes other than `IFn` |
| ParallelUniverse.ParallelUniverseRuleVerdicts | src/main/java/co/paralleluniverse/pulsar/PulsarInstrumentListProvider.java:220-249 | every rule of the section carries `SUSPENDABLE` with one of two messages, or the `null` type with the Parallel Universe message |
| ParallelUniverse.ParallelUniverseVerdicts | src/main/java/co/paralleluniverse/pulsar/PulsarInstrumentListProvider.java:220-249 | the section's verdict is one of those three |
| ParallelUniverse.RuntimeEntryMethods | src/main/java/co/paralleluniverse/pulsar/PulsarInstrumentListProvider.java:220-242 | every runtime rule tests the method with `eqN("invoke")` or `or(eqN("invoke"), eqN("invokePrim"))` |
| ParallelUniverse.ParallelUniverseRuntimeMethods | src/main/java/co/paralleluniverse/pulsar/PulsarInstrumentListProvider.java:220-242 | a runtime verdict is only ever given to `invoke` or `invokePrim` |
| ParallelUniverse.RuntimeEntriesSuspendable | src/main/java/co/paralleluniverse/pulsar/PulsarInstrumentListProvider.java:220-242 | every runtime rule carries `SUSPENDABLE` |
| ParallelUniverse.ParallelUniverseSection | src/main/java/co/paralleluniverse/pulsar/PulsarInstrumentListProvider.java:249 | every class under "co/paralleluniverse/" gets a verdict from the section, at worst the short circuit's |
| ParallelUniverse.CoDivergesFromEarlierClasses | src/main/java/co/paralleluniverse/pulsar/PulsarInstrumentListProvider.java:146-211 | no class under "co/" is under a third-party, core or utility prefix |
| ParallelUniverse.CoDivergesFromEntryPoints | src/main/java/co/paralleluniverse/pulsar/PulsarInstrumentListProvider.java:163-185 | every suspendable Clojure entry point rules out classes under "co/" |
| ParallelUniverse.CoSkipsEarlierClassSections | src/main/java/co/paralleluniverse/pulsar/PulsarInstrumentListProvider.java:146-211 | a class under "co/" passes the third-party and both Clojure runtime sections |
| ParallelUniverse.ParallelUniverseClasses | src/main/java/co/paralleluniverse/pulsar/PulsarInstrumentListProvider.java:214-249 | a Parallel Universe class is decided by the generated-runtime section if it catches it, otherwise by its own section, and always gets a verdict |
| ParallelUniverse.ParallelUniverseShortCircuitDecides | src/main/java/co/paralleluniverse/pulsar/PulsarInstrumentListProvider.java:248-249 | a Parallel Universe class that the generated-runtime section passes and that no runtime or test rule catches gets the neutral `null` type with the Parallel Universe message |
| ParallelUniverse.ParallelUniverseNeverUserCode | src/main/java/co/paralleluniverse/pulsar/PulsarInstrumentListProvider.java:214-249 | a Parallel Universe class passed by the generated-runtime section never gets a user-code verdict |
| ParallelUniverse.ParallelUniverseTestsSuspendable | src/main/java/co/paralleluniverse/pulsar/PulsarInstrumentListProvider.java:244-245 | a Parallel Universe class that the generated-runtime section passes, whose name contains "test" or "example" in any case, from a ".clj" or unknown source, is `SUSPENDABLE` (with the test message unless a runtime rule names it) |
| ParallelUniverse.TestClassRuleMatches | src/main/java/co/paralleluniverse/pulsar/PulsarInstrumentListProvider.java:245 | the class test rule catches such a class |
| ParallelUniverse.ClojureHelperIsLeftAlone | src/main/java/co/paralleluniverse/pulsar/PulsarInstrumentListProvider.java:249 | `ClojureHelper.apply` compiled from Java falls through to the short circuit: the `null` type |
| ParallelUniverse.ClojureHelperSkipsGeneratedRuntime | src/main/java/co/paralleluniverse/pulsar/PulsarInstrumentListProvider.java:95-143 | `ClojureHelper.apply` passes the generated-runtime section |
| ParallelUniverse.ClojureHelperSection | src/main/java/co/paralleluniverse/pulsar/PulsarInstrumentListProvider.java:220-249 | the Parallel Universe section gives `ClojureHelper.apply` from Java the `null` type |
| ParallelUniverse.SleepIsSuspendable | src/main/java/co/paralleluniverse/pulsar/PulsarInstrumentListProvider.java:229 | `core$sleep.invokePrim` is `SUSPENDABLE` with the stack-methods message |
| ParallelUniverse.SleepSection | src/main/java/co/paralleluniverse/pulsar/PulsarInstrumentListProvider.java:229 | the Parallel Universe section decides `core$sleep.invokePrim` by its runtime rule |
| ParallelUniverse.SleepSkipsGeneratedRuntime | src/main/java/co/paralleluniverse/pulsar/PulsarInstrumentListProvider.java:95-143 | `core$sleep.invokePrim` passes the generated-runtime section |
| ParallelUniverse.SleepRuntimeRule | src/main/java/co/paralleluniverse/pulsar/PulsarInstrumentListProvider.java:220-229 | the tenth runtime rule is the first to match `core$sleep.invokePrim` |
| ParallelUniverse.SleepRule | src/main/java/co/paralleluniverse/pulsar/PulsarInstrumentListProvider.java:220-229 | the nine rules before the `sleep` rule test only `invoke`; the tenth is the `sleep` rule |
| ParallelUniverse.TestRulesNeedClojureSource | src/main/java/co/paralleluniverse/pulsar/PulsarInstrumentListProvider.java:245-246 | both test rules require `srcP` of the source |
| ParallelUniverse.JavaSourceIsNotClojure | src/main/java/co/paralleluniverse/pulsar/PulsarInstrumentListProvider.java:43 | `srcP` rejects "ClojureHelper.java" |
| UserCode.SrcPAcceptsClojureOrUnknown | src/main/java/co/paralleluniverse/pulsar/PulsarInstrumentListProvider.java:43 | `srcP` accepts exactly a missing source or one ending in ".clj" |
| UserCode.IntersectsIsProtocolImplementation | src/main/java/co/paralleluniverse/pulsar/PulsarInstrumentListProvider.java:39 | the protocol-implementation predicate holds exactly when the class implements `IObj`, `IType` or `IRecord` |
| UserCode.ProtocolDefinitionRule | src/main/java/co/paralleluniverse/pulsar/PulsarInstrumentListProvider.java:258 | the protocol-definition rule matches exactly interfaces from Clojure or unknown sources |
| UserCode.ProxyRule | src/main/java/co/paralleluniverse/pulsar/PulsarInstrumentListProvider.java:261 | the proxy rule matches exactly classes from Clojure or unknown sources with "proxy$" in the name and more than one "$" |
| UserCode.FunctionRule | src/main/java/co/paralleluniverse/pulsar/PulsarInstrumentListProvider.java:264-287 | the function rule matches exactly classes with "$" in the name, a function base superclass and an invocation method, from Clojure or unknown sources |
| UserCode.ProtocolImplementationRule | src/main/java/co/paralleluniverse/pulsar/PulsarInstrumentListProvider.java:290-302 | the protocol-implementation rule matches exactly implementations of `IObj`, `IType` or `IRecord` from Clojure or unknown sources |
| UserCode.UserCodeSection | src/main/java/co/paralleluniverse/pulsar/PulsarInstrumentListProvider.java:256-302 | the four user-code rules, in order, compute `UserCodeVerdict`: protocol definition, then proxy, then function, then protocol implementation |
| UserCode.MyAppIsForeignToLibraryClasses | src/main/java/co/paralleluniverse/pulsar/PulsarInstrumentListProvider.java:146-249 | classes under "myapp/" are named by no library rule of the table |
| UserCode.MyAppOutsidePackages | src/main/java/co/paralleluniverse/pulsar/PulsarInstrumentListProvider.java:146-211 | "myapp/" diverges from every third-party, core and utility prefix |
| UserCode.MyAppOutsideRuntimeEntryPoints | src/main/java/co/paralleluniverse/pulsar/PulsarInstrumentListProvider.java:163-185 | every suspendable Clojure entry point rules out "myapp/" |
| UserCode.MyAppOutsideParallelUniverse | src/main/java/co/paralleluniverse/pulsar/PulsarInstrumentListProvider.java:220-249 | every Parallel Universe class predicate rules out "myapp/" |
| UserCode.ForeignClassSkipsClojure | src/main/java/co/paralleluniverse/pulsar/PulsarInstrumentListProvider.java:146-211 | a class foreign to the libraries passes the third-party and both Clojure sections |
| UserCode.ForeignClassParallelUniverse | src/main/java/co/paralleluniverse/pulsar/PulsarInstrumentListProvider.java:220-249 | for such a class the Parallel Universe section answers only through the method-name test rule |
| UserCode.ForeignClassMissesParallelUniverseClasses | src/main/java/co/paralleluniverse/pulsar/PulsarInstrumentListProvider.java:220-249 | such a class misses the runtime rules and the short circuit |
| UserCode.ForeignClassTestRules | src/main/java/co/paralleluniverse/pulsar/PulsarInstrumentListProvider.java:245-246 | such a class misses the class test rule; the method test rule decides |
| UserCode.UserClasses | src/main/java/co/paralleluniverse/pulsar/PulsarInstrumentListProvider.java:86-302 | a class foreign to the libraries that the generated-runtime section passes gets `UserCodeVerdict`, unless its method name contains "test" or "example" in Clojure code |
| UserCode.UserFunctionIsSuspendable | src/main/java/co/paralleluniverse/pulsar/PulsarInstrumentListProvider.java:264-287 | `invoke` of `myapp/core$handler extends AFunction` from "core.clj" is `SUSPENDABLE` with the fn message |
| UserCode.HandlerIsUserCode | src/main/java/co/paralleluniverse/pulsar/PulsarInstrumentListProvider.java:256-302 | `myapp/core$handler.invoke` reaches the user-code rules |
| UserCode.HandlerSkipsGeneratedRuntime | src/main/java/co/paralleluniverse/pulsar/PulsarInstrumentListProvider.java:95-143 | `myapp/core$handler.invoke` passes the generated-runtime section and is no test name |
| UserCode.InvokeIsNoTestName | src/main/java/co/paralleluniverse/pulsar/PulsarInstrumentListProvider.java:246 | "invoke" contains neither "test" nor "example" |
| UserCode.HandlerVerdict | src/main/java/co/paralleluniverse/pulsar/PulsarInstrumentListProvider.java:264-287 | the user-code verdict on that function is `SUSPENDABLE` with the fn message |
| UserCode.ProtocolMethodNamedLikeATest | src/main/java/co/paralleluniverse/pulsar/PulsarInstrumentListProvider.java:246-258 | a Clojure protocol method named "latest" would be `SUSPENDABLE_SUPER` by the protocol-definition rule, but the method test rule catches it first and makes it `SUSPENDABLE` |
| UserCode.FeedSkipsGeneratedRuntime | src/main/java/co/paralleluniverse/pulsar/PulsarInstrumentListProvider.java:95-143 | `myapp/Feed.latest` passes the generated-runtime section and is a test name |
| UserCode.LatestForeignToRuntimeMethods | src/main/java/co/paralleluniverse/pulsar/PulsarInstrumentListProvider.java:113-143 | methods beginning "la" are under no technical method prefix |
| UserCode.LatestIsTestName | src/main/java/co/paralleluniverse/pulsar/PulsarInstrumentListProvider.java:246 | "latest" contains "test" |

## Left out

- `log` and the `a(msg)` actions (lines 306-324) write to the method database's log, which is I/O. The model returns the rule's message, as a `Messages.Message`, together with its type.
- `InstrumentMatcher`, `MethodDatabase`, `Action2` and Guava's `Predicate` are not part of this model. The evaluator is modelled as first-match-wins over the table, with an unbound (`null`) field predicate accepting every value, as the comments at lines 89-91, 159 and 248 describe it.
- The `InstrumentMatcher` slots that every helper leaves `null` (the second and the eighth to tenth) are left out of `Rules.Descriptor` and `Rules.Rule`.
- `containsCIN` lower-cases ASCII letters only. Java's locale-dependent Unicode `toLowerCase` is not modelled.
- `arrayContainsN` on a `null` array throws. The interfaces are a sequence, so a `null` array cannot occur.
- `countOccurrences` with an empty pattern divides by zero. Patterns are non-empty by type; the table's only pattern is "$".
- The messages `cljSusLsCoreMsg` and `cljSusProtoSusCoreMsg` (lines 48-49) are declared but no rule uses them, so `Messages.Message` has no constructor for them.
- `nullToEmpty` (lines 463-465) only feeds the log and is left out with it.
- The table keeps the "keySey" prefix (line 140) as written; it is not corrected to "keySet".
- Blocks of same-shaped rules are built from lists of the names that vary (`ClassAndMethodRules`, `ClassPrefixRules`, `MethodPrefixRules`). The rules keep the source's order and contents.
- Whether the named classes (for example "clojure/lang/AFunction$1") exist in Clojure is outside the model.
