/**
 * The messages that the provider's rules hand to their logging action. A rule
 * carries the identity of its message; `Text` gives the words that are logged.
 */
module Messages {
  datatype Message =
    | TestExamplePUMsg
    | CljSusFnCoreMsg
    | JdkOr3rdMsg
    | PuMsg
    | CljCoreMsg
    | CljUtilMsg
    | CljModMsg
    | SpecialMsg
    | CljTyMsg
    | CljRPMsg
    | CljProxyMsg
    | CljRecMsg
    | CljSusProxyMsg
    | CljSusProtoDefMsg
    | CljSusFnMsg
    | CljSusProtoImplMsg
    | SusPUMeth

  /** The logged words of each message. */
  function Text(m: Message): string {
    match m
    case TestExamplePUMsg => "Pulsar's built-in matchlist found suspendable Parallel Universe Clojure test or example"
    case CljSusFnCoreMsg => "Pulsar's built-in matchlist found suspendable Clojure RT for fn"
    case JdkOr3rdMsg => "Pulsar's built-in matchlist found NON suspendable JDK or other known non-suspendable 3rd-party"
    case PuMsg => "Pulsar's built-in matchlist not saying anything about Parallel Universe"
    case CljCoreMsg => "Pulsar's built-in matchlist found NON suspendable Clojure Core RT"
    case CljUtilMsg => "Pulsar's built-in matchlist found NON suspendable Clojure Utils RT"
    case CljModMsg => "Pulsar's built-in matchlist found NON suspendable Clojure module loading RT"
    case SpecialMsg => "Pulsar's built-in matchlist found NON suspendable special method"
    case CljTyMsg => "Pulsar's built-in matchlist found NON suspendable Clojure deftype RT"
    case CljRPMsg => "Pulsar's built-in matchlist found NON suspendable Clojure reify/proxy RT"
    case CljProxyMsg => "Pulsar's built-in matchlist found NON suspendable Clojure proxy RT"
    case CljRecMsg => "Pulsar's built-in matchlist found NON suspendable Clojure defrecord RT"
    case CljSusProxyMsg => "Pulsar's built-in matchlist found suspendable Clojure proxy method"
    case CljSusProtoDefMsg => "Pulsar's built-in matchlist potentially found suspendable Clojure protocol def"
    case CljSusFnMsg => "Pulsar's built-in matchlist found suspendable Clojure fn"
    case CljSusProtoImplMsg => "Pulsar's built-in matchlist found suspendable Clojure protocol impl"
    case SusPUMeth => "Pulsar's built-in matchlist found suspendable Parallel Universe stack methods"
  }
}
