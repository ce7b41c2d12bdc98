/**
  The gogol: a spimescape that additionally binds to the alerts exchange and
  hands each decoded alert to an overridable consume hook, swallowing
  dripline-domain errors and re-raising everything else.
 */
module Gogols {
  import opened Messages
  import opened Providers
  import opened Spimescapes

  /** The `keys` argument: a single pattern string or a list of patterns. */
  datatype KeysArg = OneKey(key: string) | KeyList(keys: seq<string>)

  /** The default `keys` argument: the list ["#"]. */
  const DefaultKeys: KeysArg := KeyList(["#"])

  /** The module name used as the prefix of generated service names. */
  const ModuleName: string := "dripline.core.gogol"

  /** The alert patterns the argument stands for: a single string is a
      one-element list. */
  function KeyPatterns(keys: KeysArg): (patterns: seq<string>)
    ensures keys.OneKey? ==> patterns == [keys.key]
    ensures keys.KeyList? ==> patterns == keys.keys
  {
    match keys
    case OneKey(k) => [k]
    case KeyList(ks) => ks
  }

  /** One ["alerts", pattern] binding per pattern, in order. */
  function AlertBindings(patterns: seq<string>): (bs: seq<Binding>)
    ensures |bs| == |patterns|
    ensures forall i | 0 <= i < |patterns| :: bs[i] == Binding("alerts", patterns[i])
  {
    seq(|patterns|, i requires 0 <= i < |patterns| => Binding("alerts", patterns[i]))
  }

  /** The generated name: the module name, '-', and the first 12 characters
      of the hex string (all of it when shorter, as a Python slice does). */
  function GeneratedName(hex: string): (name: string)
    ensures ModuleName + "-" <= name
    ensures |name| == |ModuleName| + 1 + (if |hex| < 12 then |hex| else 12)
    ensures name[|ModuleName| + 1..] <= hex
  {
    ModuleName + "-" + hex[..if |hex| < 12 then |hex| else 12]
  }

  /** The default this_consume: it always raises NotImplementedError. */
  function BaseThisConsume(message: Message, delivery: DeliverMethod): (r: Completion)
    ensures r.Threw? && r.failure.kind == NotImplementedError
  {
    Threw(Failure(NotImplementedError, "you must set this_consume to a valid function", VNull))
  }

  /** How the try block of on_alert_message ends: decoding fails, or the
      decoded message is handed to the consume hook. */
  function AlertAttempt(body: Bytes, contentEncoding: string, delivery: DeliverMethod,
                        decode: (Bytes, string) -> Result<Message>,
                        consume: (Message, DeliverMethod) -> Completion): (r: Completion)
    ensures decode(body, contentEncoding).Err? ==> r == Threw(decode(body, contentEncoding).failure)
    ensures decode(body, contentEncoding).Ok? ==> r == consume(decode(body, contentEncoding).value, delivery)
  {
    match decode(body, contentEncoding)
    case Err(f) => Threw(f)
    case Ok(m) => consume(m, delivery)
  }

  /** on_alert_message: a DriplineException (from decoding or from the hook)
      is logged and swallowed; any other exception is re-raised unchanged. */
  function OnAlertMessage(body: Bytes, contentEncoding: string, delivery: DeliverMethod,
                          decode: (Bytes, string) -> Result<Message>,
                          consume: (Message, DeliverMethod) -> Completion): (r: Completion)
    ensures r.Threw? ==> !r.failure.kind.domain
    ensures r.Threw? <==> AlertAttempt(body, contentEncoding, delivery, decode, consume).Threw?
                          && !AlertAttempt(body, contentEncoding, delivery, decode, consume).failure.kind.domain
    ensures r.Threw? ==> r == AlertAttempt(body, contentEncoding, delivery, decode, consume)
  {
    var attempt := AlertAttempt(body, contentEncoding, delivery, decode, consume);
    if attempt.Threw? && !attempt.failure.kind.domain then attempt else Done
  }

  /** A gogol left with the default hook fails on every alert that decodes:
      the NotImplementedError is not a DriplineException, so it escapes. */
  lemma UnsetHookIsFatal(body: Bytes, contentEncoding: string, delivery: DeliverMethod,
                         decode: (Bytes, string) -> Result<Message>)
    requires decode(body, contentEncoding).Ok?
    ensures OnAlertMessage(body, contentEncoding, delivery, decode, BaseThisConsume)
              == Threw(Failure(NotImplementedError, "you must set this_consume to a valid function", VNull))
  {
  }

  /** An alert whose decoding raises a DriplineException is dropped, whatever
      the hook would have done. */
  lemma DomainDecodeErrorIsDropped(body: Bytes, contentEncoding: string, delivery: DeliverMethod,
                                   decode: (Bytes, string) -> Result<Message>,
                                   consume: (Message, DeliverMethod) -> Completion)
    requires decode(body, contentEncoding).Err? && decode(body, contentEncoding).failure.kind.domain
    ensures OnAlertMessage(body, contentEncoding, delivery, decode, consume) == Done
  {
  }

  /** A Gogol: the Spimescape it is, with its alert bindings added. */
  class Gogol {
    const scape: Spimescape

    /** __init__: the name defaults to a generated one (`uuidHex` stands for
        uuid1().hex); the Spimescape part is set up first; then one
        ["alerts", pattern] binding per key pattern is appended after the
        bindings already present. */
    constructor (exchange: Option<string>, keys: KeysArg, name: Option<string>,
                 uuidHex: string, serviceBindings: seq<Binding>)
      ensures fresh(scape) && fresh(scape.node) && fresh(scape.node.me)
      ensures scape.node.me.name == (if name.Some? then name.value else GeneratedName(uuidHex))
      ensures scape.exchange == (if exchange.Some? then exchange.value else "requests")
      ensures scape.node.order == [scape.node.me.name]
      ensures scape.bindings == serviceBindings
                                + [Binding("requests", scape.node.me.name + ".#")]
                                + AlertBindings(KeyPatterns(keys))
      ensures keys == DefaultKeys ==>
                scape.bindings == serviceBindings
                                  + [Binding("requests", scape.node.me.name + ".#"), Binding("alerts", "#")]
      ensures scape.Valid()
    {
      var n := if name.Some? then name.value else GeneratedName(uuidHex);
      var me := new Endpoint.Plain(n);
      var s := new Spimescape(me, exchange, serviceBindings);
      s.bindings := s.bindings + AlertBindings(KeyPatterns(keys));
      scape := s;
      if keys == DefaultKeys {
        assert AlertBindings(KeyPatterns(keys)) == [Binding("alerts", "#")];
      }
    }
  }
}
