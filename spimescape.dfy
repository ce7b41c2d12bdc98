/**
  The spimescape: a service that registers itself in its own endpoint table,
  refuses duplicate names, binds one request pattern per endpoint, routes each
  request by the first segment of its routing key, and stores replies by
  correlation id.
 */
module Spimescapes {
  import opened Messages
  import opened Providers

  /** A broker binding: an exchange and a topic pattern. */
  datatype Binding = Binding(exchange: string, key: string)

  /** The delivery metadata of a consumed message (the pika method frame). */
  class DeliverMethod {
    var routingKey: string
    const deliveryTag: int

    constructor (routingKey: string, deliveryTag: int)
      ensures this.routingKey == routingKey && this.deliveryTag == deliveryTag
    {
      this.routingKey := routingKey;
      this.deliveryTag := deliveryTag;
    }
  }

  /** The message properties a reply carries. */
  datatype Header = Header(correlationId: string, contentEncoding: string)

  /** A reply as it is stored: the delivery, its properties and its body. */
  datatype StoredReply = StoredReply(delivery: DeliverMethod, header: Header, body: Bytes)

  /** Whose handle_request a request is given to: the service itself, a
      registered endpoint, or nobody because the name is not in the table
      (the dictionary lookup fails with a KeyError; no reply is made). */
  datatype Dispatch = ToSelf | ToEndpoint(endpoint: Endpoint) | NoSuchEndpoint(target: string)

  /** The routing target: the routing key up to (not including) its first '.'. */
  function RoutingTarget(key: string): (t: string)
    ensures t <= key
    ensures '.' !in t
    ensures t == key || key[|t|] == '.'
  {
    if key == [] then []
    else if key[0] == '.' then []
    else [key[0]] + RoutingTarget(key[1..])
  }

  /** RoutingTarget is the only prefix with no '.' that ends the key or stops at a '.'
      (two such prefixes of different lengths would disagree at the shorter one's end). */
  lemma RoutingTargetUnique(key: string, t: string)
    requires t <= key && '.' !in t
    requires t == key || key[|t|] == '.'
    ensures RoutingTarget(key) == t
  {
  }

  /** Python's str.replace: every non-overlapping occurrence of `pat`, scanning
      from the left, is replaced by `rep`. */
  function ReplaceAll(s: string, pat: string, rep: string): (r: string)
    requires pat != []
    ensures rep == pat ==> r == s
    ensures |s| >= |pat| && s[..|pat|] == pat ==> rep <= r
    decreases |s|
  {
    if |s| < |pat| then s
    else if s[..|pat|] == pat then rep + ReplaceAll(s[|pat|..], pat, rep)
    else [s[0]] + ReplaceAll(s[1..], pat, rep)
  }

  /** Whether `pat` occurs in `s` starting at position `k`. */
  predicate OccursAt(pat: string, s: string, k: int)
  {
    0 <= k && k + |pat| <= |s| && s[k..k + |pat|] == pat
  }

  /** Whether `pat` occurs anywhere in `s`. */
  predicate Occurs(pat: string, s: string)
  {
    exists k | 0 <= k <= |s| :: OccursAt(pat, s, k)
  }

  /** A string in which the pattern does not occur comes back unchanged. */
  lemma {:induction false} ReplaceAllAbsent(s: string, pat: string, rep: string)
    requires pat != [] && !Occurs(pat, s)
    ensures ReplaceAll(s, pat, rep) == s
    decreases |s|
  {
    if |s| >= |pat| {
      assert !OccursAt(pat, s, 0);
      assert s[0..0 + |pat|] == s[..|pat|];
      assert !Occurs(pat, s[1..]) by {
        forall k ensures !OccursAt(pat, s[1..], k) {
          assert !OccursAt(pat, s, k + 1);
          if 0 <= k && k + |pat| <= |s[1..]| {
            assert s[1..][k..k + |pat|] == s[k + 1..k + 1 + |pat|];
          }
        }
      }
      ReplaceAllAbsent(s[1..], pat, rep);
      assert [s[0]] + s[1..] == s;
    }
  }

  /** Replacing "broadcast" in a string that is empty or starts with '.' leaves
      a string that is empty or starts with '.'. */
  lemma DotHeadSurvivesReplace(s: string, rep: string)
    requires s == [] || s[0] == '.'
    ensures var r := ReplaceAll(s, "broadcast", rep); r == [] || r[0] == '.'
  {
  }

  /** A routing key addressed to "broadcast" is rewritten so that it addresses
      the service: its routing target becomes the service's name. */
  lemma BroadcastRewriteTargetsService(key: string, name: string)
    requires RoutingTarget(key) == "broadcast"
    requires '.' !in name
    ensures RoutingTarget(ReplaceAll(key, "broadcast", name)) == name
  {
    var rest := key[|"broadcast"|..];
    assert key[..|"broadcast"|] == "broadcast";
    assert rest == [] || rest[0] == '.';
    var replaced := ReplaceAll(rest, "broadcast", name);
    assert ReplaceAll(key, "broadcast", name) == name + replaced;
    DotHeadSurvivesReplace(rest, name);
    RoutingTargetUnique(name + replaced, name);
  }

  /** The binding key for each endpoint name: the name followed by ".#". */
  function BindingKeys(names: seq<string>): (keys: seq<string>)
    ensures |keys| == |names|
    ensures forall i | 0 <= i < |names| :: keys[i] == names[i] + ".#"
  {
    seq(|names|, i requires 0 <= i < |names| => names[i] + ".#")
  }

  /** Each binding key routes back to its endpoint, as long as the endpoint's
      name holds no '.'. */
  lemma KeysRouteToEndpoints(names: seq<string>, i: nat)
    requires i < |names| && '.' !in names[i]
    ensures RoutingTarget(BindingKeys(names)[i]) == names[i]
  {
    RoutingTargetUnique(names[i] + ".#", names[i]);
  }

  /** A Spimescape service: its Provider part (whose `me` is the service's own
      endpoint), the exchange it consumes requests from, its broker bindings,
      the replies received and the delivery tags acknowledged. */
  class Spimescape {
    const node: Provider
    const exchange: string
    var bindings: seq<Binding>
    var responses: map<string, StoredReply>
    var acks: seq<int>

    /** The table is valid and every registered name has its request binding. */
    ghost predicate Consistent()
      reads this, node
    {
      && node.Valid()
      && forall i | 0 <= i < |node.order| :: Binding("requests", node.order[i] + ".#") in bindings
    }

    /** Consistent, and the service is registered under its own name. */
    ghost predicate Valid()
      reads this, node
    {
      && Consistent()
      && node.me.name in node.endpoints
      && node.endpoints[node.me.name] == node.me
    }

    /** __init__: the exchange defaults to "requests" when absent or None, and
        the service registers itself; `serviceBindings` are whatever bindings
        the Service base class set up before that. */
    constructor (me: Endpoint, exchange: Option<string>, serviceBindings: seq<Binding>)
      modifies me`provider, me`service, me`storeValue
      ensures this.exchange == (if exchange.Some? then exchange.value else "requests")
      ensures fresh(node) && node.me == me
      ensures node.endpoints == map[me.name := me] && node.order == [me.name]
      ensures bindings == serviceBindings + [Binding("requests", me.name + ".#")]
      ensures responses == map[] && acks == []
      ensures me.provider == node && me.service == node && me.storeValue == node
      ensures Valid()
    {
      this.exchange := if exchange.Some? then exchange.value else "requests";
      node := new Provider(me);
      bindings := serviceBindings;
      responses := map[];
      acks := [];
      new;
      var r := AddEndpoint(me);
    }

    /** The keys property: each registered name followed by ".#", in table order;
        each is bound on the requests exchange. */
    function Keys(): (keys: seq<string>)
      requires Valid()
      reads this, node
      ensures keys == BindingKeys(node.order)
      ensures forall i | 0 <= i < |keys| :: Binding("requests", keys[i]) in bindings
    {
      BindingKeys(node.order)
    }

    /** Assigning keys only logs a message: nothing changes. */
    method SetKeys(value: seq<string>)
      requires Valid()
      ensures Keys() == old(Keys())
    {
    }

    /** add_endpoint: a duplicate name raises ValueError and changes nothing;
        otherwise the endpoint's store_value and service are bound to this
        service, one binding ["requests", name + ".#"] is appended, and the
        provider's add_endpoint inserts it. */
    method AddEndpoint(e: Endpoint) returns (r: Completion)
      requires Consistent()
      modifies this`bindings, node`endpoints, node`order, e`provider, e`service, e`storeValue
      ensures Consistent()
      ensures old(Valid()) ==> Valid()
      ensures old(e.name in node.endpoints) ==>
                && r == Threw(Failure(ValueError, "endpoint (" + e.name + ") already present", VNull))
                && bindings == old(bindings)
                && node.endpoints == old(node.endpoints) && node.order == old(node.order)
                && e.provider == old(e.provider) && e.service == old(e.service)
                && e.storeValue == old(e.storeValue)
      ensures old(e.name !in node.endpoints) ==>
                && r == Done
                && bindings == old(bindings) + [Binding("requests", e.name + ".#")]
                && node.endpoints == old(node.endpoints)[e.name := e]
                && node.order == old(node.order) + [e.name]
                && e.provider == node && e.service == node && e.storeValue == node
    {
      if e.name in node.endpoints {
        return Threw(Failure(ValueError, "endpoint (" + e.name + ") already present", VNull));
      }
      e.storeValue := node;
      e.service := node;
      bindings := bindings + [Binding("requests", e.name + ".#")];
      var added := node.AddEndpoint(e);
      r := Done;
    }

    /** on_request_message: a request whose routing target is "broadcast" has
        every "broadcast" in its routing key replaced by the service's name and
        goes to the service's own handler, with no table lookup; any other
        target is looked up in the table, and a name that is not there fails. */
    method OnRequestMessage(m: DeliverMethod) returns (d: Dispatch)
      requires Valid()
      modifies m`routingKey
      ensures var t := RoutingTarget(old(m.routingKey));
              t == "broadcast" ==>
                d == ToSelf && m.routingKey == ReplaceAll(old(m.routingKey), "broadcast", node.me.name)
      ensures var t := RoutingTarget(old(m.routingKey));
              t != "broadcast" ==>
                && m.routingKey == old(m.routingKey)
                && d == if t in node.endpoints then ToEndpoint(node.endpoints[t]) else NoSuchEndpoint(t)
    {
      var target := RoutingTarget(m.routingKey);
      if target == "broadcast" {
        m.routingKey := ReplaceAll(m.routingKey, "broadcast", node.me.name);
        d := ToSelf;
      } else if target in node.endpoints {
        d := ToEndpoint(node.endpoints[target]);
      } else {
        d := NoSuchEndpoint(target);
      }
    }

    /** _handle_reply: stores (method, header, body) under the header's
        correlation id, replacing any earlier entry for that id and leaving the
        others, and acknowledges the delivery tag. */
    method HandleReply(m: DeliverMethod, header: Header, body: Bytes)
      modifies this`responses, this`acks
      ensures responses == old(responses)[header.correlationId := StoredReply(m, header, body)]
      ensures acks == old(acks) + [m.deliveryTag]
    {
      responses := responses[header.correlationId := StoredReply(m, header, body)];
      acks := acks + [m.deliveryTag];
    }
  }

  /** A cmd addressed to a method of an endpoint (CmdTarget appends ".method")
      is routed to that endpoint, as long as the endpoint's name holds no '.'. */
  lemma CmdRoutesToTarget(target: string, methodName: Option<string>)
    requires '.' !in target
    ensures RoutingTarget(CmdTarget(target, methodName)) == target
  {
    var t := CmdTarget(target, methodName);
    if methodName.Some? {
      assert (target + ".")[|target|] == '.';
      assert t[..|target|] == target;
    }
    RoutingTargetUnique(t, target);
  }

  /** A target that merely starts with "broadcast" (such as an endpoint named
      "broadcaster") is routed to that endpoint like any other name, yet the
      provider's reply rule discards the reply to it. */
  lemma BroadcastPrefixedNameLosesReply(reply: ReplyMessage, ignoreRetcode: bool, exceptionMap: int -> ErrorKind)
    ensures RoutingTarget("broadcaster") == "broadcaster" != "broadcast"
    ensures InterpretReply("broadcaster", reply, ignoreRetcode, exceptionMap) == NoValue
  {
    RoutingTargetUnique("broadcaster", "broadcaster");
  }
}
