/**
  The provider: a named table of sub-endpoints (insertion, lock and unlock
  cascades, schedule-status aggregation) and the construction of get/set/cmd
  requests together with the rule that turns a reply into a return value or
  an exception.
 */
module Providers {
  import opened Messages

  /** A schedule status as reported and accepted by schedulable endpoints. */
  type Status = string

  /** An addressable endpoint. A Provider is an Endpoint in the source; here a
      Provider owns its own Endpoint (`me`) instead of inheriting from it. */
  class Endpoint {
    const name: string
    /** Whether the endpoint has the schedule_interval / schedule_status capability. */
    const schedulable: bool
    var isLocked: bool
    var lockoutKey: Option<string>
    var scheduleInterval: int
    var scheduleStatus: Status
    /** Back-reference set when the endpoint joins a provider's table. */
    var provider: Provider?
    /** Back-reference set when the endpoint joins a service's table. */
    var service: Provider?
    /** The service whose send_alert the endpoint's store_value was bound to. */
    var storeValue: Provider?

    constructor (name: string, schedulable: bool, scheduleInterval: int, scheduleStatus: Status)
      ensures this.name == name && this.schedulable == schedulable
      ensures this.scheduleInterval == scheduleInterval && this.scheduleStatus == scheduleStatus
      ensures !isLocked && lockoutKey == None
      ensures provider == null && service == null && storeValue == null
    {
      this.name := name;
      this.schedulable := schedulable;
      this.scheduleInterval := scheduleInterval;
      this.scheduleStatus := scheduleStatus;
      isLocked := false;
      lockoutKey := None;
      provider := null;
      service := null;
      storeValue := null;
    }

    /** An endpoint without the schedule capability; its interval and status are never read. */
    constructor Plain(name: string)
      ensures this.name == name && !schedulable
      ensures !isLocked && lockoutKey == None
      ensures provider == null && service == null && storeValue == null
    {
      this.name := name;
      schedulable := false;
      scheduleInterval := 0;
      scheduleStatus := "";
      isLocked := false;
      lockoutKey := None;
      provider := null;
      service := null;
      storeValue := null;
    }

    /** Endpoint.lock under the given key (the key is minted by the caller). */
    method Lock(key: string)
      modifies this`isLocked, this`lockoutKey
      ensures isLocked && lockoutKey == Some(key)
    {
      isLocked := true;
      lockoutKey := Some(key);
    }

    /** Endpoint.unlock: clears the lock and its key. */
    method Unlock()
      modifies this`isLocked, this`lockoutKey
      ensures !isLocked && lockoutKey == None
    {
      isLocked := false;
      lockoutKey := None;
    }
  }

  /** True when `s` lists no name twice. */
  predicate Distinct(s: seq<string>)
  {
    forall i, j | 0 <= i < j < |s| :: s[i] != s[j]
  }

  /** Every name of `names` is a key of `table`. */
  predicate Covers<V>(names: seq<string>, table: map<string, V>)
  {
    forall i | 0 <= i < |names| :: names[i] in table
  }

  /** What the schedule-status code reads of an endpoint: whether it has the
      capability, its schedule_interval and its schedule_status. */
  datatype ScheduleView = ScheduleView(schedulable: bool, interval: int, status: Status)

  /** The schedule view of every endpoint of a table, at the current state. */
  function ScheduleViews(table: map<string, Endpoint>): (views: map<string, ScheduleView>)
    reads table.Values
    ensures views.Keys == table.Keys
    ensures forall n | n in table :: views[n].schedulable == table[n].schedulable
    ensures forall n | n in table :: views[n].interval == table[n].scheduleInterval
    ensures forall n | n in table :: views[n].status == table[n].scheduleStatus
  {
    map n | n in table :: ScheduleView(table[n].schedulable, table[n].scheduleInterval, table[n].scheduleStatus)
  }

  /** Whether the schedule-status setter applies the new status to the endpoint
      `e` filed under `name`: not the provider's own name, schedulable, not opted
      out with interval -1, and its own setter does not raise a Warning (the
      names in `warned` are those whose setter raises one). */
  predicate Reschedulable(name: string, e: Endpoint, self: string, warned: set<string>)
    reads e`scheduleInterval
  {
    name != self && e.schedulable && e.scheduleInterval != -1 && name !in warned
  }

  /** What the schedule-status getter collects from the endpoints `names`, in that order. */
  function StatusReport(names: seq<string>, views: map<string, ScheduleView>, self: string): (r: seq<(string, Status)>)
    requires Covers(names, views)
    ensures |r| <= |names|
  {
    if names == [] then []
    else
      var rest := StatusReport(names[1..], views, self);
      var v := views[names[0]];
      if names[0] != self && v.schedulable then [(names[0], v.status)] + rest else rest
  }

  /** An entry is in the status report exactly when its name is listed, is not
      the provider's own name and the endpoint has the schedule capability. */
  lemma {:induction false} StatusReportMembers(names: seq<string>, views: map<string, ScheduleView>,
                                               self: string, n: string, s: Status)
    requires Covers(names, views)
    ensures (n, s) in StatusReport(names, views, self) <==>
              n in names && n != self && views[n].schedulable && s == views[n].status
  {
    if names != [] {
      StatusReportMembers(names[1..], views, self, n, s);
    }
  }

  /** The report follows table order: reporting on two stretches in turn gives the
      two reports one after the other. */
  lemma {:induction false} StatusReportAppend(a: seq<string>, b: seq<string>, views: map<string, ScheduleView>,
                                              self: string)
    requires Covers(a, views) && Covers(b, views)
    ensures Covers(a + b, views)
    ensures StatusReport(a + b, views, self) == StatusReport(a, views, self) + StatusReport(b, views, self)
  {
    if a == [] {
      assert a + b == b;
    } else {
      assert (a + b)[1..] == a[1..] + b;
      StatusReportAppend(a[1..], b, views, self);
    }
  }

  /** On a list without repetitions the report names each endpoint at most once. */
  lemma {:induction false} StatusReportDistinct(names: seq<string>, views: map<string, ScheduleView>, self: string)
    requires Covers(names, views) && Distinct(names)
    ensures var r := StatusReport(names, views, self);
            forall i, j | 0 <= i < j < |r| :: r[i].0 != r[j].0
  {
    if names != [] {
      var rest := StatusReport(names[1..], views, self);
      assert Distinct(names[1..]) by {
        forall i, j | 0 <= i < j < |names[1..]| ensures names[1..][i] != names[1..][j] {
          assert names[1..][i] == names[i + 1] && names[1..][j] == names[j + 1];
        }
      }
      StatusReportDistinct(names[1..], views, self);
      forall k | 0 <= k < |rest| ensures rest[k].0 != names[0] {
        StatusReportMembers(names[1..], views, self, rest[k].0, rest[k].1);
        var m :| 0 <= m < |names[1..]| && names[1..][m] == rest[k].0;
        assert names[m + 1] == rest[k].0;
      }
    }
  }

  /** A Provider: its own endpoint identity and its table of sub-endpoints,
      kept as a map plus the names in insertion order (Python dict order). */
  class Provider {
    const me: Endpoint
    var endpoints: map<string, Endpoint>
    var order: seq<string>

    /** The table's invariant: `order` lists each key once, and each endpoint
        is filed under its own name (so distinct names hold distinct objects). */
    ghost predicate Valid()
      reads this
    {
      && Distinct(order)
      && (forall n :: n in endpoints <==> n in order)
      && (forall n | n in endpoints :: endpoints[n].name == n)
    }

    constructor (me: Endpoint)
      ensures this.me == me && endpoints == map[] && order == []
      ensures Valid()
    {
      this.me := me;
      endpoints := map[];
      order := [];
    }

    /** add_endpoint: a duplicate name is a no-op (only a warning is logged);
        otherwise the table gains exactly that name, at the end of the order,
        and the endpoint's provider becomes this provider. */
    method AddEndpoint(e: Endpoint) returns (added: bool)
      requires Valid()
      modifies this`endpoints, this`order, e`provider
      ensures Valid()
      ensures added <==> old(e.name !in endpoints)
      ensures added ==> endpoints == old(endpoints)[e.name := e] && order == old(order) + [e.name]
      ensures added ==> e.provider == this
      ensures !added ==> endpoints == old(endpoints) && order == old(order) && e.provider == old(e.provider)
    {
      if e.name in endpoints {
        return false;
      }
      endpoints := endpoints[e.name := e];
      order := order + [e.name];
      e.provider := this;
      added := true;
    }

    /** endpoint_names: the table's names, once each, in insertion order. */
    function EndpointNames(): (names: seq<string>)
      requires Valid()
      reads this
      ensures names == order
      ensures |names| == |endpoints| && Distinct(names)
      ensures forall n :: n in names <==> n in endpoints
    {
      DistinctCardinality(order, endpoints.Keys);
      order
    }

    /** Assigning endpoint_names raises AttributeError; nothing is modified. */
    method SetEndpointNames(value: seq<string>) returns (r: Completion)
      ensures r.Threw? && r.failure.kind == AttributeError
      ensures r.failure.message == "endpoint name list cannot be directly modified"
    {
      r := Threw(Failure(AttributeError, "endpoint name list cannot be directly modified", VNull));
    }

    /** Assigning endpoints raises NotImplementedError; nothing is modified. */
    method SetEndpoints(value: map<string, Endpoint>) returns (r: Completion)
      ensures r.Threw? && r.failure.kind == NotImplementedError
      ensures r.failure.message == "direct assignment not allowed"
    {
      r := Threw(Failure(NotImplementedError, "direct assignment not allowed", VNull));
    }

    /** lock: the provider locks itself under the minted key, then locks, in
        table order, every endpoint that is not locked yet with that same key.
        Endpoints that were locked already keep their key. */
    method Lock(key: string)
      requires Valid()
      modifies me`isLocked, me`lockoutKey, endpoints.Values`isLocked, endpoints.Values`lockoutKey
      ensures me.isLocked && me.lockoutKey == Some(key)
      ensures forall n | n in endpoints && endpoints[n] != me ::
                if old(endpoints[n].isLocked)
                then endpoints[n].isLocked && endpoints[n].lockoutKey == old(endpoints[n].lockoutKey)
                else endpoints[n].isLocked && endpoints[n].lockoutKey == Some(key)
      ensures forall n | n in endpoints :: endpoints[n].isLocked
    {
      me.Lock(key);
      var i := 0;
      while i < |order|
        invariant 0 <= i <= |order|
        invariant me.isLocked && me.lockoutKey == Some(key)
        invariant forall j | 0 <= j < i :: endpoints[order[j]].isLocked
        invariant forall j | 0 <= j < |order| && endpoints[order[j]] != me ::
                    if j < i && !old(endpoints[order[j]].isLocked)
                    then endpoints[order[j]].lockoutKey == Some(key)
                    else endpoints[order[j]].isLocked == old(endpoints[order[j]].isLocked)
                         && endpoints[order[j]].lockoutKey == old(endpoints[order[j]].lockoutKey)
      {
        var e := endpoints[order[i]];
        if !e.isLocked {
          e.Lock(key);
        }
        i := i + 1;
      }
      OrderIndex(order, endpoints);
    }

    /** unlock: the provider unlocks itself, then calls unlock on every entry
        whose name is not the provider's own, whatever that entry's lock state. */
    method Unlock()
      requires Valid()
      modifies me`isLocked, me`lockoutKey, endpoints.Values`isLocked, endpoints.Values`lockoutKey
      ensures !me.isLocked && me.lockoutKey == None
      ensures forall n | n in endpoints && n != me.name :: !endpoints[n].isLocked && endpoints[n].lockoutKey == None
      ensures forall n | n in endpoints && n == me.name && endpoints[n] != me ::
                endpoints[n].isLocked == old(endpoints[n].isLocked)
                && endpoints[n].lockoutKey == old(endpoints[n].lockoutKey)
    {
      me.Unlock();
      var i := 0;
      while i < |order|
        invariant 0 <= i <= |order|
        invariant !me.isLocked && me.lockoutKey == None
        invariant forall j | 0 <= j < |order| && endpoints[order[j]] != me ::
                    if j < i && order[j] != me.name
                    then !endpoints[order[j]].isLocked && endpoints[order[j]].lockoutKey == None
                    else endpoints[order[j]].isLocked == old(endpoints[order[j]].isLocked)
                         && endpoints[order[j]].lockoutKey == old(endpoints[order[j]].lockoutKey)
      {
        if order[i] != me.name {
          endpoints[order[i]].Unlock();
        }
        i := i + 1;
      }
      OrderIndex(order, endpoints);
    }

    /** The schedule_status getter (for a provider that is not itself a Spime):
        (name, status) for each schedulable endpoint other than the provider's
        own name, in table order. */
    method GetScheduleStatus() returns (results: seq<(string, Status)>)
      requires Valid()
      ensures Covers(order, ScheduleViews(endpoints))
      ensures results == StatusReport(order, ScheduleViews(endpoints), me.name)
      ensures |results| <= |endpoints|
      ensures forall i, j | 0 <= i < j < |results| :: results[i].0 != results[j].0
    {
      var table, names, self := endpoints, order, me.name;
      ghost var views := ScheduleViews(table);
      OrderCovers(names, views);
      results := [];
      var i := 0;
      while i < |names|
        invariant 0 <= i <= |names|
        invariant results + StatusReport(names[i..], views, self) == StatusReport(names, views, self)
      {
        var name := names[i];
        assert names[i..][1..] == names[i + 1..];
        if name != self {
          var e := table[name];
          if e.schedulable {
            results := results + [(name, e.scheduleStatus)];
          }
        }
        i := i + 1;
      }
      DistinctCardinality(names, table.Keys);
      StatusReportDistinct(names, views, self);
    }

    /** The schedule_status setter (for a provider that is not itself a Spime):
        applies `value` to every Reschedulable endpoint and leaves every other
        one, the provider's own entry included, as it was; an endpoint whose
        setter raises a Warning is skipped and iteration goes on. */
    method SetScheduleStatus(value: Status, warned: set<string>)
      requires Valid()
      modifies endpoints.Values`scheduleStatus
      ensures forall n | n in endpoints ::
                endpoints[n].scheduleStatus
                  == if Reschedulable(n, endpoints[n], me.name, warned) then value
                     else old(endpoints[n].scheduleStatus)
    {
      var table, names := endpoints, order;
      var i := 0;
      while i < |names|
        invariant 0 <= i <= |names|
        invariant forall j | 0 <= j < i ::
                    table[names[j]].scheduleStatus
                      == if Reschedulable(names[j], table[names[j]], me.name, warned) then value
                         else old(table[names[j]].scheduleStatus)
        invariant forall j | i <= j < |names| ::
                    table[names[j]].scheduleStatus == old(table[names[j]].scheduleStatus)
      {
        var name := names[i];
        if name != me.name {
          var e := table[name];
          if e.schedulable && e.scheduleInterval != -1 && name !in warned {
            e.scheduleStatus := value;
          }
        }
        i := i + 1;
      }
      OrderIndex(names, table);
    }
  }

  /** Every key of a valid table is reached by some position of its order. */
  lemma OrderIndex(order: seq<string>, table: map<string, Endpoint>)
    requires forall n :: n in table <==> n in order
    ensures forall n | n in table :: exists j | 0 <= j < |order| :: order[j] == n
  {
  }

  lemma OrderCovers<V>(order: seq<string>, table: map<string, V>)
    requires forall n :: n in table <==> n in order
    ensures Covers(order, table)
  {
  }

  /** A list without repetitions has as many elements as the set it enumerates. */
  lemma {:induction false} DistinctCardinality(s: seq<string>, keys: set<string>)
    requires Distinct(s)
    requires forall n :: n in keys <==> n in s
    ensures |s| == |keys|
  {
    if s != [] {
      var rest := keys - {s[0]};
      assert forall n :: n in rest <==> n in s[1..] by {
        forall n ensures n in rest <==> n in s[1..] {
          if n in s[1..] {
            var k :| 0 <= k < |s[1..]| && s[1..][k] == n;
            assert s[k + 1] == n;
          }
        }
      }
      DistinctCardinality(s[1..], rest);
    }
  }

  // ---- Request construction and reply interpretation (_send_request, get, set, cmd)

  /** The request _send_request hands to the service: the timeout is forwarded
      only when given, and the lockout key is attached only when truthy. */
  function BuildRequest(target: string, msgop: MsgOp, payload: Payload, timeout: Option<int>,
                        lockoutKey: Value): (o: Outbound)
    ensures o.target == target && o.request.msgop == msgop && o.request.payload == payload
    ensures o.timeout.Some? <==> timeout.Some?
    ensures o.timeout.Some? ==> o.timeout.value == timeout.value
    ensures o.request.lockoutKey.Some? <==> Truthy(lockoutKey)
    ensures o.request.lockoutKey.Some? ==> o.request.lockoutKey.value == lockoutKey
  {
    var request := RequestMessage(msgop, payload, if Truthy(lockoutKey) then Some(lockoutKey) else None);
    match timeout
    case None => Outbound(target, request, None)
    case Some(t) => Outbound(target, request, Some(t))
  }

  /** The outcome of a get, set or cmd: nothing (a broadcast), the reply's
      payload, or a raised exception. */
  datatype Outcome = NoValue | Returned(payload: Value) | Raised(failure: Failure)

  /** What the provider does with the service's reply: a target starting with
      "broadcast" gives no value whatever the retcode; a nonzero retcode raises
      the exception the map gives for it, carrying return_msg and the payload,
      unless ignoreRetcode; otherwise the payload is returned. */
  function InterpretReply(target: string, reply: ReplyMessage, ignoreRetcode: bool,
                          exceptionMap: int -> ErrorKind): (r: Outcome)
    ensures "broadcast" <= target ==> r == NoValue
    ensures !("broadcast" <= target) && reply.retcode != 0 && !ignoreRetcode ==>
              r == Raised(Failure(exceptionMap(reply.retcode), reply.returnMsg, reply.payload))
    ensures !("broadcast" <= target) && (reply.retcode == 0 || ignoreRetcode) ==> r == Returned(reply.payload)
  {
    if "broadcast" <= target then NoValue
    else if reply.retcode != 0 && !ignoreRetcode then
      Raised(Failure(exceptionMap(reply.retcode), reply.returnMsg, reply.payload))
    else Returned(reply.payload)
  }

  /** One round trip: the request sent and what the caller gets back. */
  datatype Exchange = Exchange(sent: Outbound, outcome: Outcome)

  /** _send_request, with the service's send_request as the function `service`
      from the request sent to the reply received. */
  function SendRequest(service: Outbound -> ReplyMessage, exceptionMap: int -> ErrorKind,
                       target: string, msgop: MsgOp, payload: Payload, timeout: Option<int>,
                       ignoreRetcode: bool, lockoutKey: Value): (r: Exchange)
    ensures r.sent.target == target && r.sent.request.msgop == msgop && r.sent.request.payload == payload
    ensures r.sent.timeout == timeout
    ensures r.sent.request.lockoutKey == (if Truthy(lockoutKey) then Some(lockoutKey) else None)
    ensures "broadcast" <= target ==> r.outcome == NoValue
    ensures r.outcome.Raised? <==> !("broadcast" <= target) && service(r.sent).retcode != 0 && !ignoreRetcode
    ensures r.outcome.Raised? ==> r.outcome.failure == Failure(exceptionMap(service(r.sent).retcode),
                                                               service(r.sent).returnMsg, service(r.sent).payload)
    ensures r.outcome.Returned? ==> r.outcome.payload == service(r.sent).payload
    ensures !("broadcast" <= target) && !r.outcome.Raised? ==> r.outcome == Returned(service(r.sent).payload)
    ensures r.outcome == InterpretReply(target, service(r.sent), ignoreRetcode, exceptionMap)
  {
    var sent := BuildRequest(target, msgop, payload, timeout, lockoutKey);
    Exchange(sent, InterpretReply(target, service(sent), ignoreRetcode, exceptionMap))
  }

  /** get: OP_GET with payload {'values': []} and no lockout key. */
  function Get(service: Outbound -> ReplyMessage, exceptionMap: int -> ErrorKind,
               target: string, timeout: Option<int>, ignoreRetcode: bool): (r: Exchange)
    ensures r.sent.target == target && r.sent.timeout == timeout
    ensures r.sent.request == RequestMessage(OpGet, map["values" := VList([])], None)
    ensures r.outcome == InterpretReply(target, service(r.sent), ignoreRetcode, exceptionMap)
  {
    SendRequest(service, exceptionMap, target, OpGet, map["values" := VList([])], timeout, ignoreRetcode, NoKey)
  }

  /** set: OP_SET with payload {'values': [value]}; the lockout key goes with it when truthy. */
  function Set(service: Outbound -> ReplyMessage, exceptionMap: int -> ErrorKind,
               target: string, value: Value, lockoutKey: Value, timeout: Option<int>,
               ignoreRetcode: bool): (r: Exchange)
    ensures r.sent.target == target && r.sent.timeout == timeout
    ensures r.sent.request.msgop == OpSet && r.sent.request.payload == map["values" := VList([value])]
    ensures r.sent.request.lockoutKey == (if Truthy(lockoutKey) then Some(lockoutKey) else None)
    ensures r.outcome == InterpretReply(target, service(r.sent), ignoreRetcode, exceptionMap)
  {
    SendRequest(service, exceptionMap, target, OpSet, map["values" := VList([value])], timeout, ignoreRetcode,
                lockoutKey)
  }

  /** A payload dictionary object. cmd updates the one it is given in place,
      and by default every call shares one such object. */
  class PayloadDict {
    var entries: Payload

    constructor (entries: Payload)
      ensures this.entries == entries
    {
      this.entries := entries;
    }
  }

  /** The target a cmd is sent to: `target.method_name`, or `target` when there is no method name. */
  function CmdTarget(target: string, methodName: Option<string>): (t: string)
    ensures methodName.None? ==> t == target
    ensures methodName.Some? ==> target + "." <= t && t[|target| + 1..] == methodName.value
  {
    match methodName
    case None => target
    case Some(m) => target + "." + m
  }

  /** cmd: sets payload['values'] to the given values in the caller's dictionary
      (every other entry stays), then sends that dictionary with OP_CMD to CmdTarget. */
  method Cmd(service: Outbound -> ReplyMessage, exceptionMap: int -> ErrorKind,
             target: string, methodName: Option<string>, value: seq<Value>, payload: PayloadDict,
             lockoutKey: Value, timeout: Option<int>, ignoreRetcode: bool) returns (r: Exchange)
    modifies payload
    ensures payload.entries == old(payload.entries)["values" := VList(value)]
    ensures r.sent.target == CmdTarget(target, methodName) && r.sent.timeout == timeout
    ensures r.sent.request.msgop == OpCmd && r.sent.request.payload == payload.entries
    ensures r.sent.request.lockoutKey == (if Truthy(lockoutKey) then Some(lockoutKey) else None)
    ensures r.outcome == InterpretReply(CmdTarget(target, methodName), service(r.sent), ignoreRetcode, exceptionMap)
  {
    payload.entries := payload.entries["values" := VList(value)];
    var t := CmdTarget(target, methodName);
    r := SendRequest(service, exceptionMap, t, OpCmd, payload.entries, timeout, ignoreRetcode, lockoutKey);
  }
}
