# dripline core: providers, spimescapes and gogols in Dafny

This project models the service core of dripline-python. dripline is a
framework in which named endpoints exchange get/set/cmd requests and their
replies over an AMQP broker.

- **Provider** (`provider.dfy`, module `Providers`). A provider is an
  endpoint that owns a table of sub-endpoints. The module models:
  - insertion into that table;
  - the lock and unlock cascades;
  - the schedule-status getter and setter;
  - how get, set and cmd build a request, and how a reply becomes a return
    value, nothing (for broadcast targets) or an exception.
- **Spimescape** (`spimescape.dfy`, module `Spimescapes`). A service that:
  - registers itself in its own table;
  - refuses duplicate names;
  - binds `name.#` on the requests exchange for every endpoint;
  - routes each request by the first segment of its routing key, rewriting
    `broadcast` to its own name;
  - stores replies by correlation id and acknowledges them.
- **Gogol** (`gogol.dfy`, module `Gogols`). A spimescape that also binds to
  the alerts exchange. It hands each decoded alert to a consume hook. It
  swallows dripline-domain exceptions and re-raises every other exception.
- **Messages** (`messages.dfy`). Payload values, request and reply messages,
  and exceptions as values.

Inheritance is replaced by composition:
- a `Provider` holds `me`, the endpoint it is itself;
- a `Spimescape` holds `node`, its provider part;
- a `Gogol` holds `scape`, its spimescape part.

A Python dictionary of endpoints is a `map` plus a sequence of its keys in
insertion order, because Python iterates dictionaries in that order. Raised
exceptions are values:
- `Completion` is `Done` or `Threw(failure)`;
- `Outcome` is `NoValue`, `Returned(payload)` or `Raised(failure)`;
- `Dispatch` says whose handler a request reaches.

The broker, the service's `send_request` and the exception map are function
parameters.

Two choices about failures, both following the code:

- **Unknown routing target.** `on_request_message` looks the target up in
  the endpoint dictionary directly (spimescape.py:68). A name that is not
  there makes the lookup fail, and no reply is produced. `OnRequestMessage`
  returns `NoSuchEndpoint(target)` for that case.
- **Retcode to exception.** `_send_request` indexes `exception_map` with the
  reply's retcode (provider.py:141). The map is a total function supplied
  by the caller, so what an unmapped retcode does is up to that function.

The model also proves a consequence of two rules the code states
separately, in `BroadcastPrefixedNameLosesReply`. The router treats a
request as a broadcast only when its first segment is exactly `broadcast`.
The provider drops the reply to any target that merely starts with
`broadcast`. So a request to an endpoint named `broadcaster` is delivered
to that endpoint, and the reply it sends is dropped.

## Model

| member | source | states |
|---|---|---|
| Providers.Provider.constructor | dripline/core/provider.py:24-26 | The new provider is the given endpoint with an empty table and empty order, and the table invariant holds. |
| Providers.Provider.AddEndpoint | dripline/core/provider.py:28-33 | The result is `added` exactly when the name was new. If added, the table gains exactly that name→endpoint entry at the end of the order and the endpoint's provider becomes this provider. A duplicate changes nothing. The invariant is kept. |
| Providers.Provider.EndpointNames | dripline/core/provider.py:60-62 | The names are the table's keys in insertion order, each once, so the list is as long as the table. |
| Providers.Provider.SetEndpointNames | dripline/core/provider.py:63-65 | Assigning endpoint_names raises AttributeError with its message and modifies nothing. |
| Providers.Provider.SetEndpoints | dripline/core/provider.py:119-121 | Assigning endpoints raises NotImplementedError("direct assignment not allowed") and modifies nothing. |
| Providers.Provider.Lock | dripline/core/provider.py:35-42 | The provider ends locked under the minted key. Every other entry that was unlocked ends locked under that key. Every entry that was already locked keeps its key. Afterwards every entry is locked. |
| Providers.Provider.Unlock | dripline/core/provider.py:44-51 | The provider ends unlocked with no key. Every entry under another name ends unlocked with no key, whatever its previous state. An entry filed under the provider's own name that is not the provider itself is left alone. |
| Providers.StatusReport | dripline/core/provider.py:82-92 | The report on a list of names is never longer than the list. |
| Providers.StatusReportMembers | dripline/core/provider.py:83-91 | (n, s) is in the report if and only if n is listed, n is not the provider's own name, n has the schedule capability, and s is n's current status. |
| Providers.StatusReportAppend | dripline/core/provider.py:83-88 | The report follows table order: the report on a + b is the report on a followed by the report on b. |
| Providers.Provider.GetScheduleStatus | dripline/core/provider.py:77-92 | The getter returns the StatusReport of the table in insertion order. It is no longer than the table and names each endpoint at most once. |
| Providers.StatusReportDistinct | dripline/core/provider.py:83-88 | On a list of names without repetitions, the report names each endpoint at most once. |
| Providers.Provider.SetScheduleStatus | dripline/core/provider.py:93-114 | Every endpoint that is not the provider's own name, is schedulable, has interval ≠ -1 and does not warn gets the new status. Every other endpoint keeps its old status. |
| Providers.BuildRequest | dripline/core/provider.py:129-135 | The request carries the target, operation and payload. A timeout is forwarded exactly when given. The lockout key is attached exactly when it is truthy. |
| Providers.InterpretReply | dripline/core/provider.py:136-142 | A target starting with "broadcast" gives no value. Otherwise a nonzero retcode that is not ignored raises the mapped exception with return_msg and the payload. Otherwise the reply's payload is returned. |
| Providers.SendRequest | dripline/core/provider.py:129-142 | The request sent is the one BuildRequest describes, and the outcome is InterpretReply of the reply to it. So the call raises if and only if the target is not a broadcast, the retcode is nonzero and it is not ignored, and every other non-broadcast call returns the reply's payload. |
| Providers.Get | dripline/core/provider.py:144-151 | get sends OP_GET with payload {values: []} and no lockout key, and interprets the reply to it. |
| Providers.Set | dripline/core/provider.py:153-161 | set sends OP_SET with payload {values: [value]}, attaches the key only when truthy, and interprets the reply. |
| Providers.CmdTarget | dripline/core/provider.py:165-166 | With a method name, the target is `target.` followed by the method name. Without one, the target is unchanged. |
| Providers.Cmd | dripline/core/provider.py:163-174 | The caller's dictionary gains values = list(value) and keeps its other entries. That same dictionary is sent with OP_CMD to CmdTarget, and the reply to that target is interpreted. |
| Spimescapes.RoutingTarget | dripline/core/spimescape.py:62 | The target is a prefix of the routing key with no '.'. It is either the whole key or is followed by a '.'. |
| Spimescapes.RoutingTargetUnique | dripline/core/spimescape.py:62 | Any prefix with those properties is the routing target, so split('.')[0] is characterised independently. |
| Spimescapes.ReplaceAll | dripline/core/spimescape.py:65 | Replacing a pattern by itself leaves the string unchanged, and a string that starts with the pattern starts with the replacement afterwards. |
| Spimescapes.ReplaceAllAbsent | dripline/core/spimescape.py:65 | A string in which the pattern occurs nowhere comes back unchanged. |
| Spimescapes.BroadcastRewriteTargetsService | dripline/core/spimescape.py:62-66 | Replacing "broadcast" by the service's name in a key whose target is "broadcast" yields a key whose target is the service's name. The name must contain no '.'. |
| Spimescapes.BindingKeys | dripline/core/spimescape.py:44 | There is one key per name, in order, and each is the name followed by ".#". |
| Spimescapes.KeysRouteToEndpoints | dripline/core/spimescape.py:44 | Every binding key routes back to the endpoint it was made for, when the endpoint's name contains no '.'. |
| Spimescapes.Spimescape.constructor | dripline/core/spimescape.py:32-40 | The exchange defaults to "requests" when absent or None. The service is its own only entry, bound under "requests"/name.#, with service and store_value pointing at itself. Replies and acks start empty. The service is valid. |
| Spimescapes.Spimescape.Keys | dripline/core/spimescape.py:42-44 | keys is each table name plus ".#", in table order, and each is bound on the requests exchange. |
| Spimescapes.Spimescape.SetKeys | dripline/core/spimescape.py:45-48 | Assigning keys leaves keys as they were. |
| Spimescapes.Spimescape.AddEndpoint | dripline/core/spimescape.py:50-58 | A duplicate name raises ValueError("endpoint (name) already present") and changes nothing. Otherwise exactly one binding is appended, the endpoint joins the table at the end, and its store_value, service and provider point at this service. Validity is kept. |
| Spimescapes.Spimescape.OnRequestMessage | dripline/core/spimescape.py:60-68 | A "broadcast" target rewrites the routing key and goes to the service's own handler. Any other target leaves the key unchanged and reaches the endpoint filed under that name, or no endpoint when the name is absent. |
| Spimescapes.Spimescape.HandleReply | dripline/core/spimescape.py:71-74 | The reply is stored under its correlation id, replacing only that id's entry, and its delivery tag is acknowledged. |
| Spimescapes.CmdRoutesToTarget | dripline/core/provider.py:165-166 | A cmd to `target.method` is routed to `target`, when target contains no '.'. |
| Spimescapes.BroadcastPrefixedNameLosesReply | dripline/core/provider.py:138-139 | "broadcaster" is routed as an ordinary endpoint name, yet any reply to it gives no value. |
| Gogols.KeyPatterns | dripline/core/gogol.py:36-37 | A single key string stands for the one-element list holding it. A list stands for itself. |
| Gogols.AlertBindings | dripline/core/gogol.py:38 | There is one ("alerts", pattern) binding per pattern, in order. |
| Gogols.GeneratedName | dripline/core/gogol.py:33-34 | The default name is "dripline.core.gogol-" followed by a prefix of the hex string of at most 12 characters. |
| Gogols.BaseThisConsume | dripline/core/gogol.py:40-41 | The default hook always raises NotImplementedError. |
| Gogols.AlertAttempt | dripline/core/gogol.py:45-47 | The try block either fails with the decoder's failure or ends as the hook ends on the decoded message. |
| Gogols.OnAlertMessage | dripline/core/gogol.py:43-53 | on_alert_message raises if and only if the try block raised a non-domain exception, and then re-raises that exception unchanged. No DriplineException escapes. |
| Gogols.UnsetHookIsFatal | dripline/core/gogol.py:40-53 | With the default hook, every alert that decodes ends in NotImplementedError escaping the handler. |
| Gogols.DomainDecodeErrorIsDropped | dripline/core/gogol.py:46-49 | An alert whose decoding raises a DriplineException is dropped, whatever the hook. |
| Gogols.Gogol.constructor | dripline/core/gogol.py:26-38 | The name defaults to the generated one. The bindings are those of the spimescape part followed by one alerts binding per key pattern. With the default keys exactly one binding, ("alerts", "#"), is added. The spimescape part is valid. |

## Left out

- Providers.Provider.GetScheduleStatus, Providers.Provider.SetScheduleStatus: the branch for a provider that is itself a Spime is not modelled. spime.py is not part of this model.
- Providers.Provider.SetScheduleStatus: the setter's results list is not returned. It is only assigned by a property setter, whose return value Python discards.
- Providers.Provider.SetScheduleStatus: an endpoint whose setter raises a Warning is given by the `warned` set and is taken to keep its old status. Any partial effect of that setter is not modelled.
- Schedule capability: an endpoint either has both schedule_interval and schedule_status or neither (`schedulable`). An endpoint with only one of the two attributes is not modelled.
- Providers.Provider.Lock, Providers.Provider.Unlock: the Endpoint's own lock and unlock (key minting, lockout checks) are reduced to setting or clearing the lock and key. endpoint.py is not part of this model. The key is a parameter.
- Child cascades: a sub-endpoint that is itself a provider is treated as a plain endpoint. Its lock and unlock would cascade to its own table, but the model uses the plain endpoint lock and unlock. Its schedule_status getter returns a nested list and its setter cascades into its own table, but the model treats its status as a single string that is read or assigned directly.
- Broker I/O is left out: the service's send_request, the channel's basic_ack, connecting, consuming, and the gogol's start and run. send_request is a function parameter. An acknowledgement is recorded in `acks`.
- Logging is left out, and so is the deprecated logging_status alias, which only logs and forwards to schedule_status.
- on_send and on_set are left out. They forward to send and _on_set, which are defined in subclasses that are not part of this model. endpoint and list_endpoints are left out too. They raise NotImplementedError in Provider itself (provider.py:123-127) and touch no state.
- Message.from_encoded and the exception map are caller-supplied functions. message.py and exceptions.py are not part of this model.
- uuid1 is a parameter (`uuidHex`).
- The Service base class's bindings are a parameter (`serviceBindings`). service.py is not part of this model.
- Spimescapes.Spimescape.OnRequestMessage: the handlers themselves (handle_request) are not modelled. The result says whose handler is called.
- Providers.Cmd: the shared default dictionary of `payload={}` is modelled as the caller passing a PayloadDict object. Nothing forces distinct calls to share one.
