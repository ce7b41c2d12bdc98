/**
  Values exchanged by dripline's core: payload values, request messages as the
  provider builds them, reply messages as the service hands them back, and the
  exceptions the core raises or lets through.
 */
module Messages {

  datatype Option<+T> = None | Some(value: T)

  /** A payload value as carried by an encoded message (a JSON-like tree). */
  datatype Value =
    | VNull
    | VBool(b: bool)
    | VInt(i: int)
    | VStr(s: string)
    | VList(items: seq<Value>)
    | VDict(entries: map<string, Value>)

  /** Python truthiness of a payload value: None, False, 0 and empty containers are false. */
  predicate Truthy(v: Value)
  {
    match v
    case VNull => false
    case VBool(b) => b
    case VInt(i) => i != 0
    case VStr(s) => s != ""
    case VList(items) => items != []
    case VDict(entries) => entries != map[]
  }

  /** The False that callers pass (and the methods default to) when they hold no lockout key. */
  const NoKey: Value := VBool(false)

  /** A message body as it travels over the broker. */
  type Bytes = seq<bv8>

  /** A decoded message; only its payload is modelled. */
  datatype Message = Message(payload: Value)

  /** A request's payload dictionary. */
  type Payload = map<string, Value>

  /** The request operations (OP_GET, OP_SET, OP_CMD). */
  datatype MsgOp = OpGet | OpSet | OpCmd

  /** A RequestMessage: operation, payload and the lockout key attached to it, if any. */
  datatype RequestMessage = RequestMessage(msgop: MsgOp, payload: Payload, lockoutKey: Option<Value>)

  /** The keyword arguments handed to the service's send_request: the target, the request and,
      when the caller gave one, the timeout. */
  datatype Outbound = Outbound(target: string, request: RequestMessage, timeout: Option<int>)

  /** A reply as returned by the service: retcode, return_msg and payload. */
  datatype ReplyMessage = ReplyMessage(retcode: int, returnMsg: string, payload: Value)

  /** An exception class; `domain` is true for the DriplineException hierarchy. */
  datatype ErrorKind = ErrorKind(className: string, domain: bool)

  const ValueError: ErrorKind := ErrorKind("ValueError", false)
  const AttributeError: ErrorKind := ErrorKind("AttributeError", false)
  const NotImplementedError: ErrorKind := ErrorKind("NotImplementedError", false)

  /** A raised exception: its class, its message and the `result` payload it carries. */
  datatype Failure = Failure(kind: ErrorKind, message: string, payload: Value)

  /** How a call that returns nothing ends: normally, or by raising. */
  datatype Completion = Done | Threw(failure: Failure)

  /** How a call that returns a value ends. */
  datatype Result<+T> = Ok(value: T) | Err(failure: Failure)
}
