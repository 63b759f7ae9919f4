/** The values that cross the channel between the two endpoints, and the
    three message shapes the endpoint tells apart by their `type` field. */
module Wire {

  datatype Option<T> = None | Some(value: T)

  /** The outcome of a synchronous operation that may throw (`register`). */
  datatype Result<T> = Ok(value: T) | Failure(error: string)

  /** A call identifier minted by `uuid()` on the calling side. */
  type Id = string

  /** A structured-clonable JavaScript value: the `args`, `cfg` and `result`
      payloads, and the `error` field of an inbound response. Missing object
      keys read as `Undefined`. */
  datatype Value =
    | Undefined
    | Null
    | Bool(b: bool)
    | Num(n: int)
    | Str(s: string)
    | Arr(items: seq<Value>)
    | Obj(fields: map<string, Value>)

  /** An opaque reference to a registered JavaScript function. */
  datatype Handler = Handler(ref: nat)

  const RequestType := Str("RPCRequest")
  const ResponseType := Str("RPCResponse")

  /** The `type` field of a message that is neither a request nor a response. */
  type OtherType = t: Value | t != RequestType && t != ResponseType witness Undefined

  /** A message as delivered by the channel, classified by its `type` field
      (`methodName` is the wire field `method`, a reserved word in Dafny). */
  datatype Message =
    | Request(asyncID: Id, methodName: string, args: Value, cfg: Value)
    | Response(asyncID: Id, result: Value, error: Value)
    | Other(kind: OtherType)
  {
    /** The message's `type` field. */
    function Type(): (t: Value)
      ensures (t == RequestType) == Request?
      ensures (t == ResponseType) == Response?
    {
      match this
      case Request(_, _, _, _) => RequestType
      case Response(_, _, _) => ResponseType
      case Other(kind) => kind
    }
  }

  /** A value thrown by a handler or rejected with by its promise, seen only
      through what calling `toString()` on it does. `undefined` and `null`
      have no `toString`, so the call throws. `ThrownValue` stands for every
      value whose `toString` exists, returns normally and returns a string;
      `text` is that string. Values whose `toString` is missing (an object
      with a null prototype), throws, or returns a non-string are not
      represented. */
  datatype Thrown = ThrownUndefined | ThrownNull | ThrownValue(text: string)

  /** `new Error(message)`: `Error.prototype.toString` gives the name `Error`,
      followed by `: ` and the message when the message is not empty. */
  function ErrorObject(message: string): (t: Thrown)
    ensures t.ThrownValue?
    ensures message != [] ==> t.text == "Error: " + message
    ensures message == [] ==> t.text == "Error"
  {
    ThrownValue(if message == "" then "Error" else "Error: " + message)
  }

  /** The eventual outcome of running a handler on some arguments: the value
      its promise resolves with, or what it threw or rejected with. */
  datatype Outcome = Returned(value: Value) | Threw(reason: Thrown)
}
