/** One endpoint of the RPC channel as a state machine over values: the
    function registry, the pending-call table, the settlement of every promise
    `invoke` has returned, and the messages posted so far. The class
    `Rpc.Endpoint` updates the same state in place and is specified by the
    functions here. */
module Protocol {
  import opened Wire

  /** The state of a promise returned by `invoke`. */
  datatype Settlement = Pending | Resolved(value: Value) | Rejected(message: string)

  /** Calling `resolve` or `reject` on a promise: the first call settles it and
      every later call is ignored. */
  function Settle(p: Settlement, outcome: Settlement): (r: Settlement)
    requires !outcome.Pending?
    ensures !r.Pending?
    ensures p.Pending? ==> r == outcome
    ensures !p.Pending? ==> r == p
  {
    if p.Pending? then outcome else p
  }

  /** First settlement wins: settling again, with anything, changes nothing. */
  lemma SettleFirstWins(p: Settlement, first: Settlement, later: Settlement)
    requires !first.Pending? && !later.Pending?
    ensures Settle(Settle(p, first), later) == Settle(p, first)
  {
  }

  /** `fns` is the registry, `cbs` the ids that still have a callback in the
      pending-call table, `promises` the promise of every id this side has
      issued, and `outbox` what has been posted on the channel, oldest first. */
  datatype State = State(
    fns: map<string, Handler>,
    cbs: set<Id>,
    promises: map<Id, Settlement>,
    outbox: seq<Message>)

  /** An id has a callback exactly while its promise is still pending. */
  predicate Valid(st: State) {
    && st.cbs <= st.promises.Keys
    && forall id :: id in st.promises ==> (id in st.cbs <==> st.promises[id].Pending?)
  }

  /** Both tables empty at module load. */
  function Initial(): (st: State)
    ensures Valid(st) && st.fns == map[] && st.cbs == {} && st.promises == map[] && st.outbox == []
  {
    State(map[], {}, map[], [])
  }

  /** The message `register` throws with on a duplicate name (spelled as in the source). */
  const DuplicateRegistration := "Mutiple registeration"

  /** `register(name, fn)`. */
  function Register(st: State, name: string, fn: Handler): (r: Result<State>)
    ensures r.Failure? <==> name in st.fns
    ensures r.Failure? ==> r.error == DuplicateRegistration
    ensures r.Ok? ==> r.value.fns.Keys == st.fns.Keys + {name} && r.value.fns[name] == fn
    ensures r.Ok? ==> forall n :: n in st.fns ==> r.value.fns[n] == st.fns[n]
    ensures r.Ok? ==> r.value.cbs == st.cbs && r.value.promises == st.promises && r.value.outbox == st.outbox
    ensures r.Ok? && Valid(st) ==> Valid(r.value)
  {
    if name in st.fns then Failure(DuplicateRegistration)
    else Ok(st.(fns := st.fns[name := fn]))
  }

  /** `invoke(method, args, cfg)` with `id` standing for the fresh `uuid()`. */
  function Invoke(st: State, id: Id, name: string, args: Value, cfg: Value): (r: State)
    requires id !in st.cbs && id !in st.promises
    ensures r.cbs - st.cbs == {id} && st.cbs <= r.cbs
    ensures r.promises.Keys == st.promises.Keys + {id} && r.promises[id] == Pending
    ensures forall other :: other in st.promises ==> r.promises[other] == st.promises[other]
    ensures |r.outbox| == |st.outbox| + 1 && r.outbox[..|st.outbox|] == st.outbox
    ensures r.outbox[|st.outbox|] == Request(id, name, args, cfg)
    ensures r.fns == st.fns
    ensures Valid(st) ==> Valid(r)
  {
    State(st.fns, st.cbs + {id}, st.promises[id := Pending], st.outbox + [Request(id, name, args, cfg)])
  }

  /** The callback `invoke` stores under `id`, called as `cb(result, error?)`:
      it deletes its own entry, then rejects with `error` if one is given and
      resolves with `result` otherwise. */
  function Callback(st: State, id: Id, result: Value, error: Option<string>): (r: State)
    requires id in st.promises
    ensures id !in r.cbs && r.cbs + {id} >= st.cbs && r.cbs <= st.cbs
    ensures r.promises.Keys == st.promises.Keys && !r.promises[id].Pending?
    ensures st.promises[id].Pending? && error.Some? ==> r.promises[id] == Rejected(error.value)
    ensures st.promises[id].Pending? && error.None? ==> r.promises[id] == Resolved(result)
    ensures !st.promises[id].Pending? ==> r.promises[id] == st.promises[id]
    ensures forall other :: other in st.promises && other != id ==> r.promises[other] == st.promises[other]
    ensures r.fns == st.fns && r.outbox == st.outbox
  {
    var outcome := if error.Some? then Rejected(error.value) else Resolved(result);
    st.(cbs := st.cbs - {id}, promises := st.promises[id := Settle(st.promises[id], outcome)])
  }

  /** How a response with these `result` and `error` fields settles the
      caller's promise: rejected when `error` is a string, resolved otherwise. */
  function ResponseSettlement(result: Value, error: Value): (s: Settlement)
    ensures !s.Pending?
    ensures s.Rejected? <==> error.Str?
  {
    if error.Str? then Rejected(error.s) else Resolved(result)
  }

  /** `handleResponse(asyncID, result, errstr)`. On the error path the callback
      runs twice, the second time with no error. */
  function HandleResponse(st: State, id: Id, result: Value, errstr: Value): (r: State)
    requires Valid(st)
    ensures id !in st.cbs ==> r == st
    ensures id in st.cbs ==> r.cbs == st.cbs - {id}
    ensures id in st.cbs ==> r.promises == st.promises[id := ResponseSettlement(result, errstr)]
    ensures r.fns == st.fns && r.outbox == st.outbox
    ensures Valid(r)
  {
    if id !in st.cbs then st
    else
      var first := if errstr.Str? then Callback(st, id, result, Some(errstr.s)) else st;
      Callback(first, id, result, None)
  }

  /** The `Error('No such method')` that `handleRequest` rejects with. */
  function NoSuchMethod(): (t: Thrown)
    ensures t == ThrownValue("Error: No such method")
  {
    ErrorObject("No such method")
  }

  /** What the promise `p` in `handleRequest` settles to: the handler's
      outcome, or the no-such-method error when nothing is registered. */
  function Execute(fns: map<string, Handler>, name: string, args: Value,
                   exec: (Handler, Value) -> Outcome): (o: Outcome)
    ensures name !in fns ==> o == Threw(NoSuchMethod())
    ensures name in fns ==> o == exec(fns[name], args)
  {
    if name in fns then exec(fns[name], args) else Threw(NoSuchMethod())
  }

  /** `String(reason)`: the text of a thrown value, defined for every value. */
  function ErrorText(t: Thrown): string {
    match t
    case ThrownUndefined => "undefined"
    case ThrownNull => "null"
    case ThrownValue(text) => text
  }

  /** `reason.toString()` as line 58 calls it: it throws on `undefined` and `null`. */
  function ToStringAsWritten(t: Thrown): (s: Option<string>)
    ensures s.Some? <==> t.ThrownValue?
    ensures s.Some? ==> s.value == ErrorText(t)
  {
    if t.ThrownValue? then Some(t.text) else None
  }

  /** How the caller's promise should settle for a handler outcome. */
  function Eventual(o: Outcome): (s: Settlement)
    ensures !s.Pending?
  {
    match o
    case Returned(v) => Resolved(v)
    case Threw(t) => Rejected(ErrorText(t))
  }

  /** The one response `handleRequest` is meant to post for a request, with
      the failure's text taken by `String(reason)`. `HandleRequest`, and so
      `Handle` and `HandleAll`, post this corrected reply; `ReplyAsWritten`
      is what the source posts. */
  function Reply(fns: map<string, Handler>, id: Id, name: string, args: Value,
                 exec: (Handler, Value) -> Outcome): (m: Message)
    ensures m.Response? && m.asyncID == id
    ensures m.result == Undefined || m.error == Undefined
    ensures m.error == Undefined || m.error.Str?
    ensures name !in fns ==> m.error == Str("Error: No such method")
    ensures ResponseSettlement(m.result, m.error) == Eventual(Execute(fns, name, args, exec))
  {
    match Execute(fns, name, args, exec)
    case Returned(v) => Response(id, v, Undefined)
    case Threw(t) => Response(id, Undefined, Str(ErrorText(t)))
  }

  /** The response `handleRequest` posts as written: `.catch` calls
      `error.toString()`, which throws for `undefined` and `null`, and then
      nothing is posted at all. */
  function ReplyAsWritten(fns: map<string, Handler>, id: Id, name: string, args: Value,
                          exec: (Handler, Value) -> Outcome): (m: Option<Message>)
    ensures m.None? <==> Execute(fns, name, args, exec).Threw? && !Execute(fns, name, args, exec).reason.ThrownValue?
    ensures m.Some? ==> m.value == Reply(fns, id, name, args, exec)
  {
    match Execute(fns, name, args, exec)
    case Returned(v) => Some(Response(id, v, Undefined))
    case Threw(t) =>
      match ToStringAsWritten(t)
      case Some(text) => Some(Response(id, Undefined, Str(text)))
      case None => None
  }

  /** `handleRequest(asyncID, method, args, cfg)`: `cfg` is not used. */
  function HandleRequest(st: State, id: Id, name: string, args: Value,
                         exec: (Handler, Value) -> Outcome): (r: State)
    ensures r.fns == st.fns && r.cbs == st.cbs && r.promises == st.promises
    ensures |r.outbox| == |st.outbox| + 1 && r.outbox[..|st.outbox|] == st.outbox
    ensures r.outbox[|st.outbox|] == Reply(st.fns, id, name, args, exec)
    ensures Valid(st) ==> Valid(r)
  {
    st.(outbox := st.outbox + [Reply(st.fns, id, name, args, exec)])
  }

  /** `handleRequest` as written: it appends the response `ReplyAsWritten`
      gives, or nothing when there is none. */
  function HandleRequestAsWritten(st: State, id: Id, name: string, args: Value,
                                  exec: (Handler, Value) -> Outcome): (r: State)
    ensures r.fns == st.fns && r.cbs == st.cbs && r.promises == st.promises
    ensures ReplyAsWritten(st.fns, id, name, args, exec).None? ==> r.outbox == st.outbox
    ensures ReplyAsWritten(st.fns, id, name, args, exec).Some? ==> r == HandleRequest(st, id, name, args, exec)
  {
    match ReplyAsWritten(st.fns, id, name, args, exec)
    case Some(m) => st.(outbox := st.outbox + [m])
    case None => st
  }

  /** `handle(msg)`: the subscriber to inbound messages. */
  function Handle(st: State, msg: Message, exec: (Handler, Value) -> Outcome): (r: State)
    requires Valid(st)
    ensures Valid(r)
    ensures r.fns == st.fns && r.promises.Keys == st.promises.Keys
    ensures msg.Type() == RequestType ==> r == HandleRequest(st, msg.asyncID, msg.methodName, msg.args, exec)
    ensures msg.Type() == ResponseType ==> r == HandleResponse(st, msg.asyncID, msg.result, msg.error)
    ensures msg.Type() != RequestType && msg.Type() != ResponseType ==> r == st
  {
    match msg
    case Request(id, name, args, _) => HandleRequest(st, id, name, args, exec)
    case Response(id, result, error) => HandleResponse(st, id, result, error)
    case Other(_) => st
  }

  /** `handle` applied to each inbound message in turn. */
  function HandleAll(st: State, msgs: seq<Message>, exec: (Handler, Value) -> Outcome): (r: State)
    requires Valid(st)
    ensures Valid(r)
    ensures r.fns == st.fns && r.promises.Keys == st.promises.Keys
    decreases |msgs|
  {
    if msgs == [] then st else HandleAll(Handle(st, msgs[0], exec), msgs[1..], exec)
  }
}
