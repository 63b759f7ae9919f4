/** The endpoint itself: the module-level maps `fns` and `cbs`, the promises
    handed out by `invoke`, and the channel's outgoing side as an outbox that
    `postMessage` appends to. Each method updates the fields in place and is
    specified by the matching function of `Protocol`. */
module Rpc {
  import opened Wire
  import Protocol

  class Endpoint {
    var fns: map<string, Handler>
    var cbs: set<Id>
    var promises: map<Id, Protocol.Settlement>
    var outbox: seq<Message>

    /** The endpoint's state as a value. */
    function Snapshot(): Protocol.State
      reads this
    {
      Protocol.State(fns, cbs, promises, outbox)
    }

    ghost predicate Valid()
      reads this
    {
      Protocol.Valid(Snapshot())
    }

    /** Module load: both maps empty, nothing posted. */
    constructor ()
      ensures Valid()
      ensures Snapshot() == Protocol.Initial()
    {
      fns := map[];
      cbs := {};
      promises := map[];
      outbox := [];
    }

    /** `register(name, fn)`: throws on a name that is already registered,
        which keeps its first handler. */
    method Register(name: string, fn: Handler) returns (r: Result<()>)
      requires Valid()
      modifies this
      ensures Valid()
      ensures r.Failure? <==> name in old(fns)
      ensures r.Failure? ==> r.error == Protocol.DuplicateRegistration && Snapshot() == old(Snapshot())
      ensures r.Ok? ==> Protocol.Register(old(Snapshot()), name, fn) == Ok(Snapshot())
    {
      if name in fns {
        return Failure(Protocol.DuplicateRegistration);
      }
      fns := fns[name := fn];
      r := Ok(());
    }

    /** `invoke(method, args, cfg)`: `id` is the fresh `uuid()`; the returned
        promise is `promises[id]`. */
    method Invoke(id: Id, name: string, args: Value, cfg: Value)
      requires Valid() && id !in promises
      modifies this
      ensures Valid()
      ensures Snapshot() == Protocol.Invoke(old(Snapshot()), id, name, args, cfg)
      ensures promises[id] == Protocol.Pending
    {
      cbs := cbs + {id};
      promises := promises[id := Protocol.Pending];
      outbox := outbox + [Request(id, name, args, cfg)];
    }

    /** The callback `invoke` stores under `id`. It may run after its entry is
        gone, and then only the promise's first settlement stands. */
    method Callback(id: Id, result: Value, error: Option<string>)
      requires Valid() && id in promises
      modifies this
      ensures Valid()
      ensures Snapshot() == Protocol.Callback(old(Snapshot()), id, result, error)
    {
      cbs := cbs - {id};
      if error.Some? {
        promises := promises[id := Protocol.Settle(promises[id], Protocol.Rejected(error.value))];
      } else {
        promises := promises[id := Protocol.Settle(promises[id], Protocol.Resolved(result))];
      }
    }

    /** `handleResponse(asyncID, result, errstr)`: an unknown id is dropped;
        otherwise the callback runs, twice on the error path. */
    method HandleResponse(id: Id, result: Value, errstr: Value)
      requires Valid()
      modifies this
      ensures Valid()
      ensures Snapshot() == Protocol.HandleResponse(old(Snapshot()), id, result, errstr)
    {
      if id !in cbs {
        return;
      }
      if errstr.Str? {
        Callback(id, result, Some(errstr.s));
      }
      Callback(id, result, None);
    }

    /** `handleRequest(asyncID, method, args, cfg)`, with `exec` giving the
        eventual outcome of running a handler on arguments. */
    method HandleRequest(id: Id, name: string, args: Value, exec: (Handler, Value) -> Outcome)
      requires Valid()
      modifies this
      ensures Valid()
      ensures Snapshot() == Protocol.HandleRequest(old(Snapshot()), id, name, args, exec)
    {
      var outcome: Outcome;
      if name !in fns {
        outcome := Threw(ErrorObject("No such method"));
      } else {
        outcome := exec(fns[name], args);
      }
      var reply: Message;
      match outcome {
        case Returned(v) =>
          reply := Response(id, v, Undefined);
        case Threw(t) =>
          reply := Response(id, Undefined, Str(Protocol.ErrorText(t)));
      }
      outbox := outbox + [reply];
    }

    /** `handle(msg)`: the channel's message listener. */
    method Handle(msg: Message, exec: (Handler, Value) -> Outcome)
      requires Valid()
      modifies this
      ensures Valid()
      ensures Snapshot() == Protocol.Handle(old(Snapshot()), msg, exec)
    {
      match msg {
        case Request(id, name, args, _) =>
          HandleRequest(id, name, args, exec);
        case Response(id, result, error) =>
          HandleResponse(id, result, error);
        case Other(_) =>
      }
    }
  }

  /** A handler that adds the fields `a` and `b` of its argument object. */
  function Adder(h: Handler, args: Value): Outcome {
    match args
    case Obj(f) =>
      if "a" in f && "b" in f && f["a"].Num? && f["b"].Num? then Returned(Num(f["a"].n + f["b"].n))
      else Threw(ErrorObject("bad arguments"))
    case _ => Threw(ErrorObject("bad arguments"))
  }

  /** Two endpoints joined by a channel: the worker registers `add`, the
      coordinator calls it and a missing method, and the worker's responses
      are delivered in the opposite order. */
  method CallAcrossChannel()
  {
    var coordinator := new Endpoint();
    var worker := new Endpoint();
    var ok := worker.Register("add", Handler(0));
    ok := worker.Register("add", Handler(1));
    assert ok.Failure? && worker.fns["add"] == Handler(0);

    coordinator.Invoke("id-1", "add", Obj(map["a" := Num(2), "b" := Num(3)]), Undefined);
    coordinator.Invoke("id-2", "missing", Undefined, Undefined);
    worker.Handle(coordinator.outbox[0], Adder);
    worker.Handle(coordinator.outbox[1], Adder);
    assert |worker.outbox| == 2;

    coordinator.Handle(worker.outbox[1], Adder);
    coordinator.Handle(worker.outbox[0], Adder);
    assert coordinator.promises["id-1"] == Protocol.Resolved(Num(5));
    assert coordinator.promises["id-2"] == Protocol.Rejected("Error: No such method");

    coordinator.Handle(worker.outbox[0], Adder);
    assert coordinator.promises["id-1"] == Protocol.Resolved(Num(5));
    assert coordinator.cbs == {};
  }
}
