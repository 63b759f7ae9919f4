/** What the endpoint promises over whole runs: every inbound request is
    answered once under its own id, every promise is settled by the first
    response carrying its id and by nothing else, and a call made on one side
    settles with the outcome of the handler on the other. */
module Properties {
  import opened Wire
  import opened Protocol

  /** The settlement carried by the first response for `id` in `msgs`, if any. */
  function FirstResponse(msgs: seq<Message>, id: Id): Option<Settlement>
  {
    if msgs == [] then None
    else if msgs[0].Response? && msgs[0].asyncID == id then
      Some(ResponseSettlement(msgs[0].result, msgs[0].error))
    else FirstResponse(msgs[1..], id)
  }

  /** A promise is settled by the first response that carries its id, and
      only if it was still pending; responses for other ids, requests and
      other messages never touch it, and later responses for the same id are
      dropped. Responses may arrive in any order. */
  lemma {:induction false} SettledByFirstResponse(st: State, msgs: seq<Message>,
                                                  exec: (Handler, Value) -> Outcome, id: Id)
    requires Valid(st) && id in st.promises
    ensures HandleAll(st, msgs, exec).promises[id] ==
      if st.promises[id].Pending? && FirstResponse(msgs, id).Some?
      then FirstResponse(msgs, id).value
      else st.promises[id]
    decreases |msgs|
  {
    if msgs != [] {
      var next := Handle(st, msgs[0], exec);
      SettledByFirstResponse(next, msgs[1..], exec, id);
    }
  }

  /** Once settled, a promise never changes again. */
  lemma SettlesAtMostOnce(st: State, msgs: seq<Message>, exec: (Handler, Value) -> Outcome, id: Id)
    requires Valid(st) && id in st.promises && !st.promises[id].Pending?
    ensures HandleAll(st, msgs, exec).promises[id] == st.promises[id]
    ensures id !in HandleAll(st, msgs, exec).cbs
  {
    SettledByFirstResponse(st, msgs, exec, id);
  }

  /** A second response for an id that has already been answered, like one for
      an id this side never issued, changes nothing. */
  lemma DuplicateResponseDropped(st: State, id: Id, result: Value, error: Value,
                                 result': Value, error': Value, exec: (Handler, Value) -> Outcome)
    requires Valid(st)
    ensures
      var once := Handle(st, Response(id, result, error), exec);
      Handle(once, Response(id, result', error'), exec) == once
  {
  }

  /** The responses `handle` posts for the requests among `msgs`, in order. */
  function Replies(fns: map<string, Handler>, msgs: seq<Message>,
                   exec: (Handler, Value) -> Outcome): seq<Message>
  {
    if msgs == [] then []
    else
      var rest := Replies(fns, msgs[1..], exec);
      match msgs[0]
      case Request(id, name, args, _) => [Reply(fns, id, name, args, exec)] + rest
      case _ => rest
  }

  /** The requests among `msgs`, in order. */
  function Requests(msgs: seq<Message>): (reqs: seq<Message>)
    ensures forall m :: m in reqs ==> m.Request?
  {
    if msgs == [] then []
    else if msgs[0].Request? then [msgs[0]] + Requests(msgs[1..])
    else Requests(msgs[1..])
  }

  /** Handling a run of messages posts exactly the replies to its requests,
      after what was already posted, and nothing else. */
  lemma {:induction false} AnswersEveryRequest(st: State, msgs: seq<Message>,
                                               exec: (Handler, Value) -> Outcome)
    requires Valid(st)
    ensures HandleAll(st, msgs, exec).outbox == st.outbox + Replies(st.fns, msgs, exec)
    decreases |msgs|
  {
    if msgs != [] {
      var next := Handle(st, msgs[0], exec);
      AnswersEveryRequest(next, msgs[1..], exec);
    }
  }

  /** The i-th reply answers the i-th request: one response per request,
      carrying that request's id and the outcome of the named handler. */
  lemma {:induction false} RepliesPairWithRequests(fns: map<string, Handler>, msgs: seq<Message>,
                                                   exec: (Handler, Value) -> Outcome)
    ensures |Replies(fns, msgs, exec)| == |Requests(msgs)|
    ensures forall i :: 0 <= i < |Requests(msgs)| ==>
      var req := Requests(msgs)[i];
      && Replies(fns, msgs, exec)[i].Response?
      && Replies(fns, msgs, exec)[i].asyncID == req.asyncID
      && ResponseSettlement(Replies(fns, msgs, exec)[i].result, Replies(fns, msgs, exec)[i].error)
         == Eventual(Execute(fns, req.methodName, req.args, exec))
    decreases |msgs|
  {
    if msgs != [] {
      RepliesPairWithRequests(fns, msgs[1..], exec);
    }
  }

  /** A call issued by one endpoint and served by the other settles with the
      outcome of the handler registered under that name on the serving side,
      and leaves the caller's pending-call table as it was before the call. */
  lemma RoundTrip(caller: State, callee: State, id: Id, name: string, args: Value, cfg: Value,
                  exec: (Handler, Value) -> Outcome)
    requires Valid(caller) && Valid(callee) && id !in caller.promises
    ensures
      var sent := Invoke(caller, id, name, args, cfg);
      var served := Handle(callee, sent.outbox[|sent.outbox| - 1], exec);
      var done := Handle(sent, served.outbox[|served.outbox| - 1], exec);
      && done.promises[id] == Eventual(Execute(callee.fns, name, args, exec))
      && done.cbs == caller.cbs
  {
  }

  /** A handler that throws `new Error("boom")` rejects the caller's promise
      with the message "Error: boom": the serving side sends the error's
      `toString()` and the calling side wraps that text in a new `Error`. */
  lemma ThrownErrorKeepsItsPrefix(caller: State, callee: State, id: Id, name: string, args: Value,
                                  cfg: Value, exec: (Handler, Value) -> Outcome)
    requires Valid(caller) && Valid(callee) && id !in caller.promises
    requires name in callee.fns && exec(callee.fns[name], args) == Threw(ErrorObject("boom"))
    ensures
      var sent := Invoke(caller, id, name, args, cfg);
      var served := Handle(callee, sent.outbox[|sent.outbox| - 1], exec);
      var done := Handle(sent, served.outbox[|served.outbox| - 1], exec);
      done.promises[id] == Rejected("Error: boom")
  {
  }

  /** Two calls outstanding at once, answered in the opposite order: each
      promise settles with its own response. */
  lemma ResponsesInReverseOrder(st: State, id1: Id, name1: string, args1: Value,
                                id2: Id, name2: string, args2: Value, cfg: Value,
                                result1: Value, error1: Value, result2: Value, error2: Value,
                                exec: (Handler, Value) -> Outcome)
    requires Valid(st) && id1 != id2 && id1 !in st.promises && id2 !in st.promises
    ensures
      var issued := Invoke(Invoke(st, id1, name1, args1, cfg), id2, name2, args2, cfg);
      var done := HandleAll(issued, [Response(id2, result2, error2), Response(id1, result1, error1)], exec);
      && done.promises[id1] == ResponseSettlement(result1, error1)
      && done.promises[id2] == ResponseSettlement(result2, error2)
  {
    var issued := Invoke(Invoke(st, id1, name1, args1, cfg), id2, name2, args2, cfg);
    var msgs := [Response(id2, result2, error2), Response(id1, result1, error1)];
    assert FirstResponse(msgs, id1) == Some(ResponseSettlement(result1, error1));
    assert FirstResponse(msgs, id2) == Some(ResponseSettlement(result2, error2));
    SettledByFirstResponse(issued, msgs, exec, id1);
    SettledByFirstResponse(issued, msgs, exec, id2);
  }

  /** As written, a handler that rejects with `null` or `undefined` gets no
      response at all: `toString()` throws inside `.catch`. */
  lemma NullRejectionGoesUnanswered(fns: map<string, Handler>, id: Id, name: string, args: Value,
                                    exec: (Handler, Value) -> Outcome)
    requires name in fns && exec(fns[name], args) in {Threw(ThrownNull), Threw(ThrownUndefined)}
    ensures ReplyAsWritten(fns, id, name, args, exec) == None
  {
  }

  /** As written, the caller of a handler that rejects with `null` waits
      forever. The serving side handles the caller's request and what it posts
      in answer carries no response for the call's id; the caller then
      receives what was posted, followed by any other messages without such a
      response, and its promise stays pending with its callback in the table. */
  lemma {:induction false} NullRejectionLeavesCallerPending(caller: State, callee: State, id: Id, name: string,
                                                            args: Value, cfg: Value,
                                                            exec: (Handler, Value) -> Outcome,
                                                            later: seq<Message>)
    requires Valid(caller) && id !in caller.promises
    requires name in callee.fns && exec(callee.fns[name], args) == Threw(ThrownNull)
    requires FirstResponse(later, id).None?
    ensures
      var sent := Invoke(caller, id, name, args, cfg);
      var served := HandleRequestAsWritten(callee, id, name, args, exec);
      var posted := served.outbox[|callee.outbox|..];
      && FirstResponse(posted, id).None?
      && HandleAll(sent, posted + later, exec).promises[id] == Pending
      && id in HandleAll(sent, posted + later, exec).cbs
  {
    var sent := Invoke(caller, id, name, args, cfg);
    var served := HandleRequestAsWritten(callee, id, name, args, exec);
    var posted := served.outbox[|callee.outbox|..];
    assert posted == [];
    assert posted + later == later;
    SettledByFirstResponse(sent, posted + later, exec, id);
  }
}
