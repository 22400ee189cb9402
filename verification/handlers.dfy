/**
 * The frontend's message-handler registry (frontend/src/services/websocket.js):
 * `addMessageHandler` appends a handler and returns a remover that filters
 * out every entry identical to it; `onmessage` parses the frame once and
 * calls the handlers in registration order. Handlers are compared by
 * identity, which `==` on the type parameter stands for; JSON parsing and
 * "this handler throws" are parameters.
 */
module Handlers {
  import opened Wrappers
  import opened Seqs

  /** `addMessageHandler`: the new handler goes last, everything before it stays. */
  function Add<H>(handlers: seq<H>, h: H): (r: seq<H>)
    ensures |r| == |handlers| + 1
    ensures r[..|handlers|] == handlers && r[|handlers|] == h
  {
    handlers + [h]
  }

  /** The remover `addMessageHandler` returns, applied to the list as it is when called. */
  function Remove<H(==)>(handlers: seq<H>, h: H): (r: seq<H>)
    ensures h !in r
    ensures multiset(r) == multiset(handlers)[h := 0]
    ensures |r| == |handlers| - multiset(handlers)[h]
  {
    if handlers == [] then []
    else
      var rest := Remove(handlers[1..], h);
      SplitFirst(handlers);
      if handlers[0] == h then rest else [handlers[0]] + rest
  }

  /** A list without `h` is left exactly as it is, order included. */
  lemma {:induction false} RemoveAbsent<H>(handlers: seq<H>, h: H)
    requires h !in handlers
    ensures Remove(handlers, h) == handlers
    decreases |handlers|
  {
    if handlers != [] {
      RemoveAbsent(handlers[1..], h);
    }
  }

  /** Removing distributes over concatenation: the survivors keep their relative order. */
  lemma {:induction false} RemoveConcat<H>(xs: seq<H>, ys: seq<H>, h: H)
    ensures Remove(xs + ys, h) == Remove(xs, h) + Remove(ys, h)
    decreases |xs|
  {
    if xs == [] {
      assert xs + ys == ys;
    } else {
      assert (xs + ys)[1..] == xs[1..] + ys;
      RemoveConcat(xs[1..], ys, h);
    }
  }

  /** Calling the remover twice has the effect of calling it once. */
  lemma RemoveIdempotent<H>(handlers: seq<H>, h: H)
    ensures Remove(Remove(handlers, h), h) == Remove(handlers, h)
  {
    RemoveAbsent(Remove(handlers, h), h);
  }

  /** A remover removes every copy of its own handler, whenever that copy was added. */
  lemma RemoveAfterAdd<H>(handlers: seq<H>, h: H)
    ensures Remove(Add(handlers, h), h) == Remove(handlers, h)
  {
    RemoveConcat(handlers, [h], h);
  }

  /** Handlers other than `h` added after the remover was created survive it, in order. */
  lemma LaterHandlersUnaffected<H>(handlers: seq<H>, later: seq<H>, h: H)
    requires h !in later
    ensures Remove(handlers + later, h) == Remove(handlers, h) + later
  {
    RemoveConcat(handlers, later, h);
    RemoveAbsent(later, h);
  }

  /** Removing one handler does not disturb the removal of another. */
  lemma {:induction false} RemoveCommutes<H>(handlers: seq<H>, h: H, k: H)
    ensures Remove(Remove(handlers, h), k) == Remove(Remove(handlers, k), h)
    decreases |handlers|
  {
    if handlers != [] {
      RemoveCommutes(handlers[1..], h, k);
    }
  }

  /** No handler in the list throws on `data`. */
  predicate Quiet<H, D>(handlers: seq<H>, data: D, throws: (H, D) -> bool) {
    forall i | 0 <= i < |handlers| :: !throws(handlers[i], data)
  }

  lemma QuietCons<H, D>(xs: seq<H>, data: D, throws: (H, D) -> bool)
    requires xs != []
    ensures Quiet(xs, data, throws) <==> !throws(xs[0], data) && Quiet(xs[1..], data, throws)
  {
    if !throws(xs[0], data) && Quiet(xs[1..], data, throws) {
      forall i | 0 <= i < |xs| ensures !throws(xs[i], data) {
        if i > 0 {
          assert xs[i] == xs[1..][i - 1];
        }
      }
    }
  }

  /**
   * The `forEach` loop: each handler is called with the same data in list
   * order; a handler that throws is called, and the exception ends the loop.
   */
  function Notify<H, D>(handlers: seq<H>, data: D, throws: (H, D) -> bool): (calls: seq<(H, D)>)
    ensures |calls| <= |handlers|
  {
    if handlers == [] then []
    else if throws(handlers[0], data) then [(handlers[0], data)]
    else [(handlers[0], data)] + Notify(handlers[1..], data, throws)
  }

  /**
   * The calls made are a prefix of the list with the same data; the loop
   * stops right after the first handler that throws, and only there.
   */
  lemma {:induction false} NotifyCalls<H, D>(handlers: seq<H>, data: D, throws: (H, D) -> bool)
    ensures var calls := Notify(handlers, data, throws);
      && (forall i | 0 <= i < |calls| :: calls[i] == (handlers[i], data))
      && (forall i | 0 <= i < |calls| - 1 :: !throws(handlers[i], data))
      && (|calls| < |handlers| ==> calls != [] && throws(handlers[|calls| - 1], data))
      && (Quiet(handlers, data, throws) ==> |calls| == |handlers|)
    decreases |handlers|
  {
    if handlers != [] {
      NotifyCalls(handlers[1..], data, throws);
      QuietCons(handlers, data, throws);
      var calls := Notify(handlers, data, throws);
      if !throws(handlers[0], data) {
        var rest := Notify(handlers[1..], data, throws);
        assert calls == [(handlers[0], data)] + rest;
        forall i | 0 <= i < |calls| ensures calls[i] == (handlers[i], data) {
          if i > 0 { assert calls[i] == rest[i - 1] && handlers[i] == handlers[1..][i - 1]; }
        }
        forall i | 0 <= i < |calls| - 1 ensures !throws(handlers[i], data) {
          if i > 0 { assert handlers[i] == handlers[1..][i - 1]; }
        }
        if |calls| < |handlers| {
          assert handlers[|calls| - 1] == handlers[1..][|rest| - 1];
        }
      }
    }
  }

  /** Notifying a concatenation reaches the second part exactly when the first part is quiet. */
  lemma {:induction false} NotifyConcat<H, D>(xs: seq<H>, ys: seq<H>, data: D, throws: (H, D) -> bool)
    ensures Notify(xs + ys, data, throws)
         == Notify(xs, data, throws) + (if Quiet(xs, data, throws) then Notify(ys, data, throws) else [])
    decreases |xs|
  {
    var tail := if Quiet(xs, data, throws) then Notify(ys, data, throws) else [];
    if xs == [] {
      ConcatEmpty(ys);
      ConcatEmpty(tail);
    } else {
      var x, zs := xs[0], xs + ys;
      ConcatFirst(xs, ys);
      QuietCons(xs, data, throws);
      if throws(x, data) {
        assert Notify(zs, data, throws) == [(x, data)] == Notify(xs, data, throws);
        ConcatEmpty(Notify(xs, data, throws));
      } else {
        NotifyConcat(xs[1..], ys, data, throws);
        assert Notify(zs, data, throws) == [(x, data)] + Notify(xs[1..] + ys, data, throws);
        assert Notify(xs, data, throws) == [(x, data)] + Notify(xs[1..], data, throws);
        AppendAssoc([(x, data)], Notify(xs[1..], data, throws), tail);
      }
    }
  }

  /**
   * `onmessage`: the frame is parsed once; if parsing throws, no handler is
   * called, otherwise the handlers are notified with the parsed data.
   * The result lists the calls made, in order.
   */
  function Dispatch<H, D>(handlers: seq<H>, frame: string, parse: string -> Option<D>,
                          throws: (H, D) -> bool): (calls: seq<(H, D)>)
    ensures parse(frame).None? ==> calls == []
    ensures parse(frame).Some? ==>
      && |calls| <= |handlers|
      && (forall i | 0 <= i < |calls| :: calls[i] == (handlers[i], parse(frame).value))
      && (Quiet(handlers, parse(frame).value, throws) ==> |calls| == |handlers|)
  {
    match parse(frame)
    case None => []
    case Some(data) =>
      NotifyCalls(handlers, data, throws);
      Notify(handlers, data, throws)
  }

  /** A handler whose remover ran before a message arrives is not called for that message. */
  lemma RemovedHandlerNotCalled<H, D>(handlers: seq<H>, h: H, frame: string, parse: string -> Option<D>,
                                      throws: (H, D) -> bool)
    ensures forall i | 0 <= i < |Dispatch(Remove(handlers, h), frame, parse, throws)| ::
      Dispatch(Remove(handlers, h), frame, parse, throws)[i].0 != h
  {
    var calls := Dispatch(Remove(handlers, h), frame, parse, throws);
    forall i | 0 <= i < |calls| ensures calls[i].0 != h {
      assert calls[i].0 == Remove(handlers, h)[i];
    }
  }
}
