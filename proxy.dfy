/**
 * The client-side proxy of isomorphine: a stand-in object with one method per
 * method of a remote entity, the dispatcher those methods are bound to, and the
 * translation of the HTTP outcome into the arguments of the caller's
 * error-first callback.
 *
 * The HTTP request itself is not modelled: what the transport delivers to the
 * completion handler, an optional error and an optional response, is an input.
 * So is the callback the dispatcher found among the call's arguments.
 */
module Proxy {
  import opened JsValues

  const MethodRequiredMessage := "Method is required."
  const NoResponseMessage :=
    "No response from server. (Hint: Have you mounted isomorphine.router() in your app?)"
  const NotAnArrayMessage := "Fetched payload is not an array."

  // ---------------------------------------------------------------------------
  // Proxy factory
  // ---------------------------------------------------------------------------

  /** `proxyDispatcher.bind(this, name, method)`: the dispatcher with its first two arguments fixed. */
  datatype BoundMethod = BoundMethod(entityName: string, methodName: string)

  /** A proxy instance: its methods, by name. */
  type ProxyObject = map<string, BoundMethod>

  /**
   * Builds the proxy for entity `name`: the loop over the entity's keys writes
   * one method per key, bound to `(name, key)`. The entity's values are never used.
   */
  method NewProxy(name: string, entity: map<string, Value>) returns (proxy: ProxyObject)
    ensures proxy.Keys == entity.Keys
    ensures forall m :: m in proxy ==> proxy[m] == BoundMethod(name, m)
  {
    proxy := map[];
    var pending := entity.Keys;
    while pending != {}
      invariant pending <= entity.Keys
      invariant proxy.Keys == entity.Keys - pending
      invariant forall m :: m in proxy ==> proxy[m] == BoundMethod(name, m)
      decreases pending
    {
      var m :| m in pending;
      proxy := proxy[m := BoundMethod(name, m)];
      pending := pending - {m};
    }
  }

  /** The `arguments` the dispatcher sees when bound method `b` is called with `args`. */
  function BoundArguments(b: BoundMethod, args: seq<Value>): (r: seq<Value>)
  {
    [Str(b.entityName), Str(b.methodName)] + args
  }

  // ---------------------------------------------------------------------------
  // Call dispatcher
  // ---------------------------------------------------------------------------

  /**
   * What the dispatcher has computed by line 31: the entity and method that name
   * the endpoint, and the payload before the callback is replaced by its marker.
   */
  datatype Call = Call(entityName: Value, methodName: Value, payload: seq<Value>)

  /** A dispatched call, or the invariant error thrown synchronously for a missing method name. */
  datatype Dispatch = Sent(call: Call) | Thrown(error: ErrorValue)

  /**
   * The first part of `proxyDispatcher`: the check that a method name was given,
   * and the payload, which is every argument after the entity name and the method.
   * Callback detection, its replacement by a marker and the endpoint path are
   * computed by helpers that are not part of this model.
   */
  function DispatchCall(arguments: seq<Value>): (r: Dispatch)
    ensures r.Thrown? <==> !Truthy(Arg(arguments, 1))
    ensures r.Thrown? ==> r.error == ErrorValue(MethodRequiredMessage)
    ensures r.Sent? ==> r.call.entityName == Arg(arguments, 0) && r.call.methodName == Arg(arguments, 1)
    ensures r.Sent? ==> |r.call.payload| == |arguments| - 2
    ensures r.Sent? ==> forall i :: 0 <= i < |r.call.payload| ==> r.call.payload[i] == arguments[i + 2]
  {
    if !Truthy(Arg(arguments, 1)) then
      Thrown(ErrorValue(MethodRequiredMessage))
    else
      Sent(Call(Arg(arguments, 0), Arg(arguments, 1), SliceFrom(arguments, 2)))
  }

  /**
   * Calling a proxy method is dispatching with the bound entity and method in
   * front of the caller's arguments: the payload is exactly those arguments, in
   * order, unless the method name is the empty string, which the dispatcher rejects.
   */
  lemma BoundCallDispatch(b: BoundMethod, args: seq<Value>)
    ensures b.methodName == "" ==> DispatchCall(BoundArguments(b, args)) == Thrown(ErrorValue(MethodRequiredMessage))
    ensures b.methodName != "" ==>
      DispatchCall(BoundArguments(b, args)) == Sent(Call(Str(b.entityName), Str(b.methodName), args))
  {
  }

  // ---------------------------------------------------------------------------
  // Completion handler
  // ---------------------------------------------------------------------------

  /** A response as the transport delivers it; `body` is the decoded JSON body. */
  datatype Response = Response(body: Value)

  /** The `(err, body)` pair the completion handler passes on. */
  datatype Normalized = Normalized(err: Option<ErrorValue>, body: Value)

  /** No response at all, or one whose body is falsy. */
  predicate NoUsableResponse(res: Option<Response>)
  {
    res.None? || !Truthy(res.value.body)
  }

  /**
   * The completion handler's first step: without a usable response the body
   * becomes `null` and an error is guaranteed, the transport's own if it gave
   * one, else a fresh "No response from server" error; otherwise the error and
   * the body pass on unchanged.
   */
  function Normalize(err: Option<ErrorValue>, res: Option<Response>): (r: Normalized)
    ensures NoUsableResponse(res) ==> r.body == Null && r.err.Some?
    ensures err.Some? ==> r.err == err
    ensures err.None? && NoUsableResponse(res) ==> r.err == Some(ErrorValue(NoResponseMessage))
    ensures !NoUsableResponse(res) ==> r.err == err && r.body == res.value.body
    ensures r.err.None? ==> Truthy(r.body)
  {
    if NoUsableResponse(res) then
      Normalized(if err.Some? then err else Some(ErrorValue(NoResponseMessage)), Null)
    else
      Normalized(err, res.value.body)
  }

  // ---------------------------------------------------------------------------
  // Response handling
  // ---------------------------------------------------------------------------

  /** The function a callback invocation reaches: the caller's, or the no-op stand-in. */
  datatype Target = Callback(id: nat) | EmptyFunction

  /** `callback || util.emptyFunction` */
  function TargetOf(callback: Option<nat>): (t: Target)
    ensures callback.Some? ==> t == Callback(callback.value)
    ensures callback.None? ==> t == EmptyFunction
  {
    if callback.Some? then Callback(callback.value) else EmptyFunction
  }

  /** Node's error-first convention: a lone error, or `null` followed by the results. */
  predicate ErrorFirst(args: seq<Value>)
  {
    |args| >= 1 && (args[0].Null? || (args[0].Error? && |args| == 1))
  }

  /**
   * The arguments `handleResponse` applies the callback to. An error wins and
   * the body is not looked at; then a `values` field that is not an array is a
   * malformed envelope; otherwise `null` comes first and the values follow in order.
   * Reading `data.values` needs a body that is neither null nor undefined, which
   * the completion handler guarantees whenever there is no error.
   */
  function CallbackArgs(err: Option<ErrorValue>, data: Value): (args: seq<Value>)
    requires err.Some? || !Nullish(data)
    ensures ErrorFirst(args)
    ensures err.Some? ==> args == [Error(err.value)]
    ensures args[0].Null? <==> err.None? && Property(data, "values").Array?
    ensures err.None? && !Property(data, "values").Array? ==>
      args == [Error(ErrorValue(NotAnArrayMessage))]
    ensures args[0].Null? ==>
      var values := Property(data, "values").elems;
      |args| == |values| + 1 && forall i :: 0 <= i < |values| ==> args[i + 1] == values[i]
  {
    if err.Some? then
      [Error(err.value)]
    else
      var values := Property(data, "values");
      if !values.Array? then
        [Error(ErrorValue(NotAnArrayMessage))]
      else
        [Null] + values.elems
  }

  /** The callback arguments that a transport outcome `(err, res)` leads to. */
  function Resolution(err: Option<ErrorValue>, res: Option<Response>): (args: seq<Value>)
    ensures ErrorFirst(args)
    ensures err.Some? ==> args == [Error(err.value)]
    ensures NoUsableResponse(res) ==>
      args == [Error(if err.Some? then err.value else ErrorValue(NoResponseMessage))]
    ensures args[0].Null? ==> err.None? && res.Some?
    ensures !NoUsableResponse(res) && err.None? ==> args == CallbackArgs(None, res.value.body)
  {
    var n := Normalize(err, res);
    CallbackArgs(n.err, n.body)
  }

  /** One call of a function: which function, with which arguments. */
  datatype Invocation = Invocation(target: Target, args: seq<Value>)

  /** Records every callback invocation, in order. */
  class CallLog {
    var calls: seq<Invocation>

    constructor ()
      ensures calls == []
    {
      calls := [];
    }

    /** `target.apply(this, args)` */
    method Invoke(target: Target, args: seq<Value>)
      modifies this
      ensures calls == old(calls) + [Invocation(target, args)]
    {
      calls := calls + [Invocation(target, args)];
    }
  }

  /**
   * `handleResponse(err, data, callback)`: replaces a missing callback by the
   * no-op, and invokes it exactly once, with the arguments `CallbackArgs` gives.
   * On success the `null` error slot is put in front of the values before the call.
   */
  method HandleResponse(err: Option<ErrorValue>, data: Value, callback: Option<nat>, log: CallLog)
    requires err.Some? || !Nullish(data)
    modifies log
    ensures log.calls == old(log.calls) + [Invocation(TargetOf(callback), CallbackArgs(err, data))]
  {
    var target := TargetOf(callback);
    if err.Some? {
      log.Invoke(target, [Error(err.value)]);
      return;
    }
    var values := Property(data, "values");
    if !values.Array? {
      log.Invoke(target, [Error(ErrorValue(NotAnArrayMessage))]);
      return;
    }
    var args := [Null] + values.elems;
    log.Invoke(target, args);
  }

  /** The completion handler given to the request: normalises, then hands over. */
  method Complete(err: Option<ErrorValue>, res: Option<Response>, callback: Option<nat>, log: CallLog)
    modifies log
    ensures log.calls == old(log.calls) + [Invocation(TargetOf(callback), Resolution(err, res))]
  {
    var n := Normalize(err, res);
    NormalizedBodyReadable(err, res);
    HandleResponse(n.err, n.body, callback, log);
  }

  /**
   * `proxyDispatcher` end to end, with the request abstracted: `callback` is the
   * function found in the payload, `(err, res)` what the transport delivered.
   * A missing method name throws before any request and no callback runs;
   * otherwise the callback runs exactly once.
   */
  method ProxyDispatcher(arguments: seq<Value>, callback: Option<nat>,
                         err: Option<ErrorValue>, res: Option<Response>, log: CallLog)
    returns (thrown: Option<ErrorValue>)
    modifies log
    ensures thrown.Some? <==> !Truthy(Arg(arguments, 1))
    ensures thrown.Some? ==> thrown.value == ErrorValue(MethodRequiredMessage) && log.calls == old(log.calls)
    ensures thrown.None? ==>
      log.calls == old(log.calls) + [Invocation(TargetOf(callback), Resolution(err, res))]
  {
    var dispatch := DispatchCall(arguments);
    if dispatch.Thrown? {
      return Some(dispatch.error);
    }
    Complete(err, res, callback, log);
    thrown := None;
  }

  // ---------------------------------------------------------------------------
  // Properties
  // ---------------------------------------------------------------------------

  /**
   * What the normaliser hands over always meets `handleResponse`'s demand: an
   * error, or a body that is neither null nor undefined, so reading `data.values` is safe.
   */
  lemma NormalizedBodyReadable(err: Option<ErrorValue>, res: Option<Response>)
    ensures Normalize(err, res).err.Some? || !Nullish(Normalize(err, res).body)
  {
  }

  /** The wire round trip: a reply `{ "values": vs }` with no error reaches the callback as `(null, ...vs)`. */
  lemma EnvelopeRoundTrip(vs: seq<Value>)
    ensures Resolution(None, Some(Response(Object(map["values" := Array(vs)])))) == [Null] + vs
  {
  }

  /** An empty `values` array still calls back, with `null` alone. */
  lemma EmptyValuesCallBackWithNull(data: Value)
    requires !Nullish(data) && Property(data, "values") == Array([])
    ensures CallbackArgs(None, data) == [Null]
  {
  }

  /**
   * A reply whose `values` field is absent or not an array, with no error,
   * calls back with the malformed-envelope error alone.
   */
  lemma MalformedEnvelope(fields: map<string, Value>)
    requires "values" !in fields || !fields["values"].Array?
    ensures Resolution(None, Some(Response(Object(fields)))) == [Error(ErrorValue(NotAnArrayMessage))]
  {
  }

  /**
   * Entity "math", method "add", called as `add(2, 3, cb)`: the payload is the
   * three arguments (before the callback is replaced by its marker); a reply
   * `{ "values": [5] }` resolves `cb(null, 5)`, and no reply at all resolves
   * `cb(err)` with the missing-router hint.
   */
  lemma MathAddScenario(cb: nat)
    ensures DispatchCall(BoundArguments(BoundMethod("math", "add"), [Number(2), Number(3), Function(cb)]))
         == Sent(Call(Str("math"), Str("add"), [Number(2), Number(3), Function(cb)]))
    ensures Resolution(None, Some(Response(Object(map["values" := Array([Number(5)])])))) == [Null, Number(5)]
    ensures Resolution(None, None) == [Error(ErrorValue(NoResponseMessage))]
  {
  }
}
