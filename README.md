# isomorphine client proxy, modelled in Dafny

isomorphine lets browser code call methods of a server-side "entity" as if they
were local: `Proxy(name, entity)` builds a stand-in object with one method per
key of the entity map; each method is the shared dispatcher bound to the entity
name and the method name. The dispatcher checks that a method name was given,
takes the call's remaining arguments as the payload, POSTs it, and when the
request completes turns the `(err, res)` pair into the arguments of the
caller's error-first callback: a lone error, or `null` followed by the values of
the reply's `values` array.

The model has two modules:

- `JsValues` (`js_values.dfy`): the JavaScript values the proxy handles (JSON
  values, functions by identity, `Error` objects), truthiness, property reads,
  `arguments[i]` and `Array.prototype.slice`.
- `Proxy` (`proxy.dfy`): the factory loop, the dispatcher, the completion
  handler's normalisation, `handleResponse`, and the end-to-end dispatcher with
  the transport's outcome as an input. Callback invocations are recorded in a
  `CallLog` object, so that "called exactly once, with these arguments" is part
  of the methods' postconditions.

When there is no usable response and the transport also reported an error, the
code (`err || new Error(...)`) keeps the transport's error and drops the
"No response from server" message. The model follows the code.

## Model

| member | source | states |
|---|---|---|
| `Proxy.NewProxy` | lib/proxy.js:17-25 | the proxy has a method under exactly each key of the entity map, and no other; each is bound to `(name, key)` |
| `JsValues.SliceFrom` | lib/proxy.js:31 | `slice(start)` keeps every element from `start` on, in order, and is empty when the array is shorter |
| `Proxy.DispatchCall` | lib/proxy.js:27-31 | a falsy method name throws "Method is required." and only then; otherwise the call carries the entity and method arguments and a payload equal to the arguments after the first two, in order |
| `Proxy.BoundCallDispatch` | lib/proxy.js:23-31 | calling a bound proxy method with `args` computes a payload equal to `args` (before the callback is replaced by its marker); a method bound to the empty key always throws the invariant error |
| `Proxy.Normalize` | lib/proxy.js:48-53 | with no response or a falsy body, the body becomes null and an error is guaranteed: the transport's error unchanged if present, else the "No response from server" error; with a body, error and body pass on unchanged; no error implies a truthy body |
| `Proxy.NormalizedBodyReadable` | lib/proxy.js:49-55 | what the normaliser hands over always meets `handleResponse`'s requirement (an error, or a body that is not null or undefined), so `data.values` can be read; `Complete` relies on it |
| `Proxy.TargetOf` | lib/proxy.js:60 | a missing callback is replaced by the no-op function; a given one is used |
| `Proxy.CallbackArgs` | lib/proxy.js:59-84 | the callback arguments follow the error-first shape; an error gives exactly `[err]` whatever the body; a non-array `values` gives exactly the "Fetched payload is not an array." error; the first argument is null exactly on success, and then the arguments are the values in order, one more than there are values |
| `Proxy.Resolution` | lib/proxy.js:48-84 | for any transport outcome the callback arguments are error-first; a transport error is delivered alone and unchanged; no usable response delivers exactly one error (the transport's, or the missing-router hint); a usable body with no error is decoded as `handleResponse` does |
| `Proxy.HandleResponse` | lib/proxy.js:59-84 | every path invokes the callback (or the no-op) exactly once, with the arguments `CallbackArgs` gives, and logs nothing else |
| `Proxy.Complete` | lib/proxy.js:48-56 | the completion handler invokes the callback exactly once, with the arguments `Resolution` gives |
| `Proxy.ProxyDispatcher` | lib/proxy.js:27-57 | a falsy method name throws the invariant error and invokes no callback; otherwise the callback runs exactly once with the arguments `Resolution` gives for the transport's outcome |
| `Proxy.EnvelopeRoundTrip` | lib/proxy.js:72-83 | a reply `{ "values": vs }` without error reaches the callback as `(null, ...vs)` |
| `Proxy.EmptyValuesCallBackWithNull` | lib/proxy.js:74-83 | an empty `values` array calls back with `null` alone |
| `Proxy.MalformedEnvelope` | lib/proxy.js:72-75 | an object reply without a `values` array calls back with the malformed-envelope error alone |
| `Proxy.MathAddScenario` | lib/proxy.js:22-83 | `math.add(2, 3, cb)` computes the payload `[2, 3, cb]` of line 31, before the callback is replaced by its marker; reply `{ "values": [5] }` resolves `cb(null, 5)`; no reply resolves the missing-router error |

## Left out

- The HTTP request (`request.post(...).send(...).set(...).end(...)`): network I/O through the superagent library; the model takes the transport's `(err, res)` outcome as an input of `Complete` and `ProxyDispatcher`.
- `util.firstFunction`, `util.transformCallback`, `util.buildEndpoint`, `util.invariant`: `lib/util.js` is not part of this model. The callback found in the payload is an input; the marker that replaces it and the endpoint path are not computed; the invariant check is modelled as "a falsy method name throws an error whose message is exactly `Method is required.`"; that `util.invariant` throws an error with exactly the message it is given is an assumption of the model.
- `debug(...)` tracing and `console.error`: they only observe.
- The constructor-versus-plain-call form of `Proxy` and the `this` binding: one construction form, the proxy as a map from method name to its binding.
- Property enumeration: JavaScript's `for...in` also visits inherited enumerable properties and visits keys in a fixed order; the model iterates the entity map's own keys in an arbitrary order, which yields the same proxy.
- `values.unshift(null)` mutates the decoded body's array in place; the model builds the prepended sequence as a value, since nothing else reads the body afterwards.
- JavaScript numbers are modelled as integers (no NaN, no `-0`); properties of primitives and arrays, and prototype properties, read as `undefined`. Neither changes a branch: any `values` that is not an array takes the malformed-envelope branch.
- Asynchrony: a request that never completes never calls back; the model only describes what happens once the transport delivers an outcome.
