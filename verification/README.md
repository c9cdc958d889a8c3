# netmera4j: retry interceptor, builder validation and request projections

netmera4j is a Java client for the Netmera push-notification REST API. It is built on Retrofit, OkHttp and Failsafe. This project models the three pieces of sequential logic in `NetmeraApi.java` as pure Dafny functions and proves properties of them:

- **`Interceptor`** (`interceptor.dfy`): the OkHttp interceptor that the `NetmeraApi` constructor installs. It appends the API-key header to the outgoing request once. It sends that request. If the response code is above 499, it sends the *same* request again under a Failsafe retry policy. The policy handles a `SocketException` (including subclasses such as `ConnectException`, but not `SocketTimeoutException` or `UnknownHostException`, which are not retried) or a response code above 499, and allows `maxRetryCount` retries. The network is a script: the finite sequence of outcomes (`Response(code)`, `SocketException`, `OtherException`) that successive attempts produce. `FailsafeGet` is the policy's loop, written as a recursion over a shrinking retry budget. `PolicyResult` is an independent, declarative description of what that loop does, and it is proved to pin down exactly one execution.
- **`ApiBuilder`** (`builder.dfy`): `NetmeraApiBuilder`, covering its defaults, its static factory and its seven setters. Each setter returns the builder object it leaves behind, plus the validation error if it threw one. A fluent chain of setters (`Chain`) stops at the first setter that throws. Because Java setters update the builder in place, the builder then keeps every update made before the throw.
- **`Dispatch`** (`dispatch.dfy`): the `sendRequest` overloads that compute their call arguments. The bulk-event overload flattens events into their parameter maps. The two "next page" overloads pass the previous response's `nextPage` token through unchanged.
- **`Nullable`** (`nullable.dfy`): Java `null` made explicit, for the null checks.

Modelling choices:

- The API-key header name (`NETMERA_HEADER_KEY`) is not part of this model. It is a parameter.
- Java `int` is the `int32` newtype. The timeout setters check `0 ≤ v ≤ Integer.MAX_VALUE`. For an `int` the upper bound always holds, so their contracts state the test as "not negative".
- `Assert.mustBetween` and `Assert.notNull` are not part of this model. They are taken to be an inclusive range check and a null check that throw. Their verdict is the `Check` datatype: `Pass` or `Fail(error)`.
- Failsafe's behaviour is taken as follows. `withMaxRetries(n)` allows up to `n + 1` executions. An outcome the policy does not handle ends the loop and is handed back. When retries run out, the last outcome is handed back: a response is returned and an exception is raised. An exception thrown by an event listener is discarded and does not change the execution. The `onFailedAttempt` listener (line 65) throws one after every `SocketException`, because it calls `.code()` on a missing last result.

## Model

| member | source | states |
|---|---|---|
| `Interceptor.WithApiKey` | src/main/java/netmera4j/NetmeraApi.java:69 | The built request keeps the incoming headers, in their order, and appends the API-key header, name and key exactly as given, after them. That header occurs exactly once more than in the incoming request, and every other header occurs as often as before. The URL is unchanged. |
| `Interceptor.FailsafeGet` | src/main/java/netmera4j/NetmeraApi.java:61-66 | The policy's loop satisfies `PolicyResult`. It runs between 1 and `maxRetries + 1` attempts. Every attempt before the last was handled (a `SocketException` or code > 499). The handed-back outcome is the last attempt's. A handled last outcome means the budget ran out. |
| `Interceptor.Intercept` | src/main/java/netmera4j/NetmeraApi.java:68-78 | Every sent request is the one header-bearing request. Between 1 and `maxRetryCount + 2` are sent. The outcome is the last attempt's. Exactly one attempt is made iff the first outcome is not a response with code > 499. That covers a code ≤ 499, returned unchanged, and a first-attempt exception, raised unchanged. Otherwise the later attempts follow `PolicyResult`. |
| `Interceptor.PolicyResultUnique` | src/main/java/netmera4j/NetmeraApi.java:61-66 | For a given script and budget, at most one execution fits the declarative description of the policy. |
| `Interceptor.FirstAttemptExceptionNotRetried` | src/main/java/netmera4j/NetmeraApi.java:71-74 | An exception from the first attempt is raised after that single attempt, because that attempt is outside the retry policy. |
| `Interceptor.ReturnsFirstUnhandledRetry` | src/main/java/netmera4j/NetmeraApi.java:62-74 | Suppose the first code is > 499 and the policy handles attempts 1..k-1. If attempt k (k ≤ `maxRetryCount + 1`) is not handled, its outcome is returned after exactly k + 1 requests. |
| `Interceptor.ExhaustsRetryBudget` | src/main/java/netmera4j/NetmeraApi.java:66-74 | If the first code is > 499 and every later attempt is handled, exactly `maxRetryCount + 2` requests go out. The last outcome is handed back. |
| `Interceptor.ZeroRetriesStillResends` | src/main/java/netmera4j/NetmeraApi.java:66-74 | With `maxRetryCount = 0`, a first code > 499 still sends the request a second time. The second outcome is handed back. |
| `Interceptor.LargerBudgetExtends` | src/main/java/netmera4j/NetmeraApi.java:66 | A larger retry budget never makes fewer attempts. When the smaller budget stopped on an unhandled outcome, the larger budget gives the same execution. |
| `ApiBuilder.NewBuilder` | src/main/java/netmera4j/NetmeraApi.java:328-338 | A fresh builder has retry count 3 and all four timeouts 30. It has the default pool and the default retry policy. It satisfies the range invariant. It stores host and key as given, with no check. |
| `ApiBuilder.NetmeraApi` | src/main/java/netmera4j/NetmeraApi.java:345-349 | The factory succeeds iff host and key are both non-null. A null host fails with "Target Host" first. A null key with a non-null host fails with "Rest Api Key". On success the result is the fresh builder. |
| `ApiBuilder.WithNetmeraRetryPolicy` | src/main/java/netmera4j/NetmeraApi.java:351-354 | Always accepted, `null` included. Sets the policy and changes no other field. |
| `ApiBuilder.WithReadTimeout` | src/main/java/netmera4j/NetmeraApi.java:356-360 | Accepted iff the value is ≥ 0. A rejection names "Read Timeout" and leaves the builder as it was. Acceptance sets only `readTimeout`. The range invariant is kept. |
| `ApiBuilder.WithConnectionTimeout` | src/main/java/netmera4j/NetmeraApi.java:362-366 | Same as `WithReadTimeout`, for `connectionTimeout` and "Connection Timeout". |
| `ApiBuilder.WithWriteTimeout` | src/main/java/netmera4j/NetmeraApi.java:368-372 | Same as `WithReadTimeout`, for `writeTimeout` and "Write Timeout". |
| `ApiBuilder.WithCallTimeout` | src/main/java/netmera4j/NetmeraApi.java:374-378 | Same as `WithReadTimeout`, for `callTimeout` and "Call Timeout". |
| `ApiBuilder.WithMaxRetryCount` | src/main/java/netmera4j/NetmeraApi.java:380-384 | Accepted iff 0 ≤ value ≤ 50. A rejection names "Max Retry Count" and leaves the builder as it was. Acceptance sets only `maxRetryCount`. The range invariant is kept. |
| `ApiBuilder.WithConnectionPool` | src/main/java/netmera4j/NetmeraApi.java:386-390 | Accepted iff the pool is non-null. A rejection names "Connection Pool" and leaves the builder as it was. Acceptance sets only the pool. |
| `ApiBuilder.ApplyAcceptsIffAcceptable` | src/main/java/netmera4j/NetmeraApi.java:351-390 | For every setter, acceptance depends only on the argument, never on the builder's state. Only the setter's own field changes. A rejection leaves the builder unchanged. The range invariant is kept. |
| `ApiBuilder.ChainSucceedsIffAllAcceptable` | src/main/java/netmera4j/NetmeraApi.java:351-390 | A fluent chain of setters completes iff every argument in it passes its setter's check. |
| `ApiBuilder.ChainThrowsAtFirstRejected` | src/main/java/netmera4j/NetmeraApi.java:356-390 | A chain throws at its first rejected argument, with that setter's error. The builder then holds exactly the state the earlier setters produced, because each setter updates the object in place. |
| `ApiBuilder.PartialChainKeepsEarlierUpdates` | src/main/java/netmera4j/NetmeraApi.java:356-384 | On a fresh builder, `withReadTimeout(10).withMaxRetryCount(99)` throws "Max Retry Count". The builder is left with read timeout 10 and every other field at its default. |
| `ApiBuilder.ChainPreservesValid` | src/main/java/netmera4j/NetmeraApi.java:356-384 | From a builder in range, the builder state any chain leaves behind, after completing or after a throw, has retry count within 0..50 and every timeout ≥ 0. |
| `ApiBuilder.ChainFramesUntouchedFields` | src/main/java/netmera4j/NetmeraApi.java:351-390 | In the builder state any chain leaves behind, after completing or after a throw, every field that none of its setters writes equals its starting value. |
| `ApiBuilder.BuiltInterceptorAttemptsBounded` | src/main/java/netmera4j/NetmeraApi.java:393 | `build()` passes the builder's retry count to the constructor. From a builder in range with a non-null key and a non-null retry policy, the interceptor therefore sends at most 52 requests per call. |
| `Dispatch.EventData` | src/main/java/netmera4j/NetmeraApi.java:321-322 | The flattened list has one entry per event. Entry i is event i's parameter map. |
| `Dispatch.FireEventsCall` | src/main/java/netmera4j/NetmeraApi.java:318-324 | For a non-null event list with no null events, the bulk-event overload issues the `fireEvent` call. Its argument has the events' length and order, and each entry is that event's parameters. An empty event list gives an empty argument, not an error. |
| `Dispatch.EventDataAppend` | src/main/java/netmera4j/NetmeraApi.java:321-322 | Flattening a concatenation of event lists gives the concatenation of the flattened lists. |
| `Dispatch.EventDataDependsOnlyOnParameters` | src/main/java/netmera4j/NetmeraApi.java:321-322 | Two event lists with pointwise equal parameter maps flatten to the same argument, whatever else the events carry. |
| `Dispatch.NextDeviceTokensCall` | src/main/java/netmera4j/NetmeraApi.java:237-241 | The device-token "next page" overload issues the page variant of `getDeviceTokens`. Its argument is the response's `nextPage` token unchanged, `null` included. |
| `Dispatch.NextPushResultsCall` | src/main/java/netmera4j/NetmeraApi.java:302-306 | The push-results "next page" overload issues the page variant of `getPushResults`. Its argument is the response's `nextPage` token unchanged, `null` included. |
| `Dispatch.NextPageCallsDeterminedByToken` | src/main/java/netmera4j/NetmeraApi.java:240 | Each next-page call depends on the previous response only through its token. Different tokens give different calls. The same holds for the push-results overload at line 305. |

## Left out

- Interceptor.Intercept: requires the script to hold an outcome for each of the `maxRetryCount + 2` attempts the code could make. This stands in for a network that always answers; it is not a check the source performs. Its bound of at least one sent request also rests on the header assumption below.
- Interceptor.WithApiKey: takes the header name and the key to be valid header text with no surrounding whitespace. OkHttp's `addHeader` at line 69 trims the value and throws on an empty name, or on a control character (other than tab) or a non-ASCII character in the name or value. In that case no request is sent and the exception propagates out of the interceptor; the model does not represent this, and neither does `Intercept`. The key's only check in the source is the null check at line 347.
- Dispatch.FireEventsCall: covers only a non-null event list with no null events. A null event list throws a NullPointerException at line 321 (`size()`), and a null event throws one at line 322 (`getParameters()`); in both cases no call is issued. Likewise a null response passed to the next-page overloads throws at line 240 or line 304, and no call is issued. `seq` and the response datatype cannot represent these nulls.
- ApiBuilder.BuiltInterceptorAttemptsBounded: requires a non-null key and a non-null retry policy, so it does not cover two failures. With a null retry policy, which `withNetmeraRetryPolicy` accepts, the constructor dereferences it at line 64 and `build()` throws before any interceptor exists. With a null key, which the public constructor accepts, `addHeader` at line 69 throws on every request.
- Interceptor.FailsafeGet: requires likewise that the script hold `retriesLeft + 1` outcomes.
- Backoff timing (`withBackoff`, delay, max delay, `TimeUnit`): this is wall-clock behaviour inside Failsafe. Only attempt counting and outcome selection are modelled.
- The `onFailedAttempt` logging listener and all other logging. Not modelled either: after a `SocketException`, that listener reads the code of a missing last result.
- Failsafe's wrapping of checked exceptions raised on the retry path (`FailsafeException`). The model does not tell a wrapped exception from an unwrapped one.
- Response bodies and their closing. The source never closes the first 5xx response: lines 71-74 reassign `response` and proceed again while it is still open. The model does not track response bodies, so it says nothing about this leak.
- netmera4j's own `build()` (lines 392-401) and `connect()` (lines 81-92): they only hand values to Retrofit, OkHttp and Gson, which are foreign libraries. The model makes no claim about which timeouts or pool reach the HTTP client. The constructor reads its own timeout and pool fields (lines 55-59) before `build()` assigns them (lines 394-398).
- `call.enqueue`, `NetmeraCallBack`, `setErrorConverter` and the error converter: asynchronous delivery and foreign code.
- `NetmeraProxy`, `NetmeraRetryPolicy`, `Assert`, the `NETMERA_HEADER_KEY` constant and the event and response classes are not part of this model. They appear only as abstract values.
- The remaining `sendRequest` overloads: each only forwards request fields to one service method.
- The request data holders (`AddTagToUsersRequest`, `PushProfileAttributesToUserRequest` and the rest): their `@NotEmpty` checks are enforced by code that is not part of this model.
