# portfolio-chat: a Dafny model of the chat-proxy edge function

The portfolio site's only server-side logic is one edge function. It
receives a chat history from the browser and checks it. It then forwards
the history, after a fixed system prompt, to a chat-completion gateway and
relays the gateway's event stream back. This project models that function's
four parts and proves what each promises:

- `Cors` (cors.dfy): the CORS policy. An exact allow-list of four origins and
  a `.lovable.app` suffix rule decide the allowed origin. Anything else falls
  back to the first allow-list entry. The allowed-headers list is fixed.
- `RateLimit` (rate_limit.dfy): the fixed-window limiter, at most 20 requests
  per client per 60 000 ms. The process-wide table is a class `RateLimiter`
  with a `map` field, and `Check` updates it in place. The pure function
  `Step` specifies one call. `Run` chains calls, and the window lemmas are
  proved over it.
- `Validator` (validator.dfy): the check of the untyped `messages` value.
  `Validate` is the specification and `ValidateMessages` is the source's
  early-return loop, proved equal to it. The first failing check decides the
  error.
- `Handler` (handler.dfy): the request handler reduced to its decisions.
  `Decide` maps a request to an `Exchange`: the call to the gateway, if one
  is made, and the response. Its inputs are the limiter's verdict, whether
  the API key is configured, and the gateway's reply. `Serve` runs one
  request against a `RateLimiter` object.
- `Json` (json.dfy): the untyped JavaScript values the function handles.
  Strings are sequences of UTF-16 code units, the unit JavaScript's
  `.length` counts.

Behaviour of the code worth noting:

- A non-string `content` gets its own message, "Message content must be a
  string", distinct from "Invalid message format".
- A missing API key is thrown inside the `try` block. It is therefore caught
  and becomes a 500 with "Something went wrong. Please try again.".
- The preflight response is `new Response(null, …)`, so its status is 200.
- A stored count is always between 1 and 20.

Also from the code: JavaScript's `typeof` calls an array an
object. So an array element passes the first element check and then fails
the `content` check. A JSON body of `null` makes `const { messages } = …`
throw, which gives 500. Any other body without `messages` gives 400 with
"Messages must be an array".

## Model

| member | source | states |
|---|---|---|
| `Json.Property` | supabase/functions/portfolio-chat/index.ts:60 | Reading the `content` or `messages` property gives the object's own field when it has one, and `undefined` otherwise; reading from `null` or `undefined` is excluded because it throws |
| `Cors.OriginOf` | supabase/functions/portfolio-chat/index.ts:11 | The origin is empty exactly when the header is missing or empty; otherwise it is the header's value |
| `Cors.GetCorsHeaders` | supabase/functions/portfolio-chat/index.ts:10-28 | The allowed origin is always inside the policy. It equals the request origin exactly when that origin is allowed, and is the default origin otherwise. The allowed-headers value is the fixed list |
| `Cors.PreviewOriginEchoed` | supabase/functions/portfolio-chat/index.ts:20-25 | Every origin of the form `<anything>.lovable.app` is echoed back |
| `Cors.MissingOriginFallsBack` | supabase/functions/portfolio-chat/index.ts:11-25 | A request without an Origin header gets `https://dcidksgnduiiqrbfmcey.supabase.co` |
| `Cors.BarePreviewDomainFallsBack` | supabase/functions/portfolio-chat/index.ts:21-25 | `https://lovable.app` itself does not match the suffix rule and falls back to the default |
| `RateLimit.Step` | supabase/functions/portfolio-chat/index.ts:30-45 | A call is allowed exactly when it opens a window (no record, or `now > resetTime`, strictly) or the count is below 20. An opening call stores `{count: 1, resetTime: now + 60000}`. Otherwise an allowed call adds exactly one to the count and keeps `resetTime`. A denied call leaves the table unchanged. Other clients' records never change, and every count stays within 1..20 |
| `RateLimit.Run` | supabase/functions/portfolio-chat/index.ts:30-45 | A sequence of calls gives one verdict per call, and no record is ever removed |
| `RateLimit.RunInsideWindow` | supabase/functions/portfolio-chat/index.ts:34-44 | Inside an open window with count `c`, call `i` is allowed exactly when `c + i < 20`. The final count is `min(c + n, 20)`, and the window is never reset |
| `RateLimit.WindowAdmitsExactlyMax` | supabase/functions/portfolio-chat/index.ts:5-45 | After a call opens a window at `t0`, calls at times in `[t0, t0 + 60000]` are allowed for the first 20 calls and denied from the 21st on |
| `RateLimit.RateLimiter.constructor` | supabase/functions/portfolio-chat/index.ts:3-4 | A cold start has an empty table, which satisfies the bound invariant |
| `RateLimit.RateLimiter.Check` | supabase/functions/portfolio-chat/index.ts:30-45 | The verdict and the new table are those of `Step` on the old table. The 1..20 bound invariant is kept, and other clients' records are unchanged |
| `Validator.ElementError` | supabase/functions/portfolio-chat/index.ts:57-65 | An element passes exactly when it is an object whose `content` is a string of at most 500 units. "Invalid message format" is reported exactly for non-objects and `null`. An object or array whose `content` is not a string gets "Message content must be a string", and one whose string `content` is over 500 units gets "Message too long" |
| `Validator.FirstElementError` | supabase/functions/portfolio-chat/index.ts:56-66 | There is no error exactly when every element passes. Otherwise the error is that of an element whose predecessors all pass |
| `Validator.Validate` | supabase/functions/portfolio-chat/index.ts:47-69 | The result is valid exactly when the input is an array of at most 20 well-formed messages (`role` is never looked at), and an error is present exactly when it is not valid |
| `Validator.ValidationOrder` | supabase/functions/portfolio-chat/index.ts:47-66 | A non-array gives "Messages must be an array". An array longer than 20 gives "Too many messages" whatever its elements. Otherwise the first bad element's error is reported |
| `Validator.ValidateMessages` | supabase/functions/portfolio-chat/index.ts:47-69 | The loop with early returns computes `Validate`, and so accepts exactly the valid conversations |
| `Handler.ClientId` | supabase/functions/portfolio-chat/index.ts:164-166 | The key is never empty. It is `x-forwarded-for` when that header is non-empty, else `x-real-ip` when that is non-empty, else "anonymous" |
| `Handler.MessagesOf` | supabase/functions/portfolio-chat/index.ts:176 | Destructuring fails exactly for an unparsable body or a `null` (or `undefined`) body. An object body with a `messages` field gives that field; every other body gives `undefined` |
| `Handler.UpstreamFailureStatus` | supabase/functions/portfolio-chat/index.ts:216 | A failed gateway status becomes 429, 402 or 500. It is kept exactly when it is 429 or 402 |
| `Handler.Decide` | supabase/functions/portfolio-chat/index.ts:155-232 | Every response carries the CORS headers, and its status is one of 200, 400, 402, 429 and 500. A denied request gets 429 "Too many requests…". A body that fails to destructure gets 500 "Something went wrong…". An invalid conversation gets 400 with the validator's message. A missing key gets 500 "Something went wrong…". The gateway is called exactly when the request is not a preflight, is allowed, parses, validates and the key is present. The call names model `google/gemini-2.5-flash`, streams, and sends the system prompt followed by the client's messages unchanged. A network failure then gets 500 "Something went wrong…". A failed reply with status `s` gets `UpstreamFailureStatus(s)` with "Unable to process your request…". An OK reply gives an event stream with its bytes unchanged and status 200. A preflight gets status 200 with only the CORS headers, no Content-Type and no body, and no gateway call |
| `Handler.PreflightIgnoresEverythingElse` | supabase/functions/portfolio-chat/index.ts:158-160 | An OPTIONS request gets the same bare 200 response whatever the limiter, key and gateway, and the gateway is not called |
| `Handler.DeniedRequestGets429` | supabase/functions/portfolio-chat/index.ts:169-174 | A request the limiter denies gets 429 with the fixed message and never reaches the gateway |
| `Handler.UpstreamErrorBodyNotReflected` | supabase/functions/portfolio-chat/index.ts:209-218 | Two failed gateway replies with the same status give identical exchanges, so the gateway's error body never reaches the client |
| `Handler.MissingMessagesGets400` | supabase/functions/portfolio-chat/index.ts:176-185 | A JSON object body without `messages` gets 400 "Messages must be an array" |
| `Handler.TwentyFirstRequestInWindowGets429` | supabase/functions/portfolio-chat/index.ts:164-174 | A client's 21st request inside one window gets 429 whatever its body, the key and the gateway |
| `Handler.Serve` | supabase/functions/portfolio-chat/index.ts:155-232 | A preflight leaves the limiter untouched. Every other request takes exactly one limiter step for its client id, even when it later fails validation. The response is `Decide` with that step's verdict |

## Left out

- Network I/O: `serve`, `req.json()` and the `fetch` to the gateway are
  inputs. The request body arrives parsed or unparsable, and the gateway's
  reply is a status with bytes, or a network failure.
- The gateway URL and the `Authorization: Bearer …` header are not
  modelled. Only the model name and the `{messages, stream: true}` payload
  of the call are.
- `Deno.env.get("LOVABLE_API_KEY")` is a boolean: the key is present or not.
- `Date.now()` is the parameter `now`. JavaScript numbers are unbounded
  integers here. Timestamps near 2^53 are far beyond any clock value, so
  rounding in `now + 60000` is not modelled.
- `console.error` logging is not modelled.
- The streaming relay is not modelled byte-for-byte in time. The response
  carries the reply's bytes as one sequence, and backpressure and
  incremental delivery are not modelled.
- A failure of `response.text()` and a missing reply body are not
  modelled. The first would also be caught and become a 500.
- The text of `PORTFOLIO_CONTEXT` is an opaque constant.
- Concurrency between overlapping requests is not modelled. Each `Check`,
  and each `Serve`, is one atomic step.
- Method-name normalisation by the HTTP runtime is not modelled. The
  handler compares the method with "OPTIONS" exactly, as the code does.
- `x-forwarded-for` is used whole as the key. The model, like the code, does
  not split a comma-separated list.
- JSON numbers are integers in `Json.Value`. Only their `typeof` matters to
  the validator.
- The UI components, the WebGL shader hero and the typewriter effect are
  not part of this model. They are declarative rendering or timer-driven
  animation with no request-handling logic.
