# Subcults core, modelled in Dafny

This project models four parts of the Subcults backend and proves properties of them.

- **The Jetstream indexer client** (`indexer.dfy`, module `Indexer`). It is a resilient
  WebSocket client. It dials the endpoint and reads messages into a handler. When the read
  loop ends it dials again. A failed dial is retried after an exponential backoff delay,
  capped at a maximum. A successful dial resets the failure counter. Only cancellation of
  the context stops it.
  - The pure transition function `Next` and its replay `Replay` over a sequence of outcomes
    are the specification.
  - The class `Client` holds the source's fields and updates them in place. Its `Step` and
    `Run` methods are proved against `Next` and `Replay`.
  - Each point where the client waits on the outside world is an `Outcome`: the context
    found cancelled, a dial that succeeds or fails, the backoff timer, a message read, a
    read error, or a handler error.
- **Geohash rounding** (`geohash.dfy`, module `Geohash`). A geohash is lower-cased and
  checked against the base-32 alphabet. It is then cut to a coarse precision for public
  display (six characters by default). Invalid input gives the empty string.
- **Audit logging** (`audit.dfy`, module `Audit`). `LogAccess` and `LogAccessFromRequest`
  build an audit entry and hand it to the repository. The request variant records the
  client IP, taken from the first entry of `X-Forwarded-For`. If that entry is missing or
  blank, the remote address is used.
- **Location consent** (`scene.dfy`, module `Scene`). Scenes and events may hold a precise
  point only when their owner allowed it. `EnforceLocationConsent` clears the point in place
  when consent is absent and returns the receiver.

`wrappers.dfy` defines `Option`. It stands for Go's nil pointers and "no error".

## Model

| member | source | states |
|---|---|---|
| Indexer.ComputeBackoff | internal/indexer/client.go:158-165 | The delay before jitter never exceeds the maximum delay or base·2^count, and it equals one of them. |
| Indexer.BackoffStartsAtBase | internal/indexer/client.go:159-165 | With no failure yet, the delay is the base delay (when base ≤ max). |
| Indexer.BackoffMonotone | internal/indexer/client.go:159-165 | The delay never shrinks as the failure counter grows (for a non-negative base delay). |
| Indexer.BackoffDoubles | internal/indexer/client.go:159-165 | Each further failure doubles the previous delay, until the cap is reached and then kept. |
| Indexer.Next | internal/indexer/client.go:54-92 | A backoff wait is scheduled exactly on a failed dial. It uses the counter before the increment, and the counter goes up by one. A successful dial gives a connected, streaming state with counter 0. Cancellation, and only cancellation, stops the client. Stopped is final. Leaving the read loop releases the connection. The counter changes only on a dial. The handle/flag/phase consistency is preserved. |
| Indexer.ReadLoopOutcomes | internal/indexer/client.go:117-143 | The read loop keeps the connection across accepted messages, and across all messages when there is no handler. A read error, or an error from a present handler, releases the connection and redials with no backoff and the counter untouched. |
| Indexer.CancelReleasesConnection | internal/indexer/client.go:56-60 | Cancellation in any live phase stops the client with no connection, not connected, and the counter unchanged. |
| Indexer.Replay | internal/indexer/client.go:54-92 | A stopped client ignores every further outcome. Consistency holds after any sequence of outcomes. A client ends stopped only if it started stopped or a cancellation occurred. There are at most as many waits as outcomes. |
| Indexer.ScheduleAt | internal/indexer/client.go:71-72 | The i-th wait of a run of failures from counter n is the backoff for counter n+i. |
| Indexer.FailuresBackOff | internal/indexer/client.go:65-83 | k consecutive dial failures, each followed by the timer, raise the counter by k and wait exactly the backoffs for the successive counters. |
| Indexer.FourFailuresFromFreshClient | internal/indexer/client.go:65-83 | From a fresh client with a 100 ms base and 1600 ms cap, four failures wait 100, 200, 400 and 800 ms. |
| Indexer.NoFailureNoBackoff | internal/indexer/client.go:65-90 | Without a dial failure no backoff is waited, and a zero counter stays zero. |
| Indexer.ConnectResetsBackoff | internal/indexer/client.go:86-90 | After a successful dial, however many failures came before, the next failure waits the backoff for counter 0. Nothing in between waits. |
| Indexer.HandlerErrorRedialsAtOnce | internal/indexer/client.go:134-140 | Fail, timer, connect, message, handler error: one wait of the base delay. The client ends disconnected at the loop head with counter 0. |
| Indexer.Client.constructor | internal/indexer/client.go:45-49 | A new client holds its configuration and handler, has no connection, counter 0, and is consistent. |
| Indexer.Client.NewClient | internal/indexer/client.go:38-50 | A validation error is returned with no client. Otherwise a fresh, consistent client in its initial state is returned with no error. |
| Indexer.Client.Connect | internal/indexer/client.go:95-114 | A successful dial installs the connection and sets the connected flag. A failed dial leaves both as they were. |
| Indexer.Client.Close | internal/indexer/client.go:146-155 | The connection is released and the flag cleared, nothing else changes, and closing a closed client changes nothing. |
| Indexer.Client.IsConnected | internal/indexer/client.go:178-182 | Returns the connected flag, which is true exactly when a connection is held. |
| Indexer.Client.Step | internal/indexer/client.go:54-143 | The new fields and the wait are those of `Next`, and consistency is kept. |
| Indexer.Client.Run | internal/indexer/client.go:54-92 | The final fields and the waits are those of `Replay` on the outcomes processed. It reports stopped exactly when the client is stopped, and a stopped client holds no connection. |
| Geohash.LowerChar | internal/geo/geohash.go:36 | Upper-case ASCII letters map to their lower-case letter; every other character is kept. |
| Geohash.ToLower | internal/geo/geohash.go:36 | The result has the input's length and is the input lower-cased character by character. |
| Geohash.AlphabetIsRanges | internal/geo/geohash.go:11-13 | A character is in the alphabet exactly when it is a digit or a lower-case letter other than a, i, l and o. |
| Geohash.ToLowerIdempotent | internal/geo/geohash.go:36 | Lower-casing twice is lower-casing once. |
| Geohash.RoundGeohash | internal/geo/geohash.go:26-52 | Empty input or precision < 1 gives "". A character outside the alphabet after lower-casing gives "". A non-empty result is a valid prefix of the lower-cased input, at most `precision` long. Valid input gives a non-empty result of length min(len, precision). |
| Geohash.RoundGeohashCharacterised | internal/geo/geohash.go:26-52 | Rounding succeeds iff the input is non-empty, the precision ≥ 1 and each lower-cased character is valid. It is then the whole lower-cased input when that fits, else its first `precision` characters. |
| Geohash.ExcludedLettersRejected | internal/geo/geohash.go:38-43 | An a, i, l or o in either case anywhere in the input gives "". |
| Geohash.RoundGeohashIdempotent | internal/geo/geohash.go:45-51 | Rounding a rounded geohash to the same precision changes nothing. |
| Geohash.RoundGeohashCaseInsensitive | internal/geo/geohash.go:35-36 | Rounding gives the same result for an input and its lower-cased form. |
| Geohash.RoundGeohashUpperCaseExample | internal/geo/geohash.go:35-51 | "9Q8YYK8" rounds to "9q8yyk" at the default precision. |
| Geohash.RoundGeohashShortExamples | internal/geo/geohash.go:38-48 | "dr5r" comes back whole at the default precision, and "dr5ra" is rejected. |
| Audit.TrimStart | internal/audit/logger.go:39 | The index of the first non-space character: everything before it is white space. |
| Audit.TrimEnd | internal/audit/logger.go:39 | One past the last non-space character: everything after it is white space. |
| Audit.TrimSpace | internal/audit/logger.go:39-40 | The result is empty iff the input is all white space. Otherwise it is the slice between the first and last non-space characters. |
| Audit.FirstSegment | internal/audit/logger.go:38-39 | The result is a comma-free prefix of the input and ends at the first comma or at the end. |
| Audit.ClientIP | internal/audit/logger.go:35-42 | Without the header the remote address is used. Otherwise the IP is the remote address or a non-blank, comma-free, trimmed entry. |
| Audit.HeaderFirstEntryWins | internal/audit/logger.go:36-41 | If the first comma-separated entry holds a non-space character, the IP is that entry trimmed, whatever the remote address. |
| Audit.BlankFirstEntryFallsBack | internal/audit/logger.go:39-41 | If the first entry is blank, the remote address is used, even when later entries are set. |
| Audit.NoHeaderExample | internal/audit/audit_test.go:333-335 | With no X-Forwarded-For, the remote address "192.168.1.100:12345" is recorded. |
| Audit.SingleForwardedExample | internal/audit/audit_test.go:366-370 | A single forwarded address "203.0.113.195" takes precedence over the remote address. |
| Audit.ProxyChainExample | internal/audit/logger.go:33-40 | Of a proxy chain, the first address is taken without its surrounding blanks. |
| Audit.BlankFirstEntryExample | internal/audit/logger.go:39-41 | " , 70.41.3.18" falls back to the remote address. |
| Audit.AccessEntry | internal/audit/logger.go:17-23 | The entry holds the entity, ID and action verbatim, plus the context's DID and request ID, and no IP or user agent. |
| Audit.RequestEntry | internal/audit/logger.go:44-52 | The entry holds the entity, ID and action verbatim, the context's DID and request ID, the client IP and the user agent. |
| Audit.EntriesAgree | internal/audit/logger.go:44-52 | The request entry is the plain entry with the IP address and user agent filled in. |
| Audit.LogAccess | internal/audit/logger.go:16-27 | The repository receives the access entry, and its error is returned unchanged. |
| Audit.LogAccessFromRequest | internal/audit/logger.go:54-55 | The repository receives the request entry, and its error is returned unchanged. |
| Scene.Scene.constructor | internal/scene/model.go:19-34 | A scene holds the given identity, consent flag, point and geohash. Its optional fields are empty. |
| Scene.Scene.EnforceLocationConsent | internal/scene/model.go:54-59 | Returns the receiver. Afterwards no point is held without consent. With consent the point is kept. A scene already respecting consent is unchanged, so the call is idempotent. Every other field is unchanged. |
| Scene.Event.constructor | internal/scene/model.go:38-49 | An event holds the given identity, scene, consent flag and point. Its record fields are empty. |
| Scene.Event.EnforceLocationConsent | internal/scene/model.go:64-69 | The same guarantees as for scenes, for every field of an event. |
| Scene.CreateWithoutConsent | internal/api/scene_handlers_test.go:141-143 | A scene created with a point but without consent holds no point once consent is enforced. |

## Left out

- WebSocket I/O, the 10-second handshake timeout, the read payloads and the logging are not
  modelled. The dial, the read and the handler each appear only through their outcome.
- The mutex and concurrent access are left out. The client runs sequentially, and the
  agreement of `conn` and `isConnected`, which the mutex protects, is the invariant
  `Consistent`.
- The context and the timer are not modelled as such. Cancellation is the `Cancelled`
  outcome, seen at the next point where the source checks the context. When the backoff
  timer and cancellation are both ready, Go's `select` picks one at random. The model lets
  the outcome sequence decide.
- Indexer.ComputeBackoff does not model jitter (`rand.Float64`, a random input), nor the
  float64 arithmetic and the truncating conversion back to a Duration. The delay is the
  exact integer min(base·2^count, max). Past 2^53 nanoseconds, float rounding would differ.
- Indexer.Client.Run processes a finite sequence of outcomes. The source loops until
  cancellation, so a run that never sees cancellation is represented by its finite prefixes.
- `Config.Validate` is not part of this model. Its result is the `validationError` input to
  `NewClient`. The logger default (`slog.Default()`) is not modelled.
- Geohash.ToLower lower-cases ASCII letters only. Go's `strings.ToLower` is Unicode-aware,
  so the Kelvin sign (U+212A), which Go lowers to an ASCII 'k', is rejected by the model but
  accepted by the source. Go compares byte lengths; after validation every character is
  ASCII, so bytes and characters agree. Invalid UTF-8 input is not modelled.
- The middleware lookups (`GetUserDID`, `GetRequestID`), `r.UserAgent()` and the header
  lookup are inputs. The repository is a function from the entry to its stored record and
  its error. Its storage is not modelled.
- `Point`'s coordinates are abstract. Only whether a point is held matters to consent.
- The repositories, handlers and tests of the rest of the backend are not part of this model.

## Notes

- The doc comment of `RoundGeohash` says an input shorter than the precision is returned
  unchanged. The code returns it lower-cased, and the model follows the code.
