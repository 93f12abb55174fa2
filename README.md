# Eureka client core: supervised backoff, lease model, Jersey request shaping

This project models three sequential cores of the Eureka service-registry client and proves
properties about them in Dafny.

- **`TimedSupervisor`** (`timed_supervisor_task.dfy`) models `TimedSupervisorTask`. This is the periodic
  supervisor that runs a unit of work under a timeout. After a timeout it doubles the delay before
  the next run, up to `timeoutMillis * expBackOffBound`. A success resets the delay to the base timeout.
  Rejections and other failures leave the delay alone. Every cycle cancels the future it obtained and
  reschedules itself, unless the scheduler has been shut down. The class keeps its delay, ceiling and
  four counters. It also has two ghost fields: `history`, the outcome of every cycle, and `scheduled`,
  the delays passed to the scheduler. `Valid()` ties the delay to `DelayAfter`, a fold of the one-step
  rule over `history`, and ties each counter to the number of matching outcomes.
- **`Lease`** (`lease_info.dfy`) models `LeaseInfo` and its `Builder`. The builder assigns fields of a
  shared `LeaseInfo` object in place, and `Build` returns that same object. The ghost field
  `Builder.calls` records the setter calls. The builder's invariant says the object equals `Built(calls)`,
  a fold of the setter rule `Apply`. The JSON constructor is the function `Deserialize`, which falls back
  to the legacy `renewalTimestamp` property. The class constructor `FromJson` implements it.
- **`JerseyTransport`** (`jersey_eureka_http_client.dfy`) models the shared code of
  `AbstractJerseyEurekaHttpClient`. `Operation` lists the operations of `EurekaHttpClient`. `RequestOf`
  gives each operation's method, path, query parameters and request headers. `HeadersOf` is the loop
  that flattens Jersey's multi-valued headers. `Execute` turns the server's reply into a response
  envelope. It takes that reply as an input instead of performing the HTTP call.

`wrappers.dfy` holds `Option`, which stands for a Java reference that may be null.

## Notes on behaviour

- `cancel()` does not stop rescheduling. It only deregisters metrics and calls `TimerTask.cancel`, and
  `run()` never looks at it, so a cancelled task keeps rescheduling itself while the scheduler runs.
  The model's `Run` ignores `cancelled` in the same way.
- No future is cancelled when `submit` is rejected, because none exists
  (`TimedSupervisorTask.java:65-68,106-108`).
- The JSON constructor does no defaulting. It stores the interval and duration verbatim, so only
  builder-made leases are guaranteed positive values (`DeserializedNeedNotBeBuildable`).
- A heartbeat keeps its entity whatever its status, unless the media subtype is `html`. The fetches
  keep an entity only on status 200.

## Model

| member | source | states |
|---|---|---|
| `TimedSupervisor.TimedSupervisorTask.constructor` | eureka-client/src/main/java/com/netflix/discovery/TimedSupervisorTask.java:44-61 | delay starts at timeoutMillis, maxDelay = timeoutMillis * expBackOffBound, counters at zero, nothing scheduled |
| `TimedSupervisor.TimedSupervisorTask.Run` | eureka-client/src/main/java/com/netflix/discovery/TimedSupervisorTask.java:64-115 | success resets the delay, timeout sets it to min(maxDelay, 2 * delay), rejection and other failures keep it; exactly the matching counter rises by one; the future is cancelled iff one was submitted; one reschedule with the post-update delay iff the scheduler is not shut down; with bound >= 1 the delay stays in [timeoutMillis, maxDelay] |
| `TimedSupervisor.TimedSupervisorTask.Cancel` | eureka-client/src/main/java/com/netflix/discovery/TimedSupervisorTask.java:117-121 | sets the cancelled flag and changes no delay, counter or schedule |
| `TimedSupervisor.NextDelay` | eureka-client/src/main/java/com/netflix/discovery/TimedSupervisorTask.java:71-102 | a success gives timeoutMillis; a timeout gives a value no larger than maxDelay or twice the delay, and equal to one of them; a rejection or other failure keeps the delay |
| `TimedSupervisor.NegativeBoundDiverges` | eureka-client/src/main/java/com/netflix/discovery/TimedSupervisorTask.java:52-84 | with a negative bound, k + 1 timeouts from the base timeout give timeoutMillis * expBackOffBound * 2^k, so the delay falls without bound |
| `TimedSupervisor.DelayWithinBounds` | eureka-client/src/main/java/com/netflix/discovery/TimedSupervisorTask.java:51-84 | with expBackOffBound >= 1, after any sequence of outcomes from the start the delay lies in [timeoutMillis, timeoutMillis * expBackOffBound] |
| `TimedSupervisor.ConsecutiveTimeouts` | eureka-client/src/main/java/com/netflix/discovery/TimedSupervisorTask.java:76-84 | k consecutive timeouts from the base timeout give min(timeoutMillis * 2^k, maxDelay) |
| `TimedSupervisor.CeilingIsSticky` | eureka-client/src/main/java/com/netflix/discovery/TimedSupervisorTask.java:80-84 | from a non-negative ceiling, any number of timeouts keep the delay at the ceiling |
| `TimedSupervisor.SaturatedBackoff` | eureka-client/src/main/java/com/netflix/discovery/TimedSupervisorTask.java:80-84 | once k timeouts reach the ceiling, k + j timeouts still give the ceiling |
| `TimedSupervisor.SuccessResetsBackoff` | eureka-client/src/main/java/com/netflix/discovery/TimedSupervisorTask.java:71-84 | after a success, whatever came before, k timeouts give min(timeoutMillis * 2^k, maxDelay) again |
| `TimedSupervisor.FailuresKeepDelay` | eureka-client/src/main/java/com/netflix/discovery/TimedSupervisorTask.java:86-102 | any run of rejections and other failures leaves the delay where it was |
| `TimedSupervisor.ZeroBoundCollapses` | eureka-client/src/main/java/com/netflix/discovery/TimedSupervisorTask.java:52-84 | with expBackOffBound = 0 the ceiling is 0 and one timeout drops the delay to 0, below the base timeout |
| `TimedSupervisor.BackoffExample` | eureka-client/src/main/java/com/netflix/discovery/TimedSupervisorTask.java:76-84 | base 30000 ms and bound 10 give 30000, 60000, 120000, 240000, 300000, 300000 |
| `TimedSupervisor.DelayAfterAppend` | eureka-client/src/main/java/com/netflix/discovery/TimedSupervisorTask.java:111-113 | cycles compose: the delay after xs + ys is the delay after ys, started from the delay after xs |
| `Lease.Stored` | eureka-client/src/main/java/com/netflix/appinfo/LeaseInfo.java:93-166 | the value a setter stores: positive for the duration and interval setters (90 or 30 for non-positive input), the argument itself for timestamps |
| `Lease.Apply` | eureka-client/src/main/java/com/netflix/appinfo/LeaseInfo.java:93-166 | one setter call writes `Stored(c)` to its own field and leaves every other field as it was |
| `Lease.LastWrite` | eureka-client/src/main/java/com/netflix/appinfo/LeaseInfo.java:93-132 | the position of the last call that writes a field: no later call writes it, and `None` means no call writes it |
| `Lease.SetterStores` | eureka-client/src/main/java/com/netflix/appinfo/LeaseInfo.java:93-166 | a duration setter stores 90 for d <= 0 and d otherwise; an interval setter stores 30 for i <= 0 and i otherwise; timestamp setters store verbatim; each setter changes only its own field |
| `Lease.BuiltIsPositive` | eureka-client/src/main/java/com/netflix/appinfo/LeaseInfo.java:143-166 | whatever sequence of setters was called, the built lease has a positive interval and duration |
| `Lease.LastWriteWins` | eureka-client/src/main/java/com/netflix/appinfo/LeaseInfo.java:93-166 | each field of a built lease is what the setter at position `LastWrite(calls, f)` stored, or its initial value if no call writes it |
| `Lease.FreshBuilderDefaults` | eureka-client/src/main/java/com/netflix/appinfo/LeaseInfo.java:43-80 | a fresh builder yields interval 30, duration 90 and four zero timestamps |
| `Lease.Deserialize` | eureka-client/src/main/java/com/netflix/appinfo/LeaseInfo.java:190-209 | the JSON constructor stores interval and duration verbatim (no defaulting); the renewal timestamp is the canonical value when present, the legacy value otherwise |
| `Lease.SerializeRoundTrip` | eureka-client/src/main/java/com/netflix/appinfo/LeaseInfo.java:190-228 | a lease written through its getters (renewal timestamp under the canonical name) reads back unchanged |
| `Lease.LegacyDocumentRoundTrip` | eureka-client/src/main/java/com/netflix/appinfo/LeaseInfo.java:182-209 | a legacy-only document reads back as the lease it describes; with both properties the canonical one wins |
| `Lease.DeserializedNeedNotBeBuildable` | eureka-client/src/main/java/com/netflix/appinfo/LeaseInfo.java:190-209 | a document with a non-positive interval or duration gives a lease no sequence of builder calls produces |
| `Lease.LeaseInfo.constructor` | eureka-client/src/main/java/com/netflix/appinfo/LeaseInfo.java:50-71 | a new lease object holds the defaults 30 and 90 and zero timestamps |
| `Lease.LeaseInfo.FromJson` | eureka-client/src/main/java/com/netflix/appinfo/LeaseInfo.java:190-209 | the object built from JSON holds exactly `Deserialize` of its arguments |
| `Lease.LeaseInfo.GetRegistrationTimestamp` | eureka-client/src/main/java/com/netflix/appinfo/LeaseInfo.java:216-218 | returns the stored registration timestamp |
| `Lease.LeaseInfo.GetRenewalTimestamp` | eureka-client/src/main/java/com/netflix/appinfo/LeaseInfo.java:225-228 | returns the stored lastRenewalTimestamp, which is what is written under the canonical property |
| `Lease.LeaseInfo.GetEvictionTimestamp` | eureka-client/src/main/java/com/netflix/appinfo/LeaseInfo.java:235-237 | returns the stored eviction timestamp |
| `Lease.LeaseInfo.GetServiceUpTimestamp` | eureka-client/src/main/java/com/netflix/appinfo/LeaseInfo.java:244-246 | returns the stored service-up timestamp |
| `Lease.LeaseInfo.GetRenewalIntervalInSecs` | eureka-client/src/main/java/com/netflix/appinfo/LeaseInfo.java:253-255 | returns the stored renewal interval |
| `Lease.LeaseInfo.GetDurationInSecs` | eureka-client/src/main/java/com/netflix/appinfo/LeaseInfo.java:263-265 | returns the stored duration |
| `Lease.Builder.constructor` | eureka-client/src/main/java/com/netflix/appinfo/LeaseInfo.java:78-80 | a new builder owns a fresh default lease and has recorded no calls |
| `Lease.Builder.NewBuilder` | eureka-client/src/main/java/com/netflix/appinfo/LeaseInfo.java:82-84 | returns a fresh builder over a fresh default lease |
| `Lease.Builder.SetRegistrationTimestamp` | eureka-client/src/main/java/com/netflix/appinfo/LeaseInfo.java:93-96 | stores ts in the shared lease, changes no other field, returns the builder itself |
| `Lease.Builder.SetRenewalTimestamp` | eureka-client/src/main/java/com/netflix/appinfo/LeaseInfo.java:105-108 | stores ts as lastRenewalTimestamp, changes no other field, returns the builder itself |
| `Lease.Builder.SetEvictionTimestamp` | eureka-client/src/main/java/com/netflix/appinfo/LeaseInfo.java:117-120 | stores ts as the eviction timestamp, changes no other field, returns the builder itself |
| `Lease.Builder.SetServiceUpTimestamp` | eureka-client/src/main/java/com/netflix/appinfo/LeaseInfo.java:129-132 | stores ts as the service-up timestamp, changes no other field, returns the builder itself |
| `Lease.Builder.SetDurationInSecs` | eureka-client/src/main/java/com/netflix/appinfo/LeaseInfo.java:143-150 | stores 90 if d <= 0 and d otherwise, changes no other field |
| `Lease.Builder.SetRenewalIntervalInSecs` | eureka-client/src/main/java/com/netflix/appinfo/LeaseInfo.java:159-166 | stores 30 if i <= 0 and i otherwise, changes no other field |
| `Lease.Builder.Build` | eureka-client/src/main/java/com/netflix/appinfo/LeaseInfo.java:174-176 | returns the builder's own lease object, equal to `Built(calls)`, with a positive interval and duration |
| `Lease.BuiltLeaseIsShared` | eureka-client/src/main/java/com/netflix/appinfo/LeaseInfo.java:174-176 | a setter called after Build changes the lease already handed out (duration 90, then 120) |
| `JerseyTransport.UrlPath` | eureka-client/src/main/java/com/netflix/discovery/shared/transport/jersey/AbstractJerseyEurekaHttpClient.java:62-276 | each path starts with its collection ("apps/", "vips/", "svips/", "instances/"); cancel, heartbeat and the instance fetch use the instance path; the status operations append "/status" to it |
| `JerseyTransport.Query` | eureka-client/src/main/java/com/netflix/discovery/shared/transport/jersey/AbstractJerseyEurekaHttpClient.java:114-213 | at most three parameters; the three instance writes send at least one; register, cancel and the application and instance fetches send none |
| `JerseyTransport.RequestOf` | eureka-client/src/main/java/com/netflix/discovery/shared/transport/jersey/AbstractJerseyEurekaHttpClient.java:59-283 | only register carries a body; exactly the fetches are GETs; exactly heartbeat and status update are PUTs; exactly register and the fetches set Accept; the path and query are `UrlPath` and `Query` |
| `JerseyTransport.PathFamilies` | eureka-client/src/main/java/com/netflix/discovery/shared/transport/jersey/AbstractJerseyEurekaHttpClient.java:59-276 | the path of every operation, whatever region list a fetch carries: "apps/"+app, "apps/"+app+"/"+id for cancel, heartbeat and the instance fetch, that path + "/status" for the status operations, "apps/", "apps/delta", "vips/"+vip, "svips/"+svip, "instances/"+id |
| `JerseyTransport.QueryParameters` | eureka-client/src/main/java/com/netflix/discovery/shared/transport/jersey/AbstractJerseyEurekaHttpClient.java:109-213 | heartbeat sends status and lastDirtyTimestamp, plus overriddenstatus iff one is given; status update sends value and lastDirtyTimestamp; override removal only lastDirtyTimestamp; the registry fetches send regions iff the list is non-null and non-empty; other operations send no query |
| `JerseyTransport.InstancePathRoundTrip` | eureka-client/src/main/java/com/netflix/discovery/shared/transport/jersey/AbstractJerseyEurekaHttpClient.java:91-92 | for an application name without '/', splitting an instance path gives back the application name and instance id |
| `JerseyTransport.InstancePathInjective` | eureka-client/src/main/java/com/netflix/discovery/shared/transport/jersey/AbstractJerseyEurekaHttpClient.java:109-111 | two instance paths (application names without '/') are equal only for the same application and instance |
| `JerseyTransport.ApplicationNamedDeltaIsDeltaFetch` | eureka-client/src/main/java/com/netflix/discovery/shared/transport/jersey/AbstractJerseyEurekaHttpClient.java:185-243 | fetching the application named "delta" sends the same request as a delta fetch without regions |
| `JerseyTransport.FirstValues` | eureka-client/src/main/java/com/netflix/discovery/shared/transport/jersey/AbstractJerseyEurekaHttpClient.java:315-321 | keys with a non-empty value list map to their first value; keys with an empty list are absent |
| `JerseyTransport.SingleValuedHeadersPreserved` | eureka-client/src/main/java/com/netflix/discovery/shared/transport/jersey/AbstractJerseyEurekaHttpClient.java:310-322 | headers with one value each come through the flattening unchanged |
| `JerseyTransport.JerseyEurekaHttpClient.constructor` | eureka-client/src/main/java/com/netflix/discovery/shared/transport/jersey/AbstractJerseyEurekaHttpClient.java:44-48 | keeps the given Jersey client and service URL |
| `JerseyTransport.JerseyEurekaHttpClient.HeadersOf` | eureka-client/src/main/java/com/netflix/discovery/shared/transport/jersey/AbstractJerseyEurekaHttpClient.java:310-322 | null headers give the empty map; otherwise exactly the keys with a non-empty value list, each mapped to its first value |
| `JerseyTransport.JerseyEurekaHttpClient.Execute` | eureka-client/src/main/java/com/netflix/discovery/shared/transport/jersey/AbstractJerseyEurekaHttpClient.java:59-301 | sends `RequestOf(op)`; the envelope's status is always the server's status, with no failure on non-2xx; headers are the flattened reply headers; the entity is present iff `EntityAccepted` holds: a heartbeat keeps an entity iff the reply has one and its subtype is not "html"; a fetch keeps one iff the status is 200 and the reply has one; other operations never do |
| `JerseyTransport.JerseyEurekaHttpClient.Shutdown` | eureka-client/src/main/java/com/netflix/discovery/shared/transport/jersey/AbstractJerseyEurekaHttpClient.java:303-306 | leaves the factory-owned Jersey client as it was |

## Left out

- Real concurrency in `TimedSupervisorTask` is not modelled: submission to the executor, the blocking `future.get` with a deadline and the scheduler threads. The cycle's outcome is an input of `Run`. The compare-and-set on the delay is a sequential update that always succeeds.
- Servo metrics are not modelled: counter objects, the thread-pool gauge, and registering or unregistering the monitor. The counters are plain integer fields.
- Logging is not modelled, including the "shutting down" versus "rejected" choice of log message.
- `TimerTask.cancel` semantics are not modelled. `Cancel` only sets a flag.
- `TimeUnit.toMillis` is not modelled. `timeoutMillis` is given directly as a natural number.
- TimedSupervisor.TimedSupervisorTask.Run: does not model Java `long` overflow in `currentDelay * 2` or `timeoutMillis * expBackOffBound`. Delays are unbounded integers. This matches the source whenever expBackOffBound >= 0 and 2 · timeoutMillis · expBackOffBound fits in a `long`. Above that, a timeout at the ceiling wraps `currentDelay * 2` negative, and `DelayWithinBounds` no longer describes the Java program. With a negative bound, each timeout doubles the negative delay (`NegativeBoundDiverges`). Java eventually wraps it back to 0, but the model keeps falling without bound.
- All Jersey and HTTP I/O is not modelled: building the web resource, sending the request, reading and deserialising the entity, closing the response, and connection failures. Those failures propagate out of the real methods and are not envelopes. `Execute` receives the server's reply as an input instead.
- The headers that the abstract `addExtraHeaders` lets a subclass add are not modelled.
- `StringUtil.join` is not part of this model. The regions query value stays symbolic (`JoinOf(regions)`).
- `Long.toString` of the dirty timestamp stays symbolic (`DecimalOf(n)`).
- JerseyTransport.JerseyEurekaHttpClient.Execute: does not model the null-pointer failures of a reply with an entity but no media type, or of an instance without a dirty timestamp.
- JSON and XStream annotation processing is not modelled. `Deserialize` takes the canonical renewal timestamp as an `Option`. An absent legacy property is 0, Java's default for a primitive `long`. `Serialize` writes each getter under its property name and is used only to state the round trip.
- `EurekaClientConfig.java` is not modelled. It only declares configuration getters.
- `EurekaHttpClient.java` supplies only the operation set (`Operation`). `EurekaEndpoint.java`, `ClusterResolver.java`, `TransportClientFactory.java` and `EurekaJerseyClient.java` are not modelled: they declare interfaces with no visible implementation, so no endpoint ordering or equality rule is stated.
