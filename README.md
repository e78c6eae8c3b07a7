# Registrator orchestration core, modelled in Dafny

Registrator is a daemon that watches the containers on one Docker host and
drives a "bridge" that registers and deregisters their services in a
discovery backend. The file `registrator.go` holds the daemon's `main`. Almost
all of it is plumbing: flag parsing, a Docker client, goroutines, tickers and
fatal logging. This project models the sequential decision logic inside it:

- `version.dfy` (module `Version`): builds the reported version string from
  the release version, the prerelease tag and the git description.
- `config.dfy` (module `Config`): the startup checks on the TTL pair, the
  retry interval and the deregister mode. The first check that fails decides
  the error.
- `connect.dfy` (module `Connect`): the connection retry loop. The ping
  outcomes are an input sequence. Each step is recorded as a ping (with its
  outcome) or a sleep (with its duration). A method with a `while` loop is
  proved equal to a closed-form specification `Expected`, and the lemmas
  state the attempt counts, sleep counts and outcomes.
- `dispatch.dfy` (module `Dispatch`): the Docker event loop. A
  `"start"` event yields `Add(id)`, a `"die"` event yields
  `RemoveOnExit(id)`, and any other status yields nothing. A loop that
  appends to an action list is proved equal to the function `Actions`.
- `registrator.dfy` (module `Registrator`): the main action as a whole. It
  validates the options, creates the client and the bridge, connects,
  subscribes, runs the initial sync and dispatches events. The result is a
  trace of the calls made and the way the run ends. Every ending is fatal,
  as in the daemon. The only exception is an observation that stops while
  the daemon is still retrying.

Fatal exits (`assert` → `Log.Fatalln`, registrator.go:15-18) become error
values. I/O becomes inputs: whether the Docker client, the bridge and the
event listener can be created, the ping outcomes, and the event sequence.

### Where the code and its documentation disagree (the model follows the code)

- The options use the program's variable names. `refreshTtl` is read from
  the flag `ttl-refresh` (registrator.go:60-61). `refreshInterval` is read
  from the flag `ttl` (registrator.go:66-67).
- For a positive `refreshTtl`, the check at registrator.go:107 passes only
  when `refreshTtl > refreshInterval`. In flag terms, that means
  `ttl-refresh > ttl`.
- The program's own text asks for the opposite. The error message at
  registrator.go:108 reads "-ttl must be greater than -ttl-refresh". The
  flag descriptions call `ttl-refresh` the "Frequency with which service
  TTLs are refreshed" (registrator.go:63) and `ttl` the "TTL for services"
  (registrator.go:69), and a refresh period is meant to be shorter than the
  TTL it refreshes.
- So `-ttl 10 -ttl-refresh 5` is refused with
  "-ttl must be greater than -ttl-refresh". Two lemmas show this:
  `Config.FlagTtlTenRefreshFiveRejected` and
  `Config.ErrorTextDirectionRejected`.
- The check itself matches how the code uses the two variables. The refresh
  ticker fires every `refreshInterval` seconds (registrator.go:167-168), and
  the bridge receives `RefreshTtl: refreshTtl` (registrator.go:132). So
  `refreshTtl > refreshInterval` means "the TTL is longer than the refresh
  period" in the code's own terms. What contradicts the error text and the
  flag descriptions is how the flag names are bound to the variables
  (registrator.go:60-71), not the comparison at registrator.go:107.
- The error at registrator.go:106 says the two options "must be specified
  together or not at all". The code still lets negative values through
  (`Config.NegativeTtlSlipsThrough`): a negative `refreshTtl` passes with any
  `refreshInterval`, and a negative `refreshInterval` passes with any
  non-negative `refreshTtl`.
- The deregister mode is checked after the Docker client is created. So a
  client failure is reported instead of a bad deregister mode.
- The retry loop itself does not require a positive interval. It relies on
  the earlier check.

## Model

| member | source | states |
|---|---|---|
| Version.VersionString | registrator.go:23-33 | the base (the git description if it is non-empty, else the version) is a prefix of the result; an empty prerelease adds nothing, so no hyphen; a non-empty one adds exactly "-" and the tag |
| Version.PrereleaseRoundTrip | registrator.go:29-32 | the prerelease tag can be read back from the version string once the base is known |
| Version.PrereleaseInjective | registrator.go:24-32 | for a fixed base, different prerelease tags give different version strings |
| Version.GitDescribeOverridesVersion | registrator.go:24-28 | a non-empty git description makes the release version irrelevant and starts the result |
| Version.VersionExamples | registrator.go:24-32 | concrete strings with and without a git description and a prerelease tag |
| Config.CheckTtl | registrator.go:105-109 | closed form of the accepted set (negative refreshTtl passes; zero needs refreshInterval <= 0; positive needs a non-zero, smaller refreshInterval); the "together" error happens exactly when one of the two is zero and the other positive; the "greater" error only for two positives |
| Config.CheckRetryInterval | registrator.go:111-113 | accepted iff the retry interval is positive; otherwise the retry-interval error |
| Config.CheckDeregister | registrator.go:123-125 | accepted iff the mode is "always" or "on-success"; otherwise the deregister error |
| Config.Validate | registrator.go:105-125 | accepted iff all three checks pass; a TTL failure wins over the others, the retry error only after the TTL pair passed, the deregister error only after both passed |
| Config.TtlCheckAgreesOnNonNegative | registrator.go:105-109 | every pair that is both zero, or both positive with refreshTtl larger (the both-or-neither rule in the code's direction), passes, and on non-negative values these are exactly the accepted pairs |
| Config.NegativeTtlSlipsThrough | registrator.go:105-109 | a negative refreshTtl, or a zero or positive refreshTtl over a negative refreshInterval, is accepted |
| Config.ErrorTextDirectionRejected | registrator.go:107-108 | every pair with 0 < refreshTtl < refreshInterval is refused with the "greater than" error |
| Config.FlagTtlTenRefreshFiveRejected | registrator.go:60-108 | "-ttl 10 -ttl-refresh 5" is refused; the swapped values pass |
| Config.ValidationExamples | registrator.go:105-125 | both zero accepted, one zero refused, equal positives refused, (10, 5) accepted, retry interval 0 refused and 1 accepted, only the two deregister words accepted |
| Connect.Expected | registrator.go:140-155 | the outcome is skipped exactly when retryAttempts < -1; exhaustion only for retryAttempts >= 0, with the counter at retryAttempts; success only on a ping that succeeded |
| Connect.Establish | registrator.go:140-155 | the retry loop's outcome, final counter and ping/sleep trace equal the closed form Expected |
| Connect.AlwaysFailingExhausts | registrator.go:140-155 | with every ping failing and retryAttempts = N >= 0: fatal exhaustion, exactly N+1 pings and N sleeps, all sleeps before the last ping, N times the interval slept |
| Connect.SucceedsAfterFailures | registrator.go:141-147 | with K failures before the first success and retryAttempts = -1 or K <= retryAttempts: success, K+1 pings, K sleeps, the counter ends at K |
| Connect.DefaultSingleAttempt | registrator.go:141-151 | for every non-empty ping outcome sequence with retryAttempts = 0: the trace is the one first ping and no sleep, the counter stays 0, a first success connects and a first failure is fatal even when a later ping would succeed |
| Connect.UnboundedNeverExhausts | registrator.go:141-151 | with retryAttempts = -1 the exhaustion branch is never taken |
| Connect.SuccessEndsLoop | registrator.go:144-147 | a successful ping is the last step: no further ping, no sleep after it, and the counter is not incremented |
| Connect.PingsBounded | registrator.go:141-151 | with retryAttempts >= 0 there are at most retryAttempts+1 pings |
| Connect.PingsConsumedInOrder | registrator.go:140-155 | the outcomes of the pings in the trace, in order, are a prefix of the ping outcome sequence: attempts use the outcomes from the first one, none skipped or reordered |
| Connect.BelowMinusOneSkips | registrator.go:141 | with retryAttempts < -1 there is no ping, no sleep and no fatal error |
| Dispatch.DispatchAll | registrator.go:199-206 | the event loop issues exactly the actions of Actions(events), in event order |
| Dispatch.SingleEvent | registrator.go:200-205 | "start" gives exactly one Add, "die" exactly one RemoveOnExit, any other status nothing |
| Dispatch.ActionsAppend | registrator.go:199-206 | the actions of two event streams in a row are the first stream's actions followed by the second's |
| Dispatch.ActionCount | registrator.go:199-206 | the number of actions equals the number of "start" events plus the number of "die" events |
| Dispatch.ActionsPerContainer | registrator.go:199-206 | per container, the number of Add actions equals its "start" events and the number of RemoveOnExit actions its "die" events |
| Registrator.Run | registrator.go:96-210 | a failed option check exits with that error before any call; client and bridge failures exit before any ping; then the connection trace, and after a successful or skipped connection Subscribe, Sync(false) and the dispatched actions, ending in the fatal "event loop closed" |
| Registrator.SubscribeBeforeInitialSync | registrator.go:157-162 | in a run that reaches the event loop, every connection step comes first, then Subscribe, then the one Sync(false), and only then any dispatched action |
| Registrator.NoEventLost | registrator.go:157-206 | once the event loop is reached, every event the loop receives is acted on exactly once: per container, one Add call per received "start" event and one RemoveOnExit call per received "die" event, and no other Add or RemoveOnExit call in the trace |

## Left out

- Command-line definition and parsing with mow.cli (registrator.go:22, 35-94, 212): library calls. The option values are plain inputs, and the flag defaults are not modelled.
- Logging (`SetLogLevel`, every `Log.*` message, the host-IP notice at registrator.go:101-103): process-wide output. A fatal log becomes an error value.
- The `DOCKER_HOST` default and Docker client creation (registrator.go:115-121): environment and socket I/O. Only whether the creation succeeds is an input.
- `bridge.New` and the bridge methods `Ping`, `Sync`, `Refresh`, `Add` and `RemoveOnExit`: their code is not part of this model. Success of `New` and the ping outcomes are inputs. The other calls are recorded in the trace.
- The options handed to the bridge without any logic here (the registry URL given to `bridge.New`, host IP, internal, global, tags, cleanup; registrator.go:127-136): they change nothing in this core.
- The refresh and resync tickers, which `refreshInterval` and the resync interval switch on and time, their goroutines and the `quit` channel (registrator.go:164-196, 208): concurrency and wall-clock timers. The trace has no `Refresh` or `Sync(true)` calls.
- The `go` in `go b.Add` / `go b.RemoveOnExit` (registrator.go:202, 204): the model keeps the order in which actions are issued, not the order in which they complete.
- Sleep durations: each sleep records its duration in milliseconds and nothing more. There is no clock. The 64-bit nanosecond product `time.Duration(retryInterval) * time.Millisecond` (registrator.go:153) is not modelled: it wraps for a retry interval above about 9.2e12 ms, while `Connect.AlwaysFailingExhausts` states the total slept as an unbounded integer.
- Connect.Establish: the ping outcomes form a finite sequence. When it runs out while the loop would still retry, the run ends `Undecided`, so an infinite retry is seen only through its finite prefixes.
- Connect.Establish: the wrap-around of Go's 64-bit `attempt++` is not modelled. It needs 2^63 failed attempts.
- Dispatch.DispatchAll: the event stream is a finite sequence whose end stands for the channel closing. A nil event pointer is not modelled.
- Registrator.NoEventLost: the model has no sync window. The events are whatever the loop at registrator.go:199 receives. Whether an event emitted during the initial `Sync(false)` (registrator.go:162) reaches the loop depends on the Docker client writing into the channel made at registrator.go:158. That delivery is assumed of the Docker client, not modelled.
