# Network status monitors, modelled in Dafny

The repository holds two versions of a "network status" component for iOS.

- **NetworkStatusSample** watches the current network path. It classifies the interfaces the path uses into one of five categories: `wifi`, `cellular`, `localhost`, `ethernet` and `unknown`. Its path-update handler publishes that category in the `interfaceType` property, which starts as nil.
- **ReachabilitySample** keeps a reachability handle for the zero address. `start` registers a callback and a dispatch queue on the handle, then reads the initial flags. `stop` unregisters them again. `setFlags` records whether the flags contain `.reachable` and posts a `networkReachable` or `networkUnreachable` notification.

Files:

- `wrappers.dfy`: `Option`, the model of Swift's optionals.
- `network_status_sample.dfy`: the path classifier and the `NetworkStatus` object that publishes its result. Its `published` log holds the value of every announcement of `interfaceType`, in order.
- `reachability_sample.dfy`: the reachability monitor in two layers.
  - Functions on a `Status` value (`Initial`, `Started`, `Stopped`, `FlagsSet`, `Changed`) give the meaning of each operation.
  - The class `NetworkStatus` updates its fields step by step, as the Swift code does. Each of its methods is proved to produce exactly the state the matching function describes.
  - Lemmas over event sequences (`Run`) prove what holds across many calls.

How the model stands in for the OS:

- Each OS call in `start` and `init` becomes an ordinary parameter: whether handle creation, callback registration, queue attachment and the initial flag read succeed, plus the flags that read returns.
- The OS-side state of the handle is the value `Handle(callbackSet, queueSet)`.
- The notification center is a log field: `posted: seq<NotificationName>`.
- `ReachabilityChanged` and `Changed` model the OS calling the installed callback. The OS does this only while a callback is set on the handle and a queue is attached.
- The reachability flags are a 32-bit option set (`bv32`). `.reachable` is bit 1.

Notes on the code's behaviour:

- Neither class de-duplicates. Every path update assigns the published property `interfaceType`, so observers are told of every update, even when the category has not changed. The model logs each such announcement in the field `published`. Every `setFlags` call posts a notification, even when the value has not changed (`RepeatedFlagsPostTwice`).
- The classifier never looks at the path's status or reachability. It looks only at which interfaces the path uses.
- Neither class keeps its own list of subscribers. Observers subscribe through SwiftUI or the notification center, neither of which is modelled.

Behaviour of the code as written, reproduced exactly:

- `start` calls `stop()` when callback registration or queue attachment fails. At that point `isRunning` is still false, so `stop` does not unregister anything. After a queue-attachment failure the callback therefore stays registered.
- When the initial flag read fails, `stop()` again has no effect, and `start` then sets `isRunning = true` after the sync block. The monitor ends up running, with callback and queue installed, and no notification posted (`Started`).
- The guard inside the sync block (`ReachabilitySample/NetworkStatus.swift:61`) always passes: `reachability` is checked at line 29 and never reset to nil.

## Model

| member | source | states |
|---|---|---|
| `NetworkStatusSample.CheckInterfaceType` | NetworkStatusSample/NetworkStatus.swift:36-47 | Wi-Fi in use gives `wifi` whatever else is in use. `cellular` exactly when Wi-Fi is not used and cellular is. `localhost` exactly when loopback is used and neither Wi-Fi nor cellular is. `ethernet` exactly when wired Ethernet is the only recognised kind in use. `unknown` exactly when none of the four is used. |
| `NetworkStatusSample.FirstUsedIndex` | NetworkStatusSample/NetworkStatus.swift:36-47 | Reference definition of the priority order: the index of the first kind in an ordered list that the path uses. Every earlier kind is unused. The kind at the index is used. The index is the list's length when none is used. |
| `NetworkStatusSample.ClassifierFollowsPriority` | NetworkStatusSample/NetworkStatus.swift:36-47 | The if-chain returns the category of the highest-priority interface in use, under the order Wi-Fi > cellular > loopback > wired Ethernet, and `unknown` when none is in use. |
| `NetworkStatusSample.ClassifierSeesOnlyRecognised` | NetworkStatusSample/NetworkStatus.swift:5-11 | The classifier is deterministic and total. Two paths that use the same recognised interfaces get the same category, whatever other interfaces they use. |
| `NetworkStatusSample.NetworkStatus.constructor` | NetworkStatusSample/NetworkStatus.swift:16-18 | `interfaceType` is nil before any path update, and nothing has been announced. |
| `NetworkStatusSample.NetworkStatus.PathUpdateHandler` | NetworkStatusSample/NetworkStatus.swift:16-23 | Every path update, repeated or not, leaves `interfaceType` non-nil and equal to the classifier's output for that path. It also appends exactly that category to the `published` log, so a repeated category is announced again. Afterwards `interfaceType` equals the last announced value. |
| `ReachabilitySample.RawValuesDistinct` | ReachabilitySample/NetworkStatus.swift:95-98 | The two notification names have distinct raw string values, so observers can tell them apart. |
| `ReachabilitySample.Initial` | ReachabilitySample/NetworkStatus.swift:14-26 | On construction `isReachable` and `isRunning` are false and nothing has been posted. The handle exists exactly when creating it succeeded. The state satisfies the invariant and receives no changes. |
| `ReachabilitySample.FlagsSet` | ReachabilitySample/NetworkStatus.swift:84-92 | `isReachable` is true exactly when the flags contain `.reachable`. Exactly one notification is appended to the log, and it is `networkReachable` exactly when the flags contain `.reachable`. Running state and handle are unchanged. |
| `ReachabilitySample.Stopped` | ReachabilitySample/NetworkStatus.swift:76-82 | `isRunning` is false afterwards on every path. The callback and queue are removed only when a handle exists and the monitor was running. Otherwise the handle is untouched. `isReachable` and the log are unchanged. |
| `ReachabilitySample.Started` | ReachabilitySample/NetworkStatus.swift:28-74 | Nothing changes without a handle or when already running. If callback registration fails, nothing changes at all. If queue attachment fails, the monitor is not running, `isReachable` and the log are unchanged, and the callback registered just before stays registered on the handle. If all three OS steps succeed, it is running, `isReachable` reflects `.reachable` in the initial flags, and exactly one notification is posted. If only the flag read fails, it is still running, with callback and queue installed and nothing posted. |
| `ReachabilitySample.Changed` | ReachabilitySample/NetworkStatus.swift:31-34 | A reported change updates `isReachable` and posts one notification when the handle holds the callback on an attached queue. Otherwise it changes nothing. |
| `ReachabilitySample.StepKeepsValid` | ReachabilitySample/NetworkStatus.swift:28-92 | `start`, `stop` and a reported change each preserve the invariant. The invariant: running exactly when a queue is attached; a queue only on top of a callback; `isReachable` agrees with the last notification posted. |
| `ReachabilitySample.RunKeepsValid` | ReachabilitySample/NetworkStatus.swift:28-92 | The invariant holds after any sequence of `start`, `stop` and reported changes. |
| `ReachabilitySample.RunningIffDelivering` | ReachabilitySample/NetworkStatus.swift:55-73 | In every valid state the monitor is running exactly when the OS can deliver changes to its callback. |
| `ReachabilitySample.StartIdempotent` | ReachabilitySample/NetworkStatus.swift:29 | Calling `start` on a running monitor changes nothing, whatever the OS calls would return. |
| `ReachabilitySample.StopIdempotent` | ReachabilitySample/NetworkStatus.swift:76-82 | Stopping twice is the same as stopping once. |
| `ReachabilitySample.RepeatedFlagsPostTwice` | ReachabilitySample/NetworkStatus.swift:84-91 | No de-duplication: two `setFlags` calls with the same flags post two notifications. |
| `ReachabilitySample.RunOnlyAppends` | ReachabilitySample/NetworkStatus.swift:84-91 | Over any event sequence the notification log only grows. Earlier entries are kept. It grows by at most one entry per event. |
| `ReachabilitySample.UnavailableIsPermanent` | ReachabilitySample/NetworkStatus.swift:24-29 | If handle creation failed, no sequence of events starts the monitor, changes its state or posts anything. |
| `ReachabilitySample.UndeliveredChangesAreDropped` | ReachabilitySample/NetworkStatus.swift:31-34 | Changes reported while no callback is installed on an attached queue change nothing. |
| `ReachabilitySample.NoPostAfterStop` | ReachabilitySample/NetworkStatus.swift:76-82 | After `stop` on a valid state, no later reported change posts a notification or changes the state until `start` is called again. |
| `ReachabilitySample.NetworkStatus.constructor` | ReachabilitySample/NetworkStatus.swift:14-26 | The new object's fields are `Initial(createOk)` and satisfy the invariant. |
| `ReachabilitySample.NetworkStatus.SetFlags` | ReachabilitySample/NetworkStatus.swift:84-92 | Sets `isReachable` to whether the flags contain `.reachable` and appends exactly the matching notification name to the log, as `FlagsSet` says. |
| `ReachabilitySample.NetworkStatus.Stop` | ReachabilitySample/NetworkStatus.swift:76-82 | Leaves `isRunning` false on both exits, through the deferred reset. The new state is `Stopped` of the old one, and the invariant is kept. |
| `ReachabilitySample.NetworkStatus.Start` | ReachabilitySample/NetworkStatus.swift:28-74 | Follows the guard-and-return control flow, including the calls to `stop` and the final `isRunning = true`. The new state is `Started` of the old state and the OS outcomes, and the invariant is kept. |
| `ReachabilitySample.NetworkStatus.ReachabilityChanged` | ReachabilitySample/NetworkStatus.swift:31-34 | The installed callback forwards the reported flags to `setFlags` while the OS delivers. The new state is `Changed` of the old one, and the invariant is kept. |

## Left out

- The OS primitives (`SCNetworkReachabilityCreateWithAddress`, `SetCallback`, `SetDispatchQueue`, `GetFlags`, `NWPathMonitor`) are foreign calls. Their outcomes are parameters. Unregistering in `stop` is assumed to succeed, because the code ignores the results of those two calls.
- `NetworkStatusSample.NetworkStatus.start` and `cancel` only forward to the path monitor, which is not modelled. Each path update that monitor delivers is one call of `PathUpdateHandler`.
- Dispatch queues, `sync`, `main.async` and the weak/unowned captures are threading and lifetime plumbing. Each handler invocation is a sequential method call.
- The `Unmanaged` retain/release context has no behavioural content. The callback's nil-`info` guard never fires, because `start` always passes `self`.
- The zero `sockaddr` set-up only builds the address the handle watches.
- `print` calls are not modelled.
- Notification delivery to observers is not modelled. Only the sequence of posted names is.
- The singleton `shared` is replaced by an explicitly constructed object.
- The UI files (view controller, SwiftUI views, app entry point) contain layout and wiring only.
