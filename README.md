# Audio input route: Android adapter model

A Dafny model of the Android half of the `AudioInputRoute` Expo module
(`AudioInputRouteModule.kt`). The module answers one query, "which audio
input is active?", as a `{portType, portName}` pair, and relays OS
device-change notifications to JavaScript as a payload-free
`onAudioRouteChange` event.

- `device_types.dfy` (module `DeviceTypes`): the two lookup tables,
  `getPriority` and `getDeviceTypeName`, over the `AudioDeviceInfo.TYPE_*`
  codes. The codes carry the Android SDK's values; the proofs use only
  that they are pairwise distinct.
- `route_selection.dfy` (module `RouteSelection`): the query as a pure
  function of three inputs. These are whether the audio manager exists,
  whether the SDK is at least Android M, and the enumerated input devices.
  The pipeline `filter { isSource }`, then `sortedByDescending`, then
  `firstOrNull` is modelled step by step. `sortedByDescending` is a stable
  insertion sort, proved ordered, a permutation and stable. The result is
  proved equal to the first source device of maximal priority, a
  declarative specification (`IsFirstMaxSource`).
- `observer_lifecycle.dfy` (module `ObserverLifecycle`): the module object
  as a class. It holds the nullable `audioManager` and `audioDeviceCallback`
  fields and the log of sent events. The OS audio manager is a class holding
  the set of registered callbacks and delivers device changes only to them.
  Callbacks are objects that know the module that created them, so "a new
  callback" is `fresh` and its events land on its own module. The start,
  stop and destroy handlers and OS delivery are methods that state their
  whole new state. Four client methods state the end-to-end behaviour of
  whole call sequences.

The model follows the code as written: teardown (`OnDestroy`) unregisters
the held callback but does not clear the field, and a second start without
a stop overwrites the field and leaves the first callback registered.
Both are stated as they are (`OnDestroy`, `RestartWithoutStop`), not as
guarantees.

## Model

| member | source | states |
|---|---|---|
| DeviceTypes.Priority | android/src/main/java/expo/modules/audioinputroute/AudioInputRouteModule.kt:129-140 | Defined for every code, with a result in 0..3: exactly the Bluetooth SCO/A2DP codes get 3, exactly wired headset/headphones and USB device/headset get 2, exactly the built-in mic gets 1, and every other code (USB accessory included) gets 0 |
| DeviceTypes.TypeName | android/src/main/java/expo/modules/audioinputroute/AudioInputRouteModule.kt:142-162 | Defined for every code, with a label from the fixed label set; the label is "Unknown" exactly for codes outside the table, and "MicrophoneWired" exactly for the two wired codes |
| DeviceTypes.TypeNameDistinguishes | android/src/main/java/expo/modules/audioinputroute/AudioInputRouteModule.kt:142-162 | Two different named codes share a label if and only if both are wired codes |
| RouteSelection.Sources | android/src/main/java/expo/modules/audioinputroute/AudioInputRouteModule.kt:104-105 | The filter keeps only source devices and is never longer than its input |
| RouteSelection.SourcesComplete | android/src/main/java/expo/modules/audioinputroute/AudioInputRouteModule.kt:104-105 | A device is in the filtered list exactly when it is in the input and is a source; the filtered list is empty exactly when no device is a source |
| RouteSelection.SourcesKeepsOrder | android/src/main/java/expo/modules/audioinputroute/AudioInputRouteModule.kt:104-105 | The filter of a concatenation is the concatenation of the filters, and a single device is kept exactly when it is a source, so the filter keeps enumeration order |
| RouteSelection.SourcesCounts | android/src/main/java/expo/modules/audioinputroute/AudioInputRouteModule.kt:104-105 | Each source device occurs in the filtered list as often as in the input; every other device occurs zero times |
| RouteSelection.InsertByPriority | android/src/main/java/expo/modules/audioinputroute/AudioInputRouteModule.kt:106 | Insertion yields a list one longer than its input, holding only the inserted device and the input's devices |
| RouteSelection.InsertByPriorityPermutes | android/src/main/java/expo/modules/audioinputroute/AudioInputRouteModule.kt:106 | Insertion adds exactly one copy of the inserted device to the multiset of devices |
| RouteSelection.InsertKeepsSorted | android/src/main/java/expo/modules/audioinputroute/AudioInputRouteModule.kt:106 | Insertion into a list ordered by descending priority keeps it ordered |
| RouteSelection.InsertByPriorityStable | android/src/main/java/expo/modules/audioinputroute/AudioInputRouteModule.kt:106 | Among devices of one priority, the inserted device comes first and the others keep their order |
| RouteSelection.SortByPriorityDescending | android/src/main/java/expo/modules/audioinputroute/AudioInputRouteModule.kt:106 | The sort's result is as long as its input and ordered by descending priority |
| RouteSelection.SortByPriorityDescendingPermutes | android/src/main/java/expo/modules/audioinputroute/AudioInputRouteModule.kt:106 | The sort's result is a permutation of its input |
| RouteSelection.SortByPriorityDescendingStable | android/src/main/java/expo/modules/audioinputroute/AudioInputRouteModule.kt:106 | The sort is stable: for every priority, devices of that priority keep their enumeration order |
| RouteSelection.FirstMaxSourceUnique | android/src/main/java/expo/modules/audioinputroute/AudioInputRouteModule.kt:104-107 | At most one index is "the first source device of maximal priority", so the specification fixes the answer |
| RouteSelection.HeadIsFirstMaxSource | android/src/main/java/expo/modules/audioinputroute/AudioInputRouteModule.kt:104-107 | When some device is a source, `firstOrNull` of the sorted sources exists and is the source device of maximal priority with no earlier source device of equal priority |
| RouteSelection.AudioInputRouteCorrect | android/src/main/java/expo/modules/audioinputroute/AudioInputRouteModule.kt:86-127 | Without a manager: ("Unknown", "AudioManager not available") whatever the devices. Below Android M or with no source device: ("Unknown", "No Input"). Otherwise: the route of the first maximal-priority source device, that is its type label with its product name, or "Unknown Device" when it has none |
| RouteSelection.NonSourcesIgnored | android/src/main/java/expo/modules/audioinputroute/AudioInputRouteModule.kt:104-105 | Devices that are not sources never affect the answer: the query over all devices equals the query over the source devices alone |
| RouteSelection.BluetoothPreferred | android/src/main/java/expo/modules/audioinputroute/AudioInputRouteModule.kt:103-118 | Derived from the selection specification alone: a Bluetooth SCO headset beats a built-in mic enumerated before it; of two Bluetooth inputs the first enumerated wins; a missing product name reads "Unknown Device" |
| ObserverLifecycle.AudioManager.RegisterAudioDeviceCallback | android/src/main/java/expo/modules/audioinputroute/AudioInputRouteModule.kt:64 | Registration adds exactly the given callback to the manager's registered set |
| ObserverLifecycle.AudioManager.UnregisterAudioDeviceCallback | android/src/main/java/expo/modules/audioinputroute/AudioInputRouteModule.kt:71 | Unregistration removes exactly the given callback from the registered set |
| ObserverLifecycle.AudioManager.DeliverDeviceChange | android/src/main/java/expo/modules/audioinputroute/AudioInputRouteModule.kt:55-64 | A device-added or device-removed change delivered to a callback appends exactly one empty-payload `onAudioRouteChange` event to the callback's own module if the callback is registered, and nothing otherwise |
| ObserverLifecycle.DeviceCallback.constructor | android/src/main/java/expo/modules/audioinputroute/AudioInputRouteModule.kt:55 | A new callback belongs to the module that creates it |
| ObserverLifecycle.DeviceCallback.OnAudioDevicesChanged | android/src/main/java/expo/modules/audioinputroute/AudioInputRouteModule.kt:56-62 | Either handler appends exactly one empty-payload `onAudioRouteChange` event to the owning module's log |
| ObserverLifecycle.AudioInputRouteModule.constructor | android/src/main/java/expo/modules/audioinputroute/AudioInputRouteModule.kt:37-38 | A new module holds no manager, no callback and has sent no event |
| ObserverLifecycle.AudioInputRouteModule.OnCreate | android/src/main/java/expo/modules/audioinputroute/AudioInputRouteModule.kt:43-45 | Creation stores the audio manager and changes nothing else |
| ObserverLifecycle.AudioInputRouteModule.GetAudioInputRoute | android/src/main/java/expo/modules/audioinputroute/AudioInputRouteModule.kt:86-127 | The query changes no state and answers what the route selection answers for the module's manager and SDK level |
| ObserverLifecycle.AudioInputRouteModule.OnStartObserving | android/src/main/java/expo/modules/audioinputroute/AudioInputRouteModule.kt:53-66 | On Android M and later: stores a fresh callback owned by this module and registers exactly it with the manager, if any, leaving earlier registrations in place. Below M: changes nothing. Never sends an event |
| ObserverLifecycle.AudioInputRouteModule.OnStopObserving | android/src/main/java/expo/modules/audioinputroute/AudioInputRouteModule.kt:68-75 | On Android M and later: unregisters the held callback if there is one and clears the field. Without a held callback it changes nothing. Below M: changes nothing |
| ObserverLifecycle.AudioInputRouteModule.OnDestroy | android/src/main/java/expo/modules/audioinputroute/AudioInputRouteModule.kt:77-83 | On Android M and later: unregisters the held callback if there is one, and leaves the field as it was |
| ObserverLifecycle.StartNotifyStop | android/src/main/java/expo/modules/audioinputroute/AudioInputRouteModule.kt:53-75 | After start, two notifications send two events. After two stops, further notifications to the same callback send none |
| ObserverLifecycle.InertObserving | android/src/main/java/expo/modules/audioinputroute/AudioInputRouteModule.kt:53-66 | Below Android M, or without an audio manager, starting leaves the manager with no registered callback, and a device change sends no event |
| ObserverLifecycle.RestartWithoutStop | android/src/main/java/expo/modules/audioinputroute/AudioInputRouteModule.kt:53-75 | Starting twice and then stopping leaves the first callback registered, and a notification to it still sends an event |
| ObserverLifecycle.EventsGoToOwner | android/src/main/java/expo/modules/audioinputroute/AudioInputRouteModule.kt:55-64 | With two modules sharing one manager, a change delivered to the first module's callback sends one event on the first module and none on the second |

## Left out

- The iOS adapter (`ios/AudioInputRouteModule.swift`) is not part of this model. It configures and activates `AVAudioSession` and subscribes through `NotificationCenter`, all foreign calls. Its only decision is "first input, else Unknown/No Input".
- Logging (`Log.d`) is left out: it is observability only and does not affect results.
- The Expo glue is left out: `Name`, `AsyncFunction`, `Events`, and the asynchronous bridging of the query. `sendEvent` is modelled only as appending an event to the module's log.
- The `context` getter, which throws when the React context is null, is left out. So is the failure of the `as AudioManager` cast in `OnCreate`: the model's `OnCreate` takes the service as an argument.
- OS device enumeration (`getDevices(GET_DEVICES_INPUTS)`) is an input: a device sequence. `Build.VERSION` gating is an input too: a flag fixed for the module's lifetime.
- The `AudioManager` is reduced to its set of registered callbacks. The handler argument of `registerAudioDeviceCallback` is left out, as is the thread that delivers callbacks.
- Races between start, stop and delivery are left out: the model is sequential.
- The OS delivering one change to all registered callbacks at once is not modelled. Delivery is modelled as the manager calling one callback per call (`AudioManager.DeliverDeviceChange`), and the device arrays passed to the callbacks are ignored, as the source ignores them.
- `productName` is a `CharSequence` converted with `toString()`; the model treats it as a string.
