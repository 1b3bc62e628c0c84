/** The Android module object: its two nullable fields (the audio manager and
    the device callback it registered), the OS registration state of the
    audio manager, and the log of events the module has sent to JavaScript. */
module ObserverLifecycle {
  import opened RouteSelection

  /** The OS notifications an `AudioDeviceCallback` receives. */
  datatype DeviceChange = DevicesAdded | DevicesRemoved

  /** An event sent to JavaScript: its name and its payload. */
  datatype Event = Event(name: string, body: map<string, string>)

  /** The only event the module sends: a route change with an empty payload. */
  const RouteChangeEvent: Event := Event("onAudioRouteChange", map[])

  /** The anonymous `AudioManager.AudioDeviceCallback` a module creates when
      it starts observing. Both of its handlers send the route-change event
      on the module that created it, whatever the change. */
  class DeviceCallback {
    const owner: AudioInputRouteModule

    constructor (owner: AudioInputRouteModule)
      ensures this.owner == owner
    {
      this.owner := owner;
    }

    /** `onAudioDevicesAdded` / `onAudioDevicesRemoved`: one event with an
        empty payload, sent on the owning module. */
    method OnAudioDevicesChanged(change: DeviceChange)
      modifies owner`events
      ensures owner.events == old(owner.events) + [RouteChangeEvent]
    {
      owner.events := owner.events + [RouteChangeEvent];
    }
  }

  /** The OS audio manager, reduced to the set of device callbacks registered
      with it. */
  class AudioManager {
    var registered: set<DeviceCallback>

    constructor ()
      ensures registered == {}
    {
      registered := {};
    }

    method RegisterAudioDeviceCallback(cb: DeviceCallback)
      modifies this
      ensures registered == old(registered) + {cb}
    {
      registered := registered + {cb};
    }

    method UnregisterAudioDeviceCallback(cb: DeviceCallback)
      modifies this
      ensures registered == old(registered) - {cb}
    {
      registered := registered - {cb};
    }

    /** The OS reporting an added or removed device to `cb`: only registered
        callbacks are called, so the owner of `cb` gets exactly one event when
        `cb` is registered and none otherwise. */
    method DeliverDeviceChange(cb: DeviceCallback, change: DeviceChange)
      modifies cb.owner`events
      ensures cb.owner.events ==
                old(cb.owner.events) + (if cb in registered then [RouteChangeEvent] else [])
    {
      if cb in registered {
        cb.OnAudioDevicesChanged(change);
      }
    }
  }

  class AudioInputRouteModule {
    /** Whether `Build.VERSION.SDK_INT >= Build.VERSION_CODES.M`. */
    const sdkAtLeastM: bool
    var audioManager: AudioManager?
    var audioDeviceCallback: DeviceCallback?
    /** Every event sent so far, oldest first. */
    var events: seq<Event>

    /** True when `cb` is registered with the module's audio manager, so the
        OS delivers device changes to it. */
    predicate Registered(cb: DeviceCallback?)
      reads this, audioManager
    {
      cb != null && audioManager != null && cb in audioManager.registered
    }

    constructor (sdkAtLeastM: bool)
      ensures this.sdkAtLeastM == sdkAtLeastM
      ensures audioManager == null && audioDeviceCallback == null && events == []
    {
      this.sdkAtLeastM := sdkAtLeastM;
      audioManager := null;
      audioDeviceCallback := null;
      events := [];
    }

    /** `OnCreate`: keeps the audio system service. */
    method OnCreate(manager: AudioManager)
      modifies this
      ensures audioManager == manager
      ensures audioDeviceCallback == old(audioDeviceCallback) && events == old(events)
    {
      audioManager := manager;
    }

    /** `getAudioInputRoute`, given the devices the manager enumerates as
        inputs. It changes nothing and answers what the route selection
        answers for the current manager and SDK level. */
    method GetAudioInputRoute(devices: seq<Device>) returns (route: Route)
      ensures route == AudioInputRoute(audioManager != null, sdkAtLeastM, devices)
    {
      route := AudioInputRoute(audioManager != null, sdkAtLeastM, devices);
    }

    /** `OnStartObserving`: on Android M and later, stores a new callback and
        registers exactly that callback with the manager, if there is one.
        An earlier callback is overwritten without being unregistered. */
    method OnStartObserving()
      modifies this, audioManager
      ensures audioManager == old(audioManager) && events == old(events)
      ensures !sdkAtLeastM ==> audioDeviceCallback == old(audioDeviceCallback)
      ensures !sdkAtLeastM && audioManager != null ==>
                audioManager.registered == old(audioManager.registered)
      ensures sdkAtLeastM ==> audioDeviceCallback != null && fresh(audioDeviceCallback) &&
                                audioDeviceCallback.owner == this
      ensures sdkAtLeastM && audioManager != null ==>
                audioManager.registered == old(audioManager.registered) + {audioDeviceCallback}
    {
      if sdkAtLeastM {
        var cb := new DeviceCallback(this);
        audioDeviceCallback := cb;
        if audioManager != null {
          audioManager.RegisterAudioDeviceCallback(cb);
        }
      }
    }

    /** `OnStopObserving`: on Android M and later, unregisters the held
        callback, if any, and clears the field. Without a held callback it
        changes nothing, so a second call is harmless. */
    method OnStopObserving()
      modifies this, audioManager
      ensures audioManager == old(audioManager) && events == old(events)
      ensures !sdkAtLeastM ==> audioDeviceCallback == old(audioDeviceCallback)
      ensures sdkAtLeastM ==> audioDeviceCallback == null
      ensures audioManager != null ==>
                audioManager.registered ==
                  if sdkAtLeastM && old(audioDeviceCallback) != null
                  then old(audioManager.registered) - {old(audioDeviceCallback)}
                  else old(audioManager.registered)
      ensures sdkAtLeastM ==> !Registered(old(audioDeviceCallback))
    {
      if sdkAtLeastM {
        var cb := audioDeviceCallback;
        if cb != null && audioManager != null {
          audioManager.UnregisterAudioDeviceCallback(cb);
        }
        audioDeviceCallback := null;
      }
    }

    /** `OnDestroy`: on Android M and later, unregisters the held callback, if
        any, but leaves the field set. */
    method OnDestroy()
      modifies audioManager
      ensures audioManager != null ==>
                audioManager.registered ==
                  if sdkAtLeastM && audioDeviceCallback != null
                  then old(audioManager.registered) - {audioDeviceCallback}
                  else old(audioManager.registered)
      ensures sdkAtLeastM ==> !Registered(audioDeviceCallback)
    {
      if sdkAtLeastM {
        var cb := audioDeviceCallback;
        if cb != null && audioManager != null {
          audioManager.UnregisterAudioDeviceCallback(cb);
        }
      }
    }
  }

  /** Observing on Android M and later: each device change delivered to the
      registered callback sends one event on the module that started
      observing; after stopping (twice, to show that a second stop is
      harmless) further changes send none. */
  method StartNotifyStop(change: DeviceChange) returns (whileObserving: nat, afterStop: nat)
    ensures whileObserving == 2 && afterStop == 2
  {
    var manager := new AudioManager();
    var adapter := new AudioInputRouteModule(true);
    adapter.OnCreate(manager);
    adapter.OnStartObserving();
    var cb := adapter.audioDeviceCallback;
    manager.DeliverDeviceChange(cb, change);
    manager.DeliverDeviceChange(cb, DevicesRemoved);
    whileObserving := |adapter.events|;
    adapter.OnStopObserving();
    adapter.OnStopObserving();
    manager.DeliverDeviceChange(cb, DevicesAdded);
    manager.DeliverDeviceChange(cb, DevicesRemoved);
    afterStop := |adapter.events|;
  }

  /** Below Android M, or without an audio manager, starting registers no
      callback with the manager, so no device change reaches the module. */
  method InertObserving(sdkAtLeastM: bool, withManager: bool, change: DeviceChange)
    returns (nothingRegistered: bool, sent: nat)
    requires !sdkAtLeastM || !withManager
    ensures nothingRegistered && sent == 0
  {
    var manager := new AudioManager();
    var adapter := new AudioInputRouteModule(sdkAtLeastM);
    if withManager {
      adapter.OnCreate(manager);
    }
    adapter.OnStartObserving();
    nothingRegistered := manager.registered == {};
    var cb := new DeviceCallback(adapter);
    if adapter.audioDeviceCallback != null {
      cb := adapter.audioDeviceCallback;
    }
    manager.DeliverDeviceChange(cb, change);
    sent := |adapter.events|;
  }

  /** Starting twice without a stop in between, as the module does if asked:
      the first callback stays registered after the stop, and a change
      delivered to it still sends an event on the module that created it. */
  method RestartWithoutStop() returns (firstStillRegistered: bool, sent: nat)
    ensures firstStillRegistered && sent == 1
  {
    var manager := new AudioManager();
    var adapter := new AudioInputRouteModule(true);
    adapter.OnCreate(manager);
    adapter.OnStartObserving();
    var first := adapter.audioDeviceCallback;
    adapter.OnStartObserving();
    adapter.OnStopObserving();
    firstStillRegistered := first in manager.registered;
    manager.DeliverDeviceChange(first, DevicesAdded);
    sent := |adapter.events|;
  }

  /** Two modules sharing one audio manager: a change delivered to the first
      module's callback sends its event on the first module only. */
  method EventsGoToOwner() returns (firstSent: nat, secondSent: nat)
    ensures firstSent == 1 && secondSent == 0
  {
    var manager := new AudioManager();
    var first := new AudioInputRouteModule(true);
    var second := new AudioInputRouteModule(true);
    first.OnCreate(manager);
    second.OnCreate(manager);
    first.OnStartObserving();
    var cb := first.audioDeviceCallback;
    manager.DeliverDeviceChange(cb, DevicesAdded);
    firstSent, secondSent := |first.events|, |second.events|;
  }
}
