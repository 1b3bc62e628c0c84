/** The route query of the Android adapter: keep the input devices that are
    sources, order them by descending priority with a stable sort, and report
    the first one, or one of two sentinel routes. The device list and the
    "SDK is at least Android M" flag are inputs of the model (the real ones
    come from the OS). */
module RouteSelection {
  import opened DeviceTypes

  datatype Option<T> = None | Some(value: T)

  /** An enumerated audio device: its `AudioDeviceInfo` type code, whether it
      is a source (an input), and its product name, which may be null. */
  datatype Device = Device(kind: int, isSource: bool, productName: Option<string>)

  /** The `{portType, portName}` map the query resolves to. */
  datatype Route = Route(portType: string, portName: string)

  const ManagerUnavailable: Route := Route("Unknown", "AudioManager not available")
  const NoInput: Route := Route("Unknown", "No Input")

  /** The sort key `sortedByDescending` uses. */
  function Key(d: Device): (p: int) {
    Priority(d.kind)
  }

  ghost predicate HasSource(devices: seq<Device>) {
    exists j :: 0 <= j < |devices| && devices[j].isSource
  }

  /** `devices.filter { it.isSource }`: the source devices, in enumeration
      order. Everything it keeps is a source device. */
  function Sources(devices: seq<Device>): (r: seq<Device>)
    ensures |r| <= |devices|
    ensures forall i :: 0 <= i < |r| ==> r[i].isSource
  {
    if devices == [] then []
    else if devices[0].isSource then [devices[0]] + Sources(devices[1..])
    else Sources(devices[1..])
  }

  /** The filter keeps exactly the source devices of its input, so it comes
      out empty exactly when no device is a source. */
  lemma {:induction false} SourcesComplete(devices: seq<Device>)
    ensures forall d :: d in Sources(devices) <==> d in devices && d.isSource
    ensures Sources(devices) == [] <==> !HasSource(devices)
  {
    if devices != [] {
      SourcesComplete(devices[1..]);
      assert devices == [devices[0]] + devices[1..];
      if HasSource(devices) && !devices[0].isSource {
        var j :| 0 <= j < |devices| && devices[j].isSource;
        assert devices[1..][j - 1].isSource;
      }
    }
  }

  /** The filter works device by device and keeps enumeration order: the
      filter of a concatenation is the concatenation of the filters, and a
      single device is kept exactly when it is a source. */
  lemma {:induction false} SourcesKeepsOrder(a: seq<Device>, b: seq<Device>)
    ensures Sources(a + b) == Sources(a) + Sources(b)
    ensures forall d :: Sources([d]) == if d.isSource then [d] else []
  {
    if a != [] {
      SourcesKeepsOrder(a[1..], b);
      assert (a + b)[1..] == a[1..] + b;
    } else {
      assert a + b == b;
    }
    forall d ensures Sources([d]) == if d.isSource then [d] else [] {
      assert [d][1..] == [];
    }
  }

  /** The filter keeps each source device as many times as it is enumerated
      and drops every other device. */
  lemma {:induction false} SourcesCounts(devices: seq<Device>, x: Device)
    ensures multiset(Sources(devices))[x] == if x.isSource then multiset(devices)[x] else 0
  {
    if devices != [] {
      SourcesCounts(devices[1..], x);
      assert devices == [devices[0]] + devices[1..];
    }
  }

  ghost predicate SortedByPriority(s: seq<Device>) {
    forall i, j :: 0 <= i < j < |s| ==> Key(s[i]) >= Key(s[j])
  }

  /** The elements of `s` whose priority is `k`, in their order in `s`. */
  function WithPriority(s: seq<Device>, k: int): (r: seq<Device>)
    ensures forall i :: 0 <= i < |r| ==> Key(r[i]) == k
  {
    if s == [] then []
    else (if Key(s[0]) == k then [s[0]] else []) + WithPriority(s[1..], k)
  }

  /** Inserts `x` into `s` in front of the first element whose priority is not
      greater than that of `x`: an element inserted this way precedes every
      element of equal priority already in `s`. The result holds `x` and the
      elements of `s`, one more than `s`. */
  function InsertByPriority(x: Device, s: seq<Device>): (r: seq<Device>)
    ensures |r| == |s| + 1
    ensures forall i :: 0 <= i < |r| ==> r[i] == x || r[i] in s
  {
    if s == [] || Key(x) >= Key(s[0]) then
      [x] + s
    else
      var rest := InsertByPriority(x, s[1..]);
      assert forall i :: 0 <= i < |rest| ==> rest[i] == x || rest[i] in s;
      [s[0]] + rest
  }

  /** Insertion adds exactly one copy of `x` and loses nothing. */
  lemma {:induction false} InsertByPriorityPermutes(x: Device, s: seq<Device>)
    ensures multiset(InsertByPriority(x, s)) == multiset(s) + multiset{x}
  {
    if s != [] && Key(x) < Key(s[0]) {
      InsertByPriorityPermutes(x, s[1..]);
      assert s == [s[0]] + s[1..];
    }
  }

  /** Insertion keeps a list ordered by descending priority. */
  lemma {:induction false} InsertKeepsSorted(x: Device, s: seq<Device>)
    requires SortedByPriority(s)
    ensures SortedByPriority(InsertByPriority(x, s))
  {
    if s != [] && Key(x) < Key(s[0]) {
      var rest := InsertByPriority(x, s[1..]);
      InsertKeepsSorted(x, s[1..]);
      var r := [s[0]] + rest;
      forall i, j | 0 <= i < j < |r| ensures Key(r[i]) >= Key(r[j]) {
        assert r[j] == rest[j - 1];
        if i > 0 {
          assert r[i] == rest[i - 1];
        }
      }
    }
  }

  /** `sortedByDescending { getPriority(it.type) }`: a stable sort by
      descending priority. Its result is as long as its input and ordered;
      that it is a permutation of its input and stable is proved below. */
  function SortByPriorityDescending(s: seq<Device>): (r: seq<Device>)
    ensures |r| == |s|
    ensures SortedByPriority(r)
  {
    if s == [] then []
    else
      InsertKeepsSorted(s[0], SortByPriorityDescending(s[1..]));
      InsertByPriority(s[0], SortByPriorityDescending(s[1..]))
  }

  /** The sort is a permutation of its input. */
  lemma {:induction false} SortByPriorityDescendingPermutes(s: seq<Device>)
    ensures multiset(SortByPriorityDescending(s)) == multiset(s)
  {
    if s != [] {
      SortByPriorityDescendingPermutes(s[1..]);
      InsertByPriorityPermutes(s[0], SortByPriorityDescending(s[1..]));
      assert s == [s[0]] + s[1..];
    }
  }

  /** Insertion is stable: among the devices of any one priority, the
      inserted device comes first and the others keep their order. */
  lemma {:induction false} InsertByPriorityStable(x: Device, s: seq<Device>, k: int)
    ensures WithPriority(InsertByPriority(x, s), k) ==
            (if Key(x) == k then [x] else []) + WithPriority(s, k)
  {
    if s == [] || Key(x) >= Key(s[0]) {
      assert ([x] + s)[1..] == s;
    } else {
      var rest := InsertByPriority(x, s[1..]);
      InsertByPriorityStable(x, s[1..], k);
      assert ([s[0]] + rest)[1..] == rest;
    }
  }

  /** The sort is stable: for every priority, the devices of that priority
      appear in the result in the order they were enumerated. */
  lemma {:induction false} SortByPriorityDescendingStable(s: seq<Device>, k: int)
    ensures WithPriority(SortByPriorityDescending(s), k) == WithPriority(s, k)
  {
    if s != [] {
      SortByPriorityDescendingStable(s[1..], k);
      InsertByPriorityStable(s[0], SortByPriorityDescending(s[1..]), k);
    }
  }

  /** The device the query is meant to report: the source device at index
      `k` has the highest priority among all source devices, and every source
      device enumerated before it has a strictly lower priority. */
  ghost predicate IsFirstMaxSource(devices: seq<Device>, k: int) {
    0 <= k < |devices| && devices[k].isSource &&
    (forall j :: 0 <= j < |devices| && devices[j].isSource ==> Key(devices[j]) <= Key(devices[k])) &&
    (forall j :: 0 <= j < k && devices[j].isSource ==> Key(devices[j]) < Key(devices[k]))
  }

  /** The route reported for a selected device; a null product name reads
      "Unknown Device". */
  function Describe(d: Device): (r: Route) {
    Route(TypeName(d.kind), match d.productName case Some(name) => name case None => "Unknown Device")
  }

  /** `getAudioInputRoute`: the sentinel when there is no audio manager; the
      highest-priority source device when the SDK has device enumeration and
      there is one; the "No Input" sentinel otherwise. */
  function AudioInputRoute(managerPresent: bool, sdkAtLeastM: bool, devices: seq<Device>): (r: Route) {
    if !managerPresent then ManagerUnavailable
    else if sdkAtLeastM then
      var ranked := SortByPriorityDescending(Sources(devices));
      if ranked != [] then Describe(ranked[0]) else NoInput
    else NoInput
  }

  /** At most one index satisfies the selection specification, so it fixes
      the reported device. */
  lemma FirstMaxSourceUnique(devices: seq<Device>, i: int, j: int)
    requires IsFirstMaxSource(devices, i) && IsFirstMaxSource(devices, j)
    ensures i == j
  {
  }

  /** Moving the selection one device further down the list: if `k` is the
      selected index of `devices[1..]` and the first device does not beat it,
      `k + 1` is the selected index of `devices`. */
  lemma FirstMaxSourceBehind(devices: seq<Device>, k: int)
    requires |devices| > 0 && IsFirstMaxSource(devices[1..], k)
    requires devices[0].isSource ==> Key(devices[0]) < Key(devices[k + 1])
    ensures IsFirstMaxSource(devices, k + 1)
  {
  }

  /** The first device is selected when it is a source that no later source
      device beats. */
  lemma FirstMaxSourceAtHead(devices: seq<Device>)
    requires |devices| > 0 && devices[0].isSource
    requires forall j :: 0 <= j < |devices| - 1 && devices[1..][j].isSource ==>
               Key(devices[1..][j]) <= Key(devices[0])
    ensures IsFirstMaxSource(devices, 0)
  {
    forall j | 0 < j < |devices| ensures devices[j] == devices[1..][j - 1] {
    }
  }

  /** The head of the sorted source list is the first source device of
      maximal priority. */
  lemma {:induction false} HeadIsFirstMaxSource(devices: seq<Device>)
    requires HasSource(devices)
    ensures SortByPriorityDescending(Sources(devices)) != []
    ensures exists k :: IsFirstMaxSource(devices, k) &&
                        SortByPriorityDescending(Sources(devices))[0] == devices[k]
  {
    var d0, rest := devices[0], devices[1..];
    var sorted := SortByPriorityDescending(Sources(devices));
    SourcesComplete(rest);
    if !HasSource(rest) {
      assert sorted == [d0] by {
        assert Sources(devices) == [d0];
      }
      FirstMaxSourceAtHead(devices);
    } else {
      HeadIsFirstMaxSource(rest);
      var tail := SortByPriorityDescending(Sources(rest));
      var k :| IsFirstMaxSource(rest, k) && tail[0] == rest[k];
      assert sorted == if d0.isSource then InsertByPriority(d0, tail) else tail by {
        assert Sources(devices) == if d0.isSource then [d0] + Sources(rest) else Sources(rest);
      }
      if d0.isSource && Key(d0) >= Key(tail[0]) {
        assert sorted[0] == d0;
        FirstMaxSourceAtHead(devices);
      } else {
        assert sorted[0] == tail[0];
        FirstMaxSourceBehind(devices, k);
      }
    }
  }

  /** What the route query promises, case by case: the manager sentinel
      whatever the devices are; the "No Input" sentinel below Android M or
      without a source device; otherwise the type label and product name of
      the first source device of maximal priority. */
  lemma {:induction false} AudioInputRouteCorrect(managerPresent: bool, sdkAtLeastM: bool, devices: seq<Device>)
    ensures !managerPresent ==>
              AudioInputRoute(managerPresent, sdkAtLeastM, devices) == ManagerUnavailable
    ensures managerPresent && (!sdkAtLeastM || !HasSource(devices)) ==>
              AudioInputRoute(managerPresent, sdkAtLeastM, devices) == NoInput
    ensures managerPresent && sdkAtLeastM && HasSource(devices) ==>
              exists k :: IsFirstMaxSource(devices, k) &&
                          AudioInputRoute(managerPresent, sdkAtLeastM, devices) == Describe(devices[k])
  {
    SourcesComplete(devices);
    if managerPresent && sdkAtLeastM && HasSource(devices) {
      HeadIsFirstMaxSource(devices);
    }
  }

  /** Filtering is idempotent: the source devices of a list of source
      devices are that list. */
  lemma {:induction false} SourcesIdempotent(devices: seq<Device>)
    ensures Sources(Sources(devices)) == Sources(devices)
  {
    if devices != [] {
      SourcesIdempotent(devices[1..]);
    }
  }

  /** Devices that are not sources never influence the answer: the query
      over the full list equals the query over its source devices alone. */
  lemma {:induction false} NonSourcesIgnored(managerPresent: bool, sdkAtLeastM: bool, devices: seq<Device>)
    ensures AudioInputRoute(managerPresent, sdkAtLeastM, devices) ==
            AudioInputRoute(managerPresent, sdkAtLeastM, Sources(devices))
  {
    SourcesIdempotent(devices);
  }

  /** A Bluetooth SCO headset is reported ahead of the built-in microphone
      enumerated before it, and of two Bluetooth inputs the one enumerated
      first wins; both follow from the selection specification alone. */
  lemma BluetoothPreferred()
    ensures AudioInputRoute(true, true, [Device(TYPE_BUILTIN_MIC, true, None),
                                         Device(TYPE_BLUETOOTH_SCO, true, Some("Headset"))])
            == Route("BluetoothSCO", "Headset")
    ensures AudioInputRoute(true, true, [Device(TYPE_BLUETOOTH_A2DP, true, None),
                                         Device(TYPE_BLUETOOTH_SCO, true, Some("Headset")),
                                         Device(TYPE_BUILTIN_MIC, true, None)])
            == Route("BluetoothA2DP", "Unknown Device")
  {
    var micThenHeadset := [Device(TYPE_BUILTIN_MIC, true, None),
                           Device(TYPE_BLUETOOTH_SCO, true, Some("Headset"))];
    assert IsFirstMaxSource(micThenHeadset, 1);
    AudioInputRouteCorrect(true, true, micThenHeadset);
    var k :| IsFirstMaxSource(micThenHeadset, k) &&
             AudioInputRoute(true, true, micThenHeadset) == Describe(micThenHeadset[k]);
    FirstMaxSourceUnique(micThenHeadset, k, 1);

    var twoBluetooth := [Device(TYPE_BLUETOOTH_A2DP, true, None),
                         Device(TYPE_BLUETOOTH_SCO, true, Some("Headset")),
                         Device(TYPE_BUILTIN_MIC, true, None)];
    assert IsFirstMaxSource(twoBluetooth, 0);
    AudioInputRouteCorrect(true, true, twoBluetooth);
    var m :| IsFirstMaxSource(twoBluetooth, m) &&
             AudioInputRoute(true, true, twoBluetooth) == Describe(twoBluetooth[m]);
    FirstMaxSourceUnique(twoBluetooth, m, 0);
  }
}
