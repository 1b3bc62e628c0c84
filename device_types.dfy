/** The two static lookup tables of the Android adapter: device type code to
    selection priority, and device type code to the `portType` label reported
    to JavaScript. Device type codes are the `AudioDeviceInfo.TYPE_*` constants
    of the Android SDK; the model gives them the SDK's values, and nothing
    below depends on them beyond their being pairwise distinct. */
module DeviceTypes {

  const TYPE_WIRED_HEADSET: int := 3
  const TYPE_WIRED_HEADPHONES: int := 4
  const TYPE_LINE_ANALOG: int := 5
  const TYPE_LINE_DIGITAL: int := 6
  const TYPE_BLUETOOTH_SCO: int := 7
  const TYPE_BLUETOOTH_A2DP: int := 8
  const TYPE_HDMI: int := 9
  const TYPE_HDMI_ARC: int := 10
  const TYPE_USB_DEVICE: int := 11
  const TYPE_USB_ACCESSORY: int := 12
  const TYPE_BUILTIN_MIC: int := 15
  const TYPE_FM_TUNER: int := 16
  const TYPE_TELEPHONY: int := 18
  const TYPE_AUX_LINE: int := 19
  const TYPE_IP: int := 20
  const TYPE_BUS: int := 21
  const TYPE_USB_HEADSET: int := 22

  /** Codes ranked highest: Bluetooth inputs. */
  const BluetoothTypes: set<int> := {TYPE_BLUETOOTH_SCO, TYPE_BLUETOOTH_A2DP}

  /** Codes ranked second: wired and USB headsets and devices. */
  const WiredOrUsbTypes: set<int> :=
    {TYPE_WIRED_HEADSET, TYPE_WIRED_HEADPHONES, TYPE_USB_DEVICE, TYPE_USB_HEADSET}

  /** Codes that have a label of their own in the name table. */
  const NamedTypes: set<int> :=
    {TYPE_BUILTIN_MIC, TYPE_BLUETOOTH_SCO, TYPE_BLUETOOTH_A2DP, TYPE_WIRED_HEADSET,
     TYPE_WIRED_HEADPHONES, TYPE_USB_DEVICE, TYPE_USB_HEADSET, TYPE_USB_ACCESSORY,
     TYPE_TELEPHONY, TYPE_AUX_LINE, TYPE_IP, TYPE_BUS, TYPE_HDMI, TYPE_HDMI_ARC,
     TYPE_FM_TUNER, TYPE_LINE_ANALOG, TYPE_LINE_DIGITAL}

  /** Every label the name table can produce. */
  const PortTypeLabels: set<string> :=
    {"MicrophoneBuiltIn", "BluetoothSCO", "BluetoothA2DP", "MicrophoneWired",
     "USBDevice", "USBHeadset", "USBAccessory", "Telephony", "AuxLine", "IP", "Bus",
     "HDMI", "HDMI_ARC", "FMTuner", "LineAnalog", "LineDigital", "Unknown"}

  /** Selection priority of a device type (higher is preferred). Defined for
      every integer: Bluetooth 3, wired/USB 2, built-in microphone 1, anything
      else (USB accessory included) 0. */
  function Priority(t: int): (p: int)
    ensures 0 <= p <= 3
    ensures p == 3 <==> t in BluetoothTypes
    ensures p == 2 <==> t in WiredOrUsbTypes
    ensures p == 1 <==> t == TYPE_BUILTIN_MIC
    ensures p == 0 <==> t !in BluetoothTypes + WiredOrUsbTypes + {TYPE_BUILTIN_MIC}
  {
    if t == TYPE_BLUETOOTH_SCO then 3
    else if t == TYPE_BLUETOOTH_A2DP then 3
    else if t == TYPE_WIRED_HEADSET then 2
    else if t == TYPE_WIRED_HEADPHONES then 2
    else if t == TYPE_USB_DEVICE then 2
    else if t == TYPE_USB_HEADSET then 2
    else if t == TYPE_BUILTIN_MIC then 1
    else 0
  }

  /** The `portType` label of a device type. Defined for every integer; codes
      outside the table read "Unknown", and both wired codes read
      "MicrophoneWired". */
  function TypeName(t: int): (name: string)
    ensures name in PortTypeLabels
    ensures name == "Unknown" <==> t !in NamedTypes
    ensures t in {TYPE_WIRED_HEADSET, TYPE_WIRED_HEADPHONES} <==> name == "MicrophoneWired"
  {
    if t == TYPE_BUILTIN_MIC then "MicrophoneBuiltIn"
    else if t == TYPE_BLUETOOTH_SCO then "BluetoothSCO"
    else if t == TYPE_BLUETOOTH_A2DP then "BluetoothA2DP"
    else if t == TYPE_WIRED_HEADSET then "MicrophoneWired"
    else if t == TYPE_WIRED_HEADPHONES then "MicrophoneWired"
    else if t == TYPE_USB_DEVICE then "USBDevice"
    else if t == TYPE_USB_HEADSET then "USBHeadset"
    else if t == TYPE_USB_ACCESSORY then "USBAccessory"
    else if t == TYPE_TELEPHONY then "Telephony"
    else if t == TYPE_AUX_LINE then "AuxLine"
    else if t == TYPE_IP then "IP"
    else if t == TYPE_BUS then "Bus"
    else if t == TYPE_HDMI then "HDMI"
    else if t == TYPE_HDMI_ARC then "HDMI_ARC"
    else if t == TYPE_FM_TUNER then "FMTuner"
    else if t == TYPE_LINE_ANALOG then "LineAnalog"
    else if t == TYPE_LINE_DIGITAL then "LineDigital"
    else "Unknown"
  }

  /** The label tells device types apart: two named codes share a label only
      when they are the two wired codes. */
  lemma TypeNameDistinguishes(t1: int, t2: int)
    requires t1 in NamedTypes && t2 in NamedTypes && t1 != t2
    ensures TypeName(t1) == TypeName(t2) <==>
              t1 in {TYPE_WIRED_HEADSET, TYPE_WIRED_HEADPHONES} &&
              t2 in {TYPE_WIRED_HEADSET, TYPE_WIRED_HEADPHONES}
  {
  }
}
