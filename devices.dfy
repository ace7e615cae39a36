/**
 * The media devices that `initialize` enumerates and the options it adds to
 * the camera selector (code/meme-client/src/app.ts, lines 50-72).
 */
module Devices {

  /** `MediaDeviceInfo.kind`. */
  datatype DeviceKind = AudioInput | AudioOutput | VideoInput

  /** One enumerated device: its identifier, kind and human-readable label. */
  datatype DeviceInfo = DeviceInfo(deviceId: string, kind: DeviceKind, deviceLabel: string)

  /** An `<option>` of the camera selector: its `value` and its `text`. */
  datatype SelectOption = SelectOption(value: string, text: string)

  /** `devices.filter(device => device.kind === 'videoinput')`. */
  function VideoDevices(devices: seq<DeviceInfo>): (video: seq<DeviceInfo>)
    ensures |video| <= |devices|
    ensures forall i :: 0 <= i < |video| ==> video[i].kind == VideoInput
    ensures forall d :: d in video <==> d in devices && d.kind == VideoInput
  {
    if devices == [] then []
    else if devices[0].kind == VideoInput then [devices[0]] + VideoDevices(devices[1..])
    else VideoDevices(devices[1..])
  }

  /** Filtering keeps the enumeration order: it distributes over concatenation. */
  lemma {:induction false} VideoDevicesAppend(a: seq<DeviceInfo>, b: seq<DeviceInfo>)
    ensures VideoDevices(a + b) == VideoDevices(a) + VideoDevices(b)
  {
    if a == [] {
      assert a + b == b;
    } else {
      assert (a + b)[0] == a[0];
      assert (a + b)[1..] == a[1..] + b;
      VideoDevicesAppend(a[1..], b);
    }
  }

  /** A list of cameras only is kept whole. */
  lemma {:induction false} VideoDevicesKeepsCameras(devices: seq<DeviceInfo>)
    requires forall i :: 0 <= i < |devices| ==> devices[i].kind == VideoInput
    ensures VideoDevices(devices) == devices
  {
    if devices != [] {
      VideoDevicesKeepsCameras(devices[1..]);
    }
  }

  /** The option that `initialize` creates for one camera. */
  function OptionFor(device: DeviceInfo): SelectOption {
    SelectOption(device.deviceId, device.deviceLabel)
  }

  /** The options added for a list of cameras, one per camera, in order. */
  function OptionsFor(cameras: seq<DeviceInfo>): (options: seq<SelectOption>)
    ensures |options| == |cameras|
    ensures forall i :: 0 <= i < |cameras| ==>
      options[i].value == cameras[i].deviceId && options[i].text == cameras[i].deviceLabel
  {
    if cameras == [] then [] else [OptionFor(cameras[0])] + OptionsFor(cameras[1..])
  }
}
