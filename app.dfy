/**
 * The page of the meme client (code/meme-client/src/app.ts): the DOM
 * elements it updates in place become the fields of one object, and its
 * functions and event handlers become methods on it.
 */
module MemeApp {
  import opened Wrappers
  import opened Crop
  import opened Urls
  import opened Devices
  import opened Views

  /** The server's JSON reply: the matched image's id and its title. */
  datatype Match = Match(id: string, title: string)

  /** The PNG blob `canvas.toBlob` produces; its bytes are opaque here. */
  datatype Blob = Blob(mimeType: string, bytes: seq<bv8>)

  /** The one request the page sends. */
  datatype Request = Request(httpMethod: string, url: string, contentType: string, body: Blob)

  class Page {
    /** `memeServerUrl`, fixed when the script loads. */
    const serverUrl: string

    /** The `hidden` class on `video-display`, `photo-display` and `match-display`. */
    var videoHidden: bool
    var photoHidden: bool
    var matchHidden: bool

    /** The `<option>`s of `camera-select`. */
    var cameraOptions: seq<SelectOption>
    /** The device whose stream is bound to the video element, if any. */
    var streamDevice: Option<string>

    /** The canvas's size and the video region last drawn onto it. */
    var canvasWidth: nat
    var canvasHeight: nat
    var canvasSource: Option<Square>

    var photoSrc: string
    var matchTitle: string
    var matchedPhotoSrc: string
    var userPhotoSrc: string

    function Flags(): Hidden
      reads this
    {
      Hidden(videoHidden, photoHidden, matchHidden)
    }

    /**
     * The page as the script finds it. Which containers the markup hides at
     * first is a parameter; everything else starts empty.
     */
    constructor (env: Option<string>, initial: Hidden)
      ensures serverUrl == ServerUrl(env)
      ensures Flags() == initial
      ensures cameraOptions == [] && streamDevice == None
      ensures canvasWidth == 0 && canvasHeight == 0 && canvasSource == None
      ensures photoSrc == "" && matchTitle == "" && matchedPhotoSrc == "" && userPhotoSrc == ""
    {
      serverUrl := ServerUrl(env);
      videoHidden, photoHidden, matchHidden := initial.video, initial.photo, initial.matched;
      cameraOptions, streamDevice := [], None;
      canvasWidth, canvasHeight, canvasSource := 0, 0, None;
      photoSrc, matchTitle, matchedPhotoSrc, userPhotoSrc := "", "", "", "";
    }

    method ShowVideo()
      modifies this`videoHidden, this`photoHidden, this`matchHidden
      ensures Flags() == Show(old(Flags()), VideoView)
      ensures Visible(Flags()) == {VideoView}
    {
      photoHidden := true;
      matchHidden := true;
      videoHidden := false;
    }

    method ShowPhoto()
      modifies this`videoHidden, this`photoHidden, this`matchHidden
      ensures Flags() == Show(old(Flags()), PhotoView)
      ensures Visible(Flags()) == {PhotoView}
    {
      videoHidden := true;
      matchHidden := true;
      photoHidden := false;
    }

    method ShowMatch()
      modifies this`videoHidden, this`photoHidden, this`matchHidden
      ensures Flags() == Show(old(Flags()), MatchView)
      ensures Visible(Flags()) == {MatchView}
    {
      videoHidden := true;
      photoHidden := true;
      matchHidden := false;
    }

    /**
     * Binds the stream of the given device to the video element. `granted`
     * is whether `getUserMedia` resolves; when it rejects, nothing is bound
     * and the caller's promise rejects too (`ok` false).
     */
    method SetCamera(deviceId: string, granted: bool) returns (ok: bool)
      modifies this`streamDevice
      ensures ok == granted
      ensures streamDevice == if granted then Some(deviceId) else old(streamDevice)
    {
      if granted {
        streamDevice := Some(deviceId);
      }
      ok := granted;
    }

    /** What `initialize` leaves behind, given the selector and stream it started from. */
    ghost predicate Initialized(
      options0: seq<SelectOption>, stream0: Option<string>,
      devices: seq<DeviceInfo>, granted: bool, completed: bool)
      reads this
    {
      var cameras := VideoDevices(devices);
      if cameras == [] then
        // no camera: the user is alerted and nothing else happens
        cameraOptions == options0 && streamDevice == stream0 && completed
      else
        cameraOptions == options0 + OptionsFor(cameras)
        && completed == granted
        && streamDevice == (if granted then Some(cameras[0].deviceId) else stream0)
    }

    /**
     * Keeps the video inputs among the enumerated `devices`, adds one option
     * per camera and opens the first one. `completed` is false when the
     * returned promise rejects.
     */
    method Initialize(devices: seq<DeviceInfo>, granted: bool) returns (completed: bool)
      modifies this`cameraOptions, this`streamDevice
      ensures Initialized(old(cameraOptions), old(streamDevice), devices, granted, completed)
    {
      var cameras := VideoDevices(devices);
      if |cameras| == 0 {
        return true;
      }
      var i := 0;
      while i < |cameras|
        invariant 0 <= i <= |cameras|
        invariant |cameraOptions| == |old(cameraOptions)| + i
        invariant cameraOptions[..|old(cameraOptions)|] == old(cameraOptions)
        invariant forall k :: 0 <= k < i ==> cameraOptions[|old(cameraOptions)| + k] == OptionFor(cameras[k])
        invariant streamDevice == old(streamDevice)
      {
        cameraOptions := cameraOptions + [OptionFor(cameras[i])];
        i := i + 1;
      }
      assert cameraOptions == old(cameraOptions) + OptionsFor(cameras);
      completed := SetCamera(cameras[0].deviceId, granted);
    }

    /**
     * Sizes the canvas to the short side of a `width` by `height` frame and
     * draws its centre square. `dataUrl` stands for what `toDataURL` returns.
     */
    method TakePhoto(width: nat, height: nat, dataUrl: string)
      modifies this`canvasWidth, this`canvasHeight, this`canvasSource, this`photoSrc
      ensures canvasSource == Some(CentreSquare(width, height))
      ensures canvasWidth == canvasHeight == CentreSquare(width, height).size
      ensures photoSrc == dataUrl
    {
      var size := Min(width, height);
      canvasWidth := size;
      canvasHeight := size;
      var x := if width > height then (width - height) as real / 2.0 else 0.0;
      var y := if width > height then 0.0 else (height - width) as real / 2.0;
      canvasSource := Some(Square(size, x, y));
      photoSrc := dataUrl;
    }

    /**
     * Posts the canvas image to the match endpoint and shows the reply.
     * `blob` is what `toBlob` yields (`None` for null, which makes the
     * callback throw before anything is sent); `reply` is the parsed JSON,
     * `None` when `fetch` or `json()` rejects. `resolved` is whether the
     * returned promise resolves.
     */
    method UsePhoto(blob: Option<Blob>, reply: Option<Match>) returns (sent: Option<Request>, resolved: bool)
      modifies this`matchTitle, this`matchedPhotoSrc, this`userPhotoSrc,
        this`videoHidden, this`photoHidden, this`matchHidden
      ensures sent == if blob.None? then None
        else Some(Request("POST", MatchUrl(serverUrl), blob.value.mimeType, blob.value))
      ensures resolved <==> blob.Some? && reply.Some?
      ensures resolved ==>
        && matchTitle == reply.value.title
        && matchedPhotoSrc == ImageUrl(serverUrl, reply.value.id)
        && userPhotoSrc == photoSrc
        && Flags() == Show(old(Flags()), MatchView)
      ensures !resolved ==>
        && matchTitle == old(matchTitle) && matchedPhotoSrc == old(matchedPhotoSrc)
        && userPhotoSrc == old(userPhotoSrc) && Flags() == old(Flags())
    {
      if blob.None? {
        return None, false;
      }
      sent := Some(Request("POST", MatchUrl(serverUrl), blob.value.mimeType, blob.value));
      if reply.None? {
        return sent, false;
      }
      matchTitle := reply.value.title;
      matchedPhotoSrc := ImageUrl(serverUrl, reply.value.id);
      userPhotoSrc := photoSrc;
      ShowMatch();
      resolved := true;
    }

    /** `DOMContentLoaded`: initialise, then show the video view if that completed. */
    method OnLoaded(devices: seq<DeviceInfo>, granted: bool) returns (completed: bool)
      modifies this`cameraOptions, this`streamDevice, this`videoHidden, this`photoHidden, this`matchHidden
      ensures Initialized(old(cameraOptions), old(streamDevice), devices, granted, completed)
      ensures Flags() == Step(old(Flags()), Loaded(completed))
    {
      completed := Initialize(devices, granted);
      if completed {
        ShowVideo();
      }
    }

    /** A change of `camera-select` to the option with value `selected`. */
    method OnCameraChanged(selected: string, granted: bool) returns (ok: bool)
      modifies this`streamDevice
      ensures ok == granted
      ensures streamDevice == if granted then Some(selected) else old(streamDevice)
      ensures Flags() == Step(old(Flags()), CameraChanged)
    {
      ok := SetCamera(selected, granted);
    }

    method OnTakePhoto(width: nat, height: nat, dataUrl: string)
      modifies this`canvasWidth, this`canvasHeight, this`canvasSource, this`photoSrc,
        this`videoHidden, this`photoHidden, this`matchHidden
      ensures canvasSource == Some(CentreSquare(width, height))
      ensures canvasWidth == canvasHeight == CentreSquare(width, height).size
      ensures photoSrc == dataUrl
      ensures Flags() == Step(old(Flags()), TakePhotoClicked)
    {
      TakePhoto(width, height, dataUrl);
      ShowPhoto();
    }

    /** "Use photo": the match view appears only once `usePhoto` has resolved. */
    method OnUsePhoto(blob: Option<Blob>, reply: Option<Match>) returns (sent: Option<Request>, resolved: bool)
      modifies this`matchTitle, this`matchedPhotoSrc, this`userPhotoSrc,
        this`videoHidden, this`photoHidden, this`matchHidden
      ensures sent == if blob.None? then None
        else Some(Request("POST", MatchUrl(serverUrl), blob.value.mimeType, blob.value))
      ensures resolved <==> blob.Some? && reply.Some?
      ensures resolved ==>
        && matchTitle == reply.value.title
        && matchedPhotoSrc == ImageUrl(serverUrl, reply.value.id)
        && userPhotoSrc == photoSrc
      ensures !resolved ==>
        && matchTitle == old(matchTitle) && matchedPhotoSrc == old(matchedPhotoSrc)
        && userPhotoSrc == old(userPhotoSrc)
      ensures Flags() == Step(old(Flags()), UsePhotoClicked(resolved))
    {
      sent, resolved := UsePhoto(blob, reply);
      if resolved {
        ShowMatch();
      }
    }

    /** "Retake": back to the live video; the photo stays on the hidden canvas. */
    method OnRetake()
      modifies this`videoHidden, this`photoHidden, this`matchHidden
      ensures Flags() == Step(old(Flags()), RetakeClicked)
    {
      ShowVideo();
    }

    /** "Restart": back to the live video; the match stays in its hidden container. */
    method OnRestart()
      modifies this`videoHidden, this`photoHidden, this`matchHidden
      ensures Flags() == Step(old(Flags()), RestartClicked)
    {
      ShowVideo();
    }
  }

  /**
   * A session against a server that answers `{id: "abc", title: "Foo"}`:
   * take a 1280 by 720 photo and use it. The match view
   * shows the title verbatim, the image from the server's image endpoint and
   * the captured photo.
   */
  method MatchSession() returns (title: string, matched: string, user: string, visible: set<View>)
    ensures title == "Foo"
    ensures matched == "http://localhost:8080/image/abc"
    ensures user == "data:image/png;base64,"
    ensures visible == {MatchView}
  {
    var page := new Page(None, Hidden(true, false, true));
    ServerUrlPort(None);
    assert page.serverUrl == "http://localhost:8080";
    page.OnTakePhoto(1280, 720, "data:image/png;base64,");
    assert page.photoSrc == "data:image/png;base64,";
    var sent, resolved := page.OnUsePhoto(Some(Blob("image/png", [])), Some(Match("abc", "Foo")));
    assert resolved;
    assert page.matchedPhotoSrc == ImageUrl("http://localhost:8080", "abc");
    title, matched, user, visible := page.matchTitle, page.matchedPhotoSrc, page.userPhotoSrc, Visible(page.Flags());
  }

  /**
   * Loading a page on a machine with a microphone and no camera: the user is
   * alerted, no option is added, no stream is opened, and the video view is
   * shown.
   */
  method NoCameraSession() returns (options: seq<SelectOption>, stream: Option<string>, visible: set<View>)
    ensures options == [] && stream == None
    ensures visible == {VideoView}
  {
    var devices := [DeviceInfo("mic", AudioInput, "Microphone")];
    var page := new Page(None, Hidden(false, false, false));
    assert VideoDevices(devices) == [];
    var completed := page.OnLoaded(devices, false);
    options, stream, visible := page.cameraOptions, page.streamDevice, Visible(page.Flags());
  }

  /**
   * Loading a page with a microphone and a camera: one option, for the
   * camera, and its stream bound.
   */
  method OneCameraSession() returns (options: seq<SelectOption>, stream: Option<string>)
    ensures options == [SelectOption("cam", "Camera")]
    ensures stream == Some("cam")
  {
    var devices := [DeviceInfo("mic", AudioInput, "Microphone"), DeviceInfo("cam", VideoInput, "Camera")];
    var page := new Page(None, Hidden(false, false, false));
    assert devices[1..] == [devices[1]];
    assert VideoDevices(devices) == [devices[1]];
    var completed := page.OnLoaded(devices, true);
    options, stream := page.cameraOptions, page.streamDevice;
  }
}
