# Meme client: camera capture and match page

A Dafny model of the logic in the browser client `code/meme-client/src/app.ts`.
The page lets the user pick a camera and capture a centred square still from the
live video. It posts the still to a local matching server and shows the match the
server returns. The model covers five parts of that file:

- `Crop`: the centre-square geometry of `takePhoto`. The side is the shorter side
  of the frame. The square lies inside the frame and is centred on both axes.
- `Urls`: the server's base URL, built from an optional port in the environment
  with 8080 as the default. It also builds the `/match` endpoint and the
  `/image/{id}` URL of a matched image.
- `Devices`: how `initialize` keeps the enumerated video inputs, in order, and
  the one `<option>` it makes per camera.
- `Views`: the `hidden` class on the three display containers (video, photo and
  match). It covers `showVideo`, `showPhoto` and `showMatch`, and how each event
  handler moves between them. Once the page has loaded, exactly one view is
  visible. The visible view is the one named by the last handler that switches
  views.
- `MemeApp.Page`: the page object itself. It holds the DOM state the script
  changes in place: the hidden flags, the selector's options, the bound stream,
  the canvas, and the image sources and title. Its methods are the script's
  functions and handlers, and each method is proved against the pure modules
  above.

The browser's results are inputs to the methods:

- the enumerated devices;
- whether `getUserMedia` resolves;
- the frame size, and the data URL and blob the canvas encodes;
- the parsed JSON reply.

The source promises a little less than a plain reading of its design suggests:

- "Retake" and "restart" only switch the visible view (app.ts:47-48). The
  captured photo, the match title and both image sources stay in the hidden
  containers until they are overwritten.
- `usePhoto` does not check the HTTP status. Only a null blob or a rejected
  `fetch` or `json()` stops it. If that happens, `usePhoto`'s promise never
  resolves, so the match view never appears.
- When `getUserMedia` rejects during `initialize`, the load handler stops before
  `showVideo`. Because of this, `Loaded` carries whether initialisation completed.
- With no camera at all, `initialize` returns normally. The video view is then
  shown, but no stream is bound to it.

## Model

| member | source | states |
|---|---|---|
| `Crop.CentreSquare` | code/meme-client/src/app.ts:82-92 | the crop side is the shorter frame side; the square lies inside the frame; the two margins on each axis are equal; the shorter axis has offset 0; a square frame is taken whole from (0, 0) |
| `Crop.CentreSquareIsLargest` | code/meme-client/src/app.ts:85-88 | no square that fits inside the frame is larger than the crop side |
| `Urls.Port` | code/meme-client/src/app.ts:2 | the port is the environment value when it is defined and non-empty (truthy), otherwise "8080"; never empty |
| `Urls.ServerUrlPort` | code/meme-client/src/app.ts:2-3 | the base URL is `http://localhost:` followed by exactly the chosen port; `http://localhost:8080` when the variable is undefined |
| `Urls.ImageIdRoundTrip` | code/meme-client/src/app.ts:118 | the match id can be read back from the matched-image URL built from it |
| `Urls.ImageUrlInjective` | code/meme-client/src/app.ts:118 | two matched-image URLs on one base are equal if and only if their ids are |
| `Urls.MatchUrlIsNoImageUrl` | code/meme-client/src/app.ts:111-118 | the match endpoint is never a matched-image URL on the same base |
| `Devices.VideoDevices` | code/meme-client/src/app.ts:53 | the filter keeps exactly the devices of kind `videoinput` (membership both ways) and never lengthens the list |
| `Devices.VideoDevicesAppend` | code/meme-client/src/app.ts:53 | the filter keeps enumeration order: filtering a concatenation concatenates the filtered parts |
| `Devices.VideoDevicesKeepsCameras` | code/meme-client/src/app.ts:53 | a list of video inputs only is kept whole |
| `Devices.OptionsFor` | code/meme-client/src/app.ts:62-67 | one option per camera, in order, with value = `deviceId` and text = `label` |
| `Views.SetHidden` | code/meme-client/src/app.ts:131-145 | adding or removing `hidden` on one container changes that container only |
| `Views.Show` | code/meme-client/src/app.ts:130-146 | after a show-operation, exactly the named view is visible, whatever the prior state |
| `Views.ShowForgetsPrior` | code/meme-client/src/app.ts:130-146 | the state after a show-operation does not depend on the state before it |
| `Views.ShowIdempotent` | code/meme-client/src/app.ts:142-146 | showing a view twice (as `showMatch` is, in `usePhoto` and in its handler) equals showing it once |
| `Views.StepShowsTarget` | code/meme-client/src/app.ts:28-48 | load shows video; take photo shows photo; use photo shows match only once `usePhoto` resolves; retake and restart show video; a camera change, a failed load and a failed use leave the containers unchanged |
| `Views.RunKeepsExactlyOne` | code/meme-client/src/app.ts:28-48 | once exactly one view is visible, every sequence of handlers keeps exactly one visible |
| `Views.RunFromLoad` | code/meme-client/src/app.ts:28-31 | after a completed load, exactly one view is visible for every later sequence of handlers, whatever the markup hid at first |
| `Views.RunWithoutTargets` | code/meme-client/src/app.ts:33-35 | handlers that switch no view (camera changes, failed loads and uses) leave the containers as they were |
| `Views.RunShowsLastTarget` | code/meme-client/src/app.ts:28-48 | the visible view is the one named by the last handler that switches views |
| `MemeApp.Page.constructor` | code/meme-client/src/app.ts:2-21 | the base URL comes from the environment; the hidden flags are the markup's; the rest starts empty |
| `MemeApp.Page.ShowVideo` | code/meme-client/src/app.ts:130-134 | the new flags are `Show(old flags, video)`, so only the video view is visible |
| `MemeApp.Page.ShowPhoto` | code/meme-client/src/app.ts:136-140 | the new flags are `Show(old flags, photo)`, so only the photo view is visible |
| `MemeApp.Page.ShowMatch` | code/meme-client/src/app.ts:142-146 | the new flags are `Show(old flags, match)`, so only the match view is visible |
| `MemeApp.Page.SetCamera` | code/meme-client/src/app.ts:74-78 | the named device's stream is bound when access is granted; otherwise nothing changes and the call fails |
| `MemeApp.Page.Initialize` | code/meme-client/src/app.ts:50-72 | with no video input: options and stream unchanged, completes. Otherwise one option per camera is appended in order, and the first camera's stream is bound if access is granted; it completes only then |
| `MemeApp.Page.TakePhoto` | code/meme-client/src/app.ts:80-98 | the canvas is `size × size` for the centre square's side; the drawn source region is that square; the photo shows the canvas's data URL |
| `MemeApp.Page.UsePhoto` | code/meme-client/src/app.ts:100-128 | with a blob: one POST to `{base}/match`, typed with the blob's type. It resolves only with a reply. It then shows the title verbatim, the image at `{base}/image/{id}` and the captured photo, and switches to the match view. Otherwise nothing changes |
| `MemeApp.Page.OnLoaded` | code/meme-client/src/app.ts:28-31 | initialises as `Initialize` does, then shows the video view only if initialisation completed |
| `MemeApp.Page.OnCameraChanged` | code/meme-client/src/app.ts:33-35 | rebinds the stream to the selected device; no view changes |
| `MemeApp.Page.OnTakePhoto` | code/meme-client/src/app.ts:37-40 | captures the centre square, then shows the photo view |
| `MemeApp.Page.OnUsePhoto` | code/meme-client/src/app.ts:42-45 | shows the match view only after `usePhoto` resolves, with its title and images |
| `MemeApp.Page.OnRetake` | code/meme-client/src/app.ts:47 | retake shows the video view |
| `MemeApp.Page.OnRestart` | code/meme-client/src/app.ts:48 | restart shows the video view |
| `MemeApp.MatchSession` | code/meme-client/src/app.ts:100-128 | with a reply `{id: "abc", title: "Foo"}`: title "Foo", matched image `http://localhost:8080/image/abc`, user photo = the captured photo, only the match view visible |
| `MemeApp.NoCameraSession` | code/meme-client/src/app.ts:50-59 | with no video input: no option, no stream, and the video view is shown |
| `MemeApp.OneCameraSession` | code/meme-client/src/app.ts:50-72 | with a microphone and a camera: exactly the camera's option, and its stream bound |

## Left out

- Browser APIs are not modelled; their results are method parameters. These are
  `enumerateDevices`, `getUserMedia` (reduced to whether it resolves),
  `drawImage`, `toDataURL`, `toBlob`, `fetch` and `response.json`. The same goes
  for the pixel content of frames and images.
- The stream's requested resolution (1280×720, app.ts:75) is not modelled. It is
  a hint to the browser and has no effect on the page's state.
- Event-loop concurrency is not modelled. A match reply that arrives after the
  user has retaken or restarted still overwrites the title and images, and it
  switches to the match view. The model runs each handler to completion, one
  after another.
- `window.alert` (app.ts:57) and `console.log` (app.ts:114) are output only.
- JavaScript number semantics are not modelled. Frame sizes are naturals and
  crop offsets are exact reals, so a half-pixel offset stays exact. Floating
  point is not modelled.
- A reply whose JSON has another shape is not modelled: the reply is either a
  well-formed `{id, title}` or a failure. In the source, missing fields become
  the text "undefined" in the URL.
- The markup (`index.html`) is not part of this model. The constructor takes the
  initial hidden flags. The canvas starts at 0 × 0 and the image sources and
  title start empty.
- `MemeApp.Page.OnCameraChanged`: the selected value is a parameter. The model
  does not require it to be one of the selector's options.
