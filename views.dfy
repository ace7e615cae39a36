/**
 * The three display containers of the page and the `hidden` class on each
 * (code/meme-client/src/app.ts, lines 28-48 and 130-146), as values.
 */
module Views {
  import opened Wrappers

  datatype View = VideoView | PhotoView | MatchView

  /** Whether each container carries the `hidden` class. */
  datatype Hidden = Hidden(video: bool, photo: bool, matched: bool)

  function IsHidden(h: Hidden, v: View): bool {
    match v
    case VideoView => h.video
    case PhotoView => h.photo
    case MatchView => h.matched
  }

  /** `classList.add('hidden')` (b true) or `classList.remove('hidden')` (b false) on one container. */
  function SetHidden(h: Hidden, v: View, b: bool): (r: Hidden)
    ensures IsHidden(r, v) == b
    ensures forall u :: u != v ==> IsHidden(r, u) == IsHidden(h, u)
  {
    match v
    case VideoView => h.(video := b)
    case PhotoView => h.(photo := b)
    case MatchView => h.(matched := b)
  }

  /** The views the user can see. */
  function Visible(h: Hidden): set<View> {
    (if h.video then {} else {VideoView})
    + (if h.photo then {} else {PhotoView})
    + (if h.matched then {} else {MatchView})
  }

  predicate ExactlyOneVisible(h: Hidden) {
    |Visible(h)| == 1
  }

  /**
   * `showVideo`, `showPhoto`, `showMatch`: hide the two other containers,
   * then un-hide the named one.
   */
  function Show(h: Hidden, v: View): (r: Hidden)
    ensures Visible(r) == {v}
    ensures ExactlyOneVisible(r)
  {
    match v
    case VideoView => SetHidden(SetHidden(SetHidden(h, PhotoView, true), MatchView, true), VideoView, false)
    case PhotoView => SetHidden(SetHidden(SetHidden(h, VideoView, true), MatchView, true), PhotoView, false)
    case MatchView => SetHidden(SetHidden(SetHidden(h, VideoView, true), PhotoView, true), MatchView, false)
  }

  /** The state after a show-operation does not depend on the state before it. */
  lemma ShowForgetsPrior(h1: Hidden, h2: Hidden, v: View)
    ensures Show(h1, v) == Show(h2, v)
  {
  }

  /** Showing the same view twice is showing it once. */
  lemma ShowIdempotent(h: Hidden, v: View)
    ensures Show(Show(h, v), v) == Show(h, v)
  {
  }

  /**
   * What the page's event handlers do. `Loaded` carries whether `initialize`
   * completed (it rejects when camera access fails) and `UsePhotoClicked`
   * whether `usePhoto` resolved (it never does when the request fails).
   */
  datatype Event =
    | Loaded(initialized: bool)
    | CameraChanged
    | TakePhotoClicked
    | UsePhotoClicked(resolved: bool)
    | RetakeClicked
    | RestartClicked

  /** The effect of one handler on the containers. */
  function Step(h: Hidden, e: Event): Hidden {
    match e
    case Loaded(ok) => if ok then Show(h, VideoView) else h
    case CameraChanged => h
    case TakePhotoClicked => Show(h, PhotoView)
    // showMatch runs inside usePhoto and again in the handler
    case UsePhotoClicked(ok) => if ok then Show(Show(h, MatchView), MatchView) else h
    case RetakeClicked => Show(h, VideoView)
    case RestartClicked => Show(h, VideoView)
  }

  /** The view each handler switches to, if it switches at all. */
  function Target(e: Event): Option<View> {
    match e
    case Loaded(ok) => if ok then Some(VideoView) else None
    case CameraChanged => None
    case TakePhotoClicked => Some(PhotoView)
    case UsePhotoClicked(ok) => if ok then Some(MatchView) else None
    case RetakeClicked => Some(VideoView)
    case RestartClicked => Some(VideoView)
  }

  /** A handler with a target shows exactly that view; one without leaves the containers alone. */
  lemma StepShowsTarget(h: Hidden, e: Event)
    ensures Target(e).Some? ==> Visible(Step(h, e)) == {Target(e).value}
    ensures Target(e).None? ==> Step(h, e) == h
  {
  }

  /** The handlers run one after another, in the order the user triggers them. */
  function Run(h: Hidden, events: seq<Event>): Hidden
    decreases |events|
  {
    if events == [] then h else Run(Step(h, events[0]), events[1..])
  }

  /** Once exactly one view is visible, every sequence of handlers keeps it so. */
  lemma {:induction false} RunKeepsExactlyOne(h: Hidden, events: seq<Event>)
    requires ExactlyOneVisible(h)
    ensures ExactlyOneVisible(Run(h, events))
    decreases |events|
  {
    if events != [] {
      StepShowsTarget(h, events[0]);
      RunKeepsExactlyOne(Step(h, events[0]), events[1..]);
    }
  }

  /** After the page has loaded, exactly one view is visible, whatever the markup hid at first. */
  lemma RunFromLoad(h: Hidden, events: seq<Event>)
    requires events != [] && events[0] == Loaded(true)
    ensures ExactlyOneVisible(Run(h, events))
  {
    RunKeepsExactlyOne(Show(h, VideoView), events[1..]);
  }

  /** Handlers without a target leave the containers as they are. */
  lemma {:induction false} RunWithoutTargets(h: Hidden, events: seq<Event>)
    requires forall j :: 0 <= j < |events| ==> Target(events[j]).None?
    ensures Run(h, events) == h
    decreases |events|
  {
    if events != [] {
      StepShowsTarget(h, events[0]);
      RunWithoutTargets(Step(h, events[0]), events[1..]);
    }
  }

  /** The visible view is the target of the last handler that has one. */
  lemma {:induction false} RunShowsLastTarget(h: Hidden, events: seq<Event>, k: nat)
    requires k < |events| && Target(events[k]).Some?
    requires forall j :: k < j < |events| ==> Target(events[j]).None?
    ensures Visible(Run(h, events)) == {Target(events[k]).value}
    decreases |events|
  {
    StepShowsTarget(h, events[0]);
    if k == 0 {
      RunWithoutTargets(Step(h, events[0]), events[1..]);
    } else {
      RunShowsLastTarget(Step(h, events[0]), events[1..], k - 1);
    }
  }
}
