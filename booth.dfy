/**
 * The landing screen of the booth (src/components/PhotoBooth.jsx): the coin
 * slot, the curtain transition into the studio, the camera status handlers
 * and the footer status line, over the component's six state flags.
 *
 * The 1200 ms timer that `handleCoinClick` schedules is the explicit step
 * `CompleteTransition`; the camera probe on mount receives its outcome as a
 * parameter.
 */
module Booth {
  import opened Wrappers

  /** Set by the live preview's error callback. */
  const PREVIEW_DENIED: string := "Camera access denied. Please check permissions."

  /** Set by the mount check when the browser has no `getUserMedia`. */
  const UNSUPPORTED: string := "Camera not supported in this browser"

  /** Set by the mount check when the access probe fails. */
  const PROBE_DENIED: string := "Camera access denied. Please allow camera permissions."

  const STATUS_ERROR: string := "Camera Error - Check Permissions"
  const STATUS_LOADING: string := "Initializing Camera..."
  const STATUS_STARTING: string := "Starting Photo Session..."
  const STATUS_READY: string := "Ready to Start"
  const STATUS_IDLE: string := "Insert Coin to Begin"

  /** The outcome of the camera check on mount. */
  datatype Probe =
    | Unsupported  // no `navigator.mediaDevices.getUserMedia`
    | Granted      // the test stream was obtained (and stopped again)
    | Refused      // `getUserMedia` rejected

  /** What the component renders. */
  datatype Screen = LandingView | StudioView

  /** JavaScript truthiness of the error state: present and not the empty string. */
  predicate Truthy(error: Option<string>) {
    error.Some? && error.value != ""
  }

  /**
   * The footer status line: a camera error wins over loading, loading over
   * the transition, the transition over an inserted coin.
   */
  function StatusText(cameraError: Option<string>, cameraLoading: bool, isTransitioning: bool, coinInserted: bool): (r: string)
    ensures r == STATUS_ERROR <==> Truthy(cameraError)
    ensures r == STATUS_LOADING <==> !Truthy(cameraError) && cameraLoading
    ensures r == STATUS_STARTING <==> !Truthy(cameraError) && !cameraLoading && isTransitioning
    ensures r == STATUS_READY <==> !Truthy(cameraError) && !cameraLoading && !isTransitioning && coinInserted
    ensures r == STATUS_IDLE <==> !Truthy(cameraError) && !cameraLoading && !isTransitioning && !coinInserted
  {
    if Truthy(cameraError) then STATUS_ERROR
    else if cameraLoading then STATUS_LOADING
    else if isTransitioning then STATUS_STARTING
    else if coinInserted then STATUS_READY
    else STATUS_IDLE
  }

  /** The state of the booth component. */
  class PhotoBooth {
    var coinInserted: bool
    var curtainOpen: bool
    var showStudio: bool
    var cameraError: Option<string>
    var cameraLoading: bool
    var isTransitioning: bool

    /**
     * A transition only runs behind an open curtain, the studio is only
     * reached through one, and an error is one of the three messages and
     * never shown together with the loading state.
     */
    ghost predicate Valid()
      reads this
    {
      && (isTransitioning ==> curtainOpen)
      && (showStudio ==> curtainOpen)
      && (cameraError.Some? ==> !cameraLoading)
      && (cameraError.Some? ==> cameraError.value in {PREVIEW_DENIED, UNSUPPORTED, PROBE_DENIED})
    }

    /** The initial state of the `useState` hooks. */
    constructor ()
      ensures Valid()
      ensures View() == LandingView && !PreviewMounted()
      ensures !coinInserted && !curtainOpen && !showStudio
      ensures cameraError == None && cameraLoading && !isTransitioning
    {
      coinInserted := false;
      curtainOpen := false;
      showStudio := false;
      cameraError := None;
      cameraLoading := true;
      isTransitioning := false;
    }

    /** The footer status line of the current state. */
    function Status(): (r: string)
      reads this
      ensures r in {STATUS_ERROR, STATUS_LOADING, STATUS_STARTING, STATUS_READY, STATUS_IDLE}
    {
      StatusText(cameraError, cameraLoading, isTransitioning, coinInserted)
    }

    /** The studio replaces the landing screen once `showStudio` is set, whatever the other flags. */
    function View(): Screen
      reads this
    {
      if showStudio then StudioView else LandingView
    }

    /**
     * The live preview, whose callbacks are `handleCameraError` and
     * `handleCameraLoad`, is mounted only when there is no error and the
     * camera is no longer loading.
     */
    predicate PreviewMounted()
      reads this
    {
      !Truthy(cameraError) && !cameraLoading
    }

    /** `handleInsertClick`: the coin is in the slot. */
    method HandleInsertClick()
      requires Valid()
      modifies this
      ensures Valid()
      ensures old(View()) == StudioView ==> View() == StudioView
      ensures coinInserted
      ensures curtainOpen == old(curtainOpen) && showStudio == old(showStudio) && isTransitioning == old(isTransitioning)
      ensures cameraError == old(cameraError) && cameraLoading == old(cameraLoading)
    {
      coinInserted := true;
    }

    /**
     * `handleCoinClick`: ignored while a transition runs; otherwise opens
     * the curtain and starts the transition, whose end is `CompleteTransition`.
     */
    method HandleCoinClick() returns (accepted: bool)
      requires Valid()
      modifies this
      ensures Valid()
      ensures old(View()) == StudioView ==> View() == StudioView
      ensures accepted == !old(isTransitioning)
      ensures isTransitioning
      ensures curtainOpen == (old(curtainOpen) || accepted)
      ensures coinInserted == old(coinInserted) && showStudio == old(showStudio)
      ensures cameraError == old(cameraError) && cameraLoading == old(cameraLoading)
    {
      if isTransitioning {
        return false;
      }
      isTransitioning := true;
      curtainOpen := true;
      accepted := true;
    }

    /**
     * The callback of the timer that `handleCoinClick` schedules. It exists
     * only while the transition it belongs to runs.
     */
    method CompleteTransition()
      requires Valid() && isTransitioning
      modifies this
      ensures Valid()
      ensures old(View()) == StudioView ==> View() == StudioView
      ensures showStudio && !isTransitioning && View() == StudioView
      ensures coinInserted == old(coinInserted) && curtainOpen == old(curtainOpen)
      ensures cameraError == old(cameraError) && cameraLoading == old(cameraLoading)
    {
      showStudio := true;
      isTransitioning := false;
    }

    /** `handleCameraError`: the live preview reported that it cannot use the camera. */
    method HandleCameraError()
      requires Valid()
      modifies this
      ensures Valid()
      ensures old(View()) == StudioView ==> View() == StudioView
      ensures cameraError == Some(PREVIEW_DENIED) && !cameraLoading
      ensures coinInserted == old(coinInserted) && curtainOpen == old(curtainOpen)
      ensures showStudio == old(showStudio) && isTransitioning == old(isTransitioning)
    {
      cameraError := Some(PREVIEW_DENIED);
      cameraLoading := false;
    }

    /** `handleCameraLoad`: the live preview has a stream. */
    method HandleCameraLoad()
      requires Valid()
      modifies this
      ensures Valid()
      ensures old(View()) == StudioView ==> View() == StudioView
      ensures cameraError == None && !cameraLoading
      ensures coinInserted == old(coinInserted) && curtainOpen == old(curtainOpen)
      ensures showStudio == old(showStudio) && isTransitioning == old(isTransitioning)
    {
      cameraLoading := false;
      cameraError := None;
    }

    /**
     * `handleRetryCamera`: forget the error and go back to loading. The
     * retry button only exists on the error display, which stands in place
     * of the live preview; the retry swaps it for the loading display, so
     * the preview stays unmounted and neither of its callbacks can follow.
     * The mount check does not run again either: the footer keeps showing
     * the loading line.
     */
    method HandleRetryCamera()
      requires Valid()
      modifies this
      ensures Valid()
      ensures old(View()) == StudioView ==> View() == StudioView
      ensures cameraError == None && cameraLoading
      ensures !PreviewMounted() && Status() == STATUS_LOADING
      ensures coinInserted == old(coinInserted) && curtainOpen == old(curtainOpen)
      ensures showStudio == old(showStudio) && isTransitioning == old(isTransitioning)
    {
      cameraError := None;
      cameraLoading := true;
    }

    /**
     * `checkCamera`, run once on mount: whatever the outcome the camera is
     * no longer loading; an unsupported browser and a refused probe each set
     * their own error, a granted probe leaves the error as it was.
     */
    method CheckCamera(probe: Probe)
      requires Valid()
      modifies this
      ensures Valid()
      ensures old(View()) == StudioView ==> View() == StudioView
      ensures !cameraLoading
      ensures cameraError == match probe
        case Unsupported => Some(UNSUPPORTED)
        case Refused => Some(PROBE_DENIED)
        case Granted => old(cameraError)
      ensures coinInserted == old(coinInserted) && curtainOpen == old(curtainOpen)
      ensures showStudio == old(showStudio) && isTransitioning == old(isTransitioning)
    {
      if probe == Unsupported {
        cameraError := Some(UNSUPPORTED);
        cameraLoading := false;
        return;
      }
      if probe == Granted {
        cameraLoading := false;
      } else {
        cameraError := Some(PROBE_DENIED);
        cameraLoading := false;
      }
    }
  }
}
