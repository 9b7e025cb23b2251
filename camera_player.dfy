/** One camera tile of the monitoring wall. The tile shows a "no signal"
    placeholder when it has no stream address or the camera is idle or in
    error; otherwise it plays the stream, through an image element for
    MJPEG addresses and a video element for everything else. Three flags
    follow the image element: loading, failed, and how many times the user
    has asked for a retry. The image element's `load` and `error` events and
    the retry button are the step methods. */
module Camera {
  import opened Types
  import opened Strings

  /** `isMJPEG`: the address contains one of the four MJPEG markers. An
      absent address is not MJPEG. */
  predicate IsMjpeg(url: Option<string>)
  {
    url.Some? &&
    (Includes(url.value, ".mjpg") || Includes(url.value, ".cgi") ||
     Includes(url.value, "nphMotionJpeg") || Includes(url.value, "/api/camera/proxy"))
  }

  /** The detection stated by positions: some marker occurs in the address. */
  lemma IsMjpegIff(url: Option<string>)
    ensures IsMjpeg(url) <==>
      (url.Some? &&
       (Occurs(url.value, ".mjpg") || Occurs(url.value, ".cgi") ||
        Occurs(url.value, "nphMotionJpeg") || Occurs(url.value, "/api/camera/proxy")))
  {
    if url.Some? {
      IncludesIff(url.value, ".mjpg");
      IncludesIff(url.value, ".cgi");
      IncludesIff(url.value, "nphMotionJpeg");
      IncludesIff(url.value, "/api/camera/proxy");
    }
  }

  /** The address of the stream proxy is always detected as MJPEG, whatever
      query follows it. */
  lemma ProxyIsMjpeg(query: string)
    ensures IsMjpeg(Some("/api/camera/proxy" + query))
  {
    var s := "/api/camera/proxy" + query;
    assert OccursAt(s, "/api/camera/proxy", 0) by {
      assert s[0..|"/api/camera/proxy"|] == "/api/camera/proxy";
    }
    IncludesAt(s, "/api/camera/proxy", 0);
  }

  /** What the tile renders. */
  datatype Screen = NoSignal | ImageFeed | VideoFeed

  /** `!url || status === "idle" || status === "error"` picks the
      placeholder; an empty address is falsy and counts as absent. */
  function ScreenFor(url: Option<string>, status: string): (r: Screen)
    ensures r == NoSignal <==> url == None || url == Some("") || status == "idle" || status == "error"
    ensures r == ImageFeed <==> r != NoSignal && IsMjpeg(url)
    ensures r != NoSignal ==> url.Some? && |url.value| > 0
  {
    if url == None || url == Some("") || status == "idle" || status == "error" then NoSignal
    else if IsMjpeg(url) then ImageFeed
    else VideoFeed
  }

  /** An address that is detected as MJPEG is never empty, so an MJPEG
      address with a live status always reaches the image element. */
  lemma MjpegReachesImage(url: Option<string>, status: string)
    requires IsMjpeg(url) && status != "idle" && status != "error"
    ensures ScreenFor(url, status) == ImageFeed
  {
    var s := url.value;
    assert |s| >= 4 by {
      if Includes(s, ".mjpg") {
      } else if Includes(s, ".cgi") {
      } else if Includes(s, "nphMotionJpeg") {
      } else {
        assert Includes(s, "/api/camera/proxy");
      }
    }
  }

  class CameraPlayer {
    const url: Option<string>
    const status: string
    var isLoading: bool
    var hasError: bool
    var retryCount: nat

    /** The image element never reports loading and failure at once. */
    ghost predicate Valid()
      reads this
    {
      !(isLoading && hasError)
    }

    constructor (url: Option<string>, status: string)
      ensures this.url == url && this.status == status
      ensures isLoading && !hasError && retryCount == 0
      ensures Valid()
    {
      this.url := url;
      this.status := status;
      isLoading := true;
      hasError := false;
      retryCount := 0;
    }

    function CurrentScreen(): Screen
      reads this
    {
      ScreenFor(url, status)
    }

    /** The spinner overlay (`isLoading && !hasError`, drawn over a player).
        Under the invariant it shows exactly while a player is loading, and
        never together with the error overlay. */
    function ShowSpinner(): (r: bool)
      reads this
      ensures Valid() ==> (r <==> CurrentScreen() != NoSignal && isLoading)
      ensures r ==> !ShowErrorOverlay()
    {
      CurrentScreen() != NoSignal && isLoading && !hasError
    }

    /** The error overlay, which holds the retry button. */
    function ShowErrorOverlay(): bool
      reads this
    {
      CurrentScreen() != NoSignal && hasError
    }

    /** `handleRetry`, reachable only through the error overlay's button:
        clear the failure, show the spinner, and bump the counter that keys
        the image element so that it loads afresh. */
    method Retry()
      requires ShowErrorOverlay()
      modifies this`isLoading, this`hasError, this`retryCount
      ensures !hasError && isLoading && retryCount == old(retryCount) + 1
      ensures Valid() && ShowSpinner()
    {
      hasError := false;
      isLoading := true;
      retryCount := retryCount + 1;
    }

    /** The image element's `load` event. */
    method OnLoad()
      requires CurrentScreen() == ImageFeed
      modifies this`isLoading
      ensures !isLoading && !ShowSpinner()
      ensures old(Valid()) ==> Valid()
    {
      isLoading := false;
    }

    /** The image element's `error` event. */
    method OnError()
      requires CurrentScreen() == ImageFeed
      modifies this`isLoading, this`hasError
      ensures !isLoading && hasError
      ensures Valid() && ShowErrorOverlay() && !ShowSpinner()
    {
      isLoading := false;
      hasError := true;
    }
  }
}
