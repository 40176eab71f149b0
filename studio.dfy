/**
 * The capture studio (src/components/PhotoStudio.jsx): the three-shot
 * countdown sequence, the guarded capture of one shot, the reshoot reset and
 * the filter selection, over the component's five state variables.
 *
 * The camera is an oracle: the sequence receives, for each shot, what the
 * video element looks like at the moment of capture. The delays of the
 * source are plain steps, recorded with everything the countdown shows in a
 * ghost trace.
 */
module Studio {
  import opened Wrappers
  import opened Filters

  /** An opaque identifier of the picture the camera shows at some instant. */
  type Frame = nat

  /** What `webcamRef.current?.video` is when a shot is taken. */
  datatype Video = Absent | Attached(readyState: nat, frame: Frame)

  /** The HTML media `readyState` from which a current frame can be drawn. */
  const HAVE_CURRENT_DATA: nat := 2

  /** The guard of `takePhoto`: a video element that can deliver a frame. */
  predicate FrameReady(v: Video) {
    v.Attached? && v.readyState >= HAVE_CURRENT_DATA
  }

  /**
   * The JPEG data URL of one shot, kept opaque: the frame that was drawn and
   * the canvas filter it was drawn through.
   */
  datatype Snapshot = Snapshot(frame: Frame, canvasFilter: string)

  /** One entry of `photos`: the image and the name of the filter selected for it. */
  datatype Photo = Photo(src: Snapshot, filter: string)

  /** The number of shots in one sequence. */
  const SHOTS: nat := 3

  const SMILE: string := "Smile \U{1F604}"

  /** The milliseconds each countdown token stays on screen. */
  const TICK_MS: nat := 1000

  /** The milliseconds of the pause after each shot. */
  const PAUSE_MS: nat := 400

  /** One observable step of the sequence. */
  datatype Step =
    | Display(token: Option<string>)  // `setCountdown(token)`; `None` clears the overlay
    | Wait(ms: nat)                   // a delay
    | Attempt(ready: bool)            // one call of `takePhoto`, with the outcome of its guard

  /** The photo a ready video yields under a selected filter. */
  function Shot(v: Video, filter: string): Photo
    requires FrameReady(v)
  {
    Photo(Snapshot(v.frame, CanvasFilter(filter)), filter)
  }

  /** The photos a sequence collects when its shots see `videos`, one by one. */
  function Captures(videos: seq<Video>, filter: string): (r: seq<Photo>)
    ensures |r| <= |videos|
    ensures forall k :: 0 <= k < |r| ==> r[k].filter == filter && r[k].src.canvasFilter == CanvasFilter(filter)
  {
    if videos == [] then []
    else
      var last := videos[|videos| - 1];
      Captures(videos[..|videos| - 1], filter) + (if FrameReady(last) then [Shot(last, filter)] else [])
  }

  /** Reference definition: how many of the videos were ready. */
  function ReadyCount(videos: seq<Video>): nat
  {
    if videos == [] then 0
    else (if FrameReady(videos[0]) then 1 else 0) + ReadyCount(videos[1..])
  }

  /** The steps of `countdownStep`: show a token and hold it for one tick. */
  function Tick(token: string): seq<Step>
  {
    [Display(Some(token)), Wait(TICK_MS)]
  }

  /** The steps of one shot: the four countdown tokens, the capture, the clear and the pause. */
  function ShotSteps(v: Video): seq<Step>
  {
    Tick("3") + Tick("2") + Tick("1") + Tick(SMILE) + [Attempt(FrameReady(v))] + [Display(None), Wait(PAUSE_MS)]
  }

  /** The steps of a sequence whose shots see `videos`. */
  function SequenceSteps(videos: seq<Video>): seq<Step>
  {
    if videos == [] then []
    else SequenceSteps(videos[..|videos| - 1]) + ShotSteps(videos[|videos| - 1])
  }

  /** The tokens one shot shows, in order, ending with the cleared overlay. */
  const SHOT_TOKENS: seq<Option<string>> := [Some("3"), Some("2"), Some("1"), Some(SMILE), None]

  /** The countdown values a run of steps shows, in order. */
  function Shown(steps: seq<Step>): seq<Option<string>>
  {
    if steps == [] then []
    else (if steps[0].Display? then [steps[0].token] else []) + Shown(steps[1..])
  }

  /** The outcomes of the capture attempts in a run of steps, in order. */
  function Attempts(steps: seq<Step>): seq<bool>
  {
    if steps == [] then []
    else (if steps[0].Attempt? then [steps[0].ready] else []) + Attempts(steps[1..])
  }

  /** `n` copies of the tokens of one shot. */
  function RepeatShotTokens(n: nat): seq<Option<string>>
  {
    if n == 0 then [] else RepeatShotTokens(n - 1) + SHOT_TOKENS
  }

  lemma {:induction false} ReadyCountSnoc(videos: seq<Video>, v: Video)
    ensures ReadyCount(videos + [v]) == ReadyCount(videos) + (if FrameReady(v) then 1 else 0)
  {
    if videos != [] {
      assert (videos + [v])[1..] == videos[1..] + [v];
      ReadyCountSnoc(videos[1..], v);
    }
  }

  /** A sequence keeps exactly one photo per shot whose frame was ready. */
  lemma {:induction false} CapturesCount(videos: seq<Video>, filter: string)
    ensures |Captures(videos, filter)| == ReadyCount(videos)
  {
    if videos != [] {
      var init := videos[..|videos| - 1];
      assert videos == init + [videos[|videos| - 1]];
      CapturesCount(init, filter);
      ReadyCountSnoc(init, videos[|videos| - 1]);
    }
  }

  lemma {:induction false} ReadyCountBounds(videos: seq<Video>)
    ensures ReadyCount(videos) == |videos| <==> forall i :: 0 <= i < |videos| ==> FrameReady(videos[i])
    ensures ReadyCount(videos) == 0 <==> forall i :: 0 <= i < |videos| ==> !FrameReady(videos[i])
    ensures ReadyCount(videos) <= |videos|
  {
    if videos != [] {
      ReadyCountBounds(videos[1..]);
      assert forall i :: 1 <= i < |videos| ==> videos[i] == videos[1..][i - 1];
    }
  }

  /**
   * A sequence ends with one photo per shot exactly when every frame was
   * ready, and with none exactly when no frame was.
   */
  lemma CapturesFullOrEmpty(videos: seq<Video>, filter: string)
    ensures |Captures(videos, filter)| == |videos| <==> forall i :: 0 <= i < |videos| ==> FrameReady(videos[i])
    ensures Captures(videos, filter) == [] <==> forall i :: 0 <= i < |videos| ==> !FrameReady(videos[i])
  {
    CapturesCount(videos, filter);
    ReadyCountBounds(videos);
  }

  /**
   * The photos keep the order of the shots: those of earlier shots come
   * first, and no shot's photo is lost or duplicated.
   */
  lemma {:induction false} CapturesAppend(a: seq<Video>, b: seq<Video>, filter: string)
    ensures Captures(a + b, filter) == Captures(a, filter) + Captures(b, filter)
  {
    if b == [] {
      assert a + b == a;
    } else {
      var init := b[..|b| - 1];
      assert (a + b)[..|a + b| - 1] == a + init;
      assert (a + b)[|a + b| - 1] == b[|b| - 1];
      CapturesAppend(a, init, filter);
    }
  }

  lemma {:induction false} ShownAppend(s: seq<Step>, t: seq<Step>)
    ensures Shown(s + t) == Shown(s) + Shown(t)
  {
    if s == [] {
      assert s + t == t;
    } else {
      assert (s + t)[0] == s[0];
      assert (s + t)[1..] == s[1..] + t;
      ShownAppend(s[1..], t);
      var head := if s[0].Display? then [s[0].token] else [];
      assert Shown(s + t) == head + Shown(s[1..] + t);
      assert Shown(s) == head + Shown(s[1..]);
    }
  }

  lemma {:induction false} AttemptsAppend(s: seq<Step>, t: seq<Step>)
    ensures Attempts(s + t) == Attempts(s) + Attempts(t)
  {
    if s == [] {
      assert s + t == t;
    } else {
      assert (s + t)[0] == s[0];
      assert (s + t)[1..] == s[1..] + t;
      AttemptsAppend(s[1..], t);
      var head := if s[0].Attempt? then [s[0].ready] else [];
      assert Attempts(s + t) == head + Attempts(s[1..] + t);
      assert Attempts(s) == head + Attempts(s[1..]);
    }
  }

  lemma ShownSingle(x: Step)
    ensures Shown([x]) == if x.Display? then [x.token] else []
  {
    assert [x][1..] == [];
  }

  lemma AttemptsSingle(x: Step)
    ensures Attempts([x]) == if x.Attempt? then [x.ready] else []
  {
    assert [x][1..] == [];
  }

  /** One tick shows its token and attempts nothing. */
  lemma TickProjections(token: string)
    ensures Shown(Tick(token)) == [Some(token)]
    ensures Attempts(Tick(token)) == []
  {
    assert Tick(token) == [Display(Some(token))] + [Wait(TICK_MS)];
    ShownAppend([Display(Some(token))], [Wait(TICK_MS)]);
    AttemptsAppend([Display(Some(token))], [Wait(TICK_MS)]);
    ShownSingle(Display(Some(token)));
    ShownSingle(Wait(TICK_MS));
    AttemptsSingle(Display(Some(token)));
    AttemptsSingle(Wait(TICK_MS));
  }

  /** One shot shows the four countdown tokens and then clears the overlay. */
  lemma ShotShown(v: Video)
    ensures Shown(ShotSteps(v)) == SHOT_TOKENS
  {
    var p1 := Tick("3");
    var p2 := p1 + Tick("2");
    var p3 := p2 + Tick("1");
    var p4 := p3 + Tick(SMILE);
    var p5 := p4 + [Attempt(FrameReady(v))];
    var tail := [Display(None), Wait(PAUSE_MS)];
    TickProjections("3");
    TickProjections("2");
    TickProjections("1");
    TickProjections(SMILE);
    ShownAppend(p1, Tick("2"));
    ShownAppend(p2, Tick("1"));
    ShownAppend(p3, Tick(SMILE));
    assert Shown(p4) == [Some("3"), Some("2"), Some("1"), Some(SMILE)];
    ShownSingle(Attempt(FrameReady(v)));
    ShownAppend(p4, [Attempt(FrameReady(v))]);
    assert tail == [Display(None)] + [Wait(PAUSE_MS)];
    ShownSingle(Display(None));
    ShownSingle(Wait(PAUSE_MS));
    ShownAppend([Display(None)], [Wait(PAUSE_MS)]);
    ShownAppend(p5, tail);
  }

  /** One shot attempts exactly one capture. */
  lemma ShotAttempts(v: Video)
    ensures Attempts(ShotSteps(v)) == [FrameReady(v)]
  {
    var p1 := Tick("3");
    var p2 := p1 + Tick("2");
    var p3 := p2 + Tick("1");
    var p4 := p3 + Tick(SMILE);
    var p5 := p4 + [Attempt(FrameReady(v))];
    var tail := [Display(None), Wait(PAUSE_MS)];
    TickProjections("3");
    TickProjections("2");
    TickProjections("1");
    TickProjections(SMILE);
    AttemptsAppend(p1, Tick("2"));
    AttemptsAppend(p2, Tick("1"));
    AttemptsAppend(p3, Tick(SMILE));
    AttemptsSingle(Attempt(FrameReady(v)));
    AttemptsAppend(p4, [Attempt(FrameReady(v))]);
    assert tail == [Display(None)] + [Wait(PAUSE_MS)];
    AttemptsSingle(Display(None));
    AttemptsSingle(Wait(PAUSE_MS));
    AttemptsAppend([Display(None)], [Wait(PAUSE_MS)]);
    AttemptsAppend(p5, tail);
  }

  /**
   * Every shot of a sequence shows "3", "2", "1" and the smile token, in that
   * order, and then clears the overlay; nothing else is ever shown.
   */
  lemma {:induction false} CountdownOrder(videos: seq<Video>)
    ensures Shown(SequenceSteps(videos)) == RepeatShotTokens(|videos|)
  {
    if videos != [] {
      var init := videos[..|videos| - 1];
      CountdownOrder(init);
      ShownAppend(SequenceSteps(init), ShotSteps(videos[|videos| - 1]));
      ShotShown(videos[|videos| - 1]);
    }
  }

  /** A sequence attempts exactly one capture per shot, in shot order. */
  lemma {:induction false} OneAttemptPerShot(videos: seq<Video>)
    ensures |Attempts(SequenceSteps(videos))| == |videos|
    ensures forall i :: 0 <= i < |videos| ==> Attempts(SequenceSteps(videos))[i] == FrameReady(videos[i])
  {
    if videos != [] {
      var init := videos[..|videos| - 1];
      var last := videos[|videos| - 1];
      OneAttemptPerShot(init);
      AttemptsAppend(SequenceSteps(init), ShotSteps(last));
      ShotAttempts(last);
      assert Attempts(SequenceSteps(videos)) == Attempts(SequenceSteps(init)) + [FrameReady(last)];
      forall i | 0 <= i < |videos|
        ensures Attempts(SequenceSteps(videos))[i] == FrameReady(videos[i])
      {
        if i < |init| {
          assert videos[i] == init[i];
        }
      }
    }
  }

  /**
   * Every capture attempt comes right after the smile token has been held
   * for its interval, and is followed at once by clearing the overlay.
   */
  lemma {:induction false} AttemptFollowsSmile(videos: seq<Video>)
    ensures forall k :: 0 <= k < |SequenceSteps(videos)| && SequenceSteps(videos)[k].Attempt? ==>
      2 <= k && SequenceSteps(videos)[k - 2] == Display(Some(SMILE)) && SequenceSteps(videos)[k - 1] == Wait(TICK_MS) &&
      k + 1 < |SequenceSteps(videos)| && SequenceSteps(videos)[k + 1] == Display(None)
  {
    if videos != [] {
      var init := videos[..|videos| - 1];
      AttemptFollowsSmile(init);
      var s: seq<Step>, t: seq<Step> := SequenceSteps(init), ShotSteps(videos[|videos| - 1]);
      assert SequenceSteps(videos) == s + t;
      forall k | 0 <= k < |s + t| && (s + t)[k].Attempt?
        ensures 2 <= k && (s + t)[k - 2] == Display(Some(SMILE)) && (s + t)[k - 1] == Wait(TICK_MS)
        ensures k + 1 < |s + t| && (s + t)[k + 1] == Display(None)
      {
        if k < |s| {
          assert s[k].Attempt?;
        } else {
          assert t[k - |s|].Attempt?;
          assert k - |s| == 8;
        }
      }
    }
  }

  lemma AppendAssoc(a: seq<Step>, b: seq<Step>, c: seq<Step>)
    ensures (a + b) + c == a + (b + c)
  {
  }

  /** Taking one more shot extends the photos and the steps by that shot's. */
  lemma ShotStepsExtend(videos: seq<Video>, i: nat, filter: string)
    requires i < |videos|
    ensures Captures(videos[..i + 1], filter) ==
      Captures(videos[..i], filter) + (if FrameReady(videos[i]) then [Shot(videos[i], filter)] else [])
    ensures SequenceSteps(videos[..i + 1]) == SequenceSteps(videos[..i]) + ShotSteps(videos[i])
  {
    assert videos[..i + 1][..i] == videos[..i];
  }

  /** The state of the studio component. */
  class PhotoStudio {
    var selectedFilter: string
    var photos: seq<Photo>
    var isCapturing: bool
    var countdown: Option<string>
    var showResult: bool
    /** Every step the sequences have taken so far, in order. */
    ghost var trace: seq<Step>

    /**
     * The selection and every photo's filter are catalog names; the result
     * screen is never shown while a sequence runs; a countdown token is only
     * on screen during a sequence.
     */
    ghost predicate Valid()
      reads this
    {
      && selectedFilter in CATALOG
      && (forall p :: p in photos ==> p.filter in CATALOG)
      && !(isCapturing && showResult)
      && (countdown.Some? ==> isCapturing)
    }

    /** The initial state of the `useState` hooks. */
    constructor ()
      ensures Valid()
      ensures selectedFilter == DEFAULT_FILTER && photos == []
      ensures !isCapturing && countdown == None && !showResult
      ensures trace == []
    {
      selectedFilter := DEFAULT_FILTER;
      photos := [];
      isCapturing := false;
      countdown := None;
      showResult := false;
      trace := [];
    }

    /** A click on a filter tab; the tabs are disabled while a sequence runs. */
    method SelectFilter(filter: string) returns (accepted: bool)
      requires Valid() && filter in CATALOG
      modifies this
      ensures Valid()
      ensures accepted == !old(isCapturing)
      ensures selectedFilter == (if accepted then filter else old(selectedFilter))
      ensures photos == old(photos) && isCapturing == old(isCapturing)
      ensures countdown == old(countdown) && showResult == old(showResult) && trace == old(trace)
    {
      accepted := !isCapturing;
      if accepted {
        selectedFilter := filter;
      }
    }

    /**
     * `takePhoto`: nothing happens unless the video can deliver a frame;
     * otherwise the frame, drawn through the selected filter's canvas
     * parameters, is appended to the photos.
     */
    method TakePhoto(video: Video)
      requires Valid()
      modifies this
      ensures Valid()
      ensures photos == old(photos) + (if FrameReady(video) then [Shot(video, selectedFilter)] else [])
      ensures trace == old(trace) + [Attempt(FrameReady(video))]
      ensures selectedFilter == old(selectedFilter) && isCapturing == old(isCapturing)
      ensures countdown == old(countdown) && showResult == old(showResult)
    {
      trace := trace + [Attempt(FrameReady(video))];
      if !FrameReady(video) {
        return;
      }
      var cssFilter := CanvasFilter(selectedFilter);
      var filteredImg := Snapshot(video.frame, cssFilter);
      photos := photos + [Photo(filteredImg, selectedFilter)];
    }

    /** `countdownStep`: show a token, then hold it for one tick. */
    method CountdownStep(value: string)
      requires Valid() && isCapturing
      modifies this
      ensures Valid()
      ensures countdown == Some(value)
      ensures trace == old(trace) + Tick(value)
      ensures selectedFilter == old(selectedFilter) && photos == old(photos)
      ensures isCapturing == old(isCapturing) && showResult == old(showResult)
    {
      countdown := Some(value);
      trace := trace + Tick(value);
    }

    /**
     * `startPhotoSequence`: clear the photos and run three shots, each
     * counting down, attempting a capture, clearing the overlay and pausing;
     * then show the result. `videos[i]` is the video element at shot `i`.
     */
    method StartPhotoSequence(videos: seq<Video>)
      requires Valid() && |videos| == SHOTS
      modifies this
      ensures Valid()
      ensures photos == Captures(videos, old(selectedFilter)) && |photos| <= SHOTS
      ensures !isCapturing && showResult && countdown == None
      ensures selectedFilter == old(selectedFilter)
      ensures trace == old(trace) + SequenceSteps(videos)
    {
      isCapturing := true;
      photos := [];
      showResult := false;
      ghost var before := trace;
      for i := 0 to SHOTS
        invariant Valid() && isCapturing && !showResult
        invariant i > 0 ==> countdown == None
        invariant selectedFilter == old(selectedFilter)
        invariant photos == Captures(videos[..i], selectedFilter)
        invariant trace == before + SequenceSteps(videos[..i])
      {
        Shoot(videos[i]);
        ShotStepsExtend(videos, i, selectedFilter);
        AppendAssoc(before, SequenceSteps(videos[..i]), ShotSteps(videos[i]));
      }
      assert videos[..SHOTS] == videos;
      isCapturing := false;
      showResult := true;
    }

    /**
     * The body of the loop of `startPhotoSequence`: one shot's countdown, the
     * capture attempt, clearing the overlay and the pause after the shot.
     */
    method Shoot(video: Video)
      requires Valid() && isCapturing
      modifies this
      ensures Valid()
      ensures photos == old(photos) + (if FrameReady(video) then [Shot(video, selectedFilter)] else [])
      ensures trace == old(trace) + ShotSteps(video)
      ensures countdown == None
      ensures selectedFilter == old(selectedFilter) && isCapturing == old(isCapturing) && showResult == old(showResult)
    {
      ghost var done := trace;
      CountdownStep("3");
      ghost var shot := Tick("3");
      CountdownStep("2");
      AppendAssoc(done, shot, Tick("2"));
      shot := shot + Tick("2");
      CountdownStep("1");
      AppendAssoc(done, shot, Tick("1"));
      shot := shot + Tick("1");
      CountdownStep(SMILE);
      AppendAssoc(done, shot, Tick(SMILE));
      shot := shot + Tick(SMILE);
      TakePhoto(video);
      AppendAssoc(done, shot, [Attempt(FrameReady(video))]);
      shot := shot + [Attempt(FrameReady(video))];
      countdown := None;
      trace := trace + [Display(None), Wait(PAUSE_MS)];
      AppendAssoc(done, shot, [Display(None), Wait(PAUSE_MS)]);
    }

    /** A click on the capture button, which is disabled while a sequence runs. */
    method PressCapture(videos: seq<Video>) returns (started: bool)
      requires Valid() && |videos| == SHOTS
      modifies this
      ensures Valid()
      ensures started == !old(isCapturing)
      ensures !started ==> photos == old(photos) && showResult == old(showResult) && countdown == old(countdown) && trace == old(trace)
      ensures started ==> photos == Captures(videos, old(selectedFilter)) && !isCapturing && showResult && countdown == None
      ensures started ==> trace == old(trace) + SequenceSteps(videos)
      ensures isCapturing == (old(isCapturing) && !started) && selectedFilter == old(selectedFilter)
    {
      started := !isCapturing;
      if started {
        StartPhotoSequence(videos);
      }
    }

    /** `handleReshoot`: drop the photos and leave the result screen. */
    method HandleReshoot()
      requires Valid()
      modifies this
      ensures Valid()
      ensures photos == [] && !showResult
      ensures selectedFilter == old(selectedFilter) && isCapturing == old(isCapturing)
      ensures countdown == old(countdown) && trace == old(trace)
    {
      photos := [];
      showResult := false;
    }
  }
}
