/** The slideshow state machine of the SlidingImageView widget. The platform pieces
    become events: the image loader's render call is the field `shown`, the posted
    switch callbacks are `pendingSwitches`, the property animator is `slide`, and the
    host event loop calls OnSwitchTimer and OnAnimationEnd when they complete. */
module SlidingImage {
  import opened Rotation

  /** Kotlin's 64-bit `Long`; durations are only stored and passed on, never computed with. */
  newtype Long = x: int | -0x8000_0000_0000_0000 <= x < 0x8000_0000_0000_0000

  /** Default slide duration and default dwell time between image switches, in ms. */
  const ANIMATION_DURATION: Long := 9000
  const IMAGE_SWITCH_DELAY: Long := 11000

  /** Magnitude of the slide offset in pixels. The view keeps it as a Float, but the
      offset only ever takes the values -120, 0 and 120. */
  const SLIDE_DISTANCE: int := 120

  datatype Option<T> = None | Some(value: T)

  datatype Direction = LeftOnly | RightOnly | Centered

  /** The slide animation in flight: where it moves translationX to, and how long it takes. */
  datatype Slide = Slide(target: int, duration: Long)

  /** An idle view has an empty queue. A running one shows rotation[cursor], the
      URL polled last, and its queue is the list it was started from, split behind
      the cursor and the two parts swapped: the URLs after the one on screen come
      next, in order, and the one on screen is at the tail. */
  ghost predicate Rotating(running: bool, queue: seq<string>, rotation: seq<string>, cursor: nat,
                           shown: Option<string>)
  {
    (!running ==> queue == []) &&
    (running ==>
      cursor < |rotation| &&
      queue == rotation[cursor + 1..] + rotation[..cursor + 1] &&
      shown == Some(rotation[cursor]))
  }

  /** The index after cursor, wrapping round at the end of the list. */
  function Advance(cursor: nat, n: nat): (c: nat)
    requires cursor < n
    ensures c < n
    ensures c == (cursor + 1) % n
  {
    if cursor + 1 < n then cursor + 1 else 0
  }

  /** Starting on a non-empty list: the first URL is polled, shown and re-enqueued. */
  lemma StartRotating(urls: seq<string>)
    requires urls != []
    ensures Rotating(true, Rotate(urls), urls, 0, Some(urls[0]))
  {
  }

  /** A timer fire on a running rotation polls the head, shows it and re-enqueues it:
      the cursor moves one place on, wrapping round. */
  lemma StepRotating(queue: seq<string>, rotation: seq<string>, cursor: nat, shown: Option<string>)
    requires Rotating(true, queue, rotation, cursor, shown)
    ensures queue != [] && queue[0] == rotation[Advance(cursor, |rotation|)]
    ensures Rotating(true, Rotate(queue), rotation, Advance(cursor, |rotation|), Some(queue[0]))
  {
  }

  predicate IsSlideValue(v: int) {
    v == SLIDE_DISTANCE || v == -SLIDE_DISTANCE
  }

  class SlidingImageView {
    var isAnimationRunning: bool
    var firstEndAction: bool
    var direction: Direction
    /** The signed target of the next slide. */
    var translationValue: int
    /** The image's horizontal offset at the start of the slide in flight. */
    var translationX: int
    /** The rotation of URLs; the URL on screen sits at its tail. */
    var imageQueue: seq<string>
    var animationDuration: Long
    var imageSwitchDelay: Long
    /** The slide animation that is running, if any. */
    var slide: Option<Slide>
    /** The delays of the switch callbacks posted to the handler and not yet run or removed. */
    var pendingSwitches: seq<Long>
    /** The URL last handed to the image loader for display. */
    var shown: Option<string>

    /** The list the running slideshow was started from, and the index in it of the URL on screen. */
    ghost var rotation: seq<string>
    ghost var cursor: nat
    /** How often an end action has copied the switch delay into the duration. */
    ghost var durationAdoptions: nat

    ghost predicate Valid()
      reads this
    {
      OffsetsValid() && TimerValid() && RotationValid() && AdoptionValid()
    }

    /** The slide target is always ±120 and the offset one of -120, 0, 120, and 0
        while the view is idle; exactly while the slideshow runs a slide animation is
        in flight. */
    ghost predicate OffsetsValid()
      reads this
    {
      IsSlideValue(translationValue) &&
      (translationX == 0 || IsSlideValue(translationX)) &&
      (!isAnimationRunning ==> translationX == 0) &&
      (slide.Some? <==> isAnimationRunning) &&
      (slide.Some? ==> IsSlideValue(slide.value.target))
    }

    /** At most one switch callback is ever posted, and only while the slideshow runs. */
    ghost predicate TimerValid()
      reads this
    {
      |pendingSwitches| <= 1 &&
      (pendingSwitches != [] ==> isAnimationRunning)
    }

    ghost predicate RotationValid()
      reads this
    {
      Rotating(isAnimationRunning, imageQueue, rotation, cursor, shown)
    }

    /** The delay has been adopted as the duration once if the first end action ran, else never. */
    ghost predicate AdoptionValid()
      reads this
    {
      durationAdoptions == (if firstEndAction then 1 else 0)
    }

    constructor ()
      ensures Valid()
      ensures !isAnimationRunning && !firstEndAction
      ensures direction == Centered && translationValue == -SLIDE_DISTANCE && translationX == 0
      ensures imageQueue == [] && shown == None && slide == None && pendingSwitches == []
      ensures animationDuration == ANIMATION_DURATION && imageSwitchDelay == IMAGE_SWITCH_DELAY
    {
      isAnimationRunning := false;
      firstEndAction := false;
      direction := Centered;
      translationValue := -SLIDE_DISTANCE;
      translationX := 0;
      imageQueue := [];
      animationDuration := ANIMATION_DURATION;
      imageSwitchDelay := IMAGE_SWITCH_DELAY;
      slide := None;
      pendingSwitches := [];
      shown := None;
      rotation := [];
      cursor := 0;
      durationAdoptions := 0;
    }

    /** Replaces the rotation and starts the slideshow on its first URL. A slideshow
        already running is torn down first; an empty list leaves the view idle. */
    method SetImageUrls(imageUrls: seq<string>)
      requires Valid()
      modifies this`isAnimationRunning, this`imageQueue, this`shown, this`slide,
        this`pendingSwitches, this`translationX, this`animationDuration,
        this`imageSwitchDelay, this`rotation, this`cursor
      ensures Valid()
      ensures imageQueue == Rotate(imageUrls)
      ensures isAnimationRunning == (imageUrls != [])
      ensures shown == if imageUrls != [] then Some(imageUrls[0]) else old(shown)
      ensures pendingSwitches == if imageUrls != [] then [imageSwitchDelay] else []
      ensures slide == if imageUrls != [] then Some(Slide(translationValue, animationDuration)) else None
      ensures translationX == 0
      ensures animationDuration == if old(isAnimationRunning) then ANIMATION_DURATION else old(animationDuration)
      ensures imageSwitchDelay == if old(isAnimationRunning) then IMAGE_SWITCH_DELAY else old(imageSwitchDelay)
      ensures imageUrls != [] ==> rotation == imageUrls && cursor == 0
    {
      if isAnimationRunning {
        RemoveAllAnimations();
        isAnimationRunning := false;
        imageQueue := [];
      }
      label Enqueue:
      var i := 0;
      while i < |imageUrls|
        invariant 0 <= i <= |imageUrls|
        invariant imageQueue == imageUrls[..i]
        invariant unchanged@Enqueue(this`isAnimationRunning, this`translationX, this`animationDuration, this`imageSwitchDelay, this`slide, this`pendingSwitches, this`shown, this`rotation, this`cursor)
        modifies this`imageQueue
      {
        imageQueue := imageQueue + [imageUrls[i]];
        i := i + 1;
      }
      assert imageQueue == imageUrls;
      if imageQueue != [] {
        var head := imageQueue[0];
        imageQueue := imageQueue[1..];
        rotation, cursor := imageUrls, 0;
        StartSlideshow(head);
        StartRotating(imageUrls);
      }
    }

    /** The reset done before a new list is installed: drops the posted switch
        callbacks, puts the image back at offset 0, restores both default durations
        and cancels the animation (a cancelled animation runs no end action). */
    method RemoveAllAnimations()
      modifies this`pendingSwitches, this`translationX, this`animationDuration,
        this`imageSwitchDelay, this`slide
      ensures pendingSwitches == [] && translationX == 0 && slide == None
      ensures animationDuration == ANIMATION_DURATION && imageSwitchDelay == IMAGE_SWITCH_DELAY
    {
      pendingSwitches := [];
      translationX := 0;
      animationDuration := ANIMATION_DURATION;
      imageSwitchDelay := IMAGE_SWITCH_DELAY;
      slide := None;
    }

    /** Sets the direction and the sign of the next slide; a directional mode also
        collapses the dwell time onto the slide duration. CENTERED leaves the delay alone. */
    method SetDirection(d: Direction)
      requires Valid()
      modifies this`direction, this`imageSwitchDelay, this`translationValue
      ensures Valid()
      ensures direction == d
      ensures translationValue == if d == LeftOnly then -SLIDE_DISTANCE else SLIDE_DISTANCE
      ensures imageSwitchDelay == if d != Centered then animationDuration else old(imageSwitchDelay)
    {
      direction := d;
      if d != Centered {
        imageSwitchDelay := animationDuration;
      }
      translationValue := if d == LeftOnly then -SLIDE_DISTANCE else SLIDE_DISTANCE;
    }

    /** Sets the duration used by the next slide; the slide in flight keeps its own. */
    method SetAnimationDuration(duration: Long)
      requires Valid()
      modifies this`animationDuration
      ensures Valid()
      ensures animationDuration == duration
    {
      animationDuration := duration;
    }

    /** Sets the delay used by the next switch callback posted; those already posted keep theirs. */
    method SetImageSwitchDelay(delay: Long)
      requires Valid()
      modifies this`imageSwitchDelay
      ensures Valid()
      ensures imageSwitchDelay == delay
    {
      imageSwitchDelay := delay;
    }

    /** Puts url back at the tail, displays it, starts the slide and posts the next switch. */
    method StartSlideshow(url: string)
      modifies this`isAnimationRunning, this`imageQueue, this`shown, this`slide, this`pendingSwitches
      ensures isAnimationRunning
      ensures imageQueue == old(imageQueue) + [url] && shown == Some(url)
      ensures slide == Some(Slide(translationValue, animationDuration))
      ensures pendingSwitches == old(pendingSwitches) + [imageSwitchDelay]
    {
      isAnimationRunning := true;
      imageQueue := imageQueue + [url];
      LoadImage(url);
      AnimateImage();
      ScheduleNextImage();
    }

    /** Puts url back at the tail, displays it and posts the next switch. */
    method UpdateImage(url: string)
      modifies this`imageQueue, this`shown, this`pendingSwitches
      ensures imageQueue == old(imageQueue) + [url] && shown == Some(url)
      ensures pendingSwitches == old(pendingSwitches) + [imageSwitchDelay]
    {
      imageQueue := imageQueue + [url];
      LoadImage(url);
      ScheduleNextImage();
    }

    /** Starts a slide from the current offset to translationValue over animationDuration. */
    method AnimateImage()
      modifies this`slide
      ensures slide == Some(Slide(translationValue, animationDuration))
    {
      slide := Some(Slide(translationValue, animationDuration));
    }

    /** Posts a switch callback that runs after the current imageSwitchDelay. */
    method ScheduleNextImage()
      modifies this`pendingSwitches
      ensures pendingSwitches == old(pendingSwitches) + [imageSwitchDelay]
    {
      pendingSwitches := pendingSwitches + [imageSwitchDelay];
    }

    /** Hands url to the image loader for display; only what is on screen is recorded. */
    method LoadImage(url: string)
      modifies this`shown
      ensures shown == Some(url)
    {
      shown := Some(url);
    }

    /** A posted switch callback runs: the head of the queue is polled and, when there
        is one, re-enqueued, displayed, and the next switch posted. */
    method OnSwitchTimer()
      requires Valid() && pendingSwitches != []
      modifies this`pendingSwitches, this`imageQueue, this`shown, this`cursor
      ensures Valid()
      ensures imageQueue == Rotate(old(imageQueue))
      ensures shown == Some(old(imageQueue)[0])
      ensures pendingSwitches == [imageSwitchDelay]
      ensures cursor == Advance(old(cursor), |rotation|)
    {
      pendingSwitches := pendingSwitches[1..];
      if imageQueue != [] {
        StepRotating(imageQueue, rotation, cursor, shown);
        var url := imageQueue[0];
        imageQueue := imageQueue[1..];
        cursor := Advance(cursor, |rotation|);
        UpdateImage(url);
      }
    }

    /** The slide in flight reaches its target and its end action runs: the first end
        action ever adopts the switch delay as the slide duration; CENTERED then
        reverses the slide, the directional modes jump back to 0; a new slide starts. */
    method OnAnimationEnd()
      requires Valid() && slide.Some?
      modifies this`translationX, this`slide, this`firstEndAction, this`animationDuration,
        this`translationValue, this`durationAdoptions
      ensures Valid()
      ensures firstEndAction
      ensures animationDuration == if old(firstEndAction) then old(animationDuration) else imageSwitchDelay
      ensures translationValue == if direction == Centered then -old(translationValue) else old(translationValue)
      ensures translationX == if direction == Centered then old(slide).value.target else 0
      ensures slide == Some(Slide(translationValue, animationDuration))
      ensures durationAdoptions == old(durationAdoptions) + (if old(firstEndAction) then 0 else 1)
    {
      translationX := slide.value.target;
      slide := None;
      if !firstEndAction {
        firstEndAction := true;
        animationDuration := imageSwitchDelay;
        durationAdoptions := durationAdoptions + 1;
      }
      if direction == Centered {
        translationValue := -translationValue;
      } else {
        translationX := 0;
      }
      AnimateImage();
    }

    /** The view leaves the window: the posted switch callbacks are removed. The slide
        animation is not cancelled and the running flag stays as it was. */
    method OnDetachedFromWindow()
      requires Valid()
      modifies this`pendingSwitches
      ensures Valid()
      ensures pendingSwitches == []
    {
      pendingSwitches := [];
    }
  }

  /** While the slideshow runs, the URL on screen is the one at the tail of the queue. */
  lemma ShownIsTail(v: SlidingImageView)
    requires v.Valid() && v.isAnimationRunning
    ensures v.imageQueue != [] && v.shown == Some(v.imageQueue[|v.imageQueue| - 1])
  {
  }

  /** While the slideshow runs, the queue is the list it was started from after
      cursor + 1 rotation steps: one for the start and one per timer fire. */
  lemma {:induction false} QueueIsRotation(v: SlidingImageView)
    requires v.Valid() && v.isAnimationRunning
    ensures v.imageQueue == RotateTimes(v.rotation, v.cursor + 1)
  {
    RotateTimesSplit(v.rotation, v.cursor + 1);
  }

  /** While the slideshow runs, the (k+1)-th timer fire from now shows the head of the
      queue after k more steps, which is rotation[(cursor + 1 + k) mod |rotation|]:
      the URLs keep coming round in the order of the list, indefinitely. */
  lemma {:induction false} NextShown(v: SlidingImageView, k: nat)
    requires v.Valid() && v.isAnimationRunning
    ensures v.imageQueue != []
    ensures RotateTimes(v.imageQueue, k)[0] == v.rotation[(v.cursor + 1 + k) % |v.rotation|]
  {
    QueueIsRotation(v);
    RotateTimesAdd(v.rotation, k, v.cursor + 1);
    HeadAfter(v.rotation, k + (v.cursor + 1));
  }

  /** While the slideshow runs, the queue holds exactly the URLs it was started with. */
  lemma QueueKeepsUrls(v: SlidingImageView)
    requires v.Valid() && v.isAnimationRunning
    ensures multiset(v.imageQueue) == multiset(v.rotation)
  {
    var c := v.cursor + 1;
    assert v.rotation == v.rotation[..c] + v.rotation[c..];
  }

  /** A run of the slideshow as the host event loop drives it: the list is installed,
      then |urls| times a slide ends and a switch callback fires. The i-th fire shows
      urls[i mod |urls|], so the URLs appear in the order of the list. After that full
      cycle the queue and the URL on screen are back where the start left them. */
  method RunOneCycle(v: SlidingImageView, urls: seq<string>)
    requires v.Valid()
    modifies v
    ensures v.Valid()
    ensures v.isAnimationRunning == (urls != [])
    ensures v.imageQueue == Rotate(urls)
    ensures urls != [] ==> v.shown == Some(urls[0])
  {
    v.SetImageUrls(urls);
    if urls == [] {
      return;
    }
    var i := 0;
    while i < |urls|
      invariant 0 <= i <= |urls|
      invariant v.Valid() && v.isAnimationRunning && v.pendingSwitches != []
      invariant v.imageQueue == RotateTimes(urls, i + 1)
      invariant v.shown == Some(urls[i % |urls|])
    {
      HeadAfter(urls, i + 1);
      v.OnAnimationEnd();
      v.OnSwitchTimer();
      i := i + 1;
    }
    FullCycle(urls);
    ModUnique(|urls|, |urls|, 1, 0);
  }
}
