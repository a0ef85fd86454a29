# SlidingImageView slideshow model

`SlidingImageView` is an Android view that cycles through a list of image URLs.
It keeps the URLs in a FIFO queue. On every switch it polls the head, shows it and
adds it back at the tail. A property animation slides the image sideways, and its
end action starts the next slide. In CENTERED mode each end action reverses the
target, so the slides normally go back and forth between -120 and +120 px. The first
slide starts from 0. `setDirection` sets the target to +120 whatever its sign, so the
slide after a `setDirection(CENTERED)` can go from -120 to -120 and stand still for a
whole duration. In LEFT_ONLY and RIGHT_ONLY mode every slide starts from 0.
A `Handler` posts the next switch after `imageSwitchDelay` ms.

This project models that state machine as the Dafny class
`SlidingImage.SlidingImageView`. Its fields are the widget's own state:

- the queue, the direction and the signed slide target;
- the image offset, both durations and the two flags;
- the slide animation in flight;
- the posted switch callbacks, kept as a sequence of their delays;
- the URL last handed to the image loader.

The events the platform delivers are methods of the class:

- `OnSwitchTimer` models a posted switch callback running;
- `OnAnimationEnd` models the `withEndAction` body;
- `OnDetachedFromWindow` models the view being detached from its window.

The class invariant `Valid()` says four things:

- The slide target is always ±120. The offset is -120, 0 or 120, and it is 0 while the view is idle.
- A slide is in flight exactly while the slideshow runs.
- At most one switch callback is pending, and only while the slideshow runs.
- While the slideshow runs, the queue is the started list rotated `cursor + 1` places, and the URL on screen is `rotation[cursor]`. When it is not running, the queue is empty.

Also, the switch delay has been adopted as the slide duration once if the first end action ran, and never otherwise.

Every public operation and every platform event keeps `Valid()`. The private helpers (`RemoveAllAnimations`, `StartSlideshow`, `UpdateImage`, `AnimateImage`, `ScheduleNextImage`, `LoadImage`) are steps inside `SetImageUrls`, `OnSwitchTimer` and `OnAnimationEnd`. They are specified by their effect only, and on their own they may leave the invariant broken part-way.

Module `Rotation` defines the poll-and-re-add step on a sequence and its
iterates. It proves the following:

- Rotation keeps the contents.
- Up to one cycle, n steps split the list at n.
- The rotation is periodic with period |q|.
- The head after n steps is `q[n mod |q|]`.

The class lemmas use these facts to prove that a running slideshow shows the URLs
of its list cyclically, in order, for ever.

## Model

| member | source | states |
|---|---|---|
| SlidingImage.SlidingImageView.constructor | slidingImage/src/main/java/com/initted/slidingimage/SlidingImageView.kt:34-52 | The fresh view is idle with an empty queue, no callback, no slide, direction CENTERED, target -120, offset 0 and the default 9000/11000 ms durations. The invariant holds. |
| SlidingImage.SlidingImageView.SetImageUrls | slidingImage/src/main/java/com/initted/slidingimage/SlidingImageView.kt:62-73 | The running slideshow is torn down: default durations. The offset is 0 afterwards, so the first slide starts from 0. The result then depends on the list. A non-empty list shows its first URL, leaves the queue as the list rotated once, and starts one slide and one switch callback. An empty list leaves the view idle with an empty queue. The invariant is kept. |
| SlidingImage.SlidingImageView.RemoveAllAnimations | slidingImage/src/main/java/com/initted/slidingimage/SlidingImageView.kt:78-84 | All posted callbacks are removed, the offset is 0, both durations are back to 9000/11000 and no slide is in flight. |
| SlidingImage.SlidingImageView.SetDirection | slidingImage/src/main/java/com/initted/slidingimage/SlidingImageView.kt:90-96 | The direction is set. The target is -120 for LEFT_ONLY and +120 otherwise. A directional mode sets the switch delay to the slide duration, and CENTERED leaves the delay as it was. |
| SlidingImage.SlidingImageView.SetAnimationDuration | slidingImage/src/main/java/com/initted/slidingimage/SlidingImageView.kt:102-104 | Only the slide duration changes, and it takes the given value. |
| SlidingImage.SlidingImageView.SetImageSwitchDelay | slidingImage/src/main/java/com/initted/slidingimage/SlidingImageView.kt:110-112 | Only the switch delay changes, and it takes the given value. |
| SlidingImage.SlidingImageView.StartSlideshow | slidingImage/src/main/java/com/initted/slidingimage/SlidingImageView.kt:119-125 | The view is running, the URL is at the tail of the queue and on screen, a slide to the current target starts, and one callback with the current delay is posted. |
| SlidingImage.SlidingImageView.UpdateImage | slidingImage/src/main/java/com/initted/slidingimage/SlidingImageView.kt:130-134 | The URL is re-enqueued at the tail and shown, and one callback with the current delay is posted. |
| SlidingImage.SlidingImageView.AnimateImage | slidingImage/src/main/java/com/initted/slidingimage/SlidingImageView.kt:140-143 | A slide to translationValue over animationDuration is in flight. |
| SlidingImage.SlidingImageView.OnAnimationEnd | slidingImage/src/main/java/com/initted/slidingimage/SlidingImageView.kt:144-155 | The offset reaches the slide's target. The first end action, and only that one, copies the switch delay into the duration, counted by the ghost `durationAdoptions`. CENTERED negates the target and keeps the offset, and the other modes reset the offset to 0. A new slide starts with the new target and duration. The invariant is kept. |
| SlidingImage.SlidingImageView.ScheduleNextImage | slidingImage/src/main/java/com/initted/slidingimage/SlidingImageView.kt:162-166 | One callback carrying the current switch delay is appended to the pending ones. |
| SlidingImage.SlidingImageView.OnSwitchTimer | slidingImage/src/main/java/com/initted/slidingimage/SlidingImageView.kt:163-165 | The callback is consumed. The queue is rotated one step, its old head is shown, and exactly one new callback with the current delay is pending. The cursor moves on by one, wrapping round. The invariant is kept. |
| SlidingImage.SlidingImageView.LoadImage | slidingImage/src/main/java/com/initted/slidingimage/SlidingImageView.kt:173-180 | The URL becomes the one on screen. |
| SlidingImage.SlidingImageView.OnDetachedFromWindow | slidingImage/src/main/java/com/initted/slidingimage/SlidingImageView.kt:197-200 | No switch callback is pending afterwards. Nothing else changes, so the running flag and the slide in flight stay. |
| SlidingImage.Advance | slidingImage/src/main/java/com/initted/slidingimage/SlidingImageView.kt:163-165 | The index of the next URL out of the queue (cursor + 1) mod n, always in range. |
| SlidingImage.StartRotating | slidingImage/src/main/java/com/initted/slidingimage/SlidingImageView.kt:62-73 | Polling the head of a non-empty list and re-adding it establishes the rotation invariant with cursor 0 and the first URL on screen. |
| SlidingImage.StepRotating | slidingImage/src/main/java/com/initted/slidingimage/SlidingImageView.kt:163-165 | On a running rotation the queue is non-empty, its head is the URL after the one on screen, and one poll-and-re-add step keeps the invariant with the cursor advanced. |
| SlidingImage.ShownIsTail | slidingImage/src/main/java/com/initted/slidingimage/SlidingImageView.kt:130-134 | While running, the queue is non-empty and the URL on screen is at its tail. |
| SlidingImage.QueueIsRotation | slidingImage/src/main/java/com/initted/slidingimage/SlidingImageView.kt:163-165 | While running, the queue is the started list after cursor + 1 poll-and-re-add steps. |
| SlidingImage.NextShown | slidingImage/src/main/java/com/initted/slidingimage/SlidingImageView.kt:163-165 | While running, the URL shown by the (k+1)-th switch from now is rotation[(cursor + 1 + k) mod n]. The URLs come round in the order of the list, indefinitely. |
| SlidingImage.QueueKeepsUrls | slidingImage/src/main/java/com/initted/slidingimage/SlidingImageView.kt:68-72 | While running, the queue holds exactly the URLs of the list it was started with, each as often. |
| SlidingImage.RunOneCycle | slidingImage/src/main/java/com/initted/slidingimage/SlidingImageView.kt:62-166 | The list is installed, then a slide ends and a switch callback fires \|urls\| times. Afterwards the view is still running, the queue is the list rotated once and the first URL is on screen again, as right after the start. The loop invariant shows that the i-th fire puts urls[i mod \|urls\|] on screen. An empty list leaves the view idle. |
| Rotation.Rotate | slidingImage/src/main/java/com/initted/slidingimage/SlidingImageView.kt:163-165 | One poll-and-re-add step keeps the queue's length. An empty queue stays empty. |
| Rotation.RotatePermutes | slidingImage/src/main/java/com/initted/slidingimage/SlidingImageView.kt:163-165 | One step keeps the multiset of URLs. |
| Rotation.RotateTimes | slidingImage/src/main/java/com/initted/slidingimage/SlidingImageView.kt:163-165 | Any number of steps keeps the queue's length. |
| Rotation.RotateTimesPermutes | slidingImage/src/main/java/com/initted/slidingimage/SlidingImageView.kt:163-165 | Any number of steps keeps the multiset of URLs. No URL is lost or duplicated. |
| Rotation.RotateTimesSplit | slidingImage/src/main/java/com/initted/slidingimage/SlidingImageView.kt:163-165 | For n <= \|q\|, n steps give q[n..] + q[..n]. |
| Rotation.FullCycle | slidingImage/src/main/java/com/initted/slidingimage/SlidingImageView.kt:163-165 | \|q\| steps give back q. |
| Rotation.RotateTimesAdd | slidingImage/src/main/java/com/initted/slidingimage/SlidingImageView.kt:163-165 | a + b steps are b steps followed by a steps. |
| Rotation.Periodic | slidingImage/src/main/java/com/initted/slidingimage/SlidingImageView.kt:163-165 | The rotation repeats with period \|q\|. |
| Rotation.RotateTimesMod | slidingImage/src/main/java/com/initted/slidingimage/SlidingImageView.kt:163-165 | Only n mod \|q\| of n steps matter. |
| Rotation.RotateTimesClosed | slidingImage/src/main/java/com/initted/slidingimage/SlidingImageView.kt:163-165 | n steps give q split at n mod \|q\| with the parts swapped. |
| Rotation.HeadAfter | slidingImage/src/main/java/com/initted/slidingimage/SlidingImageView.kt:163-165 | The head after n steps is q[n mod \|q\|]. |

## Left out

- Image loading:
  - Glide loading, caching, the 1500 ms crossfade and `preloadImage` (lines 173-192) are calls into a library.
  - The model records only which URL was handed over for display.
  - Preloading has no effect on the state.
- Time: the `Handler` delays and the animator's progress are not modelled.
  - A posted callback is kept with its delay and runs when the host calls `OnSwitchTimer`.
  - A slide is kept with its target and duration and ends when the host calls `OnAnimationEnd`.
  - Which of the two comes first is left to the host, so every interleaving is allowed.
- Threading: everything is assumed to run on the main looper, as in the source, so there is no concurrency.
- Layout: the image view's margins, scale type and `addView` (lines 37-43, 54-56) are not modelled.
  - The demo activity is not part of this model.
- Offsets: `translationX` and `translationValue` are Kotlin `Float`s. They only take the values -120, 0 and 120, so they are modelled as integers.
- Negative durations: the platform animator rejects a negative duration, and that failure is not modelled.
  - `SetAnimationDuration` and `SetImageSwitchDelay` accept any 64-bit value, as the Kotlin setters do.
- Cancelling after detach: the model does not claim that detaching cancels the slide animation or resets `isAnimationRunning`, because the code does neither.
  - After a detach the slides go on, but no switch callback is posted until the next `SetImageUrls`, so until then the image stays on the same URL.
  - The code removes only the handler's callbacks, and so does the model.
- CENTERED delay: `SetDirection(Centered)` does not restore an independent switch delay after a directional mode collapsed it. The code does not do this, so neither does the model.
- Rotation.Rotate: its contract states only the length. The contents are stated by `RotatePermutes`, `RotateTimesSplit` and `HeadAfter`.
- First end action: `firstEndAction` is never reset, not even by `setImageUrls`. So the adoption of the switch delay as the slide duration happens once per view instance, and the model keeps this.
