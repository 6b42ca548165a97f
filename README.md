# Line-follower controller: decision core

A Dafny model of the decision logic of a camera-driven line follower
(`test.py`). Each video frame yields at most one line centroid; the controller
smooths the centroids over a five-point moving window, measures the smoothed
x against a reference line at a quarter of the frame width, classifies the
deviation into `forward`, `left` or `right`, and appends a command to the
queue that a worker thread drains towards the ESP32 actuator. A command is
appended only when the 0.8 s cooldown has strictly elapsed and the command
differs from the last one. After more than ten consecutive frames without a
line a single `stop` is appended, whatever the cooldown. On shutdown the loop
appends `stop` and then the worker's `exit` sentinel.

Modules:

- `Wrappers` (wrappers.dfy): `Option`, for "no line in this frame" and "no command yet".
- `Commands` (commands.dfy): the command alphabet and its wire tokens.
- `Smoothing` (smoothing.dfy): the FIFO window, the floor-mean, and the class
  `PositionSmoother` that owns the history list.
- `Decision` (decision.dfy): the reference line and the classification bands.
- `Dispatch` (dispatch.dfy): the delivery worker, reduced to the order in
  which it takes commands off the queue.
- `Control` (control.dfy): the per-frame step as a pure state machine
  (`ControlState`, `Next`, `Run`) and the class `Controller`, whose `Step`
  method is the imperative loop body proved to follow `Next`.

Time is an integer number of milliseconds. The cooldown is 800, and the test
`now - lastCommandTime <= Cooldown` keeps the source's comparison.
`int(width * 0.25)` is `width / 4` for a non-negative width. Python's `//` by
a positive length is Dafny's `/`.

Two details of the code that the model keeps:

- A deviation of exactly 40 pixels is a turn: forward needs `abs_deviation < 40` (test.py:185).
- The only hysteresis is the comparison with the last command (test.py:209).

## Model

| member | source | states |
|---|---|---|
| `Smoothing.Window` | test.py:87-89 | the new history is the old one plus the point, minus its first element when it held 5 already; it ends with the point and never exceeds 5 entries |
| `Smoothing.WindowOfRecent` | test.py:87-89 | feeding a point to the window of the last ≤5 observations gives the window of the last ≤5 observations of the longer stream; its length is min(n + 1, 5) |
| `Smoothing.EvictedObservationsIgnored` | test.py:87-95 | once five or more newer points have been seen, the window is the window of those newer points alone (exactly them when there are five), so earlier observations cannot affect the smoothed position |
| `Smoothing.MeanBounds` | test.py:92-93 | the floor-mean of the window lies within any lower and upper bound that every element respects |
| `Smoothing.SmoothedWithinWindow` | test.py:92-95 | the smoothed x (and y) lies between the minimum and maximum x (and y) in the window |
| `Smoothing.SmoothedOfConstant` | test.py:92-95 | a window holding one repeated point smooths to exactly that point |
| `Smoothing.PositionSmoother.constructor` | test.py:27 | the history starts empty |
| `Smoothing.PositionSmoother.Observe` | test.py:83-95 | appends the point, evicts the oldest beyond 5, keeps the history equal to the last ≤5 observations, and returns the floor-mean of x and y over them |
| `Decision.CenterX` | test.py:150 | the reference line is a quarter of the width, rounded down |
| `Decision.Classify` | test.py:180-206 | forward iff abs(deviation) < 40; right iff abs(deviation) ≥ 40 and deviation < 0; left iff abs(deviation) ≥ 40 and deviation ≥ 0; never stop or exit; sharp band iff abs(deviation) > 80 |
| `Decision.BandDoesNotChangeCommand` | test.py:189-206 | the sharp and gentle bands give the same command for deviations on the same side |
| `Decision.ClassifyMirror` | test.py:185-206 | negating the deviation swaps left and right and keeps forward |
| `Commands.TokenInjective` | test.py:171-173 | two commands are equal exactly when their string tokens are, so comparing commands is the source's string comparison |
| `Control.Init` | test.py:116 | the loop starts with an empty history and queue, a zero no-line count, no last command, the last-command time equal to the start time, and the invariant holding |
| `Control.Next` | test.py:153-212 | one frame leaves the existing queue as a prefix and appends at most one command |
| `Control.NextTracksLine` | test.py:155-164 | a frame without a centroid increments the no-line count and leaves the history alone; a frame with one sets the count to 0 and feeds the point to the window |
| `Control.SafetyStop` | test.py:170-174 | once the count exceeds 10, stop is appended and becomes the last command at the current time if the last command was not stop; otherwise queue, last command and time are unchanged |
| `Control.NormalDispatch` | test.py:167-212 | below the safety limit a command is appended exactly when a centroid is present, more than 800 ms have passed since the last command, and the classified command differs from the last; it then becomes the last command at the current time, and otherwise queue, last command and time are unchanged |
| `Control.NextPreservesInv` | test.py:155-212 | each frame keeps the history at most 5 long, keeps exit out of the queue, and keeps stop as the last command while the count exceeds 10 |
| `Control.RunPreservesInv` | test.py:122-212 | the same invariant holds after any sequence of frames |
| `Control.RunAppendsOnly` | test.py:172-210 | over any run the queue only grows at its end, by at most one command per frame |
| `Control.NoLineRun` | test.py:164-174 | a run of frames without a line leaves the history alone, adds its length to the count, and appends stop exactly once, when the count first exceeds 10, unless stop was already the last command |
| `Control.SteadyLineRun` | test.py:155-212 | while the centroid stays at one point and every entry of the history (possibly none, as at the start) is that point, its command is appended at most once over the run, and never if it was already the last command |
| `Control.Controller.constructor` | test.py:27-28 | the controller starts in the initial state with a fresh, empty smoother |
| `Control.Controller.Step` | test.py:147-212 | the loop body changes the controller's state exactly as the specification step does, keeps it valid, and records the centroid with the smoother when one is present |
| `Control.Controller.Shutdown` | test.py:259-260 | appends stop and then the exit sentinel and leaves the rest unchanged; the commands the worker takes off the queue, in order, if it reaches the sentinel, are everything queued before followed by the final stop |
| `Dispatch.BeforeExit` | test.py:33-36 | the commands the worker handles are the longest prefix of the queue without exit, and the next entry, if any, is exit |
| `Dispatch.Deliver` | test.py:30-43 | the worker loop handles commands in FIFO order, each once, stopping at the first exit |
| `Dispatch.ShutdownOrder` | test.py:259-260 | after shutdown on a queue without exit, the commands the worker takes off the queue, in order, if it reaches the sentinel, are the whole queue followed by stop |

## Left out

- Line detection (`get_line_center`, test.py:45-81): colour conversion, morphology, contours and image moments belong to the vision library. Each frame's centroid is an input.
- The HTTP request to the actuator, its timeout, its printed response and its error handling (test.py:37-43). Deliveries are reduced to the order in which the worker attempts them.
- The worker's own write of `last_command` after a successful send (test.py:40). It runs on another thread and races with the main loop, so only the frame step updates the last command here.
- Camera setup, frame reading and read failure, the quit key, on-screen drawing, FPS counting and the cooldown percentage (test.py:104-147, 162, 175-176, 213-255). These are I/O and display. The failure when the camera cannot be opened (test.py:106-109) is also left out: it enqueues only the exit sentinel, so the worker delivers nothing.
- The display text and colour of each band are reduced to `Decision.Band`.
- Floating-point `time.time()` timestamps: time is integer milliseconds, so sub-millisecond differences around the 0.8 s cooldown are not modelled.
- The worker is a daemon thread (test.py:101) and shutdown waits for it only one second (test.py:263), while each request may take up to its 0.5 s timeout (test.py:38). With a backlog of slow or failing requests the process can end before the worker reaches the tail of the queue, including the final stop. The model states only the order in which the worker takes commands, not that it reaches the sentinel.
- Concurrency of the queue: the model is the sequence of everything enqueued, which the single worker reads in order.
