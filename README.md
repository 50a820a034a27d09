# MediaPipe pose adapter — verified model

This project models the adapter script `python_modules/mediapipe_pose-dectection.py`. A visual-programming host (Isadora's Pythoner actor) calls three entry points on it:

- `python_init` creates one MediaPipe pose estimator.
- `python_main` validates a video frame, converts it from BGR to RGB and runs the estimator. It returns a JSON object plus a status text. The object is either `{"error": ...}` or `{"pose": [...]}`, where the list has one record per landmark.
- `python_finalize` closes the estimator and clears the handle.

Modules:

- `Wrappers` (`wrappers.dfy`) defines `Option`.
- `Landmarks` (`landmarks.dfy`) holds the `POSE_LANDMARKS` id-to-name table and its properties.
- `PoseDetection` (`pose_detection.dfy`) holds the adapter:
  - the data model (`Frame`, `Conversion`, `RawLandmark`, `Entry`, `Output`, `Response`);
  - `Respond`, a specification function giving what `python_main` returns;
  - `Estimator`, the handle;
  - `PoseActor`, a class that holds the global `pose` handle. Its `Init`, `Process` and `Finalize` methods model the three entry points.

The library calls are modelled as inputs:

- The NumPy `isinstance`/`.size` test is the shape of a `Frame` (`NotAnArray` or `ImageArray(size)`).
- The outcome of the `try` block that calls `cv2.cvtColor` and `pose.process` is a `Conversion`: `Converted`, or `CvError(msg)` with `msg` standing for `str(e)`.
- The estimator's answer is `Option<seq<RawLandmark<V>>>`. `None` means `results.pose_landmarks` is `None` (no detection). A reported list, even an empty one, is `Some`.
- The coordinate type `V` is opaque, because the adapter only copies coordinates.
- The JSON text is modelled as the structured `Output<V>`.

Preconditions appear only where the script itself raises an exception:

- `POSE_LANDMARKS[idx]` raises `KeyError` once there are more than 33 landmarks. `WithinTable` excludes that input.
- Using `pose` while it is `None` raises `AttributeError`. That can happen only after conversion has succeeded, so `Process` requires a handle only in that case. The handle it requires is open, since the script never holds a closed estimator: `python_finalize` clears the handle right after closing it.

The code and its prose description disagree in one place, and the model follows the code. The description says a detection yields exactly 33 records. The code instead maps however many landmarks the estimator reports, and any reported list counts as a detection. A reported list of zero landmarks therefore gives `Pose([])` with the status "Pose detected successfully".

## Model

| member | source | states |
|---|---|---|
| PoseDetection.ValidFrame | python_modules/mediapipe_pose-dectection.py:134 | a frame passes validation exactly when it is an array with at least one element |
| PoseDetection.EntryFor | python_modules/mediapipe_pose-dectection.py:148-155 | the record for landmark `idx` has id `idx`, the table's name for `idx`, and the landmark's x, y, z and visibility unchanged |
| PoseDetection.Respond | python_modules/mediapipe_pose-dectection.py:122-158 | the value `python_main` returns: its status is one of the four fixed texts, and its output is an error exactly when the frame is invalid or the conversion failed |
| Landmarks.TableDomain | python_modules/mediapipe_pose-dectection.py:91-101 | the name table is defined on exactly the ids 0 to 32 |
| Landmarks.TableInjective | python_modules/mediapipe_pose-dectection.py:91-101 | distinct ids in the table map to distinct names |
| PoseDetection.Entries | python_modules/mediapipe_pose-dectection.py:146-155 | the list built by the append loop has one record per reported landmark |
| PoseDetection.EntriesAt | python_modules/mediapipe_pose-dectection.py:147-155 | record i has id i, the table's name for i, and x, y, z and visibility equal to those of landmark i |
| PoseDetection.CoordinatesOfEntries | python_modules/mediapipe_pose-dectection.py:151-154 | reading the coordinates back out of the records gives the estimator's sequence unchanged and in order, so the fields are only copied |
| PoseDetection.EntryNamesDistinct | python_modules/mediapipe_pose-dectection.py:150 | no two records of one output carry the same name |
| PoseDetection.InvalidFrameRejected | python_modules/mediapipe_pose-dectection.py:134-135 | a non-array or empty frame yields the fixed invalid-input error and status "Invalid or empty frame received"; the response is the same whatever the conversion and estimator outcomes, so neither is consulted |
| PoseDetection.ConversionFailureReported | python_modules/mediapipe_pose-dectection.py:137-142 | a conversion error on a valid frame yields `Error("OpenCV error: " + msg)` with status "OpenCV processing error" and no pose list, whatever the estimator outcome |
| PoseDetection.PoseMapped | python_modules/mediapipe_pose-dectection.py:145-156 | reported landmarks (at most 33) give a pose list of the same length and order, record i carrying id i, the table's name for i and the fields of landmark i, with status "Pose detected successfully" |
| PoseDetection.NoPoseReported | python_modules/mediapipe_pose-dectection.py:157-158 | when no landmarks are reported, the output is an empty pose list with status "No pose detected" |
| PoseDetection.ResponseClassified | python_modules/mediapipe_pose-dectection.py:122-158 | every response is exactly one of error or pose list, with one of the four status texts, each status holding exactly when its branch is taken; the output is an error exactly when the estimator is not reached |
| PoseDetection.Estimator.constructor | python_modules/mediapipe_pose-dectection.py:118 | a newly created estimator is open |
| PoseDetection.Estimator.Close | python_modules/mediapipe_pose-dectection.py:164 | closing marks the estimator closed |
| PoseDetection.PoseActor.constructor | python_modules/mediapipe_pose-dectection.py:103 | at module load the handle is `None` |
| PoseDetection.PoseActor.Init | python_modules/mediapipe_pose-dectection.py:106-119 | installs a freshly created, open estimator as the handle, whatever the frame argument |
| PoseDetection.PoseActor.Process | python_modules/mediapipe_pose-dectection.py:122-158 | returns the output and status that `Respond` gives for the inputs, requiring an open handle only once conversion has succeeded; the loop builds the records by appending; the method has no `modifies` clause, so the handle is never assigned |
| PoseDetection.PoseActor.Finalize | python_modules/mediapipe_pose-dectection.py:161-166 | a held estimator is closed and the handle becomes `None`; with no handle nothing changes, so a second call is a no-op |

## Left out

- `cv2.cvtColor` pixel conversion: only its success or failure is modelled, as the `Conversion` input.
- MediaPipe inference (`pose.process`): its landmarks are an input. The estimator's internal state is not modelled, only whether it is closed.
- The 0.5 detection and tracking confidence thresholds passed to the estimator: the adapter never computes with them.
- Floating-point coordinate values: they are an opaque type, because they are only copied.
- `json.dumps` text encoding: the output is the structured `Output` value.
- Exceptions the script does not catch: they are not modelled as results. A failure inside the estimator is outside the model because `Conversion` has only its two outcomes and the landmarks are an input. `KeyError` beyond 33 landmarks and `AttributeError` with no handle are excluded by preconditions of `Respond` and `PoseActor.Process`, as is processing with a closed estimator.
- The standalone `__main__` camera loop (lines 168-196): it is device I/O with an unbounded loop and interrupt handling.
