/**
 * The frame adapter of python_modules/mediapipe_pose-dectection.py: the three
 * lifecycle entry points a host calls (`python_init`, `python_main`,
 * `python_finalize`) around one estimator handle.
 *
 * The libraries the adapter calls are not modelled; their outcomes are inputs:
 *  - the NumPy type and size test becomes the shape of a `Frame`;
 *  - the BGR-to-RGB conversion becomes a `Conversion`, success or the text of
 *    the raised conversion error;
 *  - the estimator's answer becomes `Option<seq<RawLandmark<V>>>`, where the
 *    coordinate type `V` is opaque because the adapter only copies it;
 *  - the JSON text becomes the structured `Output<V>`.
 */
module PoseDetection {
  import opened Wrappers
  import opened Landmarks

  /** What the host passes as `video_frame`: a NumPy array of some element count, or anything else. */
  datatype Frame = NotAnArray | ImageArray(size: nat)

  /** Outcome of the colour conversion and estimator call inside the `try` block. */
  datatype Conversion = Converted | CvError(msg: string)

  /** One landmark as the estimator reports it. */
  datatype RawLandmark<V> = RawLandmark(x: V, y: V, z: V, visibility: V)

  /** One record of the output list: `{"id", "name", "x", "y", "z", "visibility"}`. */
  datatype Entry<V> = Entry(id: int, name: string, x: V, y: V, z: V, visibility: V)

  /** The JSON object returned: `{"error": msg}` or `{"pose": [...]}`. */
  datatype Output<V> = Error(msg: string) | Pose(entries: seq<Entry<V>>)

  /** Both values `python_main` returns: the output object and the status text. */
  datatype Response<V> = Response(output: Output<V>, status: string)

  const InvalidInputMessage := "Invalid input: Expected a non-empty NumPy image array"
  const ConversionErrorPrefix := "OpenCV error: "

  const InvalidFrameStatus := "Invalid or empty frame received"
  const ConversionErrorStatus := "OpenCV processing error"
  const DetectedStatus := "Pose detected successfully"
  const NoPoseStatus := "No pose detected"

  /** The frame passes the adapter's first test: a NumPy array with at least one element. */
  predicate ValidFrame(frame: Frame)
  {
    frame.ImageArray? && frame.size != 0
  }

  /** The call gets past validation and conversion, so the estimator handle is used. */
  predicate ReachesEstimator(frame: Frame, conv: Conversion)
  {
    ValidFrame(frame) && conv.Converted?
  }

  /**
   * The name lookup cannot fail: whenever landmarks are mapped, there are at
   * most LandmarkCount of them (`POSE_LANDMARKS[idx]` raises KeyError beyond).
   */
  predicate WithinTable<V>(frame: Frame, conv: Conversion, detected: Option<seq<RawLandmark<V>>>)
  {
    ReachesEstimator(frame, conv) && detected.Some? ==> |detected.value| <= LandmarkCount
  }

  /** The record built for the landmark at position `idx`. */
  function EntryFor<V>(idx: int, lm: RawLandmark<V>): (e: Entry<V>)
    requires 0 <= idx < LandmarkCount
    ensures e.id == idx && NamedBy(idx, e.name)
    ensures RawLandmark(e.x, e.y, e.z, e.visibility) == lm
  {
    TableDomain();
    Entry(idx, PoseLandmarks[idx], lm.x, lm.y, lm.z, lm.visibility)
  }

  /** The output list built by appending one record per reported landmark, in order. */
  function Entries<V>(raw: seq<RawLandmark<V>>): (entries: seq<Entry<V>>)
    requires |raw| <= LandmarkCount
    ensures |entries| == |raw|
  {
    if raw == [] then []
    else Entries(raw[..|raw| - 1]) + [EntryFor(|raw| - 1, raw[|raw| - 1])]
  }

  /** Reads the coordinates back out of output records. */
  function Coordinates<V>(entries: seq<Entry<V>>): (raw: seq<RawLandmark<V>>)
  {
    seq(|entries|, i requires 0 <= i < |entries| =>
      RawLandmark(entries[i].x, entries[i].y, entries[i].z, entries[i].visibility))
  }

  /** What `python_main` returns for a frame and the library outcomes on it. */
  function Respond<V>(frame: Frame, conv: Conversion, detected: Option<seq<RawLandmark<V>>>): (r: Response<V>)
    requires WithinTable(frame, conv, detected)
    ensures r.status in {InvalidFrameStatus, ConversionErrorStatus, DetectedStatus, NoPoseStatus}
    ensures r.output.Error? <==> !ReachesEstimator(frame, conv)
  {
    if !ValidFrame(frame) then
      Response(Error(InvalidInputMessage), InvalidFrameStatus)
    else if conv.CvError? then
      Response(Error(ConversionErrorPrefix + conv.msg), ConversionErrorStatus)
    else match detected
      case Some(raw) => Response(Pose(Entries(raw)), DetectedStatus)
      case None => Response(Pose([]), NoPoseStatus)
  }

  /** Record i of the output has id i, the table's name for i, and landmark i's fields. */
  lemma {:induction false} EntriesAt<V>(raw: seq<RawLandmark<V>>, i: int)
    requires |raw| <= LandmarkCount
    requires 0 <= i < |raw|
    ensures Entries(raw)[i].id == i
    ensures NamedBy(i, Entries(raw)[i].name)
    ensures Entries(raw)[i].x == raw[i].x && Entries(raw)[i].y == raw[i].y
    ensures Entries(raw)[i].z == raw[i].z && Entries(raw)[i].visibility == raw[i].visibility
  {
    TableDomain();
    if i < |raw| - 1 {
      var front := raw[..|raw| - 1];
      EntriesAt(front, i);
      assert Entries(raw)[i] == Entries(front)[i];
    }
  }

  /** Copying is lossless: the coordinates read back from the output are the estimator's, in order. */
  lemma CoordinatesOfEntries<V>(raw: seq<RawLandmark<V>>)
    requires |raw| <= LandmarkCount
    ensures Coordinates(Entries(raw)) == raw
  {
    forall i | 0 <= i < |raw|
      ensures Coordinates(Entries(raw))[i] == raw[i]
    {
      EntriesAt(raw, i);
    }
  }

  /** No two records of one output share a name. */
  lemma EntryNamesDistinct<V>(raw: seq<RawLandmark<V>>, i: int, j: int)
    requires |raw| <= LandmarkCount
    requires 0 <= i < |raw| && 0 <= j < |raw| && i != j
    ensures Entries(raw)[i].name != Entries(raw)[j].name
  {
    EntriesAt(raw, i);
    EntriesAt(raw, j);
    TableInjective();
  }

  /**
   * An invalid or empty frame is rejected with the fixed message and status,
   * whatever the conversion and the estimator would have done: neither is consulted.
   */
  lemma InvalidFrameRejected<V>(frame: Frame, conv: Conversion, detected: Option<seq<RawLandmark<V>>>,
                                conv': Conversion, detected': Option<seq<RawLandmark<V>>>)
    requires !ValidFrame(frame)
    ensures Respond(frame, conv, detected) == Respond(frame, conv', detected')
    ensures Respond(frame, conv, detected) == Response(Error(InvalidInputMessage), InvalidFrameStatus)
  {
  }

  /**
   * A conversion failure on a valid frame yields the prefixed error message and
   * its own status, whatever landmarks might have been reported.
   */
  lemma ConversionFailureReported<V>(frame: Frame, msg: string, detected: Option<seq<RawLandmark<V>>>,
                                     detected': Option<seq<RawLandmark<V>>>)
    requires ValidFrame(frame)
    ensures Respond(frame, CvError(msg), detected) == Respond(frame, CvError(msg), detected')
    ensures Respond(frame, CvError(msg), detected) == Response(Error(ConversionErrorPrefix + msg), ConversionErrorStatus)
  {
  }

  /**
   * Reported landmarks become a pose list of the same length and order, record i
   * carrying id i, the table's name for i and landmark i's fields.
   */
  lemma PoseMapped<V>(frame: Frame, raw: seq<RawLandmark<V>>)
    requires ValidFrame(frame)
    requires |raw| <= LandmarkCount
    ensures var r := Respond(frame, Converted, Some(raw));
      && r.status == DetectedStatus
      && r.output.Pose?
      && |r.output.entries| == |raw|
      && (forall i :: 0 <= i < |raw| ==>
            && r.output.entries[i].id == i
            && NamedBy(i, r.output.entries[i].name)
            && r.output.entries[i].x == raw[i].x
            && r.output.entries[i].y == raw[i].y
            && r.output.entries[i].z == raw[i].z
            && r.output.entries[i].visibility == raw[i].visibility)
  {
    forall i | 0 <= i < |raw|
      ensures Entries(raw)[i].id == i && NamedBy(i, Entries(raw)[i].name)
      ensures Entries(raw)[i].x == raw[i].x && Entries(raw)[i].y == raw[i].y
      ensures Entries(raw)[i].z == raw[i].z && Entries(raw)[i].visibility == raw[i].visibility
    {
      EntriesAt(raw, i);
    }
  }

  /** When the estimator reports no landmarks, the pose list is empty. */
  lemma NoPoseReported<V>(frame: Frame)
    requires ValidFrame(frame)
    ensures Respond<V>(frame, Converted, None) == Response(Pose([]), NoPoseStatus)
  {
  }

  /**
   * Every response is an error or a pose list, never both, with one of the four
   * status texts; the status alone tells which branch was taken.
   */
  lemma ResponseClassified<V>(frame: Frame, conv: Conversion, detected: Option<seq<RawLandmark<V>>>)
    requires WithinTable(frame, conv, detected)
    ensures var r := Respond(frame, conv, detected);
      && (r.status == InvalidFrameStatus <==> !ValidFrame(frame))
      && (r.status == ConversionErrorStatus <==> ValidFrame(frame) && conv.CvError?)
      && (r.status == DetectedStatus <==> ReachesEstimator(frame, conv) && detected.Some?)
      && (r.status == NoPoseStatus <==> ReachesEstimator(frame, conv) && detected.None?)
      && (r.output.Error? <==> !ReachesEstimator(frame, conv))
  {
  }

  /** The pose-estimation instance a handle refers to; only whether it is closed is modelled. */
  class Estimator {
    var closed: bool

    /** `mp.solutions.pose.Pose(min_detection_confidence=0.5, min_tracking_confidence=0.5)`. */
    constructor ()
      ensures !closed
    {
      closed := false;
    }

    /** `pose.close()`: releases the instance. */
    method Close()
      modifies this
      ensures closed
    {
      closed := true;
    }
  }

  /** The adapter's process-wide state: the optional estimator handle `pose`. */
  class PoseActor {
    var pose: Option<Estimator>

    /** The objects the adapter holds: the current estimator, if any. */
    function Held(): set<object>
      reads this
    {
      if pose.Some? then {pose.value} else {}
    }

    /** A held estimator is always open. */
    ghost predicate Valid()
      reads this, Held()
    {
      pose.Some? ==> !pose.value.closed
    }

    /** Module load: `pose = None`. */
    constructor ()
      ensures pose == None && Valid()
    {
      pose := None;
    }

    /**
     * `python_init`: installs a fresh open estimator whatever the frame argument.
     * A previously held estimator is replaced without being closed.
     */
    method Init(frame: Frame)
      modifies this
      ensures pose.Some? && fresh(pose.value) && Valid()
    {
      var estimator := new Estimator();
      pose := Some(estimator);
    }

    /**
     * `python_main`: validates the frame, reports a conversion failure, and maps
     * the reported landmarks into records. It only reads the handle, which it
     * needs, open, once conversion has succeeded.
     */
    method Process<V>(frame: Frame, conv: Conversion, detected: Option<seq<RawLandmark<V>>>)
      returns (output: Output<V>, status: string)
      requires ReachesEstimator(frame, conv) ==> pose.Some? && !pose.value.closed
      requires WithinTable(frame, conv, detected)
      ensures Response(output, status) == Respond(frame, conv, detected)
    {
      if !ValidFrame(frame) {
        return Error(InvalidInputMessage), InvalidFrameStatus;
      }
      if conv.CvError? {
        return Error(ConversionErrorPrefix + conv.msg), ConversionErrorStatus;
      }
      if detected.Some? {
        var raw := detected.value;
        var landmarks := [];
        var idx := 0;
        while idx < |raw|
          invariant 0 <= idx <= |raw|
          invariant landmarks == Entries(raw[..idx])
        {
          assert raw[..idx + 1][..idx] == raw[..idx];
          landmarks := landmarks + [EntryFor(idx, raw[idx])];
          idx := idx + 1;
        }
        assert raw[..idx] == raw;
        return Pose(landmarks), DetectedStatus;
      } else {
        return Pose([]), NoPoseStatus;
      }
    }

    /**
     * `python_finalize`: closes a held estimator and clears the handle; with no
     * handle it changes nothing, so a second call is harmless.
     */
    method Finalize()
      modifies this, Held()
      ensures pose == None && Valid()
      ensures old(pose).Some? ==> old(pose).value.closed
      ensures old(pose).None? ==> unchanged(this)
    {
      if pose.Some? {
        pose.value.Close();
        pose := None;
      }
    }
  }
}
