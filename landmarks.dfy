/**
 * The fixed id-to-name table of the 33 pose landmarks
 * (`POSE_LANDMARKS` in python_modules/mediapipe_pose-dectection.py).
 */
module Landmarks {

  /** Number of landmarks the table names: ids 0 through 32. */
  const LandmarkCount: int := 33

  const PoseLandmarks: map<int, string> := map[
    0 := "Nose", 1 := "Left Eye (Inner)", 2 := "Left Eye", 3 := "Left Eye (Outer)",
    4 := "Right Eye (Inner)", 5 := "Right Eye", 6 := "Right Eye (Outer)",
    7 := "Left Ear", 8 := "Right Ear", 9 := "Mouth (Left)", 10 := "Mouth (Right)",
    11 := "Left Shoulder", 12 := "Right Shoulder", 13 := "Left Elbow", 14 := "Right Elbow",
    15 := "Left Wrist", 16 := "Right Wrist", 17 := "Left Pinky", 18 := "Right Pinky",
    19 := "Left Index Finger", 20 := "Right Index Finger", 21 := "Left Thumb", 22 := "Right Thumb",
    23 := "Left Hip", 24 := "Right Hip", 25 := "Left Knee", 26 := "Right Knee",
    27 := "Left Ankle", 28 := "Right Ankle", 29 := "Left Heel", 30 := "Right Heel",
    31 := "Left Foot Index", 32 := "Right Foot Index"
  ]

  /** `name` is what the table gives for `id`; false when the lookup would raise KeyError. */
  predicate NamedBy(id: int, name: string)
  {
    id in PoseLandmarks && PoseLandmarks[id] == name
  }

  /** The table is defined exactly on the ids 0 .. LandmarkCount - 1. */
  lemma TableDomain()
    ensures forall id :: id in PoseLandmarks <==> 0 <= id < LandmarkCount
  {
  }

  /** Distinct ids carry distinct names. */
  lemma TableInjective()
    ensures forall i, j :: i in PoseLandmarks && j in PoseLandmarks && i != j ==> PoseLandmarks[i] != PoseLandmarks[j]
  {
  }
}
