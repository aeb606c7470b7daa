/**
 * Camera discovery in toll_gate.py: `detect_cameras(max_index=5)` probes
 * device indices 0 .. max_index-1 and keeps those that open. Whether a
 * device opens is outside the program, so it is the parameter `opens`.
 */
module Cameras {

  /** `detect_cameras`' default `max_index`. */
  const MAX_PROBED: nat := 5

  /** The indices in [0, maxIndex) that open, in ascending order. */
  method DetectCameras(maxIndex: nat, opens: nat -> bool) returns (cams: seq<nat>)
    ensures forall k :: 0 <= k < |cams| ==> cams[k] < maxIndex && opens(cams[k])
    ensures forall i :: 0 <= i < maxIndex && opens(i) ==> i in cams
    ensures forall j, k :: 0 <= j < k < |cams| ==> cams[j] < cams[k]
  {
    cams := [];
    var i := 0;
    while i < maxIndex
      invariant i <= maxIndex
      invariant forall k :: 0 <= k < |cams| ==> cams[k] < i && opens(cams[k])
      invariant forall x :: 0 <= x < i && opens(x) ==> x in cams
      invariant forall j, k :: 0 <= j < k < |cams| ==> cams[j] < cams[k]
    {
      if opens(i) {
        cams := cams + [i];
      }
      i := i + 1;
    }
  }
}
