/**
 * The eight joints both the browser scorer and the server evaluator measure,
 * each bound to a triple of MediaPipe landmark indices with the vertex in the
 * middle. Both sources list the same triples in the same order.
 */
module Skeleton {

  /** Named as the browser names them (`leftElbow`, ...). */
  datatype Joint =
    | LeftElbow | RightElbow
    | LeftShoulder | RightShoulder
    | LeftKnee | RightKnee
    | LeftHip | RightHip

  /** Landmark indices: the vertex is the landmark at which the angle is taken. */
  datatype Triple = Triple(first: nat, vertex: nat, last: nat)

  /** A MediaPipe pose has this many landmarks. */
  const PoseSize: nat := 33

  /** The joints in the order both sources enumerate them. */
  const AllJoints: seq<Joint> :=
    [LeftElbow, RightElbow, LeftShoulder, RightShoulder, LeftKnee, RightKnee, LeftHip, RightHip]

  function Landmarks(j: Joint): (t: Triple)
    ensures t.first < PoseSize && t.vertex < PoseSize && t.last < PoseSize
    ensures t.first != t.vertex && t.vertex != t.last && t.first != t.last
  {
    match j
    case LeftElbow => Triple(11, 13, 15)
    case RightElbow => Triple(12, 14, 16)
    case LeftShoulder => Triple(13, 11, 23)
    case RightShoulder => Triple(14, 12, 24)
    case LeftKnee => Triple(23, 25, 27)
    case RightKnee => Triple(24, 26, 28)
    case LeftHip => Triple(11, 23, 25)
    case RightHip => Triple(12, 24, 26)
  }

  /**
   * The key the server's dictionaries use for the joint. The server labels the
   * 11-13-15 triple "right elbow" where the browser says "left elbow"; only the
   * label differs, the triple is the same. The keys starting "sağ_" (right)
   * are exactly the triples with an odd-numbered vertex.
   */
  function ServerKey(j: Joint): (key: string)
    ensures |key| > 4
    ensures key[..4] == if Landmarks(j).vertex % 2 == 1 then "sağ_" else "sol_"
  {
    match j
    case LeftElbow => "sağ_dirsek"
    case RightElbow => "sol_dirsek"
    case LeftShoulder => "sağ_omuz"
    case RightShoulder => "sol_omuz"
    case LeftKnee => "sağ_diz"
    case RightKnee => "sol_diz"
    case LeftHip => "sağ_kalça"
    case RightHip => "sol_kalça"
  }

  /** The eight keys are distinct, so the server's dictionaries hold one entry per joint. */
  lemma ServerKeyInjective(j1: Joint, j2: Joint)
    ensures ServerKey(j1) == ServerKey(j2) ==> j1 == j2
  {
  }
}
