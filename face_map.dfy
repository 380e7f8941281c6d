/**
 * Face layout helpers (src/utils/faceMap.ts): the reference coordinates of
 * each facial zone, and the colour shown for an analysis level.
 */
module FaceMap {
  import opened SkinTypes

  datatype Position = Position(top: int, left: int)

  /** `FACE_REGIONS`: where each zone sits on the face outline. */
  function FacePosition(r: Region): Position
  {
    match r
    case Forehead => Position(40, 90)
    case LeftEye => Position(85, 70)
    case RightEye => Position(85, 110)
    case LeftCheek => Position(140, 50)
    case RightCheek => Position(140, 130)
    case Lip => Position(190, 90)
  }

  /** The vertical axis of the layout. */
  const MidLine: int := 90

  /**
   * The layout is symmetric: a zone and its mirror share their height and lie
   * at the same distance either side of the midline, on which forehead and lip sit.
   */
  lemma FacePositionsMirrored(r: Region)
    ensures FacePosition(Mirror(r)).top == FacePosition(r).top
    ensures FacePosition(Mirror(r)).left - MidLine == MidLine - FacePosition(r).left
    ensures Mirror(r) == r <==> FacePosition(r).left == MidLine
  {
  }

  /** The colour for any level string the switch does not know. */
  const Fallback: string := "rgba(200,200,200,0.4)"

  /** `levelColor(level)`: a switch on the level's wire spelling. */
  function LevelColor(level: string): (c: string)
    ensures c != Fallback <==> level in {"BAD", "LOW", "NORMAL", "GOOD"}
  {
    if level == "BAD" then "rgba(230, 126, 34, 0.7)"
    else if level == "LOW" then "rgba(241, 196, 15, 0.7)"
    else if level == "NORMAL" then "rgba(46, 204, 113, 0.7)"
    else if level == "GOOD" then "rgba(39, 174, 96, 0.7)"
    else Fallback
  }

  /** How a `ConditionLevel` is spelled on the wire. */
  function LevelName(l: ConditionLevel): string
  {
    match l
    case Good => "GOOD"
    case Normal => "NORMAL"
    case Low => "LOW"
    case Bad => "BAD"
  }

  /** The four levels get four different colours, none of them the fallback. */
  lemma LevelColorsDistinct(a: ConditionLevel, b: ConditionLevel)
    ensures LevelColor(LevelName(a)) != Fallback
    ensures a != b ==> LevelColor(LevelName(a)) != LevelColor(LevelName(b))
  {
  }
}
