/**
  The gesture classifier: from the 21 hand landmarks of one tracked frame and
  the handedness label, decide which fingers are extended, and map that
  five-finger vector to ROCK, PAPER, SCISSORS or UNKNOWN.

  Coordinates are normalized image coordinates (x grows to the right, y grows
  downwards), modelled as exact reals.
*/
module Gestures {
  import opened Wrappers

  datatype Gesture = Rock | Paper | Scissors | Unknown

  /** A legitimate move; UNKNOWN is only the "no confident classification" sentinel. */
  type Move = g: Gesture | g != Unknown witness Rock

  datatype Point = Point(x: real, y: real, z: real)

  /** A tracked hand has this many landmarks; the classifier reads indices up to 20. */
  const LANDMARK_COUNT := 21
  const THUMB_IP := 3
  const THUMB_TIP := 4

  const THUMB_EXTENSION_TOLERANCE: real := 0.12
  const FINGER_EXTENSION_TOLERANCE: real := 0.02

  datatype Finger = Thumb | Index | Middle | Ring | Pinky

  /** The extension state of each of the five fingers. */
  datatype FingerStates = FingerStates(thumb: bool, index: bool, middle: bool, ring: bool, pinky: bool)
  {
    function Get(f: Finger): bool
    {
      match f
      case Thumb => thumb
      case Index => index
      case Middle => middle
      case Ring => ring
      case Pinky => pinky
    }

    /** The same states with finger `f` set to `extended`. */
    function Set(f: Finger, extended: bool): (r: FingerStates)
      ensures r.Get(f) == extended
      ensures forall g :: g != f ==> r.Get(g) == Get(g)
    {
      match f
      case Thumb => this.(thumb := extended)
      case Index => this.(index := extended)
      case Middle => this.(middle := extended)
      case Ring => this.(ring := extended)
      case Pinky => this.(pinky := extended)
    }
  }

  /** Which landmark is the tip and which the pip joint of a non-thumb finger. */
  datatype Descriptor = Descriptor(name: Finger, tip: nat, pip: nat)

  const FINGER_DESCRIPTORS: seq<Descriptor> := [
    Descriptor(Index, 8, 6),
    Descriptor(Middle, 12, 10),
    Descriptor(Ring, 16, 14),
    Descriptor(Pinky, 20, 18)
  ]

  function LowerAscii(c: char): char
  {
    if 'A' <= c <= 'Z' then (c as int + ('a' as int - 'A' as int)) as char else c
  }

  /** `s.toLowerCase()`, restricted to the ASCII letters. */
  function ToLower(s: string): (r: string)
    ensures |r| == |s|
    ensures forall i :: 0 <= i < |s| ==> r[i] == LowerAscii(s[i])
  {
    if s == [] then [] else [LowerAscii(s[0])] + ToLower(s[1..])
  }

  /** The handedness test: the label equals "right" ignoring case. */
  predicate IsRightHand(handedness: string)
    ensures IsRightHand(handedness) ==> |handedness| == 5
  {
    ToLower(handedness) == "right"
  }

  /** A label names the right hand exactly when it spells "right" in any mix of upper and lower case. */
  lemma {:induction false} RightHandLabels(handedness: string)
    ensures IsRightHand(handedness) <==>
      |handedness| == 5 && forall i :: 0 <= i < 5 ==> handedness[i] == "right"[i] || handedness[i] == "RIGHT"[i]
  {
    if |handedness| == 5 {
      var lowered := ToLower(handedness);
      if IsRightHand(handedness) {
        forall i | 0 <= i < 5
          ensures handedness[i] == "right"[i] || handedness[i] == "RIGHT"[i]
        {
          assert lowered[i] == LowerAscii(handedness[i]) == "right"[i];
        }
      } else {
        var k :| 0 <= k < 5 && lowered[k] != "right"[k];
        assert LowerAscii(handedness[k]) != "right"[k];
      }
    }
  }

  /** The thumb test, mirrored by handedness. */
  predicate ThumbExtended(tip: Point, ip: Point, isRightHand: bool)
    ensures ThumbExtended(tip, ip, isRightHand) ==> if isRightHand then tip.x < ip.x else ip.x < tip.x
  {
    if isRightHand then tip.x < ip.x - THUMB_EXTENSION_TOLERANCE
    else tip.x > ip.x + THUMB_EXTENSION_TOLERANCE
  }

  /** A non-thumb finger is extended when its tip lies clearly above its pip joint. */
  predicate FingerExtended(tip: Point, pip: Point)
    ensures FingerExtended(tip, pip) ==> tip.y < pip.y
  {
    tip.y < pip.y - FINGER_EXTENSION_TOLERANCE
  }

  /** The finger states of a frame, finger by finger, with the anatomical landmark ids written out. */
  function FingerStatesOf(landmarks: seq<Point>, isRightHand: bool): (r: FingerStates)
    requires |landmarks| >= LANDMARK_COUNT
    ensures r.thumb == ThumbExtended(landmarks[THUMB_TIP], landmarks[THUMB_IP], isRightHand)
    ensures forall k :: 0 <= k < |FINGER_DESCRIPTORS| ==>
      r.Get(FINGER_DESCRIPTORS[k].name) == FingerExtended(landmarks[FINGER_DESCRIPTORS[k].tip], landmarks[FINGER_DESCRIPTORS[k].pip])
  {
    FingerStates(
      ThumbExtended(landmarks[4], landmarks[3], isRightHand),
      FingerExtended(landmarks[8], landmarks[6]),
      FingerExtended(landmarks[12], landmarks[10]),
      FingerExtended(landmarks[16], landmarks[14]),
      FingerExtended(landmarks[20], landmarks[18]))
  }

  /**
    Computes the finger states of one frame. The thumb is decided first; the
    four other fingers start retracted and are filled in one descriptor at a
    time. A frame with fewer than 21 landmarks has no state (in script.js,
    reading a missing landmark throws).
  */
  method ComputeFingerStates(landmarks: seq<Point>, handedness: string) returns (r: Option<FingerStates>)
    ensures r.Some? <==> |landmarks| >= LANDMARK_COUNT
    ensures r.Some? ==> r.value == FingerStatesOf(landmarks, IsRightHand(handedness))
  {
    if |landmarks| < LANDMARK_COUNT {
      return None;
    }
    var thumbTip := landmarks[THUMB_TIP];
    var thumbIP := landmarks[THUMB_IP];
    var isRightHand := IsRightHand(handedness);
    var thumbExtended :=
      if isRightHand then thumbTip.x < thumbIP.x - THUMB_EXTENSION_TOLERANCE
      else thumbTip.x > thumbIP.x + THUMB_EXTENSION_TOLERANCE;
    var states := FingerStates(thumbExtended, false, false, false, false);
    var i := 0;
    while i < |FINGER_DESCRIPTORS|
      invariant 0 <= i <= |FINGER_DESCRIPTORS|
      invariant states.thumb == thumbExtended
      invariant forall k :: 0 <= k < |FINGER_DESCRIPTORS| ==>
        var d := FINGER_DESCRIPTORS[k];
        states.Get(d.name) == (k < i && FingerExtended(landmarks[d.tip], landmarks[d.pip]))
    {
      var d := FINGER_DESCRIPTORS[i];
      var tipLandmark := landmarks[d.tip];
      var pipLandmark := landmarks[d.pip];
      var extended := tipLandmark.y < pipLandmark.y - FINGER_EXTENSION_TOLERANCE;
      states := states.Set(d.name, extended);
      i := i + 1;
    }
    assert states.index == FingerExtended(landmarks[8], landmarks[6]) by { assert FINGER_DESCRIPTORS[0].name == Index; }
    assert states.middle == FingerExtended(landmarks[12], landmarks[10]) by { assert FINGER_DESCRIPTORS[1].name == Middle; }
    assert states.ring == FingerExtended(landmarks[16], landmarks[14]) by { assert FINGER_DESCRIPTORS[2].name == Ring; }
    assert states.pinky == FingerExtended(landmarks[20], landmarks[18]) by { assert FINGER_DESCRIPTORS[3].name == Pinky; }
    return Some(states);
  }

  /** The one finger vector that shows each move. */
  function Pattern(m: Move): (fs: FingerStates)
    ensures fs.thumb == fs.ring == fs.pinky == (m == Paper)
    ensures fs.index == fs.middle == (m != Rock)
  {
    match m
    case Paper => FingerStates(true, true, true, true, true)
    case Rock => FingerStates(false, false, false, false, false)
    case Scissors => FingerStates(false, true, true, false, false)
  }

  /** Priority pattern match over the five-finger vector; anything else is UNKNOWN. */
  function Classify(fingers: FingerStates): (g: Gesture)
    ensures g != Unknown ==> fingers == Pattern(g)
  {
    var FingerStates(thumb, index, middle, ring, pinky) := fingers;
    var allExtended := thumb && index && middle && ring && pinky;
    var noneExtended := !thumb && !index && !middle && !ring && !pinky;
    var scissors := !thumb && index && middle && !ring && !pinky;
    if allExtended then Paper
    else if noneExtended then Rock
    else if scissors then Scissors
    else Unknown
  }

  /** Each move's pattern is classified as that move. */
  lemma ClassifyPattern(m: Move)
    ensures Classify(Pattern(m)) == m
  {
  }

  /** PAPER exactly when all five are extended, ROCK exactly when none is, SCISSORS exactly for index and middle alone. */
  lemma ClassifyExactly(fingers: FingerStates)
    ensures Classify(fingers) == Paper <==>
      fingers.thumb && fingers.index && fingers.middle && fingers.ring && fingers.pinky
    ensures Classify(fingers) == Rock <==>
      !fingers.thumb && !fingers.index && !fingers.middle && !fingers.ring && !fingers.pinky
    ensures Classify(fingers) == Scissors <==>
      !fingers.thumb && fingers.index && fingers.middle && !fingers.ring && !fingers.pinky
  {
  }

  /** The vectors that are classified as a move: exactly three of them. */
  function KnownVectors(): (s: set<FingerStates>)
    ensures |s| == 3
  {
    var paper, rock, scissors := Pattern(Paper), Pattern(Rock), Pattern(Scissors);
    assert rock !in {paper} && scissors !in {paper, rock};
    {paper, rock, scissors}
  }

  /** Every combination of five finger states. */
  function AllVectors(): set<FingerStates>
  {
    set t: bool, i: bool, m: bool, r: bool, p: bool :: FingerStates(t, i, m, r, p)
  }

  lemma {:induction false} OnlyThreeVectorsAreKnown()
    ensures (set fs | fs in AllVectors() && Classify(fs) != Unknown) == KnownVectors()
    ensures forall fs :: Classify(fs) != Unknown <==> fs in KnownVectors()
  {
    forall fs | fs in KnownVectors()
      ensures fs in AllVectors() && Classify(fs) != Unknown
    {
      var FingerStates(t, i, m, r, p) := fs;
      assert FingerStates(t, i, m, r, p) in AllVectors();
    }
  }

  /** Reflects a point across the vertical centre line of the image. */
  function MirrorX(p: Point): Point
  {
    Point(1.0 - p.x, p.y, p.z)
  }

  function MirrorFrame(landmarks: seq<Point>): (r: seq<Point>)
    ensures |r| == |landmarks|
    ensures forall i :: 0 <= i < |landmarks| ==> r[i] == MirrorX(landmarks[i])
  {
    seq(|landmarks|, i requires 0 <= i < |landmarks| => MirrorX(landmarks[i]))
  }

  /** The left-hand test on a mirrored hand agrees with the right-hand test on the original. */
  lemma ThumbTestMirrored(tip: Point, ip: Point)
    ensures ThumbExtended(MirrorX(tip), MirrorX(ip), false) == ThumbExtended(tip, ip, true)
    ensures ThumbExtended(MirrorX(tip), MirrorX(ip), true) == ThumbExtended(tip, ip, false)
  {
  }

  /** For the same geometry the left-hand and right-hand thumb tests never both hold. */
  lemma ThumbTestsExclusive(tip: Point, ip: Point)
    ensures !(ThumbExtended(tip, ip, true) && ThumbExtended(tip, ip, false))
  {
  }

  /** A mirrored left hand shows the same fingers as the right hand it mirrors. */
  lemma MirroredHandSameStates(landmarks: seq<Point>)
    requires |landmarks| >= LANDMARK_COUNT
    ensures FingerStatesOf(MirrorFrame(landmarks), false) == FingerStatesOf(landmarks, true)
  {
    ThumbTestMirrored(landmarks[4], landmarks[3]);
  }

  /** Each descriptor's finger state is its own tip/pip comparison. */
  lemma DescriptorsMatchStates(landmarks: seq<Point>, isRightHand: bool, d: Descriptor)
    requires |landmarks| >= LANDMARK_COUNT
    requires d in FINGER_DESCRIPTORS
    ensures d.tip < LANDMARK_COUNT && d.pip < LANDMARK_COUNT
    ensures FingerStatesOf(landmarks, isRightHand).Get(d.name)
      == FingerExtended(landmarks[d.tip], landmarks[d.pip])
  {
  }

  /** A non-thumb finger's state depends on its own tip and pip landmarks only. */
  lemma FingerDependsOnOwnJoints(a: seq<Point>, b: seq<Point>, isRightHand: bool, d: Descriptor)
    requires |a| >= LANDMARK_COUNT && |b| >= LANDMARK_COUNT
    requires d in FINGER_DESCRIPTORS
    requires d.tip < |a| && d.pip < |a| && d.tip < |b| && d.pip < |b|
    requires a[d.tip] == b[d.tip] && a[d.pip] == b[d.pip]
    ensures FingerStatesOf(a, isRightHand).Get(d.name) == FingerStatesOf(b, isRightHand).Get(d.name)
  {
    DescriptorsMatchStates(a, isRightHand, d);
    DescriptorsMatchStates(b, isRightHand, d);
  }

  /** The thumb's state depends on landmarks 3 and 4 and the handedness only. */
  lemma ThumbDependsOnOwnJoints(a: seq<Point>, b: seq<Point>, isRightHand: bool)
    requires |a| >= LANDMARK_COUNT && |b| >= LANDMARK_COUNT
    requires a[THUMB_TIP] == b[THUMB_TIP] && a[THUMB_IP] == b[THUMB_IP]
    ensures FingerStatesOf(a, isRightHand).thumb == FingerStatesOf(b, isRightHand).thumb
  {
  }

  /** An upright right hand, every joint at mid-height, showing exactly the given finger states. */
  function UprightRightHand(fingers: FingerStates): (landmarks: seq<Point>)
    ensures |landmarks| == LANDMARK_COUNT
  {
    seq(LANDMARK_COUNT, i requires 0 <= i < LANDMARK_COUNT =>
      if i == THUMB_TIP && fingers.thumb then Point(0.3, 0.5, 0.0)
      else if (i == 8 && fingers.index) || (i == 12 && fingers.middle)
           || (i == 16 && fingers.ring) || (i == 20 && fingers.pinky)
      then Point(0.5, 0.3, 0.0)
      else Point(0.5, 0.5, 0.0))
  }

  /** Every finger vector is shown by some hand geometry. */
  lemma EveryVectorIsRealisable(fingers: FingerStates)
    ensures FingerStatesOf(UprightRightHand(fingers), true) == fingers
  {
  }
}
