/**
 * MotionRosStreamer's face tracker (MotionRosStreamer/FaceTracker.swift):
 * the choice of video format when tracking starts, and the mirroring of the
 * face anchor's pose into the pose of the user's actual face. The ARKit
 * session is not modelled: whether face tracking is supported, the supported
 * formats and the anchors of each update are inputs.
 */
module MrsFaceTracker {
  import opened Wrappers
  import opened Platform

  // ---------------------------------------------------------------------------
  // Video format selection

  /** `ARConfiguration.VideoFormat`: the image size and the frame rate. */
  datatype VideoFormat = VideoFormat(width: real, height: real, framesPerSecond: int)

  function Resolution(f: VideoFormat): real {
    f.width * f.height
  }

  /**
   * The comparator given to `max(by:)`: `a` ranks below `b` when it has
   * fewer pixels, or as many pixels at a higher frame rate.
   */
  predicate RanksBelow(a: VideoFormat, b: VideoFormat) {
    if Resolution(a) != Resolution(b) then Resolution(a) < Resolution(b)
    else a.framesPerSecond > b.framesPerSecond
  }

  /** The most pixels among the formats, and among those, the lowest frame rate. */
  predicate HighestResolutionLowestRate(formats: seq<VideoFormat>, f: VideoFormat) {
    && f in formats
    && (forall g | g in formats :: Resolution(g) <= Resolution(f))
    && (forall g | g in formats && Resolution(g) == Resolution(f) :: f.framesPerSecond <= g.framesPerSecond)
  }

  /**
   * `supportedVideoFormats.max(by:)`: the formats are scanned in order and
   * the candidate is replaced only by one that ranks strictly above it, so
   * among equally ranked formats the first is kept. `None` for an empty list.
   */
  method SelectVideoFormat(formats: seq<VideoFormat>) returns (r: Option<VideoFormat>)
    ensures r.None? <==> |formats| == 0
    ensures r.Some? ==> HighestResolutionLowestRate(formats, r.value)
    ensures r.Some? ==> exists i :: 0 <= i < |formats| && formats[i] == r.value &&
                                   (forall j :: 0 <= j < i ==> RanksBelow(formats[j], r.value))
  {
    if |formats| == 0 {
      return None;
    }
    var best := formats[0];
    ghost var at := 0;
    var k := 1;
    while k < |formats|
      invariant 1 <= k <= |formats|
      invariant 0 <= at < k && formats[at] == best
      invariant forall j :: 0 <= j < k ==> !RanksBelow(best, formats[j])
      invariant forall j :: 0 <= j < at ==> RanksBelow(formats[j], best)
    {
      if RanksBelow(best, formats[k]) {
        best := formats[k];
        at := k;
      }
      k := k + 1;
    }
    forall g | g in formats
      ensures Resolution(g) <= Resolution(best)
      ensures Resolution(g) == Resolution(best) ==> best.framesPerSecond <= g.framesPerSecond
    {
      var j :| 0 <= j < |formats| && formats[j] == g;
      assert !RanksBelow(best, formats[j]);
    }
    r := Some(best);
  }

  // ---------------------------------------------------------------------------
  // Tracker state

  /** `FaceTracker.FatalError`. */
  datatype FatalError = NotSupported

  /** `FaceTracker.State`. */
  datatype State = Normal | Fatal(error: FatalError)

  /** The configuration the session runs: world alignment is always `.camera`, so only the format varies. */
  datatype Configuration = Configuration(videoFormat: VideoFormat)

  /** The published state and transform, and the configuration of the running session, if any. */
  datatype Tracker = Tracker(state: State, transform: Option<Matrix4>, session: Option<Configuration>)

  /**
   * `init()`. Without face tracking the tracker is `fatalError(notSupported)`
   * and runs nothing. With it, the session runs the selected format; the
   * force-unwrap of that selection traps on an empty list, which is `None`.
   */
  method Init(isSupported: bool, formats: seq<VideoFormat>) returns (r: Option<Tracker>)
    ensures !isSupported ==> r == Some(Tracker(Fatal(NotSupported), None, None))
    ensures isSupported ==> (r.Some? <==> |formats| > 0)
    ensures isSupported && r.Some? ==>
      && r.value.state == Normal
      && r.value.transform == None
      && r.value.session.Some?
      && HighestResolutionLowestRate(formats, r.value.session.value.videoFormat)
  {
    if !isSupported {
      return Some(Tracker(Fatal(NotSupported), None, None));
    }
    var format := SelectVideoFormat(formats);
    if format.None? {
      return None;
    }
    r := Some(Tracker(Normal, None, Some(Configuration(format.value))));
  }

  // ---------------------------------------------------------------------------
  // Mirroring

  /** The entries `(column, row)` whose sign the mirroring flips. */
  predicate Flipped(column: int, row: int) {
    (column == 0 && row == 0) || (column == 0 && row == 1) || (column == 1 && row == 2) ||
    (column == 2 && row == 2) || (column == 3 && row == 2)
  }

  /** `m[column, row] = v`. */
  function SetEntry(m: Matrix4, column: nat, row: nat, v: real): (r: Matrix4)
    requires column < 4 && row < 4
    ensures r[column][row] == v
    ensures forall c, w | 0 <= c < 4 && 0 <= w < 4 && (c != column || w != row) :: r[c][w] == m[c][w]
  {
    m[column := m[column][row := v]]
  }

  /**
   * The five negations of `session(_:didUpdate:)`, in order: the pose of
   * the face behind the screen becomes the pose of its mirror image in
   * front of it.
   */
  function Mirror(m: Matrix4): (r: Matrix4)
    ensures forall c, w | 0 <= c < 4 && 0 <= w < 4 :: r[c][w] == if Flipped(c, w) then -m[c][w] else m[c][w]
  {
    var m1 := SetEntry(m, 0, 0, -m[0][0]);
    var m2 := SetEntry(m1, 0, 1, -m1[0][1]);
    var m3 := SetEntry(m2, 1, 2, -m2[1][2]);
    var m4 := SetEntry(m3, 2, 2, -m3[2][2]);
    SetEntry(m4, 3, 2, -m4[3][2])
  }

  /** Mirroring twice gives back the original pose. */
  lemma MirrorTwice(m: Matrix4)
    ensures Mirror(Mirror(m)) == m
  {
    var r := Mirror(Mirror(m));
    forall c | 0 <= c < 4
      ensures r[c] == m[c]
    {
      assert forall w | 0 <= w < 4 :: r[c][w] == m[c][w];
    }
  }

  /** Mirroring changes only the flipped entries; an entry that is zero there is left as it was. */
  lemma MirrorFixesZeroEntries(m: Matrix4)
    requires forall c, w | 0 <= c < 4 && 0 <= w < 4 && Flipped(c, w) :: m[c][w] == 0.0
    ensures Mirror(m) == m
  {
    var r := Mirror(m);
    forall c | 0 <= c < 4
      ensures r[c] == m[c]
    {
      assert forall w | 0 <= w < 4 :: r[c][w] == m[c][w];
    }
  }

  // ---------------------------------------------------------------------------
  // Anchor updates

  /** An `ARAnchor`: a face anchor with its pose, or another kind, whose pose is not read. */
  datatype Anchor = FaceAnchor(transform: Matrix4) | OtherAnchor

  /** The position of the first face anchor, if any. */
  function FirstFaceAnchor(anchors: seq<Anchor>): (r: Option<nat>)
    ensures r.None? <==> forall j :: 0 <= j < |anchors| ==> !anchors[j].FaceAnchor?
    ensures r.Some? ==> r.value < |anchors| && anchors[r.value].FaceAnchor?
    ensures r.Some? ==> forall j :: 0 <= j < r.value ==> !anchors[j].FaceAnchor?
    decreases |anchors|
  {
    if |anchors| == 0 then None
    else if anchors[0].FaceAnchor? then Some(0)
    else
      var rest := FirstFaceAnchor(anchors[1..]);
      if rest.Some? then Some(rest.value + 1) else None
  }

  /**
   * `session(_:didUpdate:)`: the first face anchor's pose, mirrored, becomes
   * the published transform; an update without a face anchor changes nothing.
   */
  function DidUpdate(t: Tracker, anchors: seq<Anchor>): (r: Tracker)
    ensures FirstFaceAnchor(anchors).None? ==> r == t
    ensures FirstFaceAnchor(anchors).Some? ==>
      r == t.(transform := Some(Mirror(anchors[FirstFaceAnchor(anchors).value].transform)))
  {
    var i := FirstFaceAnchor(anchors);
    if i.None? then t else t.(transform := Some(Mirror(anchors[i.value].transform)))
  }

  /** Only the first face anchor counts: a later one never changes the result. */
  lemma LaterFacesIgnored(t: Tracker, m: Matrix4, others: seq<Anchor>, rest: seq<Anchor>)
    requires forall j :: 0 <= j < |others| ==> !others[j].FaceAnchor?
    ensures DidUpdate(t, others + [FaceAnchor(m)] + rest).transform == Some(Mirror(m))
    ensures DidUpdate(t, others + [FaceAnchor(m)] + rest).state == t.state
  {
    var all := others + [FaceAnchor(m)] + rest;
    assert all[|others|] == FaceAnchor(m);
    var i := FirstFaceAnchor(all);
    assert i == Some(|others|) by {
      assert forall j :: 0 <= j < |others| ==> all[j] == others[j];
    }
  }
}
