/** The transition a gallery tick starts (`runAnimation`): a gsap
    timeline of seven legs, written here as data. A leg animates one
    parameter to an end value over [offset, offset + duration]; the eased
    interpolation between the two ends is outside this model. */
module Timeline {
  import Scene
  import Curtain
  import ChannelSplit

  /** The parameters a transition animates. */
  datatype Param = CameraX | CameraZ | CurtainProgress | RgbaProgress

  /** The gsap easing curve a leg names. */
  datatype Ease = Power4InOut | Power3InOut

  /** Where `tl.to` places a leg: an explicit time, or (no position
      argument) the current end of the timeline. */
  datatype Position = AtEnd | At(time: real)

  /** One `tl.to(...)` call: target, start offset, duration, end value, ease. */
  datatype Leg = Leg(target: Param, offset: real, duration: real, endValue: real, ease: Ease)
  {
    function End(): real { offset + duration }
  }

  /** The camera depth set at construction, to which each transition returns. */
  const RestingZ: real := 900.0

  /** The camera depth a transition dips to half-way. */
  const NearZ: real := 700.0

  /** The length of a timeline: the latest end of its legs (0 when empty). */
  function Span(tl: seq<Leg>): (d: real)
    ensures 0.0 <= d
    ensures forall k :: 0 <= k < |tl| ==> tl[k].End() <= d
    ensures d == 0.0 || exists k :: 0 <= k < |tl| && tl[k].End() == d
    decreases |tl|
  {
    if tl == [] then 0.0
    else
      var d0 := Span(tl[..|tl| - 1]);
      var e := tl[|tl| - 1].End();
      if e > d0 then e else d0
  }

  /** `tl.to(target, { value, duration, ease }, position)`: the timeline
      with one more leg at its end, starting at `position` or, without
      one, where the timeline currently ends. */
  function To(tl: seq<Leg>, target: Param, value: real, duration: real, ease: Ease,
              position: Position): (r: seq<Leg>)
    ensures |r| == |tl| + 1 && r[..|tl|] == tl
    ensures r[|tl|].target == target && r[|tl|].endValue == value
    ensures r[|tl|].duration == duration && r[|tl|].ease == ease
    ensures position.AtEnd? ==> r[|tl|].offset == Span(tl)
    ensures position.At? ==> r[|tl|].offset == position.time
  {
    var offset := match position
      case AtEnd => Span(tl)
      case At(t) => t;
    tl + [Leg(target, offset, duration, value, ease)]
  }

  /** The timeline `runAnimation` builds for gallery index `imageIndex`. */
  function Schedule(imageIndex: int): seq<Leg>
  {
    var tl: seq<Leg> := [];
    // camera position
    var tl := To(tl, CameraX, Scene.PanelSpacing * imageIndex as real, 1.5, Power4InOut, AtEnd);
    var tl := To(tl, CameraZ, NearZ, 1.0, Power4InOut, At(0.0));
    var tl := To(tl, CameraZ, RestingZ, 1.0, Power4InOut, At(1.0));
    // post processing
    var tl := To(tl, CurtainProgress, 1.0, 1.0, Power3InOut, At(0.0));
    var tl := To(tl, CurtainProgress, 0.0, 1.0, Power3InOut, At(1.0));
    var tl := To(tl, RgbaProgress, 1.0, 1.0, Power3InOut, At(0.0));
    var tl := To(tl, RgbaProgress, 0.0, 1.0, Power3InOut, At(1.0));
    tl
  }

  /** Leg `a` writes its end value no earlier than leg `b` in the final
      render: it finishes later, or finishes together and starts no
      earlier. */
  predicate WritesAfter(a: Leg, b: Leg)
  {
    b.End() < a.End() || (b.End() == a.End() && b.offset <= a.offset)
  }

  /** The index of the leg on `p` whose end value remains once the whole
      timeline has completed. A leg that has completed is not rendered
      again, so the leg that finishes last writes last; among legs that
      finish together, children are rendered in order of start time, so
      the one with the latest offset wins, the later one in the timeline
      on a tie (`WritesAfter`). -1 when no leg animates `p`. */
  function LastLeg(tl: seq<Leg>, p: Param): (k: int)
    ensures -1 <= k < |tl|
    ensures k == -1 <==> forall j :: 0 <= j < |tl| ==> tl[j].target != p
    ensures 0 <= k ==> tl[k].target == p
    ensures 0 <= k ==> forall j :: 0 <= j < |tl| && tl[j].target == p ==> WritesAfter(tl[k], tl[j])
    ensures 0 <= k ==> forall j :: k < j < |tl| && tl[j].target == p ==> !WritesAfter(tl[j], tl[k])
    decreases |tl|
  {
    if tl == [] then -1
    else
      var k0 := LastLeg(tl[..|tl| - 1], p);
      var last := tl[|tl| - 1];
      if last.target == p && (k0 == -1 || WritesAfter(last, tl[k0])) then |tl| - 1 else k0
  }

  /** When the legs on `p` run one after another, the leg whose value
      remains is simply the last one on `p` in the timeline. */
  lemma SequentialLastLeg(tl: seq<Leg>, p: Param)
    requires forall j :: 0 <= j < |tl| && tl[j].target == p ==> 0.0 <= tl[j].duration
    requires forall a, b :: 0 <= a < b < |tl| && tl[a].target == p && tl[b].target == p ==>
      tl[a].End() <= tl[b].offset
    ensures 0 <= LastLeg(tl, p) ==> forall j :: LastLeg(tl, p) < j < |tl| ==> tl[j].target != p
  {
  }

  /** The value parameter `p` holds once the timeline has completed,
      starting from `initial`. */
  function FinalValue(tl: seq<Leg>, p: Param, initial: real): (v: real)
    ensures (forall j :: 0 <= j < |tl| ==> tl[j].target != p) ==> v == initial
  {
    var k := LastLeg(tl, p);
    if k < 0 then initial else tl[k].endValue
  }

  /** Two overlapping legs on the camera depth: the one that finishes
      later leaves its value, even though the other starts later. */
  lemma OverlappingLegsLaterEndWins()
    ensures FinalValue([Leg(CameraZ, 0.0, 2.0, 100.0, Power4InOut),
                        Leg(CameraZ, 0.5, 1.0, 200.0, Power4InOut)], CameraZ, 0.0) == 100.0
  {
  }

  /** The seven legs of the transition, with the position gsap gives the
      first one (the end of the then empty timeline, 0) written out. */
  lemma ScheduleLegs(imageIndex: int)
    ensures Schedule(imageIndex) == [
      Leg(CameraX, 0.0, 1.5, Scene.PanelSpacing * imageIndex as real, Power4InOut),
      Leg(CameraZ, 0.0, 1.0, NearZ, Power4InOut),
      Leg(CameraZ, 1.0, 1.0, RestingZ, Power4InOut),
      Leg(CurtainProgress, 0.0, 1.0, 1.0, Power3InOut),
      Leg(CurtainProgress, 1.0, 1.0, 0.0, Power3InOut),
      Leg(RgbaProgress, 0.0, 1.0, 1.0, Power3InOut),
      Leg(RgbaProgress, 1.0, 1.0, 0.0, Power3InOut)]
  { }

  /** The whole transition lasts 2 time units, of seven legs that all start
      at 0 or 1 and have positive duration. */
  lemma ScheduleSpan(imageIndex: int)
    ensures |Schedule(imageIndex)| == 7
    ensures Span(Schedule(imageIndex)) == 2.0
    ensures forall k :: 0 <= k < 7 ==>
      Schedule(imageIndex)[k].offset in {0.0, 1.0} && Schedule(imageIndex)[k].duration > 0.0
  {
    var s := Schedule(imageIndex);
    ScheduleLegs(imageIndex);
    var d := Span(s);
    assert s[2].End() == 2.0;
    assert forall k :: 0 <= k < |s| ==> s[k].End() <= 2.0;
    assert 2.0 <= d;
    assert d <= 2.0;
  }

  /** The camera x leg runs over [0, 1.5]; the z legs and both progress
      parameters each run over [0, 1] and then [1, 2]. */
  lemma ScheduleLegIntervals(imageIndex: int)
    ensures forall k :: 0 <= k < |Schedule(imageIndex)| && Schedule(imageIndex)[k].target == CameraX ==>
      Schedule(imageIndex)[k].offset == 0.0 && Schedule(imageIndex)[k].End() == 1.5
    ensures forall k :: 0 <= k < |Schedule(imageIndex)| && Schedule(imageIndex)[k].target != CameraX ==>
      (Schedule(imageIndex)[k].offset == 0.0 && Schedule(imageIndex)[k].End() == 1.0) ||
      (Schedule(imageIndex)[k].offset == 1.0 && Schedule(imageIndex)[k].End() == 2.0)
  {
    ScheduleLegs(imageIndex);
  }

  /** Legs on one parameter never overlap and run in the order they were
      added, so at any time at most one leg drives each parameter. */
  lemma ScheduleSequentialPerParam(imageIndex: int)
    ensures forall a, b ::
      (0 <= a < b < |Schedule(imageIndex)| &&
       Schedule(imageIndex)[a].target == Schedule(imageIndex)[b].target) ==>
      Schedule(imageIndex)[a].End() <= Schedule(imageIndex)[b].offset
  {
    ScheduleLegs(imageIndex);
  }

  /** Half-way through (at time 1), the camera has dipped to 700 and both
      effects have reached full progress: those are the end values of the
      legs on them that finish at 1. */
  lemma ScheduleMidpoint(imageIndex: int)
    ensures forall k :: 0 <= k < |Schedule(imageIndex)| && Schedule(imageIndex)[k].End() == 1.0 ==>
      (Schedule(imageIndex)[k].target == CameraZ && Schedule(imageIndex)[k].endValue == NearZ) ||
      (Schedule(imageIndex)[k].target in {CurtainProgress, RgbaProgress} && Schedule(imageIndex)[k].endValue == 1.0)
  {
    ScheduleLegs(imageIndex);
  }

  /** Every progress leg stays within [0, 1]. */
  lemma ScheduleProgressInRange(imageIndex: int)
    ensures forall k ::
      (0 <= k < |Schedule(imageIndex)| &&
       Schedule(imageIndex)[k].target in {CurtainProgress, RgbaProgress}) ==>
      0.0 <= Schedule(imageIndex)[k].endValue <= 1.0
  {
    ScheduleLegs(imageIndex);
  }

  /** Once the transition has completed, whatever the values it started
      from, the camera x is that of the group showing image `imageIndex`,
      the camera z is back at its resting depth and both effect progresses
      are back at their initial value 0: the effects are the identity again. */
  lemma ScheduleFinalValues(imageIndex: int, x0: real, z0: real, c0: real, r0: real)
    ensures FinalValue(Schedule(imageIndex), CameraX, x0) == Scene.GroupX(imageIndex)
    ensures FinalValue(Schedule(imageIndex), CameraZ, z0) == RestingZ
    ensures FinalValue(Schedule(imageIndex), CurtainProgress, c0) == Curtain.DefaultProgress
    ensures FinalValue(Schedule(imageIndex), RgbaProgress, r0) == ChannelSplit.DefaultProgress
  {
    ScheduleLegs(imageIndex);
    var s := Schedule(imageIndex);
    assert s[0].target == CameraX;
    assert LastLeg(s, CameraX) == 0;
    assert LastLeg(s, CameraZ) == 2;
    assert LastLeg(s, CurtainProgress) == 4;
    assert LastLeg(s, RgbaProgress) == 6;
  }
}
