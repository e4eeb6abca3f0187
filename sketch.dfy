/** The sketch controller: the state one `Sketch` object keeps (clock,
    pointer, play flag, gallery index, camera, effect progress, scene
    groups) and the methods the page and the host call on it. */
module Sketch {
  import opened Geometry
  import opened Scene
  import opened Motion
  import Timeline
  import Gallery
  import Curtain
  import ChannelSplit

  /** The inner loop of `setObjects` for image `j`: a new group holding
      three new panels of texture `t`, at x `j * 2500`. */
  method BuildGroup(t: Texture, mask: Texture, j: int) returns (g: Group)
    ensures fresh(g)
    ensures g.x == GroupX(j) && g.rotX == 0.0 && g.rotY == 0.0
    ensures |g.children| == LayerCount
    ensures forall i :: 0 <= i < |g.children| ==>
      fresh(g.children[i]) && g.children[i].material == LayerMaterial(t, mask, i) &&
      g.children[i].z == InitialDepth(i)
    ensures forall i, i' :: 0 <= i < i' < |g.children| ==> g.children[i] != g.children[i']
  {
    g := new Group();
    var i := 0;
    while i < LayerCount
      invariant 0 <= i <= LayerCount
      invariant |g.children| == i
      invariant g.rotX == 0.0 && g.rotY == 0.0
      invariant i > 0 ==> g.x == GroupX(j)
      invariant forall i' :: 0 <= i' < i ==>
        fresh(g.children[i']) && g.children[i'].material == LayerMaterial(t, mask, i') &&
        g.children[i'].z == InitialDepth(i')
      invariant forall a, b :: 0 <= a < b < i ==> g.children[a] != g.children[b]
    {
      var m := Material(t, None, false);
      if i > 0 {
        m := Material(t, Some(mask), true);
      }
      var mesh := new Mesh(m, InitialDepth(i));
      g.Add(mesh);
      g.x := GroupX(j);
      i := i + 1;
    }
  }

  class Sketch {
    var time: real
    var oscillator: real
    var mouse: Vec2
    var mouseTarget: Vec2
    var isPlaying: bool
    var imageIndex: int
    var camera: Vec3
    var curtainProgress: real
    var rgbaProgress: real
    var maskTexture: Texture
    var textures: seq<Texture>
    var groups: seq<Group>

    ghost function GroupSet(): set<Group>
      reads this`groups
    {
      set g | g in groups
    }

    ghost function Meshes(): set<Mesh>
      reads this`groups, GroupSet()`children
    {
      set a, i | 0 <= a < |groups| && 0 <= i < |groups[a].children| :: groups[a].children[i]
    }

    /** The scene as `setObjects` laid it out: one group per texture, at
        x `j * 2500`, with three panels whose materials follow
        `LayerMaterial`; no panel is shared between two places. */
    ghost predicate Valid()
      reads this`groups, this`textures, this`maskTexture, GroupSet()`x, GroupSet()`children
    {
      && |groups| == |textures|
      && (forall a :: 0 <= a < |groups| ==>
            groups[a].x == GroupX(a) && |groups[a].children| == LayerCount &&
            forall i :: 0 <= i < LayerCount ==>
              groups[a].children[i].material == LayerMaterial(textures[a], maskTexture, i))
      && (forall a, b, i, j ::
            (0 <= a < |groups| && 0 <= b < |groups| &&
             0 <= i < |groups[a].children| && 0 <= j < |groups[b].children| &&
             groups[a].children[i] == groups[b].children[j]) ==> a == b && i == j)
    }

    /** What one frame of `render` does while playing: the clock moves by
        0.05, the oscillator takes the frame's value, the smoothed pointer
        closes a tenth of its distance to the pointer, every group is
        tilted by the smoothed pointer and every panel is set to the depth
        its layer index and the oscillator give. */
    twostate predicate FrameAdvanced(osc: real)
      reads this, GroupSet(), Meshes()
    {
      && time == old(time) + TimeStep
      && oscillator == osc
      && mouseTarget == SmoothStep(old(mouseTarget), old(mouse))
      && (forall a :: 0 <= a < |groups| ==>
            groups[a].rotX == Tilt(mouseTarget.y) && groups[a].rotY == Tilt(mouseTarget.x))
      && (forall a, i :: 0 <= a < |groups| && 0 <= i < |groups[a].children| ==>
            groups[a].children[i].z == LayerDepth(i, osc))
    }

    /** `new Sketch(...)`: uniforms at their defaults, camera at (0, 0, 900),
        the scene built from the image URLs, one frame rendered, index 0.
        `osc` stands for the oscillator value of that first frame. */
    constructor (assets: seq<string>, maskURL: string, osc: real)
      ensures Valid() && fresh(GroupSet())
      ensures forall a, i :: 0 <= a < |groups| && 0 <= i < |groups[a].children| ==> fresh(groups[a].children[i])
      ensures |textures| == |assets|
      ensures forall j :: 0 <= j < |assets| ==> textures[j] == Texture(assets[j])
      ensures maskTexture == Texture(maskURL)
      ensures isPlaying && imageIndex == 0
      ensures time == TimeStep && oscillator == osc
      ensures mouse == Vec2(0.0, 0.0) && mouseTarget == Vec2(0.0, 0.0)
      ensures camera == Vec3(0.0, 0.0, Timeline.RestingZ)
      ensures curtainProgress == Curtain.DefaultProgress && rgbaProgress == ChannelSplit.DefaultProgress
      ensures forall a :: 0 <= a < |groups| ==> groups[a].rotX == 0.0 && groups[a].rotY == 0.0
      ensures forall a, i :: 0 <= a < |groups| && 0 <= i < |groups[a].children| ==>
        groups[a].children[i].z == LayerDepth(i, osc)
    {
      time := 0.0;
      oscillator := 0.0;
      mouse := Vec2(0.0, 0.0);
      mouseTarget := Vec2(0.0, 0.0);
      isPlaying := true;
      camera := Vec3(0.0, 0.0, Timeline.RestingZ);
      curtainProgress := Curtain.DefaultProgress;
      rgbaProgress := ChannelSplit.DefaultProgress;
      maskTexture := Texture(maskURL);
      textures := [];
      groups := [];
      new;
      SetObjects(assets, maskURL);
      label built:
      Render(osc);
      assert forall a :: 0 <= a < |groups| ==> groups[a].children == old@built(groups[a].children);
      imageIndex := 0;
    }

    /** `setObjects`: load the mask and every image, then build one group
        per texture, pushed in texture order. */
    method SetObjects(assets: seq<string>, maskURL: string)
      modifies this`maskTexture, this`textures, this`groups
      ensures Valid() && fresh(GroupSet()) && fresh(Meshes())
      ensures forall a, i :: 0 <= a < |groups| && 0 <= i < |groups[a].children| ==> fresh(groups[a].children[i])
      ensures |textures| == |assets|
      ensures forall j :: 0 <= j < |assets| ==> textures[j] == Texture(assets[j])
      ensures maskTexture == Texture(maskURL)
      ensures forall a :: 0 <= a < |groups| ==> groups[a].rotX == 0.0 && groups[a].rotY == 0.0
      ensures forall a, i :: 0 <= a < |groups| && 0 <= i < |groups[a].children| ==>
        groups[a].children[i].z == InitialDepth(i)
    {
      maskTexture := Texture(maskURL);
      textures := seq(|assets|, k requires 0 <= k < |assets| => Texture(assets[k]));
      groups := [];
      var j := 0;
      while j < |textures|
        invariant 0 <= j <= |textures| && |groups| == j
        invariant |textures| == |assets|
        invariant forall k :: 0 <= k < |assets| ==> textures[k] == Texture(assets[k])
        invariant maskTexture == Texture(maskURL)
        invariant forall a :: 0 <= a < j ==> fresh(groups[a])
        invariant forall a, i :: 0 <= a < j && 0 <= i < |groups[a].children| ==> fresh(groups[a].children[i])
        invariant forall a :: 0 <= a < j ==>
          groups[a].x == GroupX(a) && groups[a].rotX == 0.0 && groups[a].rotY == 0.0 &&
          |groups[a].children| == LayerCount &&
          forall i :: 0 <= i < LayerCount ==>
            groups[a].children[i].material == LayerMaterial(textures[a], maskTexture, i) &&
            groups[a].children[i].z == InitialDepth(i)
        invariant forall a, b, i, i' ::
          (0 <= a < j && 0 <= b < j &&
           0 <= i < |groups[a].children| && 0 <= i' < |groups[b].children| &&
           groups[a].children[i] == groups[b].children[i']) ==> a == b && i == i'
      {
        var g := BuildGroup(textures[j], maskTexture, j);
        groups := groups + [g];
        j := j + 1;
      }
    }

    /** `render`: nothing happens while stopped; otherwise one frame is
        advanced. `osc` stands for `Math.sin(time * 0.1) * 0.5 + 0.5`. */
    method Render(osc: real)
      requires Valid()
      modifies this`time, this`oscillator, this`mouseTarget
      modifies GroupSet()`rotX, GroupSet()`rotY, Meshes()`z
      ensures Valid()
      ensures !old(isPlaying) ==> unchanged(this) && unchanged(GroupSet()) && unchanged(Meshes())
      ensures old(isPlaying) ==> FrameAdvanced(osc)
    {
      if !isPlaying {
        return;
      }
      time := time + TimeStep;
      oscillator := osc;
      mouseTarget := SmoothStep(mouseTarget, mouse);
      PoseGroups(osc);
    }

    /** The `groups.forEach` of the per-frame step: tilt every group by
        the smoothed pointer and place every panel at its layer's depth. */
    method PoseGroups(osc: real)
      requires Valid()
      modifies GroupSet()`rotX, GroupSet()`rotY, Meshes()`z
      ensures forall a :: 0 <= a < |groups| ==>
        groups[a].rotX == Tilt(mouseTarget.y) && groups[a].rotY == Tilt(mouseTarget.x)
      ensures forall a, i :: 0 <= a < |groups| && 0 <= i < |groups[a].children| ==>
        groups[a].children[i].z == LayerDepth(i, osc)
    {
      var k := 0;
      while k < |groups|
        invariant 0 <= k <= |groups|
        invariant Valid()
        invariant forall a :: 0 <= a < k ==>
          groups[a].rotX == Tilt(mouseTarget.y) && groups[a].rotY == Tilt(mouseTarget.x)
        invariant forall a, i :: 0 <= a < k && 0 <= i < |groups[a].children| ==>
          groups[a].children[i].z == LayerDepth(i, osc)
      {
        var g := groups[k];
        assert g.DistinctChildren() by {
          forall i, i' | 0 <= i < i' < |g.children| ensures g.children[i] != g.children[i'] {
            assert groups[k].children[i] == g.children[i];
          }
        }
        OtherLayersUntouched(k);
        g.Pose(Tilt(mouseTarget.y), Tilt(mouseTarget.x), osc);
        k := k + 1;
      }
    }

    /** The panels of groups other than group `k` are not children of
        group `k`, so those groups are other objects than group `k`. */
    lemma OtherLayersUntouched(k: int)
      requires Valid() && 0 <= k < |groups|
      ensures forall a, i :: 0 <= a < |groups| && a != k && 0 <= i < |groups[a].children| ==>
        groups[a].children[i] !in groups[k].ChildSet()
      ensures forall a :: 0 <= a < |groups| && a != k ==> groups[a] != groups[k]
    {
      forall a, i | 0 <= a < |groups| && a != k && 0 <= i < |groups[a].children|
        ensures groups[a].children[i] !in groups[k].ChildSet()
      {
        forall j | 0 <= j < |groups[k].children|
          ensures groups[k].children[j] != groups[a].children[i]
        { }
      }
      forall a | 0 <= a < |groups| && a != k
        ensures groups[a] != groups[k]
      {
        assert groups[a].children[0] != groups[k].children[0];
      }
    }

    /** `stop`. */
    method Stop()
      modifies this`isPlaying
      ensures !isPlaying
    {
      isPlaying := false;
    }

    /** `play`: a no-op while playing; otherwise set the flag and render
        one frame at once (which also restarts the frame loop). */
    method Play(osc: real)
      requires Valid()
      modifies this`isPlaying, this`time, this`oscillator, this`mouseTarget
      modifies GroupSet()`rotX, GroupSet()`rotY, Meshes()`z
      ensures Valid() && isPlaying
      ensures old(isPlaying) ==> unchanged(this) && unchanged(GroupSet()) && unchanged(Meshes())
      ensures !old(isPlaying) ==> FrameAdvanced(osc)
    {
      if !isPlaying {
        isPlaying := true;
        Render(osc);
      }
    }

    /** The `move` handler of `events`. */
    method OnMove(uv: Vec2)
      modifies this`mouse
      ensures mouse == NormalizePointer(uv)
    {
      mouse := NormalizePointer(uv);
    }

    /** The interval callback: step the gallery index, then start the
        transition to it (`runAnimation`), returned as its timeline. */
    method Tick() returns (tl: seq<Timeline.Leg>)
      modifies this`imageIndex
      ensures imageIndex == Gallery.NextIndex(old(imageIndex))
      ensures tl == Timeline.Schedule(imageIndex)
    {
      imageIndex := Gallery.NextIndex(imageIndex);
      tl := Timeline.Schedule(imageIndex);
    }

    /** The parameters a timeline animates, as gsap leaves them once every
        leg has completed. */
    method FinishTimeline(tl: seq<Timeline.Leg>)
      modifies this`camera, this`curtainProgress, this`rgbaProgress
      ensures camera == old(camera).(x := Timeline.FinalValue(tl, Timeline.CameraX, old(camera.x)),
                                    z := Timeline.FinalValue(tl, Timeline.CameraZ, old(camera.z)))
      ensures curtainProgress == Timeline.FinalValue(tl, Timeline.CurtainProgress, old(curtainProgress))
      ensures rgbaProgress == Timeline.FinalValue(tl, Timeline.RgbaProgress, old(rgbaProgress))
    {
      camera := camera.(x := Timeline.FinalValue(tl, Timeline.CameraX, camera.x),
                        z := Timeline.FinalValue(tl, Timeline.CameraZ, camera.z));
      curtainProgress := Timeline.FinalValue(tl, Timeline.CurtainProgress, curtainProgress);
      rgbaProgress := Timeline.FinalValue(tl, Timeline.RgbaProgress, rgbaProgress);
    }
  }

  /** A page that builds the sketch, stops it and plays it again: the
      sketch is still playing over the same layout, one frame further on
      (time 0.1), with the panels at the depths of the resumed frame. */
  method StopAndResume(assets: seq<string>, maskURL: string, osc0: real, osc1: real)
    returns (s: Sketch)
    ensures s.Valid() && s.isPlaying && s.imageIndex == 0
    ensures |s.groups| == |assets|
    ensures s.time == 2.0 * TimeStep && s.oscillator == osc1
    ensures forall a, i :: 0 <= a < |s.groups| && 0 <= i < |s.groups[a].children| ==>
      s.groups[a].children[i].z == LayerDepth(i, osc1)
  {
    s := new Sketch(assets, maskURL, osc0);
    s.Stop();
    s.Play(osc1);
  }
}
