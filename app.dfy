/** The application's state: the current scene, the play flag, the path toggle,
    the story and the mode, with the transport controls, the auto-advance
    timer, the timeline slider, and the map's click and drag events. */
module Playback {
  import opened Scenes
  import SceneStore
  import MapView
  import AuthorTools

  /** The story the application starts with: four scenes, numbered 1 to 4. */
  function SampleStory(): (s: Story)
    ensures |s.scenes| == 4 && Normalized(s.scenes)
    ensures forall i :: 0 <= i < |s.scenes| ==> s.scenes[i].id == i + 1
  {
    Story(SampleTitle(), seq(4, k requires 0 <= k < 4 => SampleScene(k)))
  }

  /** The k-th scene of the sample story, k from 0. */
  function SampleScene(k: nat): (x: Scene)
    requires k < 4
    ensures x.id == k + 1 && x.timestamp == k
  {
    var position :=
      if k == 0 then LatLng(51.505, -0.09)
      else if k == 1 then LatLng(51.515, -0.1)
      else if k == 2 then LatLng(51.525, -0.11)
      else LatLng(51.535, -0.12);
    Scene(k + 1, SampleSceneTitle(k), SampleSceneText(k), position, k)
  }

  function SampleTitle(): string {
    "The Journey of Aria"
  }

  function SampleSceneTitle(k: nat): string {
    if k == 0 then "The Village of Millbrook"
    else if k == 1 then "The Ancient Forest"
    else if k == 2 then "The Mountain Pass"
    else "The Crystal Lake"
  }

  const VillageText: string :=
    "Aria begins her journey in the peaceful village of Millbrook, nestled in the valley."
  const ForestText: string :=
    "Following the old path, Aria enters the mysterious Ancient Forest where shadows dance between towering trees."
  const PassText: string :=
    "After days of travel, Aria reaches the treacherous Mountain Pass, where the air grows thin and cold."
  const LakeText: string :=
    "Beyond the mountains lies the legendary Crystal Lake, its waters reflecting the sky like a mirror."

  function SampleSceneText(k: nat): string {
    if k == 0 then VillageText
    else if k == 1 then ForestText
    else if k == 2 then PassText
    else LakeText
  }

  // The transport: the current scene index and the play flag, for a story of n scenes.

  datatype Cursor = Cursor(scene: int, playing: bool)

  /** handleNext: one scene forward unless already at (or past) the last one. */
  function NextScene(scene: int, n: int): (r: int)
    ensures r == scene + 1 <==> scene < n - 1
    ensures r != scene + 1 ==> r == scene
    ensures scene <= n - 1 ==> r <= n - 1
  {
    if scene < n - 1 then scene + 1 else scene
  }

  /** One run of the auto-advance effect: while playing, a step forward when
      there is a next scene, otherwise the player stops; when paused, nothing. */
  function TickStep(c: Cursor, n: int): (r: Cursor)
    ensures r.scene == if c.playing then NextScene(c.scene, n) else c.scene
    ensures r.playing <==> c.playing && c.scene < n - 1
  {
    if !c.playing then c
    else if c.scene < n - 1 then Cursor(c.scene + 1, true)
    else Cursor(c.scene, false)
  }

  /** `k` runs of the auto-advance effect. */
  function Ticks(c: Cursor, n: int, k: nat): Cursor
    decreases k
  {
    if k == 0 then c else Ticks(TickStep(c, n), n, k - 1)
  }

  /** Ticks never take the index past the last scene, nor past where it was. */
  lemma {:induction false} TicksBounded(c: Cursor, n: int, k: nat)
    ensures c.scene <= Ticks(c, n, k).scene
    ensures Ticks(c, n, k).scene <= if c.scene < n - 1 then n - 1 else c.scene
    decreases k
  {
    if k > 0 {
      TicksBounded(TickStep(c, n), n, k - 1);
    }
  }

  /** A paused player ignores ticks. */
  lemma {:induction false} PausedTicksIdle(c: Cursor, n: int, k: nat)
    requires !c.playing
    ensures Ticks(c, n, k) == c
    decreases k
  {
    if k > 0 {
      PausedTicksIdle(TickStep(c, n), n, k - 1);
    }
  }

  /** While there are scenes ahead, each tick moves one scene and playing goes on. */
  lemma {:induction false} TicksAdvance(c: Cursor, n: int, k: nat)
    requires c.playing && k <= n - 1 - c.scene
    ensures Ticks(c, n, k) == Cursor(c.scene + k, true)
    decreases k
  {
    if k > 0 {
      TicksAdvance(TickStep(c, n), n, k - 1);
    }
  }

  /** From any scene up to the last, enough ticks end at the last scene with
      the player stopped: one tick per remaining scene and one to stop. */
  lemma TicksReachLast(c: Cursor, n: int, k: nat)
    requires c.playing && c.scene <= n - 1 && k >= n - c.scene
    ensures Ticks(c, n, k) == Cursor(n - 1, false)
  {
    var m := n - 1 - c.scene;
    TicksAdvance(c, n, m);
    TicksSplit(c, n, m, k - m);
    assert Ticks(Cursor(n - 1, true), n, k - m) == Ticks(Cursor(n - 1, false), n, k - m - 1);
    PausedTicksIdle(Cursor(n - 1, false), n, k - m - 1);
  }

  lemma {:induction false} TicksSplit(c: Cursor, n: int, a: nat, b: nat)
    ensures Ticks(c, n, a + b) == Ticks(Ticks(c, n, a), n, b)
    decreases a
  {
    if a > 0 {
      TicksSplit(TickStep(c, n), n, a - 1, b);
    }
  }

  /** handlePlay flips the flag; at the last scene the next run of the effect
      stops the player again, so pressing play there changes nothing. */
  lemma PlayAtLastUndone(c: Cursor, n: int)
    requires !c.playing && c.scene >= n - 1
    ensures TickStep(c.(playing := true), n) == c
  {
  }

  /** A step forward extends the path by exactly the new scene's position. */
  lemma NextExtendsPath(xs: seq<Scene>, scene: int)
    requires 0 <= scene < |xs| - 1
    ensures MapView.PathPositions(xs, NextScene(scene, |xs|))
         == MapView.PathPositions(xs, scene) + [xs[scene + 1].position]
  {
  }

  /** The timeline slider, a range input from 0 to N - 1: the value it reports
      always lies in [0, max(N - 1, 0)]. */
  function SliderValue(v: int, n: int): (r: int)
    ensures 0 <= r && (r == 0 || r < n)
    ensures 0 <= v < n ==> r == v
    ensures v < 0 ==> r == 0
    ensures n >= 1 && v >= n ==> r == n - 1
  {
    if v < 0 || n <= 1 then 0 else if v >= n then n - 1 else v
  }

  const ClickedSceneDescription: string := "Click to edit description..."

  /** handleMapClick: in author mode a scene is appended at the clicked point,
      numbered after the scenes so far; in reader mode the story is unchanged. */
  function MapClickStory(s: Story, isAuthorMode: bool, id: int, lat: real, lng: real): (r: Story)
    ensures !isAuthorMode ==> r == s
    ensures isAuthorMode ==>
      && r.title == s.title
      && |r.scenes| == |s.scenes| + 1
      && r.scenes[..|s.scenes|] == s.scenes
      && var x := r.scenes[|s.scenes|];
      && x.id == id
      && x.title == "Scene " + NatToString(|s.scenes| + 1)
      && x.description == ClickedSceneDescription
      && x.position == LatLng(lat, lng)
      && x.timestamp == |s.scenes|
    ensures Normalized(s.scenes) ==> Normalized(r.scenes)
  {
    if isAuthorMode then
      var n := |s.scenes|;
      SceneStore.Append(s, Scene(id, "Scene " + NatToString(n + 1), ClickedSceneDescription, LatLng(lat, lng), n))
    else s
  }

  class Player {
    var currentScene: int
    var isPlaying: bool
    var showPath: bool
    var story: Story
    var isAuthorMode: bool

    /** The index is never negative, and outside an empty story it is a valid index. */
    ghost predicate Valid()
      reads this
    {
      0 <= currentScene && (currentScene == 0 || currentScene < |story.scenes|)
    }

    function Transport(): Cursor
      reads this
    {
      Cursor(currentScene, isPlaying)
    }

    constructor ()
      ensures Valid()
      ensures currentScene == 0 && !isPlaying && showPath && !isAuthorMode
      ensures story == SampleStory()
    {
      currentScene := 0;
      isPlaying := false;
      showPath := true;
      story := SampleStory();
      isAuthorMode := false;
    }

    /** handlePlay: flips the play flag and nothing else. */
    method Play()
      requires Valid()
      modifies this
      ensures Valid()
      ensures isPlaying == !old(isPlaying) && currentScene == old(currentScene)
      ensures story == old(story) && showPath == old(showPath) && isAuthorMode == old(isAuthorMode)
    {
      isPlaying := !isPlaying;
    }

    /** handleReset: back to the first scene, paused. */
    method Reset()
      requires Valid()
      modifies this
      ensures Valid()
      ensures currentScene == 0 && !isPlaying
      ensures story == old(story) && showPath == old(showPath) && isAuthorMode == old(isAuthorMode)
    {
      currentScene := 0;
      isPlaying := false;
    }

    /** handleNext. */
    method Next()
      requires Valid()
      modifies this
      ensures Valid()
      ensures currentScene == NextScene(old(currentScene), |story.scenes|)
      ensures isPlaying == old(isPlaying)
      ensures story == old(story) && showPath == old(showPath) && isAuthorMode == old(isAuthorMode)
    {
      if currentScene < |story.scenes| - 1 {
        currentScene := currentScene + 1;
      }
    }

    /** The auto-advance effect: while playing, either its timer fires and the
        index moves forward, or, at the last scene, playing stops at once. */
    method Tick()
      requires Valid()
      modifies this
      ensures Valid()
      ensures Transport() == TickStep(old(Transport()), |story.scenes|)
      ensures story == old(story) && showPath == old(showPath) && isAuthorMode == old(isAuthorMode)
    {
      if isPlaying && currentScene < |story.scenes| - 1 {
        currentScene := currentScene + 1;
      } else if isPlaying && currentScene >= |story.scenes| - 1 {
        isPlaying := false;
      }
    }

    /** The timeline slider's change event. The slider is disabled in author
        mode, so there a change never arrives. */
    method Seek(v: int)
      requires Valid()
      modifies this
      ensures Valid()
      ensures currentScene == if old(isAuthorMode) then old(currentScene) else SliderValue(v, |story.scenes|)
      ensures isPlaying == old(isPlaying)
      ensures story == old(story) && showPath == old(showPath) && isAuthorMode == old(isAuthorMode)
    {
      if !isAuthorMode {
        currentScene := SliderValue(v, |story.scenes|);
      }
    }

    /** The "Show Path" checkbox. */
    method SetShowPath(on: bool)
      requires Valid()
      modifies this
      ensures Valid()
      ensures showPath == on
      ensures currentScene == old(currentScene) && isPlaying == old(isPlaying)
      ensures story == old(story) && isAuthorMode == old(isAuthorMode)
    {
      showPath := on;
    }

    /** The "Switch to Author Mode" button and the author panel's mode changes. */
    method SetAuthorMode(on: bool)
      requires Valid()
      modifies this
      ensures Valid()
      ensures isAuthorMode == on
      ensures currentScene == old(currentScene) && isPlaying == old(isPlaying)
      ensures story == old(story) && showPath == old(showPath)
    {
      isAuthorMode := on;
    }

    /** handleStoryUpdate: the saved story replaces the current one, and
        playback goes back to the first scene, paused. */
    method UpdateStory(updated: Story)
      requires Valid()
      modifies this
      ensures Valid()
      ensures story == updated && currentScene == 0 && !isPlaying
      ensures showPath == old(showPath) && isAuthorMode == old(isAuthorMode)
    {
      story := updated;
      currentScene := 0;
      isPlaying := false;
    }

    /** handleScenePositionUpdate: the end of a marker drag. */
    method ScenePositionUpdate(id: int, lat: real, lng: real)
      requires Valid()
      modifies this
      ensures Valid()
      ensures story == SceneStore.UpdatePosition(old(story), id, lat, lng)
      ensures currentScene == old(currentScene) && isPlaying == old(isPlaying)
      ensures showPath == old(showPath) && isAuthorMode == old(isAuthorMode)
    {
      story := SceneStore.UpdatePosition(story, id, lat, lng);
    }

    /** handleMapClick: `id` stands for Date.now(). */
    method MapClick(id: int, lat: real, lng: real)
      requires Valid()
      modifies this
      ensures Valid()
      ensures story == MapClickStory(old(story), old(isAuthorMode), id, lat, lng)
      ensures currentScene == old(currentScene) && isPlaying == old(isPlaying)
      ensures showPath == old(showPath) && isAuthorMode == old(isAuthorMode)
    {
      if isAuthorMode {
        var n := |story.scenes|;
        var added := Scene(id, "Scene " + NatToString(n + 1), ClickedSceneDescription, LatLng(lat, lng), n);
        story := SceneStore.Append(story, added);
      }
    }

    /** `pathPositions`: the positions of the scenes played so far, the
        current one included. */
    method PathPositions() returns (path: seq<LatLng>)
      requires Valid()
      ensures |path| == if story.scenes == [] then 0 else currentScene + 1
      ensures forall i :: 0 <= i < |path| ==> path[i] == story.scenes[i].position
    {
      path := MapView.Positions(story.scenes[..if currentScene + 1 < |story.scenes| then currentScene + 1 else |story.scenes|]);
    }
  }

  // Scenarios, checked against the contracts above alone.

  /** The sample story played from the start: three timer ticks reach the last
      scene, and the next run of the effect stops the player. */
  method PlaybackScenario() {
    var p := new Player();
    p.Play();
    p.Tick();
    assert p.currentScene == 1 && p.isPlaying;
    p.Tick();
    p.Tick();
    assert p.currentScene == 3 && p.isPlaying;
    p.Tick();
    assert p.currentScene == 3 && !p.isPlaying;
    p.Next();
    assert p.currentScene == 3;
  }

  /** A click in author mode on a one-scene story adds a second scene at the
      clicked point; in reader mode the same click does nothing. */
  method MapClickScenario(first: Scene, id: int) {
    var p := new Player();
    p.UpdateStory(Story("One", [first]));
    p.MapClick(id, 51.51, -0.08);
    assert |p.story.scenes| == 1;
    p.SetAuthorMode(true);
    p.MapClick(id, 51.51, -0.08);
    assert |p.story.scenes| == 2;
    assert p.story.scenes[1].timestamp == 1;
    assert p.story.scenes[1].position == LatLng(51.51, -0.08);
    assert p.story.scenes[1].title == "Scene 2";
  }

  /** The author panel edits the copy it took when it opened: a scene added by a
      map click afterwards is not in that copy, so saving drops it. */
  method SaveAfterMapClickScenario(s: Story, id: int, lat: real, lng: real) {
    var p := new Player();
    p.UpdateStory(s);
    p.SetAuthorMode(true);
    var e := new AuthorTools.Editor(p.story);
    p.MapClick(id, lat, lng);
    assert |p.story.scenes| == |s.scenes| + 1;
    var saved := e.Save();
    p.UpdateStory(saved);
    assert p.story == s;
  }
}
