/** The edits the author tools make to a story. Each edit computes a new story
    from the old one; the editor then stores it in place of the old one. */
module SceneStore {
  import opened Scenes

  /** The default map centre: new scenes are jittered around it. */
  const CentreLat: real := 51.505
  const CentreLng: real := -0.09

  const NewSceneDescription: string := "Enter scene description..."

  /** The position of a scene added from the editor: the default centre moved by
      up to 0.05 degrees on each axis, from two random draws `u` and `v` in [0, 1). */
  function JitteredPosition(u: real, v: real): (p: LatLng)
    requires 0.0 <= u < 1.0 && 0.0 <= v < 1.0
    ensures CentreLat - 0.05 <= p.lat < CentreLat + 0.05
    ensures CentreLng - 0.05 <= p.lng < CentreLng + 0.05
  {
    LatLng(CentreLat + (u - 0.5) * 0.1, CentreLng + (v - 0.5) * 0.1)
  }

  /** The story with one more scene at the end. */
  function Append(s: Story, x: Scene): (r: Story)
    ensures r.title == s.title
    ensures |r.scenes| == |s.scenes| + 1
    ensures r.scenes[..|s.scenes|] == s.scenes && r.scenes[|s.scenes|] == x
  {
    s.(scenes := s.scenes + [x])
  }

  /** The scene the "Add Scene" button creates, numbered after the scenes so far. */
  function NewScene(s: Story, id: int, u: real, v: real): Scene
    requires 0.0 <= u < 1.0 && 0.0 <= v < 1.0
  {
    var n := |s.scenes|;
    Scene(id, "New Scene " + NatToString(n + 1), NewSceneDescription, JitteredPosition(u, v), n)
  }

  /** handleAddScene: one scene more, every earlier scene unchanged and in place. */
  function AddScene(s: Story, id: int, u: real, v: real): (r: Story)
    requires 0.0 <= u < 1.0 && 0.0 <= v < 1.0
    ensures r.title == s.title
    ensures |r.scenes| == |s.scenes| + 1
    ensures forall i :: 0 <= i < |s.scenes| ==> r.scenes[i] == s.scenes[i]
    ensures var x := r.scenes[|s.scenes|];
      && x.id == id
      && x.title == "New Scene " + NatToString(|s.scenes| + 1)
      && x.description == NewSceneDescription
      && x.timestamp == |s.scenes|
      && CentreLat - 0.05 <= x.position.lat < CentreLat + 0.05
      && CentreLng - 0.05 <= x.position.lng < CentreLng + 0.05
    ensures Normalized(s.scenes) ==> Normalized(r.scenes)
  {
    Append(s, NewScene(s, id, u, v))
  }

  /** The default title of an added scene tells how many scenes the story had. */
  lemma AddedTitleTellsCount(s: Story, t: Story, id: int, u: real, v: real)
    requires 0.0 <= u < 1.0 && 0.0 <= v < 1.0
    requires AddScene(s, id, u, v).scenes[|s.scenes|].title == AddScene(t, id, u, v).scenes[|t.scenes|].title
    ensures |s.scenes| == |t.scenes|
  {
    var a := NatToString(|s.scenes| + 1);
    var b := NatToString(|t.scenes| + 1);
    assert a == ("New Scene " + a)[10..];
    assert b == ("New Scene " + b)[10..];
    NatToStringInjective(|s.scenes| + 1, |t.scenes| + 1);
  }

  // Deleting a scene: filter by id, then renumber.

  /** The scenes whose id differs from `id`, in their original order. */
  function Survivors(xs: seq<Scene>, id: int): (r: seq<Scene>)
    ensures |r| <= |xs|
    ensures forall x :: x in r ==> x in xs && x.id != id
    ensures forall x :: x in xs && x.id != id ==> x in r
  {
    if xs == [] then []
    else
      assert xs == [xs[0]] + xs[1..];
      (if xs[0].id == id then [] else [xs[0]]) + Survivors(xs[1..], id)
  }

  /** Filtering distributes over concatenation: with the one-scene case this
      pins down that survivors keep their relative order. */
  lemma {:induction false} SurvivorsAppend(a: seq<Scene>, b: seq<Scene>, id: int)
    ensures Survivors(a + b, id) == Survivors(a, id) + Survivors(b, id)
    decreases |a|
  {
    if a == [] {
      assert a + b == b;
    } else {
      assert (a + b)[0] == a[0];
      assert (a + b)[1..] == a[1..] + b;
      SurvivorsAppend(a[1..], b, id);
    }
  }

  /** A scene survives exactly when its id differs. */
  lemma SurvivorsSingle(x: Scene, id: int)
    ensures Survivors([x], id) == if x.id == id then [] else [x]
  {
    assert [x][1..] == [];
  }

  /** Filtering by an id no scene carries changes nothing. */
  lemma {:induction false} SurvivorsAbsent(xs: seq<Scene>, id: int)
    requires !HasId(xs, id)
    ensures Survivors(xs, id) == xs
    decreases |xs|
  {
    if xs != [] {
      assert xs[0].id != id;
      assert !HasId(xs[1..], id) by {
        forall i | 0 <= i < |xs[1..]| ensures xs[1..][i].id != id {
          assert xs[1..][i] == xs[i + 1];
        }
      }
      SurvivorsAbsent(xs[1..], id);
      assert xs == [xs[0]] + xs[1..];
    }
  }

  /** Each scene's timestamp set to its index; nothing else changes. */
  function Renumber(xs: seq<Scene>): (r: seq<Scene>)
    ensures |r| == |xs| && Normalized(r)
    ensures forall i :: 0 <= i < |xs| ==> Erase(r[i]) == Erase(xs[i])
  {
    seq(|xs|, i requires 0 <= i < |xs| => xs[i].(timestamp := i))
  }

  /** Renumbering a normalized sequence changes nothing. */
  lemma RenumberNormalized(xs: seq<Scene>)
    requires Normalized(xs)
    ensures Renumber(xs) == xs
  {
  }

  /** handleDeleteScene: drop every scene with the id, renumber the rest. */
  function DeleteScene(s: Story, id: int): (r: Story)
    ensures r.title == s.title
    ensures Normalized(r.scenes)
    ensures forall x :: x in r.scenes ==> x.id != id
    ensures |r.scenes| == |Survivors(s.scenes, id)|
    ensures forall i :: 0 <= i < |r.scenes| ==> Erase(r.scenes[i]) == Erase(Survivors(s.scenes, id)[i])
    ensures |r.scenes| <= |s.scenes|
  {
    var r := Renumber(Survivors(s.scenes, id));
    assert forall x :: x in r ==> x.id != id by {
      forall x | x in r ensures x.id != id {
        var i :| 0 <= i < |r| && r[i] == x;
        assert Erase(r[i]) == Erase(Survivors(s.scenes, id)[i]);
      }
    }
    s.(scenes := r)
  }

  /** Deleting an id that no scene of a normalized story carries is a no-op. */
  lemma DeleteAbsent(s: Story, id: int)
    requires Normalized(s.scenes) && !HasId(s.scenes, id)
    ensures DeleteScene(s, id) == s
  {
    SurvivorsAbsent(s.scenes, id);
    RenumberNormalized(s.scenes);
  }

  /** Deleting the same id twice is the same as deleting it once. */
  lemma DeleteIdempotent(s: Story, id: int)
    ensures DeleteScene(DeleteScene(s, id), id) == DeleteScene(s, id)
  {
    var d := DeleteScene(s, id);
    assert !HasId(d.scenes, id) by {
      forall i | 0 <= i < |d.scenes| ensures d.scenes[i].id != id {
        assert d.scenes[i] in d.scenes;
      }
    }
    DeleteAbsent(d, id);
  }

  /** Deleting the middle one of three scenes with distinct ids leaves the other
      two, in order, with timestamps 0 and 1. */
  lemma DeleteMiddle(title: string, a: Scene, b: Scene, c: Scene)
    requires a.id != b.id && c.id != b.id
    ensures DeleteScene(Story(title, [a, b, c]), b.id).scenes
         == [a.(timestamp := 0), c.(timestamp := 1)]
  {
    var xs := [a, b, c];
    assert xs == [a] + [b] + [c];
    SurvivorsAppend([a] + [b], [c], b.id);
    SurvivorsAppend([a], [b], b.id);
    SurvivorsSingle(a, b.id);
    SurvivorsSingle(b, b.id);
    SurvivorsSingle(c, b.id);
    assert Survivors(xs, b.id) == [a, c];
  }

  // Editing the scenes that carry an id.

  /** Applies `edit` to the scenes whose id is `id` and keeps the others. */
  function MapMatching(xs: seq<Scene>, id: int, edit: Scene -> Scene): (r: seq<Scene>)
    ensures |r| == |xs|
    ensures forall i :: 0 <= i < |xs| ==> r[i] == if xs[i].id == id then edit(xs[i]) else xs[i]
  {
    if xs == [] then []
    else [if xs[0].id == id then edit(xs[0]) else xs[0]] + MapMatching(xs[1..], id, edit)
  }

  /** The fields the scene editor edits as text. */
  datatype SceneField = TitleField | DescriptionField

  function SetField(x: Scene, field: SceneField, value: string): Scene {
    match field
    case TitleField => x.(title := value)
    case DescriptionField => x.(description := value)
  }

  /** handleSceneUpdate: the named field of every scene with the id becomes
      `value`; all other fields and all other scenes are unchanged. */
  function UpdateSceneField(s: Story, id: int, field: SceneField, value: string): (r: Story)
    ensures r.title == s.title && |r.scenes| == |s.scenes|
    ensures forall i :: 0 <= i < |s.scenes| && s.scenes[i].id != id ==> r.scenes[i] == s.scenes[i]
    ensures forall i :: 0 <= i < |s.scenes| && s.scenes[i].id == id ==>
      var x, y := s.scenes[i], r.scenes[i];
      && y.id == x.id && y.position == x.position && y.timestamp == x.timestamp
      && y.title == (if field == TitleField then value else x.title)
      && y.description == (if field == DescriptionField then value else x.description)
    ensures !HasId(s.scenes, id) ==> r == s
    ensures Normalized(s.scenes) ==> Normalized(r.scenes)
  {
    s.(scenes := MapMatching(s.scenes, id, (x: Scene) => SetField(x, field, value)))
  }

  /** Setting a field twice to the same value is the same as setting it once. */
  lemma UpdateFieldIdempotent(s: Story, id: int, field: SceneField, value: string)
    ensures UpdateSceneField(UpdateSceneField(s, id, field, value), id, field, value)
         == UpdateSceneField(s, id, field, value)
  {
  }

  /** Edits of the title and of the description commute. */
  lemma UpdateFieldsCommute(s: Story, id: int, title: string, description: string)
    ensures UpdateSceneField(UpdateSceneField(s, id, TitleField, title), id, DescriptionField, description)
         == UpdateSceneField(UpdateSceneField(s, id, DescriptionField, description), id, TitleField, title)
  {
  }

  /** handlePositionUpdate (and the map's drag handler): every scene with the id
      moves to `(lat, lng)`; titles, descriptions, timestamps and all other
      scenes are unchanged. */
  function UpdatePosition(s: Story, id: int, lat: real, lng: real): (r: Story)
    ensures r.title == s.title && |r.scenes| == |s.scenes|
    ensures forall i :: 0 <= i < |s.scenes| && s.scenes[i].id != id ==> r.scenes[i] == s.scenes[i]
    ensures forall i :: 0 <= i < |s.scenes| && s.scenes[i].id == id ==>
      r.scenes[i] == s.scenes[i].(position := LatLng(lat, lng))
    ensures !HasId(s.scenes, id) ==> r == s
    ensures Normalized(s.scenes) ==> Normalized(r.scenes)
  {
    s.(scenes := MapMatching(s.scenes, id, (x: Scene) => x.(position := LatLng(lat, lng))))
  }

  /** Only the last of two moves of the same scene matters. */
  lemma UpdatePositionLastWins(s: Story, id: int, lat0: real, lng0: real, lat1: real, lng1: real)
    ensures UpdatePosition(UpdatePosition(s, id, lat0, lng0), id, lat1, lng1) == UpdatePosition(s, id, lat1, lng1)
  {
  }

  /** The story-title input: the title changes, the scenes do not. */
  function SetTitle(s: Story, title: string): (r: Story)
    ensures r.title == title && r.scenes == s.scenes
  {
    s.(title := title)
  }

  // The export file name: the title with each run of whitespace replaced by
  // one underscore (the regular expression /\s+/g), then ".json".

  /** The characters `\s` matches in a JavaScript regular expression: the
      WhiteSpace and LineTerminator code points of ECMAScript. */
  predicate IsJsWhitespace(c: char) {
    var k := c as int;
    || k == 0x09 || k == 0x0A || k == 0x0B || k == 0x0C || k == 0x0D || k == 0x20
    || k == 0xA0 || k == 0x1680 || (0x2000 <= k <= 0x200A)
    || k == 0x2028 || k == 0x2029 || k == 0x202F || k == 0x205F || k == 0x3000 || k == 0xFEFF
  }

  predicate SpaceFree(s: string) {
    forall i :: 0 <= i < |s| ==> !IsJsWhitespace(s[i])
  }

  /** The string with its leading run of whitespace removed. */
  function DropSpaces(s: string): (r: string)
    ensures |r| <= |s|
    ensures r == [] || !IsJsWhitespace(r[0])
  {
    if s != [] && IsJsWhitespace(s[0]) then DropSpaces(s[1..]) else s
  }

  /** Each maximal run of whitespace replaced by a single underscore. */
  function CollapseSpaces(s: string): (r: string)
    ensures SpaceFree(r)
    ensures |r| <= |s|
    decreases |s|
  {
    if s == [] then []
    else if IsJsWhitespace(s[0]) then "_" + CollapseSpaces(DropSpaces(s[1..]))
    else [s[0]] + CollapseSpaces(s[1..])
  }

  /** The same replacement done one character at a time, remembering whether
      the previous character was whitespace: an independent reading of /\s+/g. */
  function ScanReplace(s: string, inRun: bool): string
    decreases |s|
  {
    if s == [] then []
    else if IsJsWhitespace(s[0]) then (if inRun then [] else "_") + ScanReplace(s[1..], true)
    else [s[0]] + ScanReplace(s[1..], false)
  }

  lemma {:induction false} ScanInRun(s: string)
    ensures ScanReplace(s, true) == ScanReplace(DropSpaces(s), false)
    decreases |s|
  {
    if s != [] && IsJsWhitespace(s[0]) {
      ScanInRun(s[1..]);
    }
  }

  /** The run-based and the character-based readings agree on every string. */
  lemma {:induction false} CollapseIsScan(s: string)
    ensures CollapseSpaces(s) == ScanReplace(s, false)
    decreases |s|
  {
    if s != [] {
      if IsJsWhitespace(s[0]) {
        ScanInRun(s[1..]);
        CollapseIsScan(DropSpaces(s[1..]));
      } else {
        CollapseIsScan(s[1..]);
      }
    }
  }

  /** A string without whitespace is left as it is. */
  lemma {:induction false} CollapseSpaceFree(s: string)
    requires SpaceFree(s)
    ensures CollapseSpaces(s) == s
    decreases |s|
  {
    if s != [] {
      assert !IsJsWhitespace(s[0]);
      assert SpaceFree(s[1..]) by {
        forall i | 0 <= i < |s[1..]| ensures !IsJsWhitespace(s[1..][i]) {
          assert s[1..][i] == s[i + 1];
        }
      }
      CollapseSpaceFree(s[1..]);
      assert s == [s[0]] + s[1..];
    }
  }

  /** Collapsing twice is collapsing once. */
  lemma CollapseIdempotent(s: string)
    ensures CollapseSpaces(CollapseSpaces(s)) == CollapseSpaces(s)
  {
    CollapseSpaceFree(CollapseSpaces(s));
  }

  /** handleExportStory's download name: the collapsed title then ".json". */
  function ExportFilename(title: string): (r: string)
    ensures |r| >= 5 && r[|r| - 5..] == ".json"
    ensures SpaceFree(r[..|r| - 5])
    ensures r[..|r| - 5] == ScanReplace(title, false)
    ensures SpaceFree(title) ==> r == title + ".json"
  {
    var stem := CollapseSpaces(title);
    CollapseIsScan(title);
    assert SpaceFree(title) ==> stem == title by {
      if SpaceFree(title) { CollapseSpaceFree(title); }
    }
    assert (stem + ".json")[..|stem|] == stem;
    stem + ".json"
  }

  /** handleImportStory: a failed parse (None) keeps the story being edited;
      a successful one replaces it wholesale. */
  function ImportStory(editing: Story, parsed: Option<Story>): (r: Story)
    ensures parsed.None? ==> r == editing
    ensures parsed.Some? ==> r == parsed.value
  {
    match parsed
    case None => editing
    case Some(story) => story
  }
}
