/** What the map shows, derived from the story, the current scene index, the
    path toggle and the mode: markers, the path line, the centre, and whether a
    click on the map is passed on. Nothing here has state. */
module MapView {
  import opened Scenes

  /** The centre used when there is no current scene. */
  const DefaultCenter: LatLng := LatLng(51.505, -0.09)

  /** The author preview line is red and dashed, the reader path blue and solid. */
  const AuthorColor: string := "#e74c3c"
  const ReaderColor: string := "#3498db"
  const AuthorDash: string := "10, 10"

  /** MapClickHandler: a click is passed on, with its coordinates, only in
      author mode and only when a click handler is present. */
  function ForwardClick(isAuthorMode: bool, hasHandler: bool, at: LatLng): (r: Option<LatLng>)
    ensures r.Some? <==> isAuthorMode && hasHandler
    ensures r.Some? ==> r.value == at
  {
    if isAuthorMode && hasHandler then Some(at) else None
  }

  /** `story.scenes[currentScene]`: undefined outside the sequence. */
  function SceneAt(xs: seq<Scene>, i: int): (r: Option<Scene>)
    ensures r.Some? <==> 0 <= i < |xs|
    ensures r.Some? ==> r.value == xs[i]
  {
    if 0 <= i < |xs| then Some(xs[i]) else None
  }

  /** A rendered marker: the scene it shows, whether it can be dragged, and
      whether it reports the end of a drag. */
  datatype Marker = Marker(scene: Scene, draggable: bool, reportsDrag: bool)

  /** DraggableMarker: draggable, and fitted with the drag handler, exactly in author mode. */
  function MarkerFor(x: Scene, isAuthorMode: bool): (m: Marker)
    ensures m.scene == x
    ensures m.draggable <==> isAuthorMode
    ensures m.reportsDrag <==> isAuthorMode
  {
    Marker(x, isAuthorMode, isAuthorMode)
  }

  /** The markers on the map: every scene in story order in author mode, the
      current scene alone (if the index is valid) in reader mode. */
  function Markers(xs: seq<Scene>, currentScene: int, isAuthorMode: bool): (r: seq<Marker>)
    ensures isAuthorMode ==> |r| == |xs| && forall i :: 0 <= i < |xs| ==> r[i].scene == xs[i]
    ensures !isAuthorMode ==> |r| <= 1
    ensures !isAuthorMode ==> (r != [] <==> 0 <= currentScene < |xs|)
    ensures !isAuthorMode && r != [] ==> r[0].scene == xs[currentScene]
    ensures forall i :: 0 <= i < |r| ==> (r[i].draggable <==> isAuthorMode) && (r[i].reportsDrag <==> isAuthorMode)
  {
    if isAuthorMode then
      seq(|xs|, i requires 0 <= i < |xs| => MarkerFor(xs[i], true))
    else
      match SceneAt(xs, currentScene)
      case None => []
      case Some(x) => [MarkerFor(x, false)]
  }

  /** Where `Array.prototype.slice(0, end)` stops on an array of length `n`: a
      negative end counts back from the length, and the result is clamped to [0, n]. */
  function SliceEnd(n: nat, end: int): (k: nat)
    ensures k <= n
    ensures 0 <= end ==> k == if end < n then end else n
    ensures end < 0 ==> k == if n + end < 0 then 0 else n + end
  {
    if end < 0 then (if n + end < 0 then 0 else n + end)
    else if end < n then end else n
  }

  /** The positions of the scenes, in order. */
  function Positions(xs: seq<Scene>): (r: seq<LatLng>)
    ensures |r| == |xs|
    ensures forall i :: 0 <= i < |xs| ==> r[i] == xs[i].position
  {
    seq(|xs|, i requires 0 <= i < |xs| => xs[i].position)
  }

  /** `pathPositions`: the positions of the scenes up to and including the
      current one. */
  function PathPositions(xs: seq<Scene>, currentScene: int): (r: seq<LatLng>)
    ensures |r| == SliceEnd(|xs|, currentScene + 1)
    ensures forall i :: 0 <= i < |r| ==> r[i] == xs[i].position
  {
    Positions(xs[..SliceEnd(|xs|, currentScene + 1)])
  }

  /** For a non-negative index the path is the first min(currentScene + 1, N)
      scene positions: a prefix of all of them. */
  lemma PathIsPrefix(xs: seq<Scene>, currentScene: int)
    requires 0 <= currentScene
    ensures var k := if currentScene + 1 < |xs| then currentScene + 1 else |xs|;
      PathPositions(xs, currentScene) == Positions(xs)[..k]
  {
  }

  /** Moving the index forward only extends the path. */
  lemma PathGrows(xs: seq<Scene>, i: int, j: int)
    requires 0 <= i <= j
    ensures PathPositions(xs, i) <= PathPositions(xs, j)
  {
  }

  /** The drawn line: its vertices, colour and dash pattern (None: solid). */
  datatype Line = Line(positions: seq<LatLng>, color: string, dashArray: Option<string>)

  /** The path line as MapEditor draws it: only when the path toggle is on and
      the played prefix has more than one position; all scene positions in
      author mode (red, dashed), the played prefix in reader mode (blue, solid). */
  function PathLine(xs: seq<Scene>, currentScene: int, showPath: bool, isAuthorMode: bool): (r: Option<Line>)
    ensures r.Some? <==> showPath && |PathPositions(xs, currentScene)| > 1
    ensures r.Some? && isAuthorMode ==> r.value == Line(Positions(xs), AuthorColor, Some(AuthorDash))
    ensures r.Some? && !isAuthorMode ==> r.value == Line(PathPositions(xs, currentScene), ReaderColor, None)
  {
    if showPath && |PathPositions(xs, currentScene)| > 1 then
      if isAuthorMode then Some(Line(Positions(xs), AuthorColor, Some(AuthorDash)))
      else Some(Line(PathPositions(xs, currentScene), ReaderColor, None))
    else None
  }

  /** In author mode the preview is gated on the reader's prefix: at the first
      scene no line is drawn however many scenes the story has. */
  lemma AuthorPathHiddenAtFirstScene(xs: seq<Scene>)
    requires |xs| >= 2
    ensures PathLine(xs, 0, true, true) == None
  {
  }

  /** The path line gated on the positions it draws, so that the author
      preview shows whenever the story has two scenes or more. */
  function IntendedPathLine(xs: seq<Scene>, currentScene: int, showPath: bool, isAuthorMode: bool): (r: Option<Line>)
    ensures r.Some? ==> showPath && |r.value.positions| > 1
    ensures r.Some? && isAuthorMode ==> r.value == Line(Positions(xs), AuthorColor, Some(AuthorDash))
    ensures r.Some? && !isAuthorMode ==> r.value == Line(PathPositions(xs, currentScene), ReaderColor, None)
    ensures !isAuthorMode ==> r == PathLine(xs, currentScene, showPath, isAuthorMode)
  {
    var positions := if isAuthorMode then Positions(xs) else PathPositions(xs, currentScene);
    if showPath && |positions| > 1 then
      if isAuthorMode then Some(Line(positions, AuthorColor, Some(AuthorDash)))
      else Some(Line(positions, ReaderColor, None))
    else None
  }

  /** With the correction the author preview joins every scene whenever there
      are at least two, wherever the index stands. */
  lemma IntendedAuthorPathShown(xs: seq<Scene>, currentScene: int)
    requires |xs| >= 2
    ensures IntendedPathLine(xs, currentScene, true, true) == Some(Line(Positions(xs), AuthorColor, Some(AuthorDash)))
  {
  }

  /** The map centre: the current scene's position, else the default centre. */
  function Center(xs: seq<Scene>, currentScene: int): (r: LatLng)
    ensures 0 <= currentScene < |xs| ==> r == xs[currentScene].position
    ensures !(0 <= currentScene < |xs|) ==> r == DefaultCenter
  {
    match SceneAt(xs, currentScene)
    case Some(x) => x.position
    case None => DefaultCenter
  }

  /** In reader mode the marker shown, the last vertex of the path and the map
      centre are all the current scene's position. */
  lemma ReaderViewAgrees(xs: seq<Scene>, currentScene: int)
    requires 0 <= currentScene < |xs|
    ensures Markers(xs, currentScene, false) == [Marker(xs[currentScene], false, false)]
    ensures var path := PathPositions(xs, currentScene);
      |path| == currentScene + 1 && path[currentScene] == Center(xs, currentScene)
  {
  }
}
