/** The story document shared by the editor, the player and the map view:
    scenes anchored at a position, in playback order. */
module Scenes {

  datatype Option<+T> = None | Some(value: T)

  /** A geographic position, the `[lat, lng]` pair of the source. Coordinates
      are reals: floating-point rounding is not modelled. */
  datatype LatLng = LatLng(lat: real, lng: real)

  /** One narrative waypoint. `id` is opaque (the source draws it from the clock). */
  datatype Scene = Scene(id: int, title: string, description: string, position: LatLng, timestamp: int)

  /** The authored document: a title and the scenes in playback order. */
  datatype Story = Story(title: string, scenes: seq<Scene>)

  /** Every scene's timestamp equals its 0-based index. */
  predicate Normalized(xs: seq<Scene>) {
    forall i :: 0 <= i < |xs| ==> xs[i].timestamp == i
  }

  /** A scene with its timestamp forgotten: what renumbering leaves intact. */
  function Erase(x: Scene): Scene {
    x.(timestamp := 0)
  }

  /** Some scene carries the given id. */
  predicate HasId(xs: seq<Scene>, id: int) {
    exists i :: 0 <= i < |xs| && xs[i].id == id
  }

  // Decimal rendering of a count, as a template literal `${n}` prints it.

  function DigitChar(d: nat): (c: char)
    requires d < 10
    ensures '0' <= c <= '9'
  {
    (48 + d) as char
  }

  function DigitValue(c: char): nat {
    if '0' <= c <= '9' then c as int - 48 else 0
  }

  function NatToString(n: nat): (s: string)
    ensures |s| >= 1
    ensures forall i :: 0 <= i < |s| ==> '0' <= s[i] <= '9'
    ensures s[0] == '0' ==> n == 0
    decreases n
  {
    if n < 10 then [DigitChar(n)] else NatToString(n / 10) + [DigitChar(n % 10)]
  }

  /** Reads a string of decimal digits back into the number it denotes. */
  function ParseDecimal(s: string): nat
    decreases |s|
  {
    if s == [] then 0 else ParseDecimal(s[..|s| - 1]) * 10 + DigitValue(s[|s| - 1])
  }

  /** The decimal rendering is read back to the number it came from. */
  lemma {:induction false} ParseNatToString(n: nat)
    ensures ParseDecimal(NatToString(n)) == n
    decreases n
  {
    if n >= 10 {
      var s := NatToString(n / 10);
      var t := s + [DigitChar(n % 10)];
      assert t[..|t| - 1] == s;
      ParseNatToString(n / 10);
    }
  }

  /** Different counts render to different strings. */
  lemma NatToStringInjective(m: nat, n: nat)
    ensures NatToString(m) == NatToString(n) ==> m == n
  {
    ParseNatToString(m);
    ParseNatToString(n);
  }
}
