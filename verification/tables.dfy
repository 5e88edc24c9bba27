/** The generator's static capability tables and the positional lookup used
    for the aspect-ratio table. */
module Tables {
  import opened Values

  /** Aspect-ratio names in the order of the frontend's aspect-ratio
      enumeration: a name's position is the index written to the
      configuration, so the order is part of the file format. */

  const RatioIndexes: seq<string> := [
    "4/3", "16/9", "16/10", "16/15", "1/1", "2/1", "3/2", "3/4", "4/1", "4/4", "5/4",
    "6/5", "7/9", "8/3", "8/7", "19/12", "19/14", "30/17", "32/9", "config", "squarepixel"]

  /** The aspect-ratio index reserved for an overlay-driven viewport. */
  const OverlayAspectIndex: int := 22

  /** Libretro device codes some cores need per player. */
  const CoreToP1Device: map<string, string> := map["cap32" := "513", "81" := "257", "fuse" := "513"]
  const CoreToP2Device: map<string, string> := map["fuse" := "513"]

  /** Systems that may use retro-achievements. */
  const SystemToRetroachievements: set<string> := {"snes", "nes", "gba", "gb", "gbc", "megadrive", "pcengine"}

  /** Systems on which rewind is never enabled. */
  const SystemNoRewind: set<string> := {"sega32x", "psx", "zxspectrum", "odyssey2", "mame", "n64"}

  /** Systems emulated by the bluemsx core, with the machine type it is given. */
  const SystemToBluemsx: map<string, string> :=
    map["msx" := "\"MSX2\"", "msx1" := "\"MSX2\"", "msx2" := "\"MSX2\"", "colecovision" := "\"COL - ColecoVision\""]

  /** Device codes for the systems of the bluemsx core. */
  const SystemToP1Device: map<string, string> :=
    map["msx" := "257", "msx1" := "257", "msx2" := "257", "colecovision" := "513"]
  const SystemToP2Device: map<string, string> :=
    map["msx" := "257", "msx1" := "257", "msx2" := "257", "colecovision" := "513"]

  /** The recognised netplay modes. */
  const NetplayModes: set<string> := {"host", "client"}

  /** The position of the first occurrence of `x` in `s`, as a list's
      `index` gives it, or None when `x` does not occur. */
  function IndexOf<T(==)>(s: seq<T>, x: T): (r: Option<nat>)
    ensures r.None? ==> forall j :: 0 <= j < |s| ==> s[j] != x
    ensures r.Some? ==> r.value < |s| && s[r.value] == x
    ensures r.Some? ==> forall j :: 0 <= j < r.value ==> s[j] != x
  {
    if |s| == 0 then None
    else if s[0] == x then Some(0)
    else
      match IndexOf(s[1..], x)
      case None => None
      case Some(i) => Some(i + 1)
  }

  /** Membership is exactly a successful lookup. */
  lemma IndexOfFinds<T>(s: seq<T>, x: T)
    ensures x in s <==> IndexOf(s, x).Some?
  {
  }

  /** No two entries of `s` are equal. */
  predicate Distinct<T(==)>(s: seq<T>)
  {
    forall i, j :: 0 <= i < j < |s| ==> s[i] != s[j]
  }

  /** In a table without repeated entries, looking an entry up gives back
      its own position. */
  lemma {:induction false} IndexOfDistinct<T>(s: seq<T>, i: nat)
    requires Distinct(s)
    requires i < |s|
    ensures IndexOf(s, s[i]) == Some(i)
  {
    assert s[i] in s;
  }

  /** The aspect-ratio table has no repeated name. */
  lemma RatioIndexesDistinct()
    ensures Distinct(RatioIndexes)
    ensures |RatioIndexes| == 21
  {
    var s := RatioIndexes;
    forall i, j | 0 <= i < j < |s| ensures s[i] != s[j] {
      // two names differ in their first character, their length or the rest
      assert s[i][0] != s[j][0] || |s[i]| != |s[j]| || s[i][1..] != s[j][1..];
    }
  }

  /** Every name of the aspect-ratio table looks up to its own position, and
      the overlay sentinel lies beyond the table. */
  lemma RatioIndexRoundTrip(i: nat)
    requires i < |RatioIndexes|
    ensures IndexOf(RatioIndexes, RatioIndexes[i]) == Some(i)
    ensures i != OverlayAspectIndex
  {
    RatioIndexesDistinct();
    IndexOfDistinct(RatioIndexes, i);
  }

  /** The widescreen ratio "16/9" is entry 1 of the table. */
  lemma SixteenByNineIsOne()
    ensures IndexOf(RatioIndexes, "16/9") == Some(1)
  {
    RatioIndexRoundTrip(1);
  }

  /** "custom" names no entry of the aspect-ratio table. */
  lemma CustomIsNotARatio()
    ensures "custom" !in RatioIndexes
    ensures IndexOf(RatioIndexes, "custom") == None
  {
  }

  /** The three bluemsx tables are keyed by the same systems, so a system of
      the bluemsx core always has device codes for both players. */
  lemma BluemsxTablesAgree(name: string)
    requires name in SystemToBluemsx
    ensures name in SystemToP1Device && name in SystemToP2Device
  {
  }
}
