/**
 The colours both maps use and the earthquake magnitude scale: five inclusive
 lower bounds (3 to 7) splitting magnitudes into six bands, each band with a
 colour and a marker radius.
 */
module Palette {
  import opened MapLayers

  const Green: Color := "#00ff00"
  const Yellow: Color := "#ffff00"
  const Orange: Color := "#ffa500"
  const OrangeRed: Color := "#ff6600"
  const Red: Color := "#ff0000"
  const DarkRed: Color := "#8b0000"
  const Black: Color := "#000000"

  /** Inclusive lower bounds of the magnitude bands, ascending. */
  const QuakeThresholds: seq<real> := [3.0, 4.0, 5.0, 6.0, 7.0]

  /** Band colours from calm to alarming: entry k colours a magnitude that reaches exactly k thresholds. */
  const QuakeScale: seq<Color> := [Green, Yellow, Orange, OrangeRed, Red, DarkRed]

  /** Band radii, in the same order. */
  const SizeSteps: seq<real> := [6.0, 8.0, 10.0, 12.0, 16.0, 20.0]

  /** How many of the bounds `ts` the magnitude `m` reaches. */
  function CountReached(ts: seq<real>, m: real): (k: nat)
    ensures k <= |ts|
  {
    if ts == [] then 0 else (if m >= ts[0] then 1 else 0) + CountReached(ts[1..], m)
  }

  /** The band of a magnitude: 0 below 3, 5 from 7 up. */
  function Reach(m: real): (k: nat)
    ensures k < |QuakeScale| && k < |SizeSteps|
  {
    CountReached(QuakeThresholds, m)
  }

  /** The band, spelled out threshold by threshold. */
  lemma ReachBands(m: real)
    ensures m < 3.0 ==> Reach(m) == 0
    ensures 3.0 <= m < 4.0 ==> Reach(m) == 1
    ensures 4.0 <= m < 5.0 ==> Reach(m) == 2
    ensures 5.0 <= m < 6.0 ==> Reach(m) == 3
    ensures 6.0 <= m < 7.0 ==> Reach(m) == 4
    ensures 7.0 <= m ==> Reach(m) == 5
  {
    var t7, t6, t5, t4 := [7.0], [6.0, 7.0], [5.0, 6.0, 7.0], [4.0, 5.0, 6.0, 7.0];
    assert t7[1..] == [] && t6[1..] == t7 && t5[1..] == t6 && t4[1..] == t5 && QuakeThresholds[1..] == t4;
    var c7 := CountReached(t7, m);
    var c6 := CountReached(t6, m);
    var c5 := CountReached(t5, m);
    var c4 := CountReached(t4, m);
    assert c7 == if m >= 7.0 then 1 else 0;
    assert c6 == (if m >= 6.0 then 1 else 0) + c7;
    assert c5 == (if m >= 5.0 then 1 else 0) + c6;
    assert c4 == (if m >= 4.0 then 1 else 0) + c5;
    assert Reach(m) == (if m >= 3.0 then 1 else 0) + c4;
  }

  /** A larger magnitude never reaches fewer bounds. */
  lemma {:induction false} CountReachedMonotone(ts: seq<real>, m1: real, m2: real)
    requires m1 <= m2
    ensures CountReached(ts, m1) <= CountReached(ts, m2)
  {
    if ts != [] {
      CountReachedMonotone(ts[1..], m1, m2);
    }
  }

  /** Position of a colour on the magnitude scale, -1 when it is not on it. */
  function Level(c: Color): int {
    if c == Green then 0
    else if c == Yellow then 1
    else if c == Orange then 2
    else if c == OrangeRed then 3
    else if c == Red then 4
    else if c == DarkRed then 5
    else -1
  }

  /** The scale's colours are distinct, so each one's level is its index. */
  lemma LevelOfScale(k: nat)
    requires k < |QuakeScale|
    ensures Level(QuakeScale[k]) == k
  {
  }
}
