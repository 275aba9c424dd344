/** src/components/Gauge.jsx: the shown score clamped to [0, 100] and the mood
    label of its band. */
module Gauge {
  import opened Js

  /** `Math.max(0, Math.min(100, Number(value) || 0))` */
  function Pct(value: Option<Json>): (pct: real)
    ensures 0.0 <= pct <= 100.0
    ensures ToNumber(value).None? ==> pct == 0.0
    ensures ToNumber(value).Some? ==>
              var x := ToNumber(value).value;
              (x <= 0.0 ==> pct == 0.0) && (100.0 <= x ==> pct == 100.0) && (0.0 <= x <= 100.0 ==> pct == x)
  {
    var x := NumberOrZero(value);
    if x < 0.0 then 0.0 else if x > 100.0 then 100.0 else x
  }

  /** The five moods, mildest first. */
  datatype Mood = Amazing | Good | SlightlyAids | Aids | Apocalypse

  /** The label the gauge prints. */
  function Label(m: Mood): string
  {
    match m
    case Amazing => "\U{1F60D} Amazing"
    case Good => "\U{1F642} Good"
    case SlightlyAids => "\U{1F610} Slightly Aids"
    case Aids => "\U{1F616} Aids"
    case Apocalypse => "\U{1F480} Aids apocalypse"
  }

  /** How bad a mood is, 0 to 4. */
  function Severity(m: Mood): nat
  {
    match m
    case Amazing => 0
    case Good => 1
    case SlightlyAids => 2
    case Aids => 3
    case Apocalypse => 4
  }

  /** The cascade of `if (pct >= t) mood = ...`: the last threshold reached wins. */
  function MoodOf(pct: real): (m: Mood)
  {
    var m0 := Amazing;
    var m1 := if pct >= 20.0 then Good else m0;
    var m2 := if pct >= 40.0 then SlightlyAids else m1;
    var m3 := if pct >= 60.0 then Aids else m2;
    if pct >= 80.0 then Apocalypse else m3
  }

  /** The bands: below 20, [20, 40), [40, 60), [60, 80), and 80 and above. */
  lemma MoodBands(pct: real)
    ensures MoodOf(pct) == Amazing <==> pct < 20.0
    ensures MoodOf(pct) == Good <==> 20.0 <= pct < 40.0
    ensures MoodOf(pct) == SlightlyAids <==> 40.0 <= pct < 60.0
    ensures MoodOf(pct) == Aids <==> 60.0 <= pct < 80.0
    ensures MoodOf(pct) == Apocalypse <==> 80.0 <= pct
  {
  }

  /** A higher score never shows a milder mood. */
  lemma MoodMonotone(a: real, b: real)
    requires a <= b
    ensures Severity(MoodOf(a)) <= Severity(MoodOf(b))
  {
  }

  /** Each band's label names its mood distinctly. */
  lemma LabelsDistinct(m: Mood, n: Mood)
    requires m != n
    ensures Label(m) != Label(n)
  {
    assert Label(m)[1] == ' ' && Label(n)[1] == ' ';
    assert Label(m)[0] != Label(n)[0];
  }

  /** Values above 100 display like 100, values below 0 like 0. */
  lemma ClampedEnds(x: real)
    ensures 100.0 <= x ==> Pct(Some(Num(x))) == Pct(Some(Num(100.0))) && MoodOf(Pct(Some(Num(x)))) == Apocalypse
    ensures x <= 0.0 ==> Pct(Some(Num(x))) == Pct(Some(Num(0.0))) && MoodOf(Pct(Some(Num(x)))) == Amazing
  {
  }

  /** Anything `Number` turns into NaN, and every zero-like value, shows 0 and
      "Amazing". */
  lemma NonNumericShowsZero(value: Option<Json>)
    requires ToNumber(value).None? || ToNumber(value) == Some(0.0)
    ensures Pct(value) == 0.0 && MoodOf(Pct(value)) == Amazing
  {
  }
}
