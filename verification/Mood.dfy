/** The persistent mood of app/brain/emotion_engine.py: a moving average rounded to three decimals
    at every update, in exact decimal arithmetic. */
module Mood {

  datatype Valence = Positive | Negative | Neutral | Mixed {
    function Num(): real {
      match this case Positive => 1.0 case Negative => -1.0 case _ => 0.0
    }
  }

  datatype Arousal = Low | Medium | High | VeryHigh {
    function Num(): real {
      match this case Low => 0.25 case Medium => 0.5 case High => 0.75 case VeryHigh => 1.0
    }
  }

  datatype Emotion = Emotion(valence: Valence, arousal: Arousal, intensity: real)

  datatype Mood = Mood(valence: real, arousal: real)

  /** The nearest integer, ties to the even one. */
  function Nearest(x: real): int {
    var n := x.Floor;
    var f := x - n as real;
    if f < 0.5 then n else if f > 0.5 then n + 1 else if n % 2 == 0 then n else n + 1
  }

  /** `round(x, 3)` */
  function Round3(x: real): real {
    Nearest(x * 1000.0) as real / 1000.0
  }

  lemma RoundIsNear(x: real)
    ensures -0.0005 <= Round3(x) - x <= 0.0005
  {
    var y := x * 1000.0;
    assert -0.5 <= Nearest(y) as real - y <= 0.5;
  }

  /** Three decimals: the nearest thousandth, and of two equally near ones the even one. */
  lemma RoundIs(x: real, n: int)
    ensures Round3(x) == n as real / 1000.0 <==>
      || -0.5 < 1000.0 * x - n as real < 0.5
      || (n % 2 == 0 && (1000.0 * x - n as real == 0.5 || n as real - 1000.0 * x == 0.5))
  {
    var y := x * 1000.0;
    assert Round3(x) == n as real / 1000.0 <==> Nearest(y) == n;
  }

  /** Rounding never leaves an interval whose ends are whole numbers. */
  lemma RoundStaysBetween(x: real, lo: int, hi: int)
    requires lo as real <= x <= hi as real
    ensures lo as real <= Round3(x) <= hi as real
  {
    var y := x * 1000.0;
    assert (1000 * lo) as real <= y <= (1000 * hi) as real;
    assert 1000 * lo <= Nearest(y) <= 1000 * hi;
    assert (1000 * lo) as real == 1000.0 * lo as real && (1000 * hi) as real == 1000.0 * hi as real;
  }

  function SumValence(es: seq<Emotion>): real {
    if es == [] then 0.0 else es[0].valence.Num() * es[0].intensity + SumValence(es[1..])
  }

  function SumArousal(es: seq<Emotion>): real {
    if es == [] then 0.0 else es[0].arousal.Num() * es[0].intensity + SumArousal(es[1..])
  }

  predicate Proper(es: seq<Emotion>) {
    forall k :: 0 <= k < |es| ==> 0.0 <= es[k].intensity <= 1.0
  }

  function MeanValence(es: seq<Emotion>): real
    requires es != []
  {
    SumValence(es) / |es| as real
  }

  function MeanArousal(es: seq<Emotion>): real
    requires es != []
  {
    SumArousal(es) / |es| as real
  }

  function Blend(prev: real, next: real): real {
    0.8 * prev + 0.2 * next
  }

  /** `_update_mood`: an update without active emotions leaves both numbers alone. */
  function Updated(m: Mood, es: seq<Emotion>): Mood {
    if es == [] then m
    else Mood(Round3(Blend(m.valence, MeanValence(es))), Round3(Blend(m.arousal, MeanArousal(es))))
  }

  method UpdateMood(m: Mood, es: seq<Emotion>) returns (r: Mood)
    ensures r == Updated(m, es)
  {
    r := m;
    if es != [] {
      var v, a := 0.0, 0.0;
      for i := 0 to |es|
        invariant v + SumValence(es[i..]) == SumValence(es)
        invariant a + SumArousal(es[i..]) == SumArousal(es)
      {
        assert es[i..][1..] == es[i + 1..];
        v := v + es[i].valence.Num() * es[i].intensity;
        a := a + es[i].arousal.Num() * es[i].intensity;
      }
      v, a := v / |es| as real, a / |es| as real;
      r := Mood(Round3(Blend(m.valence, v)), Round3(Blend(m.arousal, a)));
    }
  }

  /** The total intensity of the emotions of one kind. */
  function Total(es: seq<Emotion>, kind: Emotion -> bool): real {
    if es == [] then 0.0 else (if kind(es[0]) then es[0].intensity else 0.0) + Total(es[1..], kind)
  }

  lemma {:induction false} SumsAreTotals(es: seq<Emotion>)
    ensures SumValence(es) == Total(es, (e: Emotion) => e.valence.Positive?)
                            - Total(es, (e: Emotion) => e.valence.Negative?)
    ensures SumArousal(es) == 0.25 * Total(es, (e: Emotion) => e.arousal.Low?)
                            + 0.5 * Total(es, (e: Emotion) => e.arousal.Medium?)
                            + 0.75 * Total(es, (e: Emotion) => e.arousal.High?)
                            + Total(es, (e: Emotion) => e.arousal.VeryHigh?)
  {
    if es == [] {
    } else {
      SumsAreTotals(es[1..]);
    }
  }

  /** An update keeps four fifths of the old numbers. The last fifth is an average over all active
      emotions: of positive less negative intensity, and of intensity weighted by arousal. */
  lemma UpdateIs(m: Mood, es: seq<Emotion>)
    requires es != []
    ensures var n := |es| as real;
      var v := 0.8 * m.valence + 0.2 * ((Total(es, (e: Emotion) => e.valence.Positive?)
                                         - Total(es, (e: Emotion) => e.valence.Negative?)) / n);
      var a := 0.8 * m.arousal + 0.2 * ((0.25 * Total(es, (e: Emotion) => e.arousal.Low?)
                                         + 0.5 * Total(es, (e: Emotion) => e.arousal.Medium?)
                                         + 0.75 * Total(es, (e: Emotion) => e.arousal.High?)
                                         + Total(es, (e: Emotion) => e.arousal.VeryHigh?)) / n);
      && Smooth(m, es) == Mood(v, a)
      && -0.0005 <= Updated(m, es).valence - v <= 0.0005
      && -0.0005 <= Updated(m, es).arousal - a <= 0.0005
    ensures Updated(m, []) == m
  {
    SumsAreTotals(es);
    RoundIsNear(Smooth(m, es).valence);
    RoundIsNear(Smooth(m, es).arousal);
  }

  /** The same average without rounding. */
  function Smooth(m: Mood, es: seq<Emotion>): Mood {
    if es == [] then m
    else Mood(Blend(m.valence, MeanValence(es)), Blend(m.arousal, MeanArousal(es)))
  }

  function Stored(m: Mood, updates: seq<seq<Emotion>>): Mood {
    if updates == [] then m else Updated(Stored(m, updates[..|updates| - 1]), updates[|updates| - 1])
  }

  function Exact(m: Mood, updates: seq<seq<Emotion>>): Mood {
    if updates == [] then m else Smooth(Exact(m, updates[..|updates| - 1]), updates[|updates| - 1])
  }

  lemma {:induction false} SumsBounded(es: seq<Emotion>)
    requires Proper(es)
    ensures -(|es| as real) <= SumValence(es) <= |es| as real
    ensures 0.0 <= SumArousal(es) <= |es| as real
  {
    if es == [] {
    } else {
      SumsBounded(es[1..]);
      var x := es[0].intensity;
      assert -1.0 <= es[0].valence.Num() * x <= 1.0;
      assert 0.0 <= es[0].arousal.Num() * x <= 1.0;
    }
  }

  lemma DivBounded(s: real, n: real, lo: real)
    requires n > 0.0 && lo * n <= s <= n
    ensures lo <= s / n <= 1.0
  {
    var q := s / n;
    assert q * n == s;
  }

  lemma MeansBounded(es: seq<Emotion>)
    requires Proper(es) && es != []
    ensures -1.0 <= MeanValence(es) <= 1.0 && 0.0 <= MeanArousal(es) <= 1.0
  {
    SumsBounded(es);
    DivBounded(SumValence(es), |es| as real, -1.0);
    DivBounded(SumArousal(es), |es| as real, 0.0);
  }

  predicate InRange(m: Mood) {
    -1.0 <= m.valence <= 1.0 && 0.0 <= m.arousal <= 1.0
  }

  predicate Close(a: Mood, b: Mood) {
    -0.0025 <= a.valence - b.valence <= 0.0025 && -0.0025 <= a.arousal - b.arousal <= 0.0025
  }

  /** Over any number of updates the stored mood stays in range and never drifts more than 0.0025
      from the unrounded average: each rounding adds at most 0.0005 and each step forgets a fifth. */
  lemma {:induction false} MoodTracksAverage(m: Mood, updates: seq<seq<Emotion>>)
    requires InRange(m) && forall k :: 0 <= k < |updates| ==> Proper(updates[k])
    ensures InRange(Stored(m, updates)) && Close(Stored(m, updates), Exact(m, updates))
  {
    if updates == [] {
    } else {
      var n := |updates| - 1;
      MoodTracksAverage(m, updates[..n]);
      StepTracks(Stored(m, updates[..n]), Exact(m, updates[..n]), updates[n]);
    }
  }

  lemma StepTracks(s: Mood, x: Mood, es: seq<Emotion>)
    requires InRange(s) && Close(s, x) && Proper(es)
    ensures InRange(Updated(s, es)) && Close(Updated(s, es), Smooth(x, es))
  {
    hide Round3, MeanValence, MeanArousal;
    if es != [] {
      MeansBounded(es);
      var v, a := Blend(s.valence, MeanValence(es)), Blend(s.arousal, MeanArousal(es));
      RoundIsNear(v);
      RoundIsNear(a);
      RoundStaysBetween(v, -1, 1);
      RoundStaysBetween(a, 0, 1);
    }
  }

  function Power(n: nat): real {
    if n == 0 then 1.0 else 0.8 * Power(n - 1)
  }

  /** Where the mood began is forgotten by a fifth at every update with active emotions. */
  lemma {:induction false} ForgetsAFifth(m: Mood, other: Mood, updates: seq<seq<Emotion>>)
    requires forall k :: 0 <= k < |updates| ==> updates[k] != []
    ensures var x, y, p := Exact(m, updates), Exact(other, updates), Power(|updates|);
      && x.valence - y.valence == p * (m.valence - other.valence)
      && x.arousal - y.arousal == p * (m.arousal - other.arousal)
  {
    if updates == [] {
    } else {
      ForgetsAFifth(m, other, updates[..|updates| - 1]);
    }
  }

  /** So two stored moods that see the same emotions end within 0.005 of each other, plus what is left
      of their first distance. */
  lemma StartIsForgotten(m: Mood, other: Mood, updates: seq<seq<Emotion>>)
    requires InRange(m) && InRange(other)
    requires forall k :: 0 <= k < |updates| ==> updates[k] != [] && Proper(updates[k])
    ensures var d := Stored(m, updates).valence - Stored(other, updates).valence
                   - Power(|updates|) * (m.valence - other.valence);
      -0.005 <= d <= 0.005
    ensures var d := Stored(m, updates).arousal - Stored(other, updates).arousal
                   - Power(|updates|) * (m.arousal - other.arousal);
      -0.005 <= d <= 0.005
  {
    MoodTracksAverage(m, updates);
    MoodTracksAverage(other, updates);
    ForgetsAFifth(m, other, updates);
  }
}
