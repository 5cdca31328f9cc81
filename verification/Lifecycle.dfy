/** app/brain/module_lifecycle.py with the health samples of module_runtime.py, the red/green test
    of canary_controller.py and the score of module_evaluator.py. */
module Lifecycle {
  import opened PyText

  datatype Status = Shadow | Canary5 | Canary25 | Active | Rollback | Other

  /** One recorded sample: 100 points when quick, 75 when slow, 40 with error rate 1 on failure. */
  datatype Sample = Quick | Slow | Failing {
    function Points(): nat {
      match this case Quick => 100 case Slow => 75 case Failing => 40
    }

    function Errors(): nat {
      if Failing? then 1 else 0
    }
  }

  datatype Module = Module(
    status: Status, samples: seq<Sample>, score: int, risk: string, activeVersion: Option<string>, version: string)

  datatype Settings = Settings(
    autonomous: bool, maxRisk: string, minLow: int, minMedium: int, minHigh: int, minSamples: int)

  // ----- gates --------------------------------------------------------------------

  const WINDOW := 10

  function RiskOrder(risk: string, unknown: int): int {
    if risk == "low" then 1 else if risk == "medium" then 2
    else if risk == "high" then 3 else if risk == "critical" then 4 else unknown
  }

  function ScoreThreshold(s: Settings, risk: string): int {
    if risk == "low" then s.minLow else if risk == "medium" then s.minMedium
    else if risk == "high" then s.minHigh else if risk == "critical" then 101 else s.minHigh
  }

  predicate MayActivate(s: Settings, risk: string) {
    s.autonomous && RiskOrder(risk, 4) <= RiskOrder(s.maxRisk, 2)
  }

  /** The newest samples, at most ten of them. */
  function Window(samples: seq<Sample>): (w: seq<Sample>)
    ensures |w| == if |samples| <= WINDOW then |samples| else WINDOW
  {
    if |samples| <= WINDOW then samples else samples[|samples| - WINDOW..]
  }

  function SumPoints(w: seq<Sample>): nat {
    if w == [] then 0 else w[0].Points() + SumPoints(w[1..])
  }

  function SumErrors(w: seq<Sample>): nat {
    if w == [] then 0 else w[0].Errors() + SumErrors(w[1..])
  }

  function Count(w: seq<Sample>, s: Sample): nat {
    if w == [] then 0 else (if w[0] == s then 1 else 0) + Count(w[1..], s)
  }

  /** The aggregate read by the gate: with no samples the score is 100 and the error rate 0. */
  datatype Health = Health(samples: nat, score: real, errorRate: real)

  method ComputeHealth(samples: seq<Sample>) returns (h: Health)
    ensures h == HealthOf(samples)
  {
    var w := Window(samples);
    if |w| == 0 {
      return Health(0, 100.0, 0.0);
    }
    var points, errors := 0, 0;
    for i := 0 to |w|
      invariant points + SumPoints(w[i..]) == SumPoints(w)
      invariant errors + SumErrors(w[i..]) == SumErrors(w)
    {
      assert w[i..][1..] == w[i + 1..];
      points := points + w[i].Points();
      errors := errors + w[i].Errors();
    }
    h := Health(|w|, points as real / |w| as real, errors as real / |w| as real);
  }

  function HealthOf(samples: seq<Sample>): Health {
    var w := Window(samples);
    if w == [] then Health(0, 100.0, 0.0)
    else Health(|w|, SumPoints(w) as real / |w| as real, SumErrors(w) as real / |w| as real)
  }

  /** `auto_rollback_if_needed`; no sample ever records a safety violation or a privacy leak. */
  predicate Red(h: Health) {
    h.errorRate > 0.02 || h.score < 80.0
  }

  /** What green means for the samples themselves: none of the last ten failed, and at most four
      in five were slow. */
  predicate Green(samples: seq<Sample>) {
    var w := Window(samples);
    Failing !in w && 5 * Count(w, Slow) <= 4 * |w|
  }

  lemma {:induction false} SumsAreCounts(w: seq<Sample>)
    ensures SumErrors(w) == Count(w, Failing)
    ensures SumPoints(w) == 100 * Count(w, Quick) + 75 * Count(w, Slow) + 40 * Count(w, Failing)
    ensures |w| == Count(w, Quick) + Count(w, Slow) + Count(w, Failing)
    ensures Count(w, Failing) == 0 <==> Failing !in w
  {
    if w == [] {
    } else {
      SumsAreCounts(w[1..]);
      assert Failing in w <==> w[0] == Failing || Failing in w[1..];
    }
  }

  /** The aggregate in plain numbers: the mean over the ten newest samples, a quick one being worth 100,
      a slow one 75 and a failing one 40; a module that was never sampled is in perfect health. */
  lemma HealthIs(samples: seq<Sample>)
    ensures samples == [] ==> HealthOf(samples) == Health(0, 100.0, 0.0)
    ensures samples != [] ==>
      var w := if |samples| > 10 then samples[|samples| - 10..] else samples;
      var points := 100 * Count(w, Quick) + 75 * Count(w, Slow) + 40 * Count(w, Failing);
      && HealthOf(samples).samples == |w|
      && HealthOf(samples).score * |w| as real == points as real
      && HealthOf(samples).errorRate * |w| as real == Count(w, Failing) as real
      && (Count(w, Failing) == 0 <==> Failing !in w)
  {
    hide HealthOf, Count, SumPoints, SumErrors;
    MeansTimesSize(samples);
    SumsAreCounts(Window(samples));
  }

  lemma MeansTimesSize(samples: seq<Sample>)
    ensures samples == [] ==> HealthOf(samples) == Health(0, 100.0, 0.0)
    ensures samples != [] ==>
      var w, h := Window(samples), HealthOf(samples);
      && h.samples == |w|
      && h.score * |w| as real == SumPoints(w) as real
      && h.errorRate * |w| as real == SumErrors(w) as real
  {
    hide SumPoints, SumErrors;
    var w := Window(samples);
    if samples != [] {
      TimesBack(SumPoints(w) as real, |w| as real);
      TimesBack(SumErrors(w) as real, |w| as real);
    }
  }

  lemma TimesBack(x: real, n: real)
    requires n > 0.0
    ensures x / n * n == x
  {
  }

  lemma LessTimes(q: real, b: real, n: real)
    requires n > 0.0
    ensures q < b <==> q * n < b * n
  {
  }

  lemma ScaledCompare(a: nat, n: nat, bound: nat)
    requires n > 0
    ensures a as real / n as real < bound as real <==> a < bound * n
  {
    var q := a as real / n as real;
    assert q * n as real == a as real;
    assert (bound * n) as real == bound as real * n as real;
    LessTimes(q, bound as real, n as real);
  }

  lemma RateAboveTwoPercent(errors: nat, n: nat)
    requires 0 < n <= WINDOW && errors <= n
    ensures errors as real / n as real > 0.02 <==> errors > 0
  {
    var q := errors as real / n as real;
    assert q * n as real == errors as real;
    LessTimes(0.02, q, n as real);
    assert 0.0 < 0.02 * n as real < 1.0;
  }

  /** The floating aggregate and its two thresholds amount to counting. */
  lemma RedIffNotGreen(samples: seq<Sample>)
    ensures Red(HealthOf(samples)) <==> !Green(samples)
  {
    var w := Window(samples);
    SumsAreCounts(w);
    if w != [] {
      RateAboveTwoPercent(SumErrors(w), |w|);
      ScaledCompare(SumPoints(w), |w|, 80);
    }
  }

  // ----- the score ------------------------------------------------------------------

  function EvalScore(failures: nat): int {
    if failures == 0 then 100 else if 100 - 25 * failures < 0 then 0 else 100 - 25 * failures
  }

  /** Scores come in steps of 25: each 25 points a threshold stays below 100 forgive one failure. So
      every threshold above 75 admits flawless artifacts only, and the critical one admits none. */
  lemma ThresholdMeansFlawless(s: Settings, risk: string, failures: nat)
    ensures var t := ScoreThreshold(s, risk);
      && EvalScore(failures) == [100, 75, 50, 25, 0][if failures < 4 then failures else 4]
      && (EvalScore(failures) >= t <==> t <= 0 || 25 * failures <= 100 - t)
      && (75 < t <= 100 ==> (EvalScore(failures) >= t <==> failures == 0))
      && (risk == "critical" ==> EvalScore(failures) < t)
  {
  }

  // ----- transitions ------------------------------------------------------------------

  predicate InPipeline(st: Status) {
    st in {Shadow, Canary5, Canary25}
  }

  function NextStage(st: Status): Status
    requires InPipeline(st)
  {
    match st case Shadow => Canary5 case Canary5 => Canary25 case Canary25 => Active
  }

  datatype Action = Terminal | NeedsRohit | Hold | RolledBack | Gathering | Promoted

  /** `advance` on a module, given the outcome of its probe (None when recording it failed). */
  function Advance(m: Module, s: Settings, probe: Option<Sample>): (Module, Action) {
    if !InPipeline(m.status) then (m, Terminal)
    else if !MayActivate(s, m.risk) then (m, NeedsRohit)
    else
      var samples := if probe.Some? then m.samples + [probe.value] else m.samples;
      var m1 := m.(samples := samples);
      if m.score < ScoreThreshold(s, m.risk) then (m1, Hold)
      else if !Green(samples) then (m1.(status := Rollback), RolledBack)
      else if |Window(samples)| < s.minSamples && m.status != Shadow then (m1, Gathering)
      else
        var next := NextStage(m.status);
        (m1.(status := next, activeVersion := if next == Active then Some(m.version) else m.activeVersion), Promoted)
  }

  /** Who may promote itself under which ceiling. An unknown ceiling counts as "medium"; a risk nobody
      knows is let through by the ceiling "critical" only. */
  predicate Permitted(s: Settings, risk: string) {
    s.autonomous
    && (if s.maxRisk == "low" then risk == "low"
        else if s.maxRisk == "high" then risk in {"low", "medium", "high"}
        else if s.maxRisk == "critical" then true
        else risk in {"low", "medium"})
  }

  lemma PermissionIs(s: Settings, risk: string)
    ensures MayActivate(s, risk) <==> Permitted(s, risk)
  {
  }

  /** The score asked of each risk; an unknown risk is treated as high, and 101 is out of reach. */
  lemma ThresholdIs(s: Settings, risk: string)
    ensures risk == "low" ==> ScoreThreshold(s, risk) == s.minLow
    ensures risk == "medium" ==> ScoreThreshold(s, risk) == s.minMedium
    ensures risk == "critical" ==> ScoreThreshold(s, risk) == 101
    ensures risk !in {"low", "medium", "critical"} ==> ScoreThreshold(s, risk) == s.minHigh
  {
    assert |"low"| == 3 && |"medium"| == 6 && |"high"| == 4 && |"critical"| == 8;
  }

  /** The window of the health gate is the ten newest samples, or all of them. */
  lemma GreenIs(samples: seq<Sample>)
    ensures var w := if |samples| <= 10 then samples else samples[|samples| - 10..];
      Green(samples) <==> Failing !in w && 5 * Count(w, Slow) <= 4 * |w|
  {
  }

  /** The steps of the pipeline, each with what lets a module get that far: permission, score, health
      and, after the first stage, enough samples in the window. A step that does not promote or roll
      back changes nothing but the sample it recorded. */
  lemma AdvanceIs(m: Module, s: Settings, probe: Option<Sample>)
    ensures var ((m', action), samples) := (Advance(m, s, probe), Sampled(m, probe));
      var kept := m.(samples := samples);
      if m.status !in {Shadow, Canary5, Canary25} then action == Terminal && m' == m
      else if !Permitted(s, m.risk) then action == NeedsRohit && m' == m
      else if m.score < ScoreThreshold(s, m.risk) then action == Hold && m' == kept
      else if !Green(samples) then action == RolledBack && m' == kept.(status := Rollback)
      else if m.status == Shadow then action == Promoted && m' == kept.(status := Canary5)
      else if s.minSamples > 10 || |samples| < s.minSamples then action == Gathering && m' == kept
      else if m.status == Canary5 then action == Promoted && m' == kept.(status := Canary25)
      else action == Promoted && m' == kept.(status := Active, activeVersion := Some(m.version))
  {
    hide Green, ScoreThreshold;
    PermissionIs(s, m.risk);
  }

  function Sampled(m: Module, probe: Option<Sample>): seq<Sample> {
    match probe
    case None => m.samples
    case Some(sample) => m.samples + [sample]
  }

  class ModuleRow {
    var m: Module

    constructor (m: Module)
      ensures this.m == m
    {
      this.m := m;
    }

    method AdvanceOnce(s: Settings, probe: Option<Sample>) returns (action: Action)
      modifies this
      ensures (m, action) == Advance(old(m), s, probe)
    {
      if m.status != Shadow && m.status != Canary5 && m.status != Canary25 {
        return Terminal;
      }
      if !MayActivate(s, m.risk) {
        return NeedsRohit;
      }
      if probe.Some? {
        m := m.(samples := m.samples + [probe.value]);
      }
      if m.score < ScoreThreshold(s, m.risk) {
        return Hold;
      }
      var h := ComputeHealth(m.samples);
      RedIffNotGreen(m.samples);
      if h.errorRate > 0.02 || h.score < 80.0 {
        Roll();
        return RolledBack;
      }
      if h.samples < s.minSamples && m.status != Shadow {
        return Gathering;
      }
      var next := NextStage(m.status);
      m := m.(status := next);
      if next == Active {
        m := m.(activeVersion := Some(m.version));
      }
      action := Promoted;
    }

    /** Passing no version to `_set_status` leaves the active version as it is. */
    method Roll()
      modifies this
      ensures m == old(m).(status := Rollback)
    {
      m := m.(status := Rollback);
    }

    method Approve()
      modifies this
      ensures m == old(m).(status := Canary5)
    {
      m := m.(status := Canary5);
    }
  }

  // ----- when a module rolls back -------------------------------------------------------

  /** Red health rolls a module back exactly when the earlier gates let the health gate run. */
  lemma RollsBackIff(m: Module, s: Settings, probe: Option<Sample>)
    ensures var samples := if probe.Some? then m.samples + [probe.value] else m.samples;
      Advance(m, s, probe).1 == RolledBack <==>
        InPipeline(m.status) && MayActivate(s, m.risk) && m.score >= ScoreThreshold(s, m.risk) && !Green(samples)
  {
  }

  /** So "red health at any step means immediate rollback" fails for a module whose score is low:
      a canary with nothing but failures is held where it is. */
  lemma RedModuleHeld()
    ensures var s := Settings(true, "medium", 85, 92, 97, 5);
      var m := Module(Canary25, seq(10, i => Failing), 50, "low", None, "1");
      !Green(m.samples) && Advance(m, s, Some(Failing)) == (m.(samples := m.samples + [Failing]), Hold)
  {
    var w := Window(seq(10, i => Failing));
    assert w[0] == Failing;
  }

  // ----- runs -----------------------------------------------------------------------------

  /** `RegistryStatus` and `ActivateVersion` are direct writes by callers of the registry. */
  datatype Op =
    | DoAdvance(settings: Settings, probe: Option<Sample>)
    | DoRollback
    | DoApprove
    | Evaluate(failures: nat)
    | OtherSample(sample: Sample)
    | RegistryStatus(status: Status)
    | ActivateVersion(version: string)

  function Apply(m: Module, op: Op): Module {
    match op
    case DoAdvance(s, probe) => Advance(m, s, probe).0
    case DoRollback => m.(status := Rollback)
    case DoApprove => m.(status := Canary5)
    case Evaluate(failures) => m.(score := EvalScore(failures))
    case OtherSample(sample) => m.(samples := m.samples + [sample])
    case RegistryStatus(status) => m.(status := status)
    case ActivateVersion(version) => m.(status := Active, activeVersion := Some(version))
  }

  /** Somebody writes `active` into the registry past the lifecycle. */
  predicate ActivatesDirectly(op: Op) {
    op == RegistryStatus(Active) || op.ActivateVersion?
  }

  function After(m: Module, ops: seq<Op>): Module {
    if ops == [] then m else Apply(After(m, ops[..|ops| - 1]), ops[|ops| - 1])
  }

  predicate MovesByHand(op: Op) {
    op.DoApprove? || op.RegistryStatus? || op.ActivateVersion?
  }

  /** A rollback is final until somebody approves the module or writes the registry, whatever samples,
      scores and advances follow, and it does not touch the active version. */
  lemma {:induction false} RollbackStays(m: Module, ops: seq<Op>, k: nat)
    requires k < |ops| && forall j :: k < j < |ops| ==> !MovesByHand(ops[j])
    requires ops[k].DoRollback? || ops[k] == RegistryStatus(Rollback)
    ensures After(m, ops).status == Rollback && After(m, ops).activeVersion == After(m, ops[..k]).activeVersion
    decreases |ops|
  {
    hide Advance;
    var before := ops[..|ops| - 1];
    if k == |ops| - 1 {
      assert ops[..k] == before;
    } else {
      assert before[..k] == ops[..k];
      RollbackStays(m, before, k);
      if ops[|ops| - 1].DoAdvance? {
        AdvanceIs(After(m, before), ops[|ops| - 1].settings, ops[|ops| - 1].probe);
      }
    }
  }

  /** A version activated by hand is the active one until the next move by hand. */
  lemma {:induction false} ActivatedVersionStays(m: Module, ops: seq<Op>, k: nat)
    requires k < |ops| && ops[k].ActivateVersion? && forall j :: k < j < |ops| ==> !MovesByHand(ops[j])
    ensures After(m, ops).activeVersion == Some(ops[k].version) && After(m, ops).status in {Active, Rollback}
    decreases |ops|
  {
    hide Advance;
    var before := ops[..|ops| - 1];
    if k < |ops| - 1 {
      ActivatedVersionStays(m, before, k);
      if ops[|ops| - 1].DoAdvance? {
        AdvanceIs(After(m, before), ops[|ops| - 1].settings, ops[|ops| - 1].probe);
      }
    }
  }

  /** The score in force is that of the latest evaluation. */
  lemma {:induction false} ScoreIsLatest(m: Module, ops: seq<Op>, k: nat)
    requires k < |ops| && ops[k].Evaluate? && forall j :: k < j < |ops| ==> !ops[j].Evaluate?
    ensures After(m, ops).score == EvalScore(ops[k].failures)
    decreases |ops|
  {
    hide Advance;
    var before := ops[..|ops| - 1];
    if k < |ops| - 1 {
      ScoreIsLatest(m, before, k);
      if ops[|ops| - 1].DoAdvance? {
        AdvanceIs(After(m, before), ops[|ops| - 1].settings, ops[|ops| - 1].probe);
      }
    }
  }

  /** An approval puts the module at the 5% stage wherever it was: one advance later it is not active,
      and at the 25% stage if and only if permission, score, health and the sample floor allow. */
  lemma ApprovalRestarts(m: Module, s: Settings, probe: Option<Sample>)
    ensures var after := After(m, [DoApprove] + [DoAdvance(s, probe)]);
      && after.status in {Canary5, Canary25, Rollback}
      && (after.status == Canary25 <==>
            && Permitted(s, m.risk) && m.score >= ScoreThreshold(s, m.risk) && Green(Sampled(m, probe))
            && s.minSamples <= 10 && s.minSamples <= |Sampled(m, probe)|)
  {
    hide Advance, Permitted, ScoreThreshold, Green;
    var ops := [DoApprove] + [DoAdvance(s, probe)];
    assert ops[..1] == [DoApprove] && [DoApprove][..0] == [];
    assert After(m, [DoApprove]) == Apply(After(m, []), DoApprove);
    assert After(m, ops) == Apply(After(m, ops[..1]), ops[1]);
    AdvanceIs(m.(status := Canary5), s, probe);
  }

  /** What other calls record counts for the health gate, after all that came before. */
  lemma SampleCounts(m: Module, ops: seq<Op>, sample: Sample)
    ensures var (before, after) := (After(m, ops), After(m, ops + [OtherSample(sample)]));
      after == before.(samples := before.samples + [sample])
  {
    assert (ops + [OtherSample(sample)])[..|ops|] == ops;
  }

  /** The only ways into `active`: an advance from the 25% canary with every gate green, or a direct
      write to the registry. */
  lemma EntersActiveOnlyThroughGates(m: Module, op: Op)
    requires m.status != Active
    ensures Apply(m, op).status == Active <==>
      || ActivatesDirectly(op)
      || (&& op.DoAdvance? && m.status == Canary25
          && Permitted(op.settings, m.risk) && m.score >= ScoreThreshold(op.settings, m.risk)
          && (var after := Apply(m, op).samples;
              Green(after) && op.settings.minSamples <= |Window(after)|))
    ensures Apply(m, op).status == Active && !ActivatesDirectly(op) ==>
      Failing !in Window(Apply(m, op).samples) && Apply(m, op).activeVersion == Some(m.version)
  {
  }

  /** A module whose risk lies above the ceiling does not become active by itself, whatever its samples
      and score; the ceiling may be any that never permits it. */
  lemma {:induction false} AboveCeilingNeverActive(m: Module, ops: seq<Op>)
    requires m.status != Active
    requires forall k :: 0 <= k < |ops| && ops[k].DoAdvance? ==> !Permitted(ops[k].settings, m.risk)
    ensures After(m, ops).risk == m.risk
    ensures After(m, ops).status == Active ==> exists k :: 0 <= k < |ops| && ActivatesDirectly(ops[k])
  {
    hide Advance, Permitted;
    if ops == [] {
    } else {
      var before := After(m, ops[..|ops| - 1]);
      AboveCeilingNeverActive(m, ops[..|ops| - 1]);
      var op := ops[|ops| - 1];
      if op.DoAdvance? {
        AdvanceIs(before, op.settings, op.probe);
      }
    }
  }

  /** High and critical modules are above the ceiling "medium" and above any unknown one. */
  lemma HighIsAboveMedium(s: Settings, risk: string)
    requires s.maxRisk !in {"low", "high", "critical"} && risk !in {"low", "medium"}
    ensures !Permitted(s, risk)
  {
  }

  predicate ScoreInRange(m: Module) {
    0 <= m.score <= 100
  }

  /** A critical module never becomes active by itself, even if the ceiling is set to critical:
      no score reaches 101. */
  lemma {:induction false} CriticalNeverActive(m: Module, ops: seq<Op>)
    requires m.risk == "critical" && m.status != Active && ScoreInRange(m)
    ensures After(m, ops).status == Active ==> exists k :: 0 <= k < |ops| && ActivatesDirectly(ops[k])
    ensures After(m, ops).risk == "critical" && ScoreInRange(After(m, ops))
  {
    hide Green, MayActivate;
    if ops == [] {
    } else {
      CriticalNeverActive(m, ops[..|ops| - 1]);
    }
  }

  /** With a sample floor above the window size no module ever becomes active by itself. */
  lemma {:induction false} FloorAboveWindowBlocks(m: Module, ops: seq<Op>)
    requires m.status != Active
    requires forall k :: 0 <= k < |ops| && ops[k].DoAdvance? ==> ops[k].settings.minSamples > 10
    ensures After(m, ops).status == Active ==> exists k :: 0 <= k < |ops| && ActivatesDirectly(ops[k])
  {
    if ops == [] {
    } else {
      FloorAboveWindowBlocks(m, ops[..|ops| - 1]);
    }
  }

  function Rank(st: Status): nat {
    match st case Canary5 => 1 case Canary25 => 2 case Active => 3 case _ => 0
  }

  predicate OnlyAdvances(ops: seq<Op>, s: Settings) {
    forall k :: 0 <= k < |ops| ==> ops[k].DoAdvance? && ops[k].settings == s
  }

  /** Starting in shadow with no samples: each advance adds at most one sample and one stage, and
      beyond the first stage the sample floor must be met. */
  lemma {:induction false} StagesTakeTime(m: Module, s: Settings, ops: seq<Op>)
    requires m.status == Shadow && m.samples == [] && OnlyAdvances(ops, s)
    ensures var r := After(m, ops);
      && |r.samples| <= |ops|
      && Rank(r.status) <= |ops|
      && (Rank(r.status) >= 2 ==> |r.samples| >= s.minSamples)
      && (Rank(r.status) == 3 ==> |ops| >= s.minSamples + 1)
  {
    hide Green, ScoreThreshold, MayActivate;
    if ops == [] {
    } else {
      var before := ops[..|ops| - 1];
      assert OnlyAdvances(before, s);
      StagesTakeTime(m, s, before);
    }
  }

  /** The advances it takes at least. */
  function Needed(s: Settings): int {
    if s.minSamples + 1 > 3 then s.minSamples + 1 else 3
  }

  /** Reaching `active` takes at least max(3, floor + 1) advances. */
  lemma ActiveTakesAtLeast(m: Module, s: Settings, ops: seq<Op>)
    requires m.status == Shadow && m.samples == [] && OnlyAdvances(ops, s)
    requires After(m, ops).status == Active
    ensures |ops| >= Needed(s) && s.minSamples <= 10
  {
    StagesTakeTime(m, s, ops);
    if s.minSamples > 10 {
      FloorAboveWindowBlocks(m, ops);
    }
  }

  /** Advances in a row whose probes give these samples. */
  function RunWith(s: Settings, probes: seq<Sample>): seq<Op> {
    seq(|probes|, i requires 0 <= i < |probes| => DoAdvance(s, Some(probes[i])))
  }

  /** The health gate is green after each of the first `n` samples. */
  predicate GreenFor(probes: seq<Sample>, n: int) {
    forall k :: 0 < k <= |probes| && k <= n ==> Green(probes[..k])
  }

  /** With every gate green: after k advances the stage is this. */
  function StageAfter(k: nat, floor: int): Status {
    if k == 0 then Shadow
    else if k == 1 || k < floor then Canary5
    else if k == 2 || k == floor then Canary25
    else Active
  }

  lemma {:induction false} GreenRunStages(m: Module, s: Settings, probes: seq<Sample>)
    requires m.status == Shadow && m.samples == [] && s.minSamples <= 10 && GreenFor(probes, Needed(s))
    requires Permitted(s, m.risk) && m.score >= ScoreThreshold(s, m.risk)
    ensures var r := After(m, RunWith(s, probes));
      && r.status == StageAfter(|probes|, s.minSamples)
      && r.risk == m.risk && r.score == m.score
      && (r.status != Active ==> r.samples == probes)
  {
    hide Green, MayActivate, Permitted, ScoreThreshold;
    PermissionIs(s, m.risk);
    var run := RunWith(s, probes);
    if probes == [] {
      assert run == [];
    } else {
      var n := |probes| - 1;
      forall k | 0 < k <= n && k <= Needed(s) ensures Green(probes[..n][..k]) {
        assert probes[..n][..k] == probes[..k];
      }
      GreenRunStages(m, s, probes[..n]);
      assert run[..n] == RunWith(s, probes[..n]);
      assert probes[..n] + [probes[n]] == probes[..n + 1] == probes;
    }
  }

  /** The bound is sharp for every run whose health is green as long as it matters, slow samples
      included: it reaches `active` exactly when it has max(3, floor + 1) advances. */
  lemma GreenRunIsExact(m: Module, s: Settings, probes: seq<Sample>)
    requires m.status == Shadow && m.samples == [] && s.minSamples <= 10 && GreenFor(probes, Needed(s))
    requires Permitted(s, m.risk) && m.score >= ScoreThreshold(s, m.risk)
    ensures After(m, RunWith(s, probes)).status == Active <==> |probes| >= Needed(s)
  {
    hide After, GreenFor;
    GreenRunStages(m, s, probes);
  }

  lemma {:induction false} NoSlowCount(w: seq<Sample>)
    requires forall k :: 0 <= k < |w| ==> w[k] == Quick
    ensures Count(w, Slow) == 0
  {
    if w == [] {
    } else {
      NoSlowCount(w[1..]);
    }
  }

  /** Such runs exist at every length: all samples quick. */
  lemma QuickIsGreen(n: nat)
    ensures GreenFor(seq(n, i => Quick), n)
  {
    var probes := seq(n, i => Quick);
    forall k | 0 < k <= n ensures Green(probes[..k]) {
      var w := Window(probes[..k]);
      assert forall i :: 0 <= i < |w| ==> w[i] == Quick;
      NoSlowCount(w);
    }
  }

  /** And with up to four slow samples in five: this one is green and not quick. */
  lemma SlowRunIsGreen()
    ensures GreenFor([Quick, Slow, Slow, Slow, Slow], 5)
  {
    var probes := [Quick, Slow, Slow, Slow, Slow];
    forall k | 0 < k <= 5 ensures Green(probes[..k]) {
      var w := Window(probes[..k]);
      assert w == probes[..k] && w[0] == Quick;
      SlowAtMost(w[1..]);
      assert Failing !in w;
    }
  }

  lemma {:induction false} SlowAtMost(w: seq<Sample>)
    ensures Count(w, Slow) <= |w|
  {
    if w == [] {
    } else {
      SlowAtMost(w[1..]);
    }
  }
}
