/** The execute loop of app/coding/agent.py: bounded steps, the done gates, the repeated-failure
    stop, the exceptions that leave it, and the compaction of the transcript. */
module CodingLoop {
  import opened PyText
  import Payload

  const KEEP := 12
  const WINDOW := 6

  datatype Msg = Msg(assistant: bool, text: string)

  // ----- compaction -----------------------------------------------------------------

  function Shortened(text: string): string {
    if |text| <= 40 then text else text[..40]
  }

  /** The heads of the assistant messages, in order. */
  function Heads(middle: seq<Msg>): seq<string> {
    if middle == [] then []
    else (if middle[0].assistant then [Shortened(middle[0].text)] else []) + Heads(middle[1..])
  }

  function Semicolons(parts: seq<string>): string {
    if parts == [] then "" else if |parts| == 1 then parts[0] else parts[0] + "; " + Semicolons(parts[1..])
  }

  function Synopsis(middle: seq<Msg>): Msg {
    var used := Heads(middle);
    Msg(false, "[earlier " + Payload.IntText(|middle|) + " messages elided; actions so far: "
      + Semicolons(if |used| <= 12 then used else used[|used| - 12..]) + "]")
  }

  /** `_compact`: the first message, one synopsis, and the newest `keep` messages. */
  function Compact(t: seq<Msg>, keep: nat): seq<Msg> {
    if |t| <= keep + 3 then t
    else [t[0], Synopsis(t[1..|t| - keep])] + t[|t| - keep..]
  }

  /** The synopsis says how many messages it stands for and how the last twelve actions among them
      began, each cut at forty characters. */
  lemma SynopsisSays(middle: seq<Msg>)
    ensures var used := Heads(middle);
      Synopsis(middle) == Msg(false, "[earlier " + Payload.IntText(|middle|) + " messages elided; actions so far: "
        + Semicolons(if |used| <= 12 then used else used[|used| - 12..]) + "]")
    ensures forall m :: m in middle && m.assistant ==>
      (if |m.text| <= 40 then m.text else m.text[..40]) in Heads(middle)
  {
    forall m | m in middle && m.assistant
      ensures (if |m.text| <= 40 then m.text else m.text[..40]) in Heads(middle)
    {
      HeadListed(middle, m);
    }
  }

  /** Actions are separated by a semicolon and a blank. */
  lemma {:induction false} SemicolonsBetween(some: seq<string>, more: seq<string>)
    requires some != [] && more != []
    ensures Semicolons(some + more) == Semicolons(some) + "; " + Semicolons(more)
    ensures forall text :: Semicolons([text]) == text
  {
    assert (some + more)[1..] == some[1..] + more;
    if |some| == 1 {
      assert some[1..] + more == more;
    } else {
      SemicolonsBetween(some[1..], more);
    }
  }

  lemma {:induction false} HeadListed(middle: seq<Msg>, m: Msg)
    requires m in middle && m.assistant
    ensures (if |m.text| <= 40 then m.text else m.text[..40]) in Heads(middle)
  {
    if middle[0] == m {
    } else {
      HeadListed(middle[1..], m);
    }
  }

  /** `t` stands for the full history `h`: it opens with the task and ends with the newest
      messages unchanged, at least twelve of them or all there are after the task. */
  predicate StandsFor(t: seq<Msg>, h: seq<Msg>) {
    && h != [] && t != [] && t[0] == h[0]
    && (var m := if |h| - 1 < 12 then |h| - 1 else 12;
        |t| > m && t[|t| - m..] == h[|h| - m..])
    && (|h| <= 15 ==> t == h)
  }

  lemma CompactStands(t: seq<Msg>, h: seq<Msg>)
    requires StandsFor(t, h) && |t| <= |h|
    ensures var c := Compact(t, KEEP); StandsFor(c, h) && |c| <= KEEP + 3 && |c| <= |h|
    ensures |t| <= KEEP + 5 ==> |Compact(t, KEEP)| <= |t|
  {
    if |t| > KEEP + 3 {
      var c := Compact(t, KEEP);
      assert c[|c| - KEEP..] == t[|t| - KEEP..];
    }
  }

  lemma AppendStands(t: seq<Msg>, h: seq<Msg>, a: Msg, b: Msg)
    requires StandsFor(t, h) && |t| <= |h|
    ensures StandsFor(t + [a, b], h + [a, b])
  {
    var m := if |h| - 1 < KEEP then |h| - 1 else KEEP;
    var t', h', end := t + [a, b], h + [a, b], t[|t| - m..];
    assert t' == t[..|t| - m] + (end + [a, b]) && h' == h[..|h| - m] + (end + [a, b]);
    var m' := if |h'| - 1 < KEEP then |h'| - 1 else KEEP;
    assert t'[|t'| - m'..] == (end + [a, b])[m + 2 - m'..];
    assert h'[|h'| - m'..] == (end + [a, b])[m + 2 - m'..];
  }

  // ----- the loop -------------------------------------------------------------------

  /** A tool call as the stuck detector sees it. */
  datatype Sig = Sig(action: string, ok: bool)

  /** A decoded JSON value. Python's reader also takes NaN and the infinities. */
  datatype Json =
    | Null
    | Bool(b: bool)
    | Number(value: real)
    | NotFinite
    | Text(text: string)
    | List(items: seq<Json>)
    | Object(fields: map<string, Json>)

  type Fields = map<string, Json>

  /** `obj.get(key)` read as a condition. */
  predicate Truthy(obj: Fields, key: string) {
    key in obj
    && match obj[key]
       case Null => false
       case Bool(b) => b
       case Number(value) => value != 0.0
       case NotFinite => true
       case Text(text) => text != ""
       case List(items) => items != []
       case Object(fields) => fields != map[]
  }

  /** `obj.get(key, default)` */
  function Get(obj: Fields, key: string, default': Json): Json {
    if key in obj then obj[key] else default'
  }

  /** What a call of the model gives: its provider raised, the decoder raised something other than a
      rejection (a reply nested too deep), no object decodes, or an object. */
  datatype Answer = ProviderRaised | DecoderRaised | NoObject | Parsed(fields: Fields)

  /** How a gate comes out; `Breaks` is an exception. */
  datatype Check = Passes | Fails | Breaks

  /** A tool run either gives a result or raises. `edits` says whether it changed the workspace. */
  datatype ToolRun = Ran(sig: Sig, edits: bool) | Broke

  /** One step: the model's reply, and what the test run, the self-review and the tool would give if
      the step got to them. The two messages are what it would append to the transcript. */
  datatype Step = Step(answer: Answer, testRun: Check, review: Answer, tool: ToolRun, said: Msg, told: Msg)

  /** `"\n- ".join(issues)`: a text is a sequence of texts, an object one of its keys. */
  predicate Joinable(issues: Json) {
    issues.Text? || issues.Object? || (issues.List? && forall k :: 0 <= k < |issues.items| ==> issues.items[k].Text?)
  }

  /** `_self_review` and the message made of its issues. A provider error or no object approves; a
      confidence that is not finite cannot be made an integer. */
  function ReviewOf(review: Answer): Check {
    match review
    case ProviderRaised => Passes
    case DecoderRaised => Breaks
    case NoObject => Passes
    case Parsed(obj) =>
      if Get(obj, "confidence", Null) == NotFinite then Breaks
      else if Get(obj, "approved", Null) != Bool(false) then Passes
      else if Joinable(Get(obj, "issues", List([Text("unspecified review issue")]))) then Fails
      else Breaks
  }

  /** Neither `tool in {...}` nor `args.get` raises. */
  predicate CallIsWellFormed(obj: Fields) {
    var tool := Get(obj, "tool", Text(""));
    !tool.List? && !tool.Object? && Get(obj, "args", Object(map[])).Object?
  }

  /** `obj.get(key)` fails as a condition for a missing key and for the seven empty values. */
  lemma TruthyIs(obj: Fields, key: string)
    ensures Truthy(obj, key) <==>
      key in obj
      && obj[key] !in {Null, Bool(false), Number(0.0), Text(""), List([]), Object(map[])}
  {
  }

  /** A review refuses exactly when it says so in so many words: `"approved": false`. */
  lemma ReviewIs(review: Answer)
    ensures ReviewOf(review).Fails? <==>
      && review.Parsed?
      && "approved" in review.fields && review.fields["approved"] == Bool(false)
      && !("confidence" in review.fields && review.fields["confidence"].NotFinite?)
      && ("issues" in review.fields ==> Joinable(review.fields["issues"]))
    ensures review.ProviderRaised? || review.NoObject? ==> ReviewOf(review).Passes?
    ensures (review.Parsed? && !("approved" in review.fields && review.fields["approved"] == Bool(false))
             && !("confidence" in review.fields && review.fields["confidence"].NotFinite?)) ==>
      ReviewOf(review).Passes?
  {
  }

  /** What a step amounts to. */
  datatype Move =
    | ModelError
    | Unparseable
    | GivesUp
    | ClaimsDone(verification: Check, review: Check)
    | Calls(sig: Sig, edits: bool)
    | Raises

  function MoveOf(step: Step): Move {
    match step.answer
    case ProviderRaised => ModelError
    case DecoderRaised => Raises
    case NoObject => Unparseable
    case Parsed(obj) =>
      if obj == map[] then Unparseable
      else if Truthy(obj, "stuck") then GivesUp
      else if Truthy(obj, "done") then ClaimsDone(step.testRun, ReviewOf(step.review))
      else if CallIsWellFormed(obj) && step.tool.Ran? then Calls(step.tool.sig, step.tool.edits)
      else Raises
  }

  /** An object means what its first of `stuck`, `done` and a tool call says; an empty one nothing. */
  lemma MoveIs(obj: Fields, step: Step)
    requires step.answer == Parsed(obj)
    ensures obj == map[] ==> MoveOf(step) == Unparseable
    ensures obj != map[] && Truthy(obj, "stuck") ==> MoveOf(step) == GivesUp
    ensures obj != map[] && !Truthy(obj, "stuck") && Truthy(obj, "done") ==>
      MoveOf(step) == ClaimsDone(step.testRun, ReviewOf(step.review))
    ensures obj != map[] && !Truthy(obj, "stuck") && !Truthy(obj, "done") && MoveOf(step) != Raises ==>
      step.tool.Ran? && MoveOf(step) == Calls(step.tool.sig, step.tool.edits)
  {
  }

  /** Without an object there is nothing to do: a provider that fails ends the run, a decoder that
      raises leaves the loop, and a reply without an object is only a setback. */
  lemma NoObjectIs(step: Step)
    ensures step.answer.ProviderRaised? <==> MoveOf(step) == ModelError
    ensures step.answer.DecoderRaised? ==> MoveOf(step) == Raises
    ensures step.answer.NoObject? ==> MoveOf(step) == Unparseable
    ensures MoveOf(step) == Unparseable ==> step.answer.NoObject? || step.answer == Parsed(map[])
  {
  }

  function Count(sigs: seq<Sig>, s: Sig): nat {
    if sigs == [] then 0 else (if sigs[0] == s then 1 else 0) + Count(sigs[1..], s)
  }

  /** The newest six. */
  function Recent(sigs: seq<Sig>): seq<Sig> {
    if |sigs| <= WINDOW then sigs else sigs[|sigs| - WINDOW..]
  }

  lemma CountThree(sigs: seq<Sig>, s: Sig, i: nat, j: nat, k: nat)
    requires i < j < k < |sigs| && sigs[i] == sigs[j] == sigs[k] == s
    ensures Count(sigs, s) >= 3
  {
    hide Count;
    CountSplit(sigs, j, s);
    CountHas(sigs[..j], i, s);
    var rest := sigs[j..];
    CountSplit(rest, k - j, s);
    CountHas(rest[..k - j], 0, s);
    CountHas(rest[k - j..], 0, s);
  }

  lemma {:induction false} CountSplit(sigs: seq<Sig>, n: nat, s: Sig)
    requires n <= |sigs|
    ensures Count(sigs, s) == Count(sigs[..n], s) + Count(sigs[n..], s)
  {
    if n > 0 {
      assert sigs[..n][1..] == sigs[1..][..n - 1] && sigs[1..][n - 1..] == sigs[n..];
      CountSplit(sigs[1..], n - 1, s);
    } else {
      assert sigs[..0] == [] && sigs[0..] == sigs;
    }
  }

  lemma {:induction false} CountHas(sigs: seq<Sig>, i: nat, s: Sig)
    requires i < |sigs| && sigs[i] == s
    ensures Count(sigs, s) >= 1
  {
    if i == 0 {
    } else {
      CountHas(sigs[1..], i - 1, s);
    }
  }

  /** One failing action thrice within six consecutive tool steps, the last of them at `k`. */
  predicate Thrashes(tools: seq<Sig>, i: nat, j: nat, k: nat) {
    i < j < k < |tools| && k < i + 6 && tools[i] == tools[j] == tools[k] && !tools[k].ok
  }

  lemma ThrashIsCounted(tools: seq<Sig>, i: nat, j: nat, k: nat)
    requires k == |tools| - 1 && Thrashes(tools, i, j, k)
    ensures Count(Recent(tools), tools[k]) >= 3
  {
    hide Count;
    var r := Recent(tools);
    var off := |tools| - |r|;
    assert r == tools[off..];
    CountThree(r, tools[k], i - off, j - off, k - off);
  }

  lemma {:induction false} FirstOf(sigs: seq<Sig>, s: Sig) returns (i: nat)
    requires Count(sigs, s) > 0
    ensures i < |sigs| && sigs[i] == s && Count(sigs[i + 1..], s) == Count(sigs, s) - 1
  {
    if sigs[0] == s {
      i := 0;
    } else {
      var j := FirstOf(sigs[1..], s);
      i := j + 1;
      assert sigs[1..][j + 1..] == sigs[i + 1..];
    }
  }

  /** Counted three times among the newest six: exactly when it thrashes. */
  lemma CountedIffThrashes(tools: seq<Sig>)
    requires tools != [] && !tools[|tools| - 1].ok
    ensures Count(Recent(tools), tools[|tools| - 1]) >= 3 <==>
      exists i: nat, j: nat, k: nat :: k == |tools| - 1 && Thrashes(tools, i, j, k)
  {
    hide Count;
    var k, r := |tools| - 1, Recent(tools);
    var off := |tools| - |r|;
    assert r == tools[off..];
    if Count(r, tools[k]) >= 3 {
      var i := FirstOf(r, tools[k]);
      var rest := r[i + 1..];
      var j := FirstOf(rest, tools[k]);
      assert rest[j] == r[i + 1 + j] == tools[off + i + 1 + j];
      var last := FirstOf(rest[j + 1..], tools[k]);
      assert Thrashes(tools, off + i, off + i + 1 + j, k);
    }
    if i: nat, j: nat, l: nat :| l == k && Thrashes(tools, i, j, l) {
      ThrashIsCounted(tools, i, j, l);
    }
  }

  lemma RecentStep(tools: seq<Sig>, sig: Sig)
    ensures var r := Recent(tools) + [sig];
      Recent(tools + [sig]) == if |r| > WINDOW then r[|r| - WINDOW..] else r
  {
  }

  ghost predicate NoThrash(tools: seq<Sig>, upTo: int) {
    forall i: nat, j: nat, k: nat :: Thrashes(tools, i, j, k) ==> k >= upTo
  }

  /** If nothing thrashed so far and the new step is not counted three times, nothing thrashes. */
  lemma ThrashStep(tools: seq<Sig>, sig: Sig)
    requires NoThrash(tools, |tools|)
    ensures NoThrash(tools + [sig], |tools|)
    ensures Count(Recent(tools + [sig]), sig) < 3 || sig.ok ==> NoThrash(tools + [sig], |tools| + 1)
  {
    hide Count;
    var after := tools + [sig];
    forall i: nat, j: nat, k: nat | Thrashes(after, i, j, k)
      ensures k >= |tools| && Count(Recent(after), sig) >= 3 && !sig.ok
    {
      assert k < |tools| ==> Thrashes(tools, i, j, k);
      ThrashIsCounted(after, i, j, k);
    }
  }

  // ----- the run, as a function of its script ------------------------------------------

  datatype End = Done | Stuck | Failed | Raised

  /** `edits` counts the changes to the workspace, `passedAt` how many there were when the test run
      passed; `tools` are all tool steps so far. */
  datatype State = State(
    verified: bool, reviewed: bool, failStreak: nat, tools: seq<Sig>, edits: nat, passedAt: Option<nat>)

  const FRESH := State(false, false, 0, [], 0, None)

  datatype Outcome = Outcome(state: State, end: Option<End>)

  /** A claim of being done must pass verification, once, and then one self-review. */
  function AfterClaim(s: State, verify: bool, verification: Check, review: Check): Outcome {
    if verify && !s.verified && verification.Breaks? then Outcome(s, Some(Raised))
    else if verify && !s.verified && verification.Fails? then
      Outcome(s.(failStreak := s.failStreak + 1), if s.failStreak >= 5 then Some(Failed) else None)
    else
      var s1 := if verify && !s.verified then s.(verified := true, passedAt := Some(s.edits)) else s;
      var s2 := s1.(reviewed := true);
      if s1.reviewed || review.Passes? then Outcome(s2, Some(Done))
      else Outcome(s2, if review.Breaks? then Some(Raised) else None)
  }

  function AfterTool(s: State, sig: Sig, edits: bool): Outcome {
    var streak := if sig.ok then 0 else s.failStreak + 1;
    var tools := s.tools + [sig];
    Outcome(
      s.(failStreak := streak, tools := tools, edits := if edits then s.edits + 1 else s.edits),
      if (!sig.ok && Count(Recent(tools), sig) >= 3) || streak >= 8 then Some(Stuck) else None)
  }

  function AfterStep(s: State, verify: bool, move: Move): Outcome {
    match move
    case ModelError => Outcome(s, Some(Failed))
    case Unparseable => Outcome(s.(failStreak := s.failStreak + 1), if s.failStreak >= 3 then Some(Stuck) else None)
    case GivesUp => Outcome(s, Some(Stuck))
    case ClaimsDone(verification, review) => AfterClaim(s, verify, verification, review)
    case Calls(sig, edits) => AfterTool(s, sig, edits)
    case Raises => Outcome(s, Some(Raised))
  }

  /** When a step ends the run, in plain numbers: the fourth setback in a row if it is an unparseable
      reply, the sixth if it is a failed test run, the eighth if it is a failed tool call, or a failed
      tool call met for the third time among six. */
  lemma StepEnds(s: State, verify: bool, move: Move)
    ensures var end := AfterStep(s, verify, move).end;
      && (end == Some(Failed) <==>
            || move.ModelError?
            || (move.ClaimsDone? && verify && !s.verified && move.verification.Fails? && s.failStreak + 1 >= 6))
      && (end == Some(Stuck) <==>
            || move.GivesUp?
            || (move.Unparseable? && s.failStreak + 1 >= 4)
            || (move.Calls? && !move.sig.ok
                && (|| s.failStreak + 1 >= 8
                    || exists i: nat, j: nat, k: nat :: k == |s.tools| && Thrashes(s.tools + [move.sig], i, j, k))))
      && (end == Some(Done) <==>
            && move.ClaimsDone?
            && (verify ==> s.verified || move.verification.Passes?)
            && (s.reviewed || move.review.Passes?))
  {
    hide Count, Recent, Thrashes;
    if move.Calls? && !move.sig.ok {
      CountedIffThrashes(s.tools + [move.sig]);
    }
  }

  /** A setback: an unparseable reply, a claim whose test run is consulted and fails, a tool that fails. */
  predicate Setback(s: State, verify: bool, move: Move) {
    || move.Unparseable?
    || (move.ClaimsDone? && verify && !s.verified && move.verification.Fails?)
    || (move.Calls? && !move.sig.ok)
  }

  /** Setbacks add up until a tool call works; nothing else touches the count. */
  lemma StreakStep(s: State, verify: bool, move: Move)
    requires AfterStep(s, verify, move).end.None?
    ensures AfterStep(s, verify, move).state.failStreak ==
      if Setback(s, verify, move) then s.failStreak + 1
      else if move.Calls? then 0
      else s.failStreak
    ensures AfterStep(s, verify, move).state.tools == if move.Calls? then s.tools + [move.sig] else s.tools
  {
    hide Count;
  }

  /** The first `n` steps, or as many as it takes to end. */
  function RunOf(verify: bool, script: seq<Step>, n: nat): Outcome
    requires n <= |script|
  {
    if n == 0 then Outcome(FRESH, None)
    else
      var before := RunOf(verify, script, n - 1);
      if before.end.Some? then before else AfterStep(before.state, verify, MoveOf(script[n - 1]))
  }

  /** The steps from `m` up to `n` that were setbacks. */
  function Setbacks(verify: bool, script: seq<Step>, m: nat, n: nat): set<nat>
    requires n <= |script|
  {
    set j | m <= j < n && Setback(RunOf(verify, script, j).state, verify, MoveOf(script[j]))
  }

  predicate Works(move: Move) {
    move.Calls? && move.sig.ok
  }

  /** Over runs: the streak is the number of setbacks since the last tool call that worked. */
  lemma {:induction false} StreakIs(verify: bool, script: seq<Step>, m: nat, n: nat)
    requires m <= n <= |script| && RunOf(verify, script, n).end.None?
    requires m == 0 || Works(MoveOf(script[m - 1]))
    requires forall j :: m <= j < n ==> !Works(MoveOf(script[j]))
    ensures RunOf(verify, script, n).state.failStreak == |Setbacks(verify, script, m, n)|
    decreases n
  {
    hide AfterStep, Setback, MoveOf;
    if n == m {
      assert Setbacks(verify, script, m, n) == {};
      if m > 0 {
        WorksClears(RunOf(verify, script, m - 1).state, verify, MoveOf(script[m - 1]));
      }
    } else {
      var before := RunOf(verify, script, n - 1).state;
      StreakIs(verify, script, m, n - 1);
      StreakStep(before, verify, MoveOf(script[n - 1]));
      var earlier := Setbacks(verify, script, m, n - 1);
      if Setback(before, verify, MoveOf(script[n - 1])) {
        assert Setbacks(verify, script, m, n) == earlier + {n - 1};
      } else {
        assert Setbacks(verify, script, m, n) == earlier;
        NoSetback(before, verify, MoveOf(script[n - 1]));
      }
    }
  }

  lemma WorksClears(s: State, verify: bool, move: Move)
    requires Works(move)
    ensures AfterStep(s, verify, move).state.failStreak == 0
  {
    hide Count;
  }

  lemma NoSetback(s: State, verify: bool, move: Move)
    requires !Works(move) && !Setback(s, verify, move)
    ensures !move.Calls?
  {
  }

  /** The reply meets an exception that nothing catches. */
  predicate StepRaises(s: State, verify: bool, move: Move) {
    || move.Raises?
    || (move.ClaimsDone?
        && if verify && !s.verified && !move.verification.Passes? then move.verification.Breaks?
           else !s.reviewed && move.review.Breaks?)
  }

  /** Step `k` is reached and raises. */
  predicate RaisesAt(verify: bool, script: seq<Step>, k: nat)
    requires k < |script|
  {
    var before := RunOf(verify, script, k);
    before.end == None && StepRaises(before.state, verify, MoveOf(script[k]))
  }

  /** The run raises exactly when it reaches a step that does. */
  lemma {:induction false} RaisedIff(verify: bool, script: seq<Step>, n: nat)
    requires n <= |script|
    ensures RunOf(verify, script, n).end == Some(Raised) <==> exists k :: 0 <= k < n && RaisesAt(verify, script, k)
  {
    hide AfterStep, StepRaises;
    if n == 0 {
    } else {
      RaisedIff(verify, script, n - 1);
      var before := RunOf(verify, script, n - 1);
      if before.end.None? {
        StepRaisesIff(before.state, verify, MoveOf(script[n - 1]));
        assert RunOf(verify, script, n).end == Some(Raised) <==> RaisesAt(verify, script, n - 1);
      } else {
        assert !RaisesAt(verify, script, n - 1);
      }
    }
  }

  lemma StepRaisesIff(s: State, verify: bool, move: Move)
    ensures AfterStep(s, verify, move).end == Some(Raised) <==> StepRaises(s, verify, move)
  {
    hide Count;
  }

  /** A run that has not ended after `n` steps had not ended before. */
  lemma {:induction false} StillRunning(verify: bool, script: seq<Step>, k: nat, n: nat)
    requires k <= n <= |script| && RunOf(verify, script, n).end == None
    ensures RunOf(verify, script, k).end == None
    decreases n
  {
    hide AfterStep;
    if k == n {
    } else {
      StillRunning(verify, script, k, n - 1);
    }
  }

  /** An action as the first reply ends the run with none of done, stuck and error exactly when its
      `args` is not an object, its `tool` is a list or an object, or the tool itself raises. */
  lemma ActionRaisesIff(verify: bool, obj: Fields, step: Step, rest: seq<Step>)
    requires step.answer == Parsed(obj) && obj != map[] && !Truthy(obj, "stuck") && !Truthy(obj, "done")
    ensures RunOf(verify, [step] + rest, 1).end == Some(Raised) <==>
      || ("args" in obj && !obj["args"].Object?)
      || ("tool" in obj && (obj["tool"].List? || obj["tool"].Object?))
      || step.tool.Broke?
  {
    hide Count;
    var script := [step] + rest;
    assert RunOf(verify, script, 0) == Outcome(FRESH, None);
    StepRaisesIff(FRESH, verify, MoveOf(step));
  }

  /** So does a claim of being done whose self-review is reached and answers with a confidence that
      is not finite, or with a refusal whose issues cannot be joined, and no other review. */
  lemma ReviewRaisesIff(verify: bool, claim: Fields, step: Step, rest: seq<Step>)
    requires step.answer == Parsed(claim) && Truthy(claim, "done") && !Truthy(claim, "stuck")
    requires verify ==> step.testRun.Passes?
    ensures RunOf(verify, [step] + rest, 1).end == Some(Raised) <==>
      || step.review.DecoderRaised?
      || (step.review.Parsed?
          && var obj := step.review.fields;
             || ("confidence" in obj && obj["confidence"] == NotFinite)
             || ("approved" in obj && obj["approved"] == Bool(false)
                 && "issues" in obj && !Joinable(obj["issues"])))
  {
    hide Count;
    var script := [step] + rest;
    assert RunOf(verify, script, 0) == Outcome(FRESH, None);
    StepRaisesIff(FRESH, verify, MoveOf(step));
  }

  // ----- is the final state verified? ---------------------------------------------------

  predicate Edits(move: Move) {
    move.Calls? && move.edits
  }

  predicate PassingClaim(move: Move) {
    move.ClaimsDone? && move.verification.Passes?
  }

  predicate NoEdits(script: seq<Step>, from: int, n: nat)
    requires n <= |script|
  {
    forall j :: 0 <= j < n && from < j ==> !Edits(MoveOf(script[j]))
  }

  predicate NoPass(script: seq<Step>, n: nat)
    requires n <= |script|
  {
    forall j :: 0 <= j < n ==> !PassingClaim(MoveOf(script[j]))
  }

  /** After `n` steps without an end: the first passing claim set the mark, and the mark is current
      exactly while no edit follows it. */
  lemma {:induction false} MarkIsCurrentIff(script: seq<Step>, k: nat, n: nat)
    requires k < n <= |script| && NoPass(script, k) && PassingClaim(MoveOf(script[k]))
    requires RunOf(true, script, n - 1).end == None
    ensures var s := RunOf(true, script, n).state;
      && s.verified && s.passedAt.Some? && s.passedAt.value <= s.edits
      && (s.passedAt == Some(s.edits) <==> NoEdits(script, k, n))
    decreases n
  {
    hide Count, Recent;
    if n == k + 1 {
      NotYetVerified(script, k);
    } else {
      StillRunning(true, script, n - 2, n - 1);
      MarkIsCurrentIff(script, k, n - 1);
    }
  }

  lemma {:induction false} NotYetVerified(script: seq<Step>, n: nat)
    requires n <= |script| && NoPass(script, n)
    ensures !RunOf(true, script, n).state.verified
  {
    hide AfterTool;
    if n == 0 {
    } else {
      NotYetVerified(script, n - 1);
      ToolKeepsGates(RunOf(true, script, n - 1).state, MoveOf(script[n - 1]));
    }
  }

  lemma ToolKeepsGates(s: State, move: Move)
    ensures move.Calls? ==> AfterTool(s, move.sig, move.edits).state.verified == s.verified
  {
  }

  /** A run that ends in done has a first passing claim, and the workspace it leaves is the one that
      was verified exactly when no tool call edited anything after that claim. */
  lemma DoneIsVerifiedIff(script: seq<Step>, n: nat)
    requires 0 < n <= |script|
    requires RunOf(true, script, n - 1).end == None && RunOf(true, script, n).end == Some(Done)
    ensures exists k :: 0 <= k < n && NoPass(script, k) && PassingClaim(MoveOf(script[k]))
    ensures forall k :: 0 <= k < n && NoPass(script, k) && PassingClaim(MoveOf(script[k])) ==>
      var s := RunOf(true, script, n).state; s.passedAt == Some(s.edits) <==> NoEdits(script, k, n)
  {
    hide NoEdits;
    if NoPass(script, n) {
      NotYetVerified(script, n);
      assert false;
    }
    var j :| 0 <= j < n && PassingClaim(MoveOf(script[j]));
    var k := FirstPass(script, j);
    assert 0 <= k < n && NoPass(script, k) && PassingClaim(MoveOf(script[k]));
    forall k | 0 <= k < n && NoPass(script, k) && PassingClaim(MoveOf(script[k]))
      ensures var s := RunOf(true, script, n).state; s.passedAt == Some(s.edits) <==> NoEdits(script, k, n)
    {
      MarkIsCurrentIff(script, k, n);
    }
  }

  lemma FirstPass(script: seq<Step>, j: nat) returns (k: nat)
    requires j < |script| && PassingClaim(MoveOf(script[j]))
    ensures k <= j && NoPass(script, k) && PassingClaim(MoveOf(script[k]))
  {
    k := 0;
    while !PassingClaim(MoveOf(script[k]))
      invariant k <= j && NoPass(script, k)
      decreases j - k
    {
      k := k + 1;
    }
  }

  /** A claim of being done, and what the test run and the review say to it. */
  function Claim(testRun: Check, review: Answer, m: Msg): Step {
    Step(Parsed(map["done" := Bool(true)]), testRun, review, Broke, m, m)
  }

  function Edit(sig: Sig, m: Msg): Step {
    Step(Parsed(map["tool" := Text("edit_file"), "args" := Object(map[])]), Fails, NoObject, Ran(sig, true), m, m)
  }

  lemma ClaimMove(testRun: Check, m: Msg)
    ensures MoveOf(Claim(testRun, Parsed(map["approved" := Bool(false)]), m)) == ClaimsDone(testRun, Fails)
  {
    var obj: Fields := map["approved" := Bool(false)];
    assert |"approved"| == 8 && |"confidence"| == 10 && |"issues"| == 6;
    assert "confidence" !in obj && "issues" !in obj;
    var step := Claim(testRun, Parsed(obj), m);
    assert |"done"| == 4 && |"stuck"| == 5;
    assert "done" in step.answer.fields && "stuck" !in step.answer.fields;
  }

  lemma EditMove(sig: Sig, m: Msg)
    ensures MoveOf(Edit(sig, m)) == Calls(sig, true)
  {
    var obj := Edit(sig, m).answer.fields;
    assert "tool"[0] == 't' && "args"[0] == 'a' && "done"[0] == 'd' && "stuck"[0] == 's';
    assert "tool" in obj && "args" in obj && "done" !in obj && "stuck" !in obj;
  }

  /** So done does not mean verified: verify, be sent back by the review, edit, claim again. */
  lemma EditAfterVerification(m: Msg, sig: Sig)
    requires sig.ok
    ensures var refused := Parsed(map["approved" := Bool(false)]);
      var o := RunOf(true, [Claim(Passes, refused, m), Edit(sig, m), Claim(Fails, refused, m)], 3);
      o.end == Some(Done) && o.state.passedAt == Some(0) && o.state.edits == 1
  {
    hide Count, MoveOf;
    var refused := Parsed(map["approved" := Bool(false)]);
    var script := [Claim(Passes, refused, m), Edit(sig, m), Claim(Fails, refused, m)];
    ClaimMove(Passes, m);
    EditMove(sig, m);
    ClaimMove(Fails, m);
    assert RunOf(true, script, 0) == Outcome(FRESH, None);
    assert RunOf(true, script, 1) == Outcome(State(true, true, 0, [], 0, Some(0)), None);
    assert RunOf(true, script, 2) == Outcome(State(true, true, 0, [sig], 1, Some(0)), None);
  }

  // ----- the transcript of the run --------------------------------------------------------

  lemma TaskStands(task: Msg)
    ensures StandsFor([task], [task])
  {
    assert [task][1..] == [];
  }

  /** Everything said so far, uncut. */
  function History(task: Msg, script: seq<Step>, n: nat): seq<Msg>
    requires n <= |script|
  {
    if n == 0 then [task] else History(task, script, n - 1) + [script[n - 1].said, script[n - 1].told]
  }

  /** What step `n` finds: the transcript of the step before with its two messages. */
  function Uncut(task: Msg, script: seq<Step>, n: nat): seq<Msg>
    requires n <= |script|
    decreases n, 0
  {
    if n == 0 then [task] else Transcript(task, script, n - 1) + [script[n - 1].said, script[n - 1].told]
  }

  /** What step `n` shows the model. */
  function Transcript(task: Msg, script: seq<Step>, n: nat): seq<Msg>
    requires n <= |script|
    decreases n, 1
  {
    Compact(Uncut(task, script, n), KEEP)
  }

  /** `t` is a fair account of the history `h` of `task`: the task message first, the newest messages
      unchanged, at most fifteen in all. */
  predicate FairView(t: seq<Msg>, task: Msg, h: seq<Msg>) {
    StandsFor(t, h) && t[0] == task && |t| <= 15
  }

  /** Through any number of compactions the model sees the task message first, the newest messages
      of the whole history unchanged, and never more than fifteen. */
  lemma {:induction false} TranscriptIsFaithful(task: Msg, script: seq<Step>, n: nat)
    requires n <= |script|
    ensures FairView(Transcript(task, script, n), task, History(task, script, n))
    ensures |Transcript(task, script, n)| <= |History(task, script, n)| == 2 * n + 1
    ensures History(task, script, n)[0] == task
  {
    hide Compact, StandsFor;
    var u, h := Uncut(task, script, n), History(task, script, n);
    if n == 0 {
      TaskStands(task);
    } else {
      TranscriptIsFaithful(task, script, n - 1);
      var last := script[n - 1];
      AppendStands(Transcript(task, script, n - 1), History(task, script, n - 1), last.said, last.told);
    }
    CompactStands(u, h);
    SameTask(Transcript(task, script, n), h);
  }

  lemma SameTask(t: seq<Msg>, h: seq<Msg>)
    requires StandsFor(t, h)
    ensures t != [] && h != [] && t[0] == h[0]
  {
  }

  // ----- the run, statement by statement ------------------------------------------------

  class AgentRun {
    var done: bool
    var stuck: bool
    var failed: bool
    var verified: bool
    var reviewed: bool
    var steps: nat
    var failStreak: nat
    var recent: seq<Sig>
    ghost var tools: seq<Sig>
    ghost var edits: nat
    ghost var passedAt: Option<nat>
    ghost var views: seq<seq<Msg>>

    predicate Running()
      reads this
    {
      !done && !stuck && !failed
    }

    ghost function Now(): State
      reads this
    {
      State(verified, reviewed, failStreak, tools, edits, passedAt)
    }

    /** How the run has ended, if it has; an exception sets none of the three flags. */
    predicate Ended(raised: bool, end: Option<End>)
      reads this
    {
      && (end == None <==> Running() && !raised) && raised == (end == Some(Raised))
      && done == (end == Some(Done)) && stuck == (end == Some(Stuck)) && failed == (end == Some(Failed))
    }

    constructor ()
      ensures Running() && Now() == FRESH && steps == 0 && recent == [] && views == []
    {
      done, stuck, failed, verified, reviewed := false, false, false, false, false;
      steps, failStreak := 0, 0;
      recent, views, tools, edits, passedAt := [], [], [], 0, None;
    }

    method OnClaim(verify: bool, verification: Check, review: Check) returns (raised: bool)
      requires Running()
      modifies this`done, this`failed, this`verified, this`reviewed, this`failStreak, this`passedAt
      ensures var o := AfterClaim(old(Now()), verify, verification, review); Now() == o.state && Ended(raised, o.end)
      ensures done <==> (verify ==> old(verified) || verification.Passes?) && (old(reviewed) || review.Passes?)
      ensures done ==> reviewed && (verify ==> verified)
    {
      raised := false;
      if verify && !verified {
        match verification {
          case Breaks =>
            return true;
          case Fails =>
            failStreak := failStreak + 1;
            failed := failStreak >= 6;
            return;
          case Passes =>
            verified, passedAt := true, Some(edits);
        }
      }
      if !reviewed {
        reviewed := true;
        if !review.Passes? {
          raised := review.Breaks?;
          return;
        }
      }
      done := true;
    }

    method OnTool(sig: Sig, edited: bool)
      requires Running() && recent == Recent(tools) && NoThrash(tools, |tools|)
      modifies this`stuck, this`failStreak, this`recent, this`tools, this`edits
      ensures var o := AfterTool(old(Now()), sig, edited); Now() == o.state && Ended(false, o.end)
      ensures tools == old(tools) + [sig] && recent == Recent(tools)
      ensures NoThrash(tools, |tools| - 1)
      ensures !stuck ==> NoThrash(tools, |tools|)
      ensures stuck ==> !sig.ok
    {
      hide Count, Recent, NoThrash;
      ThrashStep(tools, sig);
      RecentStep(tools, sig);
      tools := tools + [sig];
      edits := if edited then edits + 1 else edits;
      recent := recent + [sig];
      if |recent| > WINDOW {
        recent := recent[|recent| - WINDOW..];
      }
      failStreak := if sig.ok then 0 else failStreak + 1;
      if Count(recent, sig) >= 3 && !sig.ok {
        stuck := true;
      } else if failStreak >= 8 {
        stuck := true;
      }
    }

    method OnMove(verify: bool, move: Move) returns (raised: bool)
      requires Running() && recent == Recent(tools) && NoThrash(tools, |tools|)
      modifies this`done, this`stuck, this`failed, this`verified, this`reviewed, this`failStreak
      modifies this`recent, this`tools, this`edits, this`passedAt
      ensures var o := AfterStep(old(Now()), verify, move); Now() == o.state && Ended(raised, o.end)
      ensures done ==> move.ClaimsDone? && reviewed && (verify ==> verified)
      ensures verified ==> old(verified) || PassingClaim(move)
      ensures recent == Recent(tools) && NoThrash(tools, |tools| - 1)
      ensures !stuck ==> NoThrash(tools, |tools|)
    {
      hide Count, NoThrash, Recent, AfterClaim, AfterTool;
      raised := false;
      NoThrashWeakens(tools);
      match move {
        case ModelError =>
          failed := true;
        case Unparseable =>
          failStreak := failStreak + 1;
          stuck := failStreak >= 4;
        case GivesUp =>
          stuck := true;
        case ClaimsDone(verification, review) =>
          ClaimVerifies(Now(), verify, verification, review);
          raised := OnClaim(verify, verification, review);
        case Calls(sig, edited) =>
          OnTool(sig, edited);
        case Raises =>
          raised := true;
      }
    }

    /** `views` are the transcripts shown to the model, one for each step. */
    method Execute(task: Msg, verify: bool, maxSteps: nat, script: seq<Step>) returns (raised: bool)
      requires |script| >= maxSteps
      requires Running() && Now() == FRESH && steps == 0 && recent == [] && views == []
      modifies this
      // It stops within the bound, for exactly one of its three reasons unless a step raised.
      ensures steps <= maxSteps && |views| == steps
      ensures raised <==> RunOf(verify, script, maxSteps).end == Some(Raised)
      ensures !raised <==> (done && !stuck && !failed) || (!done && stuck && !failed) || (!done && !stuck && failed)
      ensures done <==> RunOf(verify, script, maxSteps).end == Some(Done)
      ensures stuck <==> RunOf(verify, script, maxSteps).end == Some(Stuck)
      ensures Now() == RunOf(verify, script, maxSteps).state
      // Done has passed its gates.
      ensures done ==> steps > 0 && MoveOf(script[steps - 1]).ClaimsDone? && reviewed && (verify ==> verified)
      ensures verified ==> !NoPass(script, steps)
      // Every model call sees the compacted transcript of the run so far, which is faithful to the run.
      ensures forall k :: 0 <= k < steps ==> views[k] == Transcript(task, script, k)
      ensures forall k :: 0 <= k < steps ==> FairView(views[k], task, History(task, script, k))
      // A failing action met for the third time within six tool steps is the last tool step, and the run is stuck.
      ensures NoThrash(tools, |tools| - 1)
      ensures !stuck ==> NoThrash(tools, |tools|)
    {
      hide Compact, FairView, NoThrash, NoPass, Recent, AfterStep, MoveOf, Transcript, History;
      var transcript := [task];
      NothingYet();
      raised := false;
      for step := 0 to maxSteps
        invariant steps == step == |views| && Running() && !raised
        invariant RunOf(verify, script, step) == Outcome(Now(), None)
        invariant transcript == Uncut(task, script, step)
        invariant forall k :: 0 <= k < step ==> views[k] == Transcript(task, script, k)
        invariant recent == Recent(tools)
        invariant NoThrash(tools, |tools|)
        invariant verified ==> !NoPass(script, steps)
      {
        steps := step + 1;
        transcript := Compact(transcript, KEEP);
        CompactedIs(task, script, step);
        views := views + [transcript];
        var s := script[step];
        ghost var was := Now();
        PassGrows(script, step);
        raised := OnMove(verify, MoveOf(s));
        assert RunOf(verify, script, step + 1) == AfterStep(was, verify, MoveOf(s));
        if raised || !Running() {
          RunStays(verify, script, step + 1, maxSteps);
          AllFaithful(task, script, steps);
          return;
        }
        transcript := transcript + [s.said, s.told];
      }
      AllFaithful(task, script, steps);
      NoThrashWeakens(tools);
      failed := true;
    }
  }

  lemma CompactedIs(task: Msg, script: seq<Step>, n: nat)
    requires n < |script|
    ensures Compact(Uncut(task, script, n), KEEP) == Transcript(task, script, n)
    ensures Uncut(task, script, n + 1) == Transcript(task, script, n) + [script[n].said, script[n].told]
  {
    hide Compact;
  }

  lemma AllFaithful(task: Msg, script: seq<Step>, n: nat)
    requires n <= |script|
    ensures forall k :: 0 <= k < n ==> FairView(Transcript(task, script, k), task, History(task, script, k))
  {
    hide Transcript, History, FairView;
    forall k | 0 <= k < n ensures FairView(Transcript(task, script, k), task, History(task, script, k)) {
      TranscriptIsFaithful(task, script, k);
    }
  }

  lemma NothingYet()
    ensures NoThrash([], 0) && Recent([]) == []
  {
  }

  lemma PassGrows(script: seq<Step>, n: nat)
    requires n < |script|
    ensures NoPass(script, n + 1) <==> NoPass(script, n) && !PassingClaim(MoveOf(script[n]))
  {
  }

  lemma ClaimVerifies(s: State, verify: bool, verification: Check, review: Check)
    ensures AfterClaim(s, verify, verification, review).state.verified ==> s.verified || verification.Passes?
  {
  }

  /** Nothing happens after the end. */
  lemma {:induction false} RunStays(verify: bool, script: seq<Step>, k: nat, n: nat)
    requires k <= n <= |script| && RunOf(verify, script, k).end.Some?
    ensures RunOf(verify, script, n) == RunOf(verify, script, k)
    decreases n
  {
    hide AfterStep;
    if k == n {
    } else {
      RunStays(verify, script, k, n - 1);
    }
  }

  lemma NoThrashWeakens(tools: seq<Sig>)
    requires NoThrash(tools, |tools|)
    ensures NoThrash(tools, |tools| - 1)
  {
  }
}
