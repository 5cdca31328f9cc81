/** What the final status of an approval says about the attempt made under it. */
module SendOutcomes {
  import opened PyText
  import opened Approvals
  import opened SendProtocol
  import opened SendSteps

  ghost predicate Attempted(log: Log, id: nat) {
    exists k :: 0 <= k < |log| && log[k].WasAttempted? && log[k].id == id
  }

  /** The process is about to record the attempt as a success, or does not know yet. */
  predicate Reports(p: Proc, id: nat) {
    && p.Running().Some? && p.Running().value.id == id
    && (p.Running().value.pc.Tried? || p.Running().value.pc == Finishing(true))
  }

  ghost predicate Honest(s: State) {
    && (forall pid, id: nat :: pid in s.procs && Reports(s.procs[pid], id) ==> Attempted(s.log, id))
    && (forall id: nat :: id < |s.rows| && s.rows[id].status == Succeeded ==> Attempted(s.log, id))
    && (forall k :: 0 <= k < |s.log| && s.log[k].WasCompleted? && s.log[k].succeeded ==>
          Attempted(s.log[..k], s.log[k].id))
  }

  lemma AttemptedLater(log: Log, log': Log, id: nat)
    requires log <= log' && Attempted(log, id)
    ensures Attempted(log', id)
  {
    var k :| 0 <= k < |log| && log[k].WasAttempted? && log[k].id == id;
    assert log'[k] == log[k];
  }

  lemma NewlyAttempted(log: Log, e: Event<Message>)
    requires e.WasAttempted?
    ensures Attempted(log + [e], e.id)
  {
    assert (log + [e])[|log|] == e;
  }

  /** How a call comes to report success, and a row to record it. */
  lemma StepReports(s: State, l: Label, pid: nat, id: nat)
    ensures var (op, s') := (OpOf(s, l), Apply(s, l));
      && (pid in s'.procs && Reports(s'.procs[pid], id) ==>
            (pid in s.procs && Reports(s.procs[pid], id)) || (op.Attempt? && op.id == id))
      && (id < |s'.rows| && s'.rows[id].status == Succeeded ==>
            (id < |s.rows| && s.rows[id].status == Succeeded) || op == Finish(id, true))
      && (op.Finish? && op.ok ==> l.Go? && l.pid in s.procs && Reports(s.procs[l.pid], op.id))
  {
    hide Payload.SendPayload;
  }

  lemma ApplyKeepsHonest(s: State, l: Label)
    requires Honest(s)
    ensures Honest(Apply(s, l))
  {
    hide Attempted, Reports, ProcStep;
    var op, s' := OpOf(s, l), Apply(s, l);
    assert s.log <= s'.log;
    if op.Attempt? {
      NewlyAttempted(s.log, WasAttempted(op.id, op.effect));
    }
    forall pid, id: nat | pid in s'.procs && Reports(s'.procs[pid], id) ensures Attempted(s'.log, id) {
      StepReports(s, l, pid, id);
      if pid in s.procs && Reports(s.procs[pid], id) {
        AttemptedLater(s.log, s'.log, id);
      }
    }
    forall id: nat | id < |s'.rows| && s'.rows[id].status == Succeeded ensures Attempted(s'.log, id) {
      StepReports(s, l, 0, id);
      if id < |s.rows| && s.rows[id].status == Succeeded {
        AttemptedLater(s.log, s'.log, id);
      } else {
        StepReports(s, l, 0, op.id);
        AttemptedLater(s.log, s'.log, id);
      }
    }
    forall k | 0 <= k < |s'.log| && s'.log[k].WasCompleted? && s'.log[k].succeeded
      ensures Attempted(s'.log[..k], s'.log[k].id)
    {
      if k < |s.log| {
        assert s'.log[..k] == s.log[..k];
      } else {
        assert s'.log[..k] == s.log;
        StepReports(s, l, 0, s'.log[k].id);
      }
    }
  }

  lemma {:induction false} RunIsHonest(labels: seq<Label>)
    ensures Honest(Run(labels))
  {
    hide Apply;
    if labels == [] {
    } else {
      RunIsHonest(labels[..|labels| - 1]);
      ApplyKeepsHonest(Run(labels[..|labels| - 1]), labels[|labels| - 1]);
    }
  }

  /** In every run, late writes, crashes and failures included, an approval is recorded as carried out
      only after an attempt was made under it. */
  lemma SuccessWasAttempted(labels: seq<Label>, id: nat)
    requires id < |Run(labels).rows| && Run(labels).rows[id].status == Succeeded
    ensures exists k :: 0 <= k < |Run(labels).log| && Run(labels).log[k].WasAttempted? && Run(labels).log[k].id == id
  {
    hide Continue;
    RunIsHonest(labels);
    assert Attempted(Run(labels).log, id);
  }

  // ----- one call left alone -------------------------------------------------------------

  /** The statements of process `pid`, one after the other; each works as said. */
  function Steps(s: State, pid: nat, works: seq<bool>): State {
    if works == [] then s else Apply(Steps(s, pid, works[..|works| - 1]), Go(pid, works[|works| - 1]))
  }

  function Begun(s: State, pid: nat, id: nat, kind: Kind): State {
    Apply(s, Spawn(pid, Caller(Call(id, kind, Start))))
  }

  lemma StepsOn(s: State, pid: nat, works: seq<bool>, w: bool)
    ensures Steps(s, pid, works + [w]) == Apply(Steps(s, pid, works), Go(pid, w))
  {
    assert (works + [w])[..|works|] == works;
  }

  predicate MayExecute(s: State, id: nat, kind: Kind) {
    && id < |s.rows| && s.rows[id].status == Approved
    && s.rows[id].action == (if kind.SendMessage? then "send_message" else "brain_action")
    && (kind.SendMessage? ==> s.rows[id].payload == Some(Payload.SendPayload(kind.m)))
  }

  /** The state in which the call stands at `pc`, the row has `status`, and `events` have happened. */
  function At(s: State, pid: nat, call: Call, status: Status, events: Log): State {
    State(if call.id < |s.rows| then s.rows[call.id := s.rows[call.id].(status := status)] else s.rows,
          s.procs[pid := Caller(call)], s.log + events, s.chunkOf, s.responders)
  }

  lemma CallClaims(s: State, pid: nat, id: nat, kind: Kind)
    requires pid !in s.procs && MayExecute(s, id, kind)
    ensures Steps(Begun(s, pid, id, kind), pid, [true] + [true])
         == At(s, pid, Call(id, kind, Owns(s.rows[id].payload)), Executing, [WasClaimed(id)])
  {
    hide Payload.SendPayload;
    var s0, payload := Begun(s, pid, id, kind), s.rows[id].payload;
    StepsOn(s0, pid, [], true);
    assert [] + [true] == [true];
    StepsOn(s0, pid, [true], true);
    var s1 := Apply(s0, Go(pid, true));
    assert s1 == s.(procs := s.procs[pid := Caller(Call(id, kind, Checked(payload)))]) by {
      assert s0.procs[pid] == Caller(Call(id, kind, Start));
      CheckStep(s0, pid);
    }
    assert OpOf(s1, Go(pid, true)) == Claim(id);
  }

  /** What follows the claim, statement by statement. */
  lemma CallGoesOn(s: State, pid: nat, call: Call, status: Status, events: Log, works: bool)
    requires call.id < |s.rows|
    ensures var (t, id) := (At(s, pid, call, status, events), call.id);
      var t' := Apply(t, Go(pid, works));
      match call.pc
      case Owns(payload) =>
        var effect := if call.kind.SendMessage? then Transport(call.kind.m) else RunAction(payload);
        if works then t' == At(s, pid, call.(pc := Tried), status, events + [WasAttempted(id, effect)])
        else t' == At(s, pid, call.(pc := Finishing(false)), status, events)
      case Tried => t' == At(s, pid, call.(pc := Finishing(works)), status, events)
      case Finishing(ok) =>
        status == Executing && works ==>
          t' == At(s, pid, call.(pc := Done), if ok then Succeeded else Failed, events + [WasCompleted(id, ok)])
      case _ => true
  {
    hide Payload.SendPayload;
    var t := At(s, pid, call, status, events);
    assert t.log + [] == t.log;
    assert t.rows[call.id].status == status;
  }

  /** A call that nothing disturbs claims its approval, makes one attempt with exactly what was approved,
      and leaves the row as the attempt went; if the statements before the attempt fail there is none,
      and the row is failed. */
  lemma CallAlone(s: State, pid: nat, id: nat, kind: Kind, ok: bool)
    requires pid !in s.procs && MayExecute(s, id, kind)
    ensures var s' := Steps(Begun(s, pid, id, kind), pid, [true] + [true] + [true] + [ok] + [true]);
      var effect := if kind.SendMessage? then Transport(kind.m) else RunAction(s.rows[id].payload);
      && s'.rows == s.rows[id := s.rows[id].(status := if ok then Succeeded else Failed)]
      && s'.log == s.log + [WasClaimed(id), WasAttempted(id, effect), WasCompleted(id, ok)]
    ensures var s' := Steps(Begun(s, pid, id, kind), pid, [true] + [true] + [false] + [true]);
      && s'.rows == s.rows[id := s.rows[id].(status := Failed)]
      && s'.log == s.log + [WasClaimed(id), WasCompleted(id, false)]
  {
    hide Apply, Steps, Begun, Payload.SendPayload;
    var s0, payload := Begun(s, pid, id, kind), s.rows[id].payload;
    var effect := if kind.SendMessage? then Transport(kind.m) else RunAction(payload);
    var two, claimed := [true] + [true], [WasClaimed(id)];
    CallClaims(s, pid, id, kind);
    assert claimed + [WasAttempted(id, effect)] == [WasClaimed(id), WasAttempted(id, effect)];
    StepsOn(s0, pid, two, true);
    CallGoesOn(s, pid, Call(id, kind, Owns(payload)), Executing, claimed, true);
    StepsOn(s0, pid, two + [true], ok);
    CallGoesOn(s, pid, Call(id, kind, Tried), Executing, claimed + [WasAttempted(id, effect)], ok);
    StepsOn(s0, pid, two + [true] + [ok], true);
    CallGoesOn(s, pid, Call(id, kind, Finishing(ok)), Executing, claimed + [WasAttempted(id, effect)], true);
    assert claimed + [WasAttempted(id, effect)] + [WasCompleted(id, ok)]
        == [WasClaimed(id), WasAttempted(id, effect), WasCompleted(id, ok)];
    StepsOn(s0, pid, two, false);
    CallGoesOn(s, pid, Call(id, kind, Owns(payload)), Executing, claimed, false);
    StepsOn(s0, pid, two + [false], true);
    CallGoesOn(s, pid, Call(id, kind, Finishing(false)), Executing, claimed, true);
    assert claimed + [WasCompleted(id, false)] == [WasClaimed(id), WasCompleted(id, false)];
  }

  /** A call whose approval is not approved for exactly what it is to do changes nothing. */
  lemma {:induction false} CallRefused(s: State, pid: nat, id: nat, kind: Kind, works: seq<bool>)
    requires pid !in s.procs && !MayExecute(s, id, kind)
    ensures var s' := Steps(Begun(s, pid, id, kind), pid, works);
      && s'.rows == s.rows && s'.log == s.log && pid in s'.procs
      && s'.procs[pid] in {Caller(Call(id, kind, Start)), Caller(Call(id, kind, Done))}
  {
    hide Payload.SendPayload;
    if works == [] {
    } else {
      CallRefused(s, pid, id, kind, works[..|works| - 1]);
      var t := Steps(Begun(s, pid, id, kind), pid, works[..|works| - 1]);
      assert t.log + [] == t.log;
      assert OpOf(t, Go(pid, works[|works| - 1])) == Nop;
    }
  }
}
