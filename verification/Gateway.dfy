/** The same operations as one caller runs them, updating the approval table in place:
    app/safety/approvals.py, `execute_send` and the chunked auto-send of
    app/agents/tody_agent.py, and app/brain/action_engine.py. */
module Gateway {
  import opened PyText
  import opened Approvals
  import Payload
  import opened SendProtocol

  /** How the outside world answers a claimed execution. `Untried` is a failure before the
      action is reached: no client, an unreadable payload, an unregistered action.
      `LateFailure` is an exception in the bookkeeping after the action took place. */
  datatype Outcome = Untried | Worked | ActionFailed | LateFailure

  function AttemptEvents(id: nat, effect: Effect<Message>, outcome: Outcome): Log {
    [WasClaimed(id)]
    + (if outcome.Untried? then [] else [WasAttempted(id, effect)])
    + [WasCompleted(id, outcome.Worked?)]
  }

  /** What an execution leaves in the log: the claim; the attempt with this very effect, unless it was
      never reached; and the completion, a success only if it worked. */
  predicate Told(before: Log, after: Log, id: nat, effect: Effect<Message>, outcome: Outcome) {
    match outcome
    case Untried => after == before + [WasClaimed(id), WasCompleted(id, false)]
    case Worked => after == before + [WasClaimed(id), WasAttempted(id, effect), WasCompleted(id, true)]
    case ActionFailed => after == before + [WasClaimed(id), WasAttempted(id, effect), WasCompleted(id, false)]
    case LateFailure => after == before + [WasClaimed(id), WasAttempted(id, effect), WasCompleted(id, false)]
  }

  lemma AttemptsTold(before: Log, after: Log, id: nat, effect: Effect<Message>, outcome: Outcome)
    requires after
          == before + [WasClaimed(id)] + (if outcome.Untried? then [] else [WasAttempted(id, effect)])
             + [WasCompleted(id, outcome.Worked?)]
    ensures Told(before, after, id, effect, outcome) && after == before + AttemptEvents(id, effect, outcome)
  {
  }

  /** The rows a chunked reply adds: one per chunk, each for exactly its chunk. */
  function ChunkRows(whole: Message, chunks: seq<Payload.PyStr>, outcomes: seq<Outcome>): Table
    requires |outcomes| == |chunks|
  {
    seq(|chunks|, i requires 0 <= i < |chunks| =>
      Row(SEND, Some(Payload.SendPayload(ChunkMessage(whole, chunks[i]))),
          if outcomes[i].Worked? then Succeeded else Failed))
  }

  /** What happens to the approval of one chunk: requested, approved, claimed, attempted with it. */
  function ChunkEvents(id: nat, m: Message, outcome: Outcome): Log {
    [WasRequested(id), WasDecided(id, true)] + AttemptEvents(id, Transport(m), outcome)
  }

  /** The chunks one after the other, with ids from `first` on. */
  function ChunkLog(first: nat, whole: Message, chunks: seq<Payload.PyStr>, outcomes: seq<Outcome>): Log
    requires |outcomes| == |chunks|
  {
    if chunks == [] then []
    else
      var n := |chunks| - 1;
      ChunkLog(first, whole, chunks[..n], outcomes[..n])
      + ChunkEvents(first + n, ChunkMessage(whole, chunks[n]), outcomes[n])
  }

  /** What went out, in order: under which approval, and what. */
  function Transports(log: Log): seq<(nat, Message)> {
    if log == [] then []
    else
      var e := log[|log| - 1];
      Transports(log[..|log| - 1])
      + if e.WasAttempted? && e.effect.Transport? then [(e.id, e.effect.message)] else []
  }

  /** The texts whose sending was reached, each to `conversation`, under ids from `first` on. */
  function Bubbles(conversation: int, first: nat, chunks: seq<Payload.PyStr>, outcomes: seq<Outcome>)
    : seq<(nat, Message)>
    requires |outcomes| == |chunks|
  {
    if chunks == [] then []
    else
      var n := |chunks| - 1;
      Bubbles(conversation, first, chunks[..n], outcomes[..n])
      + if outcomes[n].Untried? then [] else [(first + n, Payload.Message(conversation, chunks[n], None))]
  }

  lemma {:induction false} TransportsJoin(a: Log, b: Log)
    ensures Transports(a + b) == Transports(a) + Transports(b)
    decreases |b|
  {
    if b == [] {
      assert a + b == a;
    } else {
      var n := |b| - 1;
      assert (a + b)[..|a + b| - 1] == a + b[..n] && (a + b)[|a + b| - 1] == b[n];
      TransportsJoin(a, b[..n]);
    }
  }

  lemma ChunkTransports(id: nat, m: Message, outcome: Outcome)
    ensures Transports(ChunkEvents(id, m, outcome)) == if outcome.Untried? then [] else [(id, m)]
  {
    hide Transports;
    var claim: Log, tried: Log := [WasClaimed(id)], [WasAttempted(id, Transport(m))];
    var end: Log := [WasCompleted(id, outcome.Worked?)];
    var asked: Log, decided: Log := [WasRequested(id)], [WasDecided(id, true)];
    OneTransport(claim[0]);
    OneTransport(tried[0]);
    OneTransport(end[0]);
    OneTransport(asked[0]);
    OneTransport(decided[0]);
    TransportsJoin(asked, decided);
    TransportsJoin(asked + decided, claim);
    TransportsJoin(asked + decided + claim, end);
    TransportsJoin(asked + decided + claim, tried);
    TransportsJoin(asked + decided + claim + tried, end);
    assert ChunkEvents(id, m, outcome)
        == if outcome.Untried? then asked + decided + claim + end else asked + decided + claim + tried + end;
  }

  lemma OneTransport(e: Event<Message>)
    ensures Transports([e]) == if e.WasAttempted? && e.effect.Transport? then [(e.id, e.effect.message)] else []
  {
    assert [e][..0] == [] && Transports([e][..0]) == [];
  }

  /** The bubbles of a reply reach the transport as its chunks, in order. */
  lemma {:induction false} ChunkLogTransports(
      first: nat, whole: Message, chunks: seq<Payload.PyStr>, outcomes: seq<Outcome>)
    requires |outcomes| == |chunks|
    ensures Transports(ChunkLog(first, whole, chunks, outcomes))
         == Bubbles(whole.conversation, first, chunks, outcomes)
  {
    hide ChunkEvents, Transports;
    if chunks == [] {
      assert Transports([]) == [] by { NothingSent(); }
    } else {
      var n := |chunks| - 1;
      ChunkLogTransports(first, whole, chunks[..n], outcomes[..n]);
      var m := ChunkMessage(whole, chunks[n]);
      ChunkTransports(first + n, m, outcomes[n]);
      TransportsJoin(ChunkLog(first, whole, chunks[..n], outcomes[..n]), ChunkEvents(first + n, m, outcomes[n]));
    }
  }

  lemma NothingSent()
    ensures Transports([]) == []
  {
  }

  class ApprovalStore {
    var rows: Table
    ghost var log: Log

    /** The table is what its history says, and the history of every approval is lawful. */
    ghost predicate Valid()
      reads this
    {
      Faithful(rows, log)
    }

    constructor ()
      ensures Valid() && rows == [] && log == []
    {
      rows := [];
      log := [];
    }

    method RequestApproval(action: string, payload: Option<string>) returns (id: nat)
      requires Valid()
      modifies this
      ensures Valid()
      ensures id == |old(rows)| && rows == old(rows) + [Row(action, payload, Pending)]
      ensures log == old(log) + [WasRequested(id)]
    {
      id := |rows|;
      rows := rows + [Row(action, payload, Pending)];
      log := log + [WasRequested(id)];
      FaithfulStep(old(rows), rows, old(log), WasRequested(id));
    }

    method Respond(id: nat, approved: bool) returns (decided: bool)
      requires Valid()
      modifies this
      ensures Valid()
      ensures decided == old(CanDecide(rows, id))
      ensures decided <==> id < |old(rows)| && old(rows)[id].status == Pending
      ensures decided ==> rows == old(rows)[id := old(rows)[id].(status := if approved then Approved else Rejected)]
      ensures rows == old(Decided(rows, id, approved))
      ensures log == old(log) + if decided then [WasDecided(id, approved)] else []
    {
      decided := id < |rows| && rows[id].status == Pending;
      if decided {
        rows := rows[id := rows[id].(status := if approved then Approved else Rejected)];
        log := log + [WasDecided(id, approved)];
        FaithfulStep(old(rows), rows, old(log), WasDecided(id, approved));
      }
    }

    method ClaimExecution(id: nat, action: string, payload: Option<string>) returns (claimed: bool)
      requires Valid()
      modifies this
      ensures Valid()
      ensures claimed == old(CanClaim(rows, id, action, payload))
      ensures claimed <==> id < |old(rows)| && old(rows)[id] == Row(action, payload, Approved)
      ensures claimed ==> rows == old(rows)[id := Row(action, payload, Executing)]
      ensures rows == old(Claimed(rows, id, action, payload))
      ensures log == old(log) + if claimed then [WasClaimed(id)] else []
    {
      claimed := id < |rows| && rows[id].status == Approved && rows[id].action == action && rows[id].payload == payload;
      if claimed {
        rows := rows[id := rows[id].(status := Executing)];
        log := log + [WasClaimed(id)];
        FaithfulStep(old(rows), rows, old(log), WasClaimed(id));
      }
    }

    method CompleteExecution(id: nat, succeeded: bool) returns (completed: bool)
      requires Valid()
      modifies this
      ensures Valid()
      ensures completed == old(CanComplete(rows, id))
      ensures completed <==> id < |old(rows)| && old(rows)[id].status == Executing
      ensures completed ==> rows == old(rows)[id := old(rows)[id].(status := if succeeded then Succeeded else Failed)]
      ensures rows == old(Completed(rows, id, succeeded))
      ensures log == old(log) + if completed then [WasCompleted(id, succeeded)] else []
    {
      completed := id < |rows| && rows[id].status == Executing;
      if completed {
        rows := rows[id := rows[id].(status := if succeeded then Succeeded else Failed)];
        log := log + [WasCompleted(id, succeeded)];
        FaithfulStep(old(rows), rows, old(log), WasCompleted(id, succeeded));
      }
    }

    method Supersede(id: nat, action: string, payload: Option<string>) returns (superseded: bool)
      requires Valid()
      modifies this
      ensures Valid()
      ensures superseded == old(CanSupersede(rows, id, action, payload))
      ensures superseded <==>
        id < |old(rows)| && old(rows)[id] in {Row(action, payload, Pending), Row(action, payload, Approved)}
      ensures superseded ==> rows == old(rows)[id := Row(action, payload, Superseded)]
      ensures rows == old(Retired(rows, id, action, payload))
      ensures log == old(log) + if superseded then [WasSuperseded(id)] else []
    {
      superseded := id < |rows| && (rows[id].status == Pending || rows[id].status == Approved)
                 && rows[id].action == action && rows[id].payload == payload;
      if superseded {
        rows := rows[id := rows[id].(status := Superseded)];
        log := log + [WasSuperseded(id)];
        FaithfulStep(old(rows), rows, old(log), WasSuperseded(id));
      }
    }

    /** Claim, act, complete. Whatever the outside world does, the row ends in a terminal state. */
    method RunClaimed(id: nat, kind: Kind, outcome: Outcome) returns (worked: bool)
      requires Valid() && id < |rows|
      requires rows[id].status == Approved && kind.Accepts(rows[id])
      modifies this
      ensures Valid()
      ensures worked == outcome.Worked?
      ensures rows == old(SetStatus(rows, id, if worked then Succeeded else Failed))
      ensures log == old(log) + AttemptEvents(id, kind.Effect(old(rows[id].payload)), outcome)
      ensures Told(old(log), log, id, kind.Effect(old(rows[id].payload)), outcome)
    {
      hide Payload.SendPayload, Told, AttemptEvents, PhaseOf;
      var payload := rows[id].payload;
      var claimed := ClaimExecution(id, kind.Action(), payload);
      if !outcome.Untried? {
        ghost var e := WasAttempted(id, kind.Effect(payload));
        assert PhaseOf(log, id) == Held by { PhaseAfter(old(log), WasClaimed(id), id); }
        FaithfulStep(rows, rows, log, e);
        log := log + [e];
      }
      worked := outcome.Worked?;
      var completed := CompleteExecution(id, worked);
      AttemptsTold(old(log), log, id, kind.Effect(payload), outcome);
    }

    method ExecuteSend(id: nat, m: Message, outcome: Outcome) returns (sent: bool)
      requires Valid()
      modifies this
      ensures Valid()
      ensures var runs := id < |old(rows)|
          && old(rows)[id] == Row("send_message", Some(Payload.SendPayload(m)), Approved);
        && sent == (runs && outcome.Worked?)
        && (if runs then Told(old(log), log, id, Transport(m), outcome) else rows == old(rows) && log == old(log))
      ensures var runs := old(CanClaim(rows, id, SEND, Some(Payload.SendPayload(m))));
        && sent == (runs && outcome.Worked?)
        && (runs ==>
              && rows == old(SetStatus(rows, id, if outcome.Worked? then Succeeded else Failed))
              && log == old(log) + AttemptEvents(id, Transport(m), outcome))
        && (!runs ==> rows == old(rows) && log == old(log))
    {
      hide Payload.SendPayload;
      sent := false;
      if id >= |rows| || rows[id].status != Approved || rows[id].action != SEND {
        return;
      }
      var expected := Payload.SendPayload(m);
      if rows[id].payload != Some(expected) {
        return;
      }
      sent := RunClaimed(id, SendMessage(m), outcome);
    }

    method ExecuteApproved(id: nat, outcome: Outcome) returns (executed: bool)
      requires Valid()
      modifies this
      ensures Valid()
      ensures var runs := id < |old(rows)| && old(rows)[id].status == Approved
          && old(rows)[id].action == "brain_action";
        && executed == (runs && outcome.Worked?)
        && (if runs then Told(old(log), log, id, RunAction(old(rows)[id].payload), outcome)
            else rows == old(rows) && log == old(log))
      ensures var runs := old(id < |rows| && rows[id].status == Approved && rows[id].action == BRAIN);
        && executed == (runs && outcome.Worked?)
        && (runs ==>
              && rows == old(SetStatus(rows, id, if outcome.Worked? then Succeeded else Failed))
              && log == old(log) + AttemptEvents(id, RunAction(old(rows[id].payload)), outcome))
        && (!runs ==> rows == old(rows) && log == old(log))
    {
      executed := false;
      if id >= |rows| || rows[id].status != Approved || rows[id].action != BRAIN {
        return;
      }
      executed := RunClaimed(id, RunBrainAction, outcome);
    }

    /** The queued approval is decided and executed for the whole message. */
    method SendWhole(queued: nat, whole: Message, outcome: Outcome) returns (sent: bool)
      requires Valid()
      modifies this
      ensures Valid()
      ensures var decided := old(Decided(rows, queued, true));
        var runs := CanClaim(decided, queued, SEND, Some(Payload.SendPayload(whole)));
        && sent == (runs && outcome.Worked?)
        && rows == (if runs then SetStatus(decided, queued, if sent then Succeeded else Failed) else decided)
        && log == old(log) + (if old(CanDecide(rows, queued)) then [WasDecided(queued, true)] else [])
             + (if runs then AttemptEvents(queued, Transport(whole), outcome) else [])
    {
      hide Payload.SendPayload, Faithful, AttemptEvents, Told;
      var decided := Respond(queued, true);
      ghost var before := log;
      sent := ExecuteSend(queued, whole, outcome);
      assert before + [] == before;
    }

    /** A chunk goes out under a fresh approval for exactly that chunk. */
    method SendChunk(m: Message, outcome: Outcome) returns (sent: bool)
      requires Valid()
      modifies this
      ensures Valid()
      ensures sent == outcome.Worked?
      ensures rows == old(rows) + [Row(SEND, Some(Payload.SendPayload(m)), if sent then Succeeded else Failed)]
      ensures log == old(log) + ChunkEvents(|old(rows)|, m, outcome)
    {
      hide Payload.SendPayload, Faithful, AttemptEvents, Told;
      var id := RequestApproval(SEND, Some(Payload.SendPayload(m)));
      var decided := Respond(id, true);
      ghost var before := log;
      assert before == old(log) + [WasRequested(id), WasDecided(id, true)];
      sent := ExecuteSend(id, m, outcome);
      assert log == before + AttemptEvents(id, Transport(m), outcome);
    }

    /** Auto-send of a queued reply: one bubble under the queued approval, or the queued approval
        retired and one fresh approval per bubble. */
    method AutoSend(queued: nat, whole: Message, chunks: seq<Payload.PyStr>, outcomes: seq<Outcome>)
      returns (sent: bool)
      requires Valid() && whole.replyTo == None
      requires 1 <= |chunks| == |outcomes|
      modifies this
      ensures Valid()
      ensures |chunks| == 1 ==>
        var decided := old(Decided(rows, queued, true));
        var runs := CanClaim(decided, queued, SEND, Some(Payload.SendPayload(whole)));
        && sent == (runs && outcomes[0].Worked?)
        && rows == (if runs then SetStatus(decided, queued, if sent then Succeeded else Failed) else decided)
        && log == old(log) + (if old(CanDecide(rows, queued)) then [WasDecided(queued, true)] else [])
             + (if runs then AttemptEvents(queued, Transport(whole), outcomes[0]) else [])
      ensures |chunks| > 1 && old(CanSupersede(rows, queued, SEND, Some(Payload.SendPayload(whole)))) ==>
        && (sent <==> forall i :: 0 <= i < |outcomes| ==> outcomes[i].Worked?)
        && rows == old(SetStatus(rows, queued, Superseded)) + ChunkRows(whole, chunks, outcomes)
        && log == old(log) + [WasSuperseded(queued)] + ChunkLog(|old(rows)|, whole, chunks, outcomes)
      // Bubble i: to the conversation of the whole reply, with its text and no reply id.
      ensures |chunks| > 1 && old(CanSupersede(rows, queued, SEND, Some(Payload.SendPayload(whole)))) ==>
        && |rows| == |old(rows)| + |chunks|
        && (forall i :: 0 <= i < |chunks| ==>
              var bubble := Payload.Message(whole.conversation, chunks[i], None);
              rows[|old(rows)| + i] == Row("send_message", Some(Payload.SendPayload(bubble)),
                                           if outcomes[i].Worked? then Succeeded else Failed))
        && Transports(log) == Transports(old(log)) + Bubbles(whole.conversation, |old(rows)|, chunks, outcomes)
      ensures |chunks| > 1 && !old(CanSupersede(rows, queued, SEND, Some(Payload.SendPayload(whole)))) ==>
        !sent && rows == old(rows) && log == old(log)
    {
      hide Payload.SendPayload, Faithful, AttemptEvents, ChunkEvents, Transports, Bubbles, ChunkLog, ChunkRows, Told;
      if |chunks| == 1 {
        sent := SendWhole(queued, whole, outcomes[0]);
        return;
      }
      var superseded := Supersede(queued, SEND, Some(Payload.SendPayload(whole)));
      if !superseded {
        return false;
      }
      ghost var base, trail := rows, log;
      sent := true;
      NoChunksYet(|base|, whole);
      for i := 0 to |chunks|
        invariant Valid()
        invariant rows == base + ChunkRows(whole, chunks[..i], outcomes[..i])
        invariant log == trail + ChunkLog(|base|, whole, chunks[..i], outcomes[..i])
        invariant sent <==> forall k :: 0 <= k < i ==> outcomes[k].Worked?
      {
        ChunkAdded(|base|, whole, chunks, outcomes, i);
        var ok := SendChunk(ChunkMessage(whole, chunks[i]), outcomes[i]);
        sent := sent && ok;
      }
      assert chunks[..|chunks|] == chunks && outcomes[..|chunks|] == outcomes;
      assert trail == old(log) + [WasSuperseded(queued)];
      RetireThenBubbles(old(log), queued, |base|, whole, chunks, outcomes);
      ChunkRowsAre(whole, chunks, outcomes);
    }
  }

  lemma NoChunksYet(first: nat, whole: Message)
    ensures ChunkRows(whole, [], []) == [] && ChunkLog(first, whole, [], []) == []
  {
    hide Payload.SendPayload;
  }

  lemma ChunkRowsAre(whole: Message, chunks: seq<Payload.PyStr>, outcomes: seq<Outcome>)
    requires |outcomes| == |chunks|
    ensures var rows := ChunkRows(whole, chunks, outcomes);
      |rows| == |chunks|
      && forall i :: 0 <= i < |chunks| ==>
           var bubble := Payload.Message(whole.conversation, chunks[i], None);
           rows[i] == Row("send_message", Some(Payload.SendPayload(bubble)),
                          if outcomes[i].Worked? then Succeeded else Failed)
  {
    hide Payload.SendPayload;
  }

  lemma RetireThenBubbles(
      log: Log, queued: nat, first: nat, whole: Message, chunks: seq<Payload.PyStr>, outcomes: seq<Outcome>)
    requires |outcomes| == |chunks|
    ensures Transports(log + [WasSuperseded(queued)] + ChunkLog(first, whole, chunks, outcomes))
         == Transports(log) + Bubbles(whole.conversation, first, chunks, outcomes)
  {
    hide Transports, Bubbles, ChunkLog;
    var retire: Log := [WasSuperseded(queued)];
    OneTransport(retire[0]);
    TransportsJoin(log, retire);
    TransportsJoin(log + retire, ChunkLog(first, whole, chunks, outcomes));
    ChunkLogTransports(first, whole, chunks, outcomes);
    assert Transports(log) + [] == Transports(log);
  }

  lemma ChunkAdded(first: nat, whole: Message, chunks: seq<Payload.PyStr>, outcomes: seq<Outcome>, i: nat)
    requires i < |chunks| == |outcomes|
    ensures var m := ChunkMessage(whole, chunks[i]);
      && ChunkRows(whole, chunks[..i + 1], outcomes[..i + 1])
           == ChunkRows(whole, chunks[..i], outcomes[..i])
            + [Row(SEND, Some(Payload.SendPayload(m)), if outcomes[i].Worked? then Succeeded else Failed)]
      && ChunkLog(first, whole, chunks[..i + 1], outcomes[..i + 1])
           == ChunkLog(first, whole, chunks[..i], outcomes[..i]) + ChunkEvents(first + i, m, outcomes[i])
    ensures |ChunkRows(whole, chunks[..i], outcomes[..i])| == i
  {
    hide Payload.SendPayload, ChunkEvents;
    assert chunks[..i + 1][..i] == chunks[..i] && outcomes[..i + 1][..i] == outcomes[..i];
  }
}
