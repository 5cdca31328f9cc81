/** The chunked auto-send of app/agents/tody_agent.py as an interleaved process, when nothing disturbs
    it: statement by statement it does what the sequential `Gateway.ApprovalStore.AutoSend` does. */
module LoopAlone {
  import opened PyText
  import opened Approvals
  import opened SendProtocol
  import opened SendOutcomes
  import opened Gateway

  /** Where process `pid` stands, and what table and log are. */
  predicate Stands(s: State, pid: nat, p: Proc, rows: Table, log: Log) {
    pid in s.procs && s.procs[pid] == p && s.rows == rows && s.log == log
  }

  lemma GoIs(s: State, pid: nat, p: Proc, rows: Table, log: Log, works: bool)
    requires Stands(s, pid, p, rows, log)
    ensures var (op, p', _) := ProcStep(rows, p, works);
      Stands(Apply(s, Go(pid, works)), pid, p', OpRows(rows, op), log + OpLog(rows, op))
  {
    hide ProcStep;
  }

  /** The statements of one turn: request, read, approve, read, claim, send, its result, complete, next. */
  function TurnWorks(ok: bool): seq<bool> {
    [true] + [true] + [true] + [true] + [true] + [true] + [ok] + [true] + [true]
  }

  lemma StepsConcat(s: State, pid: nat, a: seq<bool>, b: seq<bool>)
    ensures Steps(s, pid, a + b) == Steps(Steps(s, pid, a), pid, b)
    decreases |b|
  {
    hide Apply;
    if b == [] {
      assert a + b == a;
    } else {
      var n := |b| - 1;
      assert (a + b)[..|a + b| - 1] == a + b[..n] && (a + b)[|a + b| - 1] == b[n];
      StepsConcat(s, pid, a, b[..n]);
    }
  }

  lemma RowMoves(rows: Table, row: Row, st: Status)
    ensures SetStatus(rows + [row], |rows|, st) == rows + [row.(status := st)]
  {
  }

  /** The first half of a turn: the chunk has been requested and approved, and its call begins. */
  lemma TurnAsks(s: State, pid: nat, p: Proc, i: nat)
    requires p.Chunker? && i < |p.chunks| && pid in s.procs && s.procs[pid] == p.(at := Turn(i))
    ensures var m := Payload.Message(p.whole.conversation, p.chunks[i], None);
      Stands(Steps(s, pid, [true] + [true] + [true]), pid,
             p.(at := Sending(i, Call(|s.rows|, SendMessage(m), Start))),
             s.rows + [Row("send_message", Some(Payload.SendPayload(m)), Approved)],
             s.log + [WasRequested(|s.rows|)] + [WasDecided(|s.rows|, true)])
  {
    hide Apply, Steps, Stands, Payload.SendPayload;
    var m, id := Payload.Message(p.whole.conversation, p.chunks[i], None), |s.rows|;
    var row := Row("send_message", Some(Payload.SendPayload(m)), Pending);
    StepsFromNone(s, pid, true);
    StepsOn(s, pid, [true], true);
    StepsOn(s, pid, [true] + [true], true);
    assert Stands(s, pid, p.(at := Turn(i)), s.rows, s.log) by { Standing(s, pid); }
    GoIs(s, pid, p.(at := Turn(i)), s.rows, s.log, true);
    var s1, log1 := Apply(s, Go(pid, true)), s.log + [WasRequested(id)];
    assert Stands(s1, pid, p.(at := Queued(i, id)), s.rows + [row], log1);
    GoIs(s1, pid, p.(at := Queued(i, id)), s.rows + [row], log1, true);
    assert log1 + [] == log1;
    var s2 := Apply(s1, Go(pid, true));
    assert Stands(s2, pid, p.(at := Deciding(i, id)), s.rows + [row], log1);
    GoIs(s2, pid, p.(at := Deciding(i, id)), s.rows + [row], log1, true);
    RowMoves(s.rows, row, Approved);
  }

  lemma Standing(s: State, pid: nat)
    requires pid in s.procs
    ensures Stands(s, pid, s.procs[pid], s.rows, s.log)
  {
  }

  lemma StepsFromNone(s: State, pid: nat, w: bool)
    ensures Steps(s, pid, [w]) == Apply(s, Go(pid, w))
  {
    assert [] + [w] == [w];
    StepsOn(s, pid, [], w);
  }

  /** A statement of the call within the loop. */
  lemma CallWithin(s: State, pid: nat, p: Proc, i: nat, call: Call, rows: Table, log: Log, works: bool)
    requires p.Chunker? && !call.pc.Done? && Stands(s, pid, p.(at := Sending(i, call)), rows, log)
    ensures var (op, call') := CallStep(rows, call, works);
      Stands(Apply(s, Go(pid, works)), pid, p.(at := Sending(i, call')), OpRows(rows, op), log + OpLog(rows, op))
  {
    hide CallStep, Apply, Stands;
    GoIs(s, pid, p.(at := Sending(i, call)), rows, log, works);
  }

  /** The second half: the call of the approved chunk runs to its end, and the next turn begins. */
  lemma TurnSends(s: State, pid: nat, p: Proc, i: nat, m: Message, rows: Table, log: Log, ok: bool)
    requires p.Chunker?
    requires Stands(s, pid, p.(at := Sending(i, Call(|rows|, SendMessage(m), Start))),
                    rows + [Row("send_message", Some(Payload.SendPayload(m)), Approved)], log)
    ensures Stands(Steps(s, pid, [true] + [true] + [true] + [ok] + [true] + [true]), pid, p.(at := Turn(i + 1)),
                   rows + [Row("send_message", Some(Payload.SendPayload(m)), if ok then Succeeded else Failed)],
                   log + AttemptEvents(|rows|, Transport(m), if ok then Worked else ActionFailed))
  {
    hide Apply, Steps, Stands, Payload.SendPayload;
    var id, payload := |rows|, Some(Payload.SendPayload(m));
    var row := Row("send_message", payload, Approved);
    var kind, events := SendMessage(m), AttemptEvents(id, Transport(m), if ok then Worked else ActionFailed);
    StepsFromNone(s, pid, true);
    StepsOn(s, pid, [true], true);
    StepsOn(s, pid, [true] + [true], true);
    StepsOn(s, pid, [true] + [true] + [true], ok);
    StepsOn(s, pid, [true] + [true] + [true] + [ok], true);
    StepsOn(s, pid, [true] + [true] + [true] + [ok] + [true], true);
    CallWithin(s, pid, p, i, Call(id, kind, Start), rows + [row], log, true);
    assert log + [] == log;
    var s1 := Apply(s, Go(pid, true));
    CallWithin(s1, pid, p, i, Call(id, kind, Checked(payload)), rows + [row], log, true);
    RowMoves(rows, row, Executing);
    var s2, row2, log2 := Apply(s1, Go(pid, true)), row.(status := Executing), log + [WasClaimed(id)];
    CallWithin(s2, pid, p, i, Call(id, kind, Owns(payload)), rows + [row2], log2, true);
    var s3, log3 := Apply(s2, Go(pid, true)), log2 + [WasAttempted(id, Transport(m))];
    CallWithin(s3, pid, p, i, Call(id, kind, Tried), rows + [row2], log3, ok);
    assert log3 + [] == log3;
    var s4 := Apply(s3, Go(pid, ok));
    CallWithin(s4, pid, p, i, Call(id, kind, Finishing(ok)), rows + [row2], log3, true);
    RowMoves(rows, row2, if ok then Succeeded else Failed);
    var s5, log5 := Apply(s4, Go(pid, true)), log3 + [WasCompleted(id, ok)];
    var row5 := row.(status := if ok then Succeeded else Failed);
    assert Stands(s5, pid, p.(at := Sending(i, Call(id, kind, Done))), rows + [row5], log5);
    GoIs(s5, pid, p.(at := Sending(i, Call(id, kind, Done))), rows + [row5], log5, true);
    assert log5 + [] == log5 == log + events;
  }

  /** One whole turn. */
  lemma TurnAlone(s: State, pid: nat, p: Proc, i: nat, ok: bool)
    requires p.Chunker? && i < |p.chunks| && pid in s.procs && s.procs[pid] == p.(at := Turn(i))
    ensures var m := Payload.Message(p.whole.conversation, p.chunks[i], None);
      Stands(Steps(s, pid, TurnWorks(ok)), pid, p.(at := Turn(i + 1)),
             s.rows + [Row("send_message", Some(Payload.SendPayload(m)), if ok then Succeeded else Failed)],
             s.log + ChunkEvents(|s.rows|, m, if ok then Worked else ActionFailed))
  {
    hide Steps, Payload.SendPayload, AttemptEvents;
    var m, id := Payload.Message(p.whole.conversation, p.chunks[i], None), |s.rows|;
    var asks, sends := [true] + [true] + [true], [true] + [true] + [true] + [ok] + [true] + [true];
    assert TurnWorks(ok) == asks + sends;
    StepsConcat(s, pid, asks, sends);
    TurnAsks(s, pid, p, i);
    var log := s.log + [WasRequested(id)] + [WasDecided(id, true)];
    TurnSends(Steps(s, pid, asks), pid, p, i, m, s.rows, log, ok);
    var events := AttemptEvents(id, Transport(m), if ok then Worked else ActionFailed);
    assert log + events == s.log + ([WasRequested(id), WasDecided(id, true)] + events);
  }

  /** One turn after the other; the transport takes chunk `i` as `oks[i]` says. */
  function Schedule(oks: seq<bool>): seq<bool> {
    if oks == [] then [] else Schedule(oks[..|oks| - 1]) + TurnWorks(oks[|oks| - 1])
  }

  function Outcomes(oks: seq<bool>): (r: seq<Outcome>)
    ensures |r| == |oks|
  {
    seq(|oks|, i requires 0 <= i < |oks| => if oks[i] then Worked else ActionFailed)
  }

  lemma {:induction false} TurnsAlone(s: State, pid: nat, p: Proc, oks: seq<bool>)
    requires p.Chunker? && |oks| <= |p.chunks| && pid in s.procs && s.procs[pid] == p.(at := Turn(0))
    ensures Stands(Steps(s, pid, Schedule(oks)), pid, p.(at := Turn(|oks|)),
                   s.rows + ChunkRows(p.whole, p.chunks[..|oks|], Outcomes(oks)),
                   s.log + ChunkLog(|s.rows|, p.whole, p.chunks[..|oks|], Outcomes(oks)))
    decreases |oks|
  {
    hide Payload.SendPayload, ChunkEvents, TurnWorks, ChunkRows, ChunkLog, Apply, Outcomes, Stands;
    OutcomesSplit(oks);
    if oks == [] {
      NothingYet(s, pid, p.(at := Turn(0)), p.whole, p.chunks[..0]);
    } else {
      hide Steps;
      var n := |oks| - 1;
      var chunks, outcomes := p.chunks[..n + 1], Outcomes(oks);
      assert chunks[..n] == p.chunks[..n];
      TurnsAlone(s, pid, p, oks[..n]);
      var t := Steps(s, pid, Schedule(oks[..n]));
      StepsConcat(s, pid, Schedule(oks[..n]), TurnWorks(oks[n]));
      StandsSplit(t, pid, p.(at := Turn(n)), s.rows + ChunkRows(p.whole, chunks[..n], outcomes[..n]),
                  s.log + ChunkLog(|s.rows|, p.whole, chunks[..n], outcomes[..n]));
      TurnAlone(t, pid, p, n, oks[n]);
      RowsLonger(p.whole, chunks, outcomes, s.rows);
      LogLonger(|s.rows|, p.whole, chunks, outcomes, s.log);
    }
  }

  lemma OutcomesSplit(oks: seq<bool>)
    ensures oks == [] ==> Outcomes(oks) == []
    ensures oks != [] ==>
      Outcomes(oks)[..|oks| - 1] == Outcomes(oks[..|oks| - 1])
      && Outcomes(oks)[|oks| - 1] == if oks[|oks| - 1] then Worked else ActionFailed
  {
  }

  lemma StandsSplit(s: State, pid: nat, p: Proc, rows: Table, log: Log)
    requires Stands(s, pid, p, rows, log)
    ensures pid in s.procs && s.procs[pid] == p && s.rows == rows && s.log == log
  {
  }

  lemma NothingYet(s: State, pid: nat, p: Proc, whole: Message, chunks: seq<Payload.PyStr>)
    requires pid in s.procs && s.procs[pid] == p && chunks == []
    ensures Stands(s, pid, p, s.rows + ChunkRows(whole, chunks, []), s.log + ChunkLog(|s.rows|, whole, chunks, []))
  {
    assert s.rows + ChunkRows(whole, chunks, []) == s.rows;
    assert s.log + ChunkLog(|s.rows|, whole, chunks, []) == s.log;
  }

  lemma RowsLonger(whole: Message, chunks: seq<Payload.PyStr>, outcomes: seq<Outcome>, rows: Table)
    requires |chunks| == |outcomes| > 0
    ensures var n, m := |chunks| - 1, Payload.Message(whole.conversation, chunks[|chunks| - 1], None);
      rows + ChunkRows(whole, chunks, outcomes)
        == rows + ChunkRows(whole, chunks[..n], outcomes[..n])
           + [Row("send_message", Some(Payload.SendPayload(m)), if outcomes[n].Worked? then Succeeded else Failed)]
      && |ChunkRows(whole, chunks[..n], outcomes[..n])| == n
  {
    hide Payload.SendPayload;
  }

  lemma LogLonger(first: nat, whole: Message, chunks: seq<Payload.PyStr>, outcomes: seq<Outcome>, log: Log)
    requires |chunks| == |outcomes| > 0
    ensures var n, m := |chunks| - 1, Payload.Message(whole.conversation, chunks[|chunks| - 1], None);
      log + ChunkLog(first, whole, chunks, outcomes)
        == log + ChunkLog(first, whole, chunks[..n], outcomes[..n]) + ChunkEvents(first + n, m, outcomes[n])
  {
    hide ChunkEvents;
  }

  /** A loop that nothing disturbs leaves table and log as the sequential auto-send does: the approval of
      the whole reply is superseded, and each chunk goes out in turn under one of its own. */
  lemma LoopSendsAll(
      s: State, pid: nat, orig: nat, whole: Message, chunks: seq<Payload.PyStr>, oks: seq<bool>)
    requires pid !in s.procs && |oks| == |chunks| && orig < |s.rows|
    requires s.rows[orig].status in {Pending, Approved} && s.rows[orig].action == "send_message"
    requires s.rows[orig].payload == Some(Payload.SendPayload(whole))
    ensures var s0 := Apply(s, Spawn(pid, Chunker(orig, whole, chunks, Superseding)));
      var t := Steps(s0, pid, [true] + Schedule(oks));
      && t.rows == s.rows[orig := s.rows[orig].(status := Superseded)] + ChunkRows(whole, chunks, Outcomes(oks))
      && t.log == s.log + [WasSuperseded(orig)] + ChunkLog(|s.rows|, whole, chunks, Outcomes(oks))
  {
    hide Steps, Payload.SendPayload, ChunkRows, ChunkLog, Schedule;
    var p := Chunker(orig, whole, chunks, Superseding);
    var s0 := Apply(s, Spawn(pid, p));
    assert s.log + [] == s.log;
    StepsConcat(s0, pid, [true], Schedule(oks));
    StepsFromNone(s0, pid, true);
    var s1 := Apply(s0, Go(pid, true));
    assert s1.procs[pid] == p.(at := Turn(0));
    TurnsAlone(s1, pid, p, oks);
    assert chunks[..|oks|] == chunks;
  }

  /** A loop whose own statement fails does nothing more. */
  lemma {:induction false} FailedLoopStops(s: State, pid: nat, works: seq<bool>)
    requires pid in s.procs && s.procs[pid].Chunker? && !s.procs[pid].at.Sending?
    ensures var t := Steps(Apply(s, Go(pid, false)), pid, works);
      t.rows == s.rows && t.log == s.log && t.chunkOf == s.chunkOf
      && pid in t.procs && t.procs[pid] == s.procs[pid].(at := Stopped)
  {
    hide Payload.SendPayload;
    if works == [] {
      assert s.log + [] == s.log;
    } else {
      FailedLoopStops(s, pid, works[..|works| - 1]);
      var t := Steps(Apply(s, Go(pid, false)), pid, works[..|works| - 1]);
      assert t.log + [] == t.log;
    }
  }

  /** A responder writes what was decided, whatever the row has become since it was read. */
  lemma WriteLands(s: State, rid: nat)
    requires rid in s.responders && s.responders[rid].id < |s.rows|
    ensures var (d, t) := (s.responders[rid], Apply(s, Write(rid)));
      && t.rows == s.rows[d.id := s.rows[d.id].(status := if d.approved then Approved else Rejected)]
      && t.log == s.log + [WasDecided(d.id, d.approved)]
      && t.procs == s.procs && rid !in t.responders
  {
  }
}
