/** The chunks of one reply are requested in order. */
module ChunkOrder {
  import opened PyText
  import opened Approvals
  import Payload
  import opened SendProtocol
  import opened SendSteps
  import opened SendResults

  /** How many chunks a loop has requested. */
  function Asked(p: Proc): nat
    requires InChunks(p)
  {
    match p.at
    case Turn(i) => i
    case Queued(i, _) => i + 1
    case Deciding(i, _) => i + 1
    case Sending(i, _) => i + 1
  }

  /** An approval below `bound` was requested for chunk `j` of reply `orig`, cut into `chunks`. */
  ghost predicate AskedFor(s: State, orig: nat, chunks: seq<Payload.PyStr>, j: nat, bound: nat) {
    exists c :: c in s.chunkOf && c < bound
      && s.chunkOf[c].orig == orig && s.chunkOf[c].chunks == chunks && s.chunkOf[c].i == j
  }

  /** Every chunk before the one of approval `c` was asked for before `c`. */
  ghost predicate ChunksBefore(s: State) {
    forall c, j: nat :: c in s.chunkOf && j < s.chunkOf[c].i ==>
      AskedFor(s, s.chunkOf[c].orig, s.chunkOf[c].chunks, j, c)
  }

  predicate LaterIsLater(s: State) {
    forall c, c' :: c in s.chunkOf && c' in s.chunkOf && c' < c && s.chunkOf[c'].orig == s.chunkOf[c].orig ==>
      s.chunkOf[c'].i < s.chunkOf[c].i
  }

  /** A loop has asked for the chunks before its own, and for no other. */
  ghost predicate LoopsAsked(s: State) {
    forall pid, j: nat :: pid in s.procs && InChunks(s.procs[pid]) && j < Asked(s.procs[pid]) ==>
      AskedFor(s, s.procs[pid].orig, s.procs[pid].chunks, j, |s.rows|)
  }

  predicate LoopsAlone(s: State) {
    && (forall pid, c :: (pid in s.procs && InChunks(s.procs[pid]) && c in s.chunkOf
                          && s.chunkOf[c].orig == s.procs[pid].orig) ==>
          s.chunkOf[c].i < Asked(s.procs[pid]))
    && (forall pid, q :: (pid in s.procs && q in s.procs && pid != q
                          && InChunks(s.procs[pid]) && InChunks(s.procs[q])) ==>
          s.procs[pid].orig != s.procs[q].orig)
  }

  /** In every run. */
  ghost predicate AskedInTurn(s: State) {
    ChunksBefore(s) && LoopsAsked(s)
  }

  /** Where no write is late. */
  predicate AskedOnce(s: State) {
    LaterIsLater(s) && LoopsAlone(s)
  }

  /** What one statement of a loop does to the chunks it has asked for. */
  lemma LoopAsks(rows: Table, p: Proc, works: bool)
    requires p.Chunker?
    ensures var (op, p', o) := ProcStep(rows, p, works);
      && p'.Chunker? && p'.orig == p.orig && p'.chunks == p.chunks
      && (o.Some? ==>
            && InChunks(p) && InChunks(p') && Asked(p') == Asked(p) + 1 && op.Ask?
            && o.value.orig == p.orig && o.value.chunks == p.chunks && o.value.i == Asked(p))
      && (o.None? && InChunks(p') ==>
            || (InChunks(p) && Asked(p') == Asked(p))
            || (Asked(p') == 0 && p.orig < |rows| && rows[p.orig].status in {Pending, Approved}))
  {
    hide Payload.SendPayload, CallStep;
  }

  lemma AskedForGrows(s: State, s': State, orig: nat, chunks: seq<Payload.PyStr>, j: nat, bound: nat, bound': nat)
    requires AskedFor(s, orig, chunks, j, bound) && bound <= bound'
    requires forall c :: c in s.chunkOf ==> c in s'.chunkOf && s'.chunkOf[c] == s.chunkOf[c]
    ensures AskedFor(s', orig, chunks, j, bound')
  {
    var c :| c in s.chunkOf && c < bound
      && s.chunkOf[c].orig == orig && s.chunkOf[c].chunks == chunks && s.chunkOf[c].i == j;
    assert c in s'.chunkOf && s'.chunkOf[c] == s.chunkOf[c];
  }

  /** Nothing but a chunk loop changes what is asked for. */
  lemma OtherLabelsKeepOrder(s: State, l: Label)
    requires l.Go? && l.pid in s.procs ==> s.procs[l.pid].Caller?
    ensures AskedInTurn(s) ==> AskedInTurn(Apply(s, l))
    ensures AskedOnce(s) ==> AskedOnce(Apply(s, l))
  {
    hide ProcStep, AskedFor;
    var s' := Apply(s, l);
    if l.Go? && l.pid in s.procs {
      CallerStays(s.rows, s.procs[l.pid], l);
    }
    OpExtends(s.rows, OpOf(s, l));
    assert s'.chunkOf == s.chunkOf;
    if AskedInTurn(s) {
      forall c, j: nat | c in s'.chunkOf && j < s'.chunkOf[c].i
        ensures AskedFor(s', s'.chunkOf[c].orig, s'.chunkOf[c].chunks, j, c)
      {
        AskedForGrows(s, s', s.chunkOf[c].orig, s.chunkOf[c].chunks, j, c, c);
      }
      forall pid, j: nat | pid in s'.procs && InChunks(s'.procs[pid]) && j < Asked(s'.procs[pid])
        ensures AskedFor(s', s'.procs[pid].orig, s'.procs[pid].chunks, j, |s'.rows|)
      {
        AskedForGrows(s, s', s.procs[pid].orig, s.procs[pid].chunks, j, |s.rows|, |s'.rows|);
      }
    }
  }

  lemma LoopKeepsChunks(s: State, l: Label)
    requires Bound(s) && AskedInTurn(s) && l.Go? && l.pid in s.procs && s.procs[l.pid].Chunker?
    ensures ChunksBefore(Apply(s, l))
  {
    hide ProcStep, AskedFor, Bound, Payload.SendPayload;
    var s', p := Apply(s, l), s.procs[l.pid];
    LoopAsks(s.rows, p, l.works);
    AllChunksInTable(s);
    forall c, j: nat | c in s'.chunkOf && j < s'.chunkOf[c].i
      ensures AskedFor(s', s'.chunkOf[c].orig, s'.chunkOf[c].chunks, j, c)
    {
      AskedForGrows(s, s', s'.chunkOf[c].orig, s'.chunkOf[c].chunks, j, c, c);
    }
  }

  lemma LoopKeepsLoops(s: State, l: Label)
    requires Bound(s) && LoopsAsked(s) && l.Go? && l.pid in s.procs && s.procs[l.pid].Chunker?
    ensures LoopsAsked(Apply(s, l))
  {
    hide ProcStep, AskedFor, Bound, Payload.SendPayload;
    var s', p := Apply(s, l), s.procs[l.pid];
    LoopAsks(s.rows, p, l.works);
    OpExtends(s.rows, OpOf(s, l));
    AllChunksInTable(s);
    forall pid, j: nat | pid in s'.procs && InChunks(s'.procs[pid]) && j < Asked(s'.procs[pid])
      ensures AskedFor(s', s'.procs[pid].orig, s'.procs[pid].chunks, j, |s'.rows|)
    {
      if pid == l.pid && InChunks(p) && j == Asked(p) {
        NewlyAsked(s', |s.rows|);
      } else {
        AskedForGrows(s, s', s.procs[pid].orig, s.procs[pid].chunks, j, |s.rows|, |s'.rows|);
      }
    }
  }

  lemma LoopKeepsLater(s: State, l: Label)
    requires Bound(s) && AskedOnce(s) && l.Go? && l.pid in s.procs && s.procs[l.pid].Chunker?
    ensures LaterIsLater(Apply(s, l))
  {
    hide ProcStep, Bound, Payload.SendPayload;
    LoopAsks(s.rows, s.procs[l.pid], l.works);
    AllChunksInTable(s);
  }

  lemma LoopStaysAlone(s: State, l: Label)
    requires Bound(s) && ChunkedIsSuperseded(s) && LoopsAlone(s)
    requires l.Go? && l.pid in s.procs && s.procs[l.pid].Chunker?
    ensures LoopsAlone(Apply(s, l))
  {
    hide ProcStep, Bound, Payload.SendPayload;
    LoopAsks(s.rows, s.procs[l.pid], l.works);
    AllChunksInTable(s);
  }

  lemma LoopKeepsOrder(s: State, l: Label)
    requires Bound(s) && l.Go? && l.pid in s.procs && s.procs[l.pid].Chunker?
    ensures AskedInTurn(s) ==> AskedInTurn(Apply(s, l))
    ensures AskedOnce(s) && ChunkedIsSuperseded(s) ==> AskedOnce(Apply(s, l))
  {
    hide Bound, Apply, ChunkedIsSuperseded, ChunksBefore, LaterIsLater, LoopsAsked, LoopsAlone;
    if AskedInTurn(s) {
      LoopKeepsChunks(s, l);
      LoopKeepsLoops(s, l);
    }
    if AskedOnce(s) && ChunkedIsSuperseded(s) {
      LoopKeepsLater(s, l);
      LoopStaysAlone(s, l);
    }
  }

  lemma NewlyAsked(s: State, c: nat)
    requires c in s.chunkOf && c < |s.rows|
    ensures AskedFor(s, s.chunkOf[c].orig, s.chunkOf[c].chunks, s.chunkOf[c].i, |s.rows|)
  {
  }

  lemma AllChunksInTable(s: State)
    requires Bound(s)
    ensures forall c :: c in s.chunkOf ==> c < |s.rows|
  {
    ChunksInTable(s);
  }

  lemma {:induction false} RunInOrder(labels: seq<Label>)
    ensures AskedInTurn(Run(labels))
    ensures PromptFrom(INIT, labels) ==> AskedOnce(Run(labels))
  {
    hide Apply, PromptAt, AskedInTurn, AskedOnce, Bound, ChunkedIsSuperseded;
    if labels == [] {
      assert AskedInTurn(INIT) && AskedOnce(INIT) by { NothingAsked(); }
    } else {
      var before, l := labels[..|labels| - 1], labels[|labels| - 1];
      RunInOrder(before);
      RunIsBound(before);
      if PromptFrom(INIT, labels) {
        PromptRunSupersedes(before);
      }
      if l.Go? && l.pid in Run(before).procs && Run(before).procs[l.pid].Chunker? {
        LoopKeepsOrder(Run(before), l);
      } else {
        OtherLabelsKeepOrder(Run(before), l);
      }
    }
  }

  lemma NothingAsked()
    ensures AskedInTurn(INIT) && AskedOnce(INIT)
  {
  }

  /** The bodies requested for one reply are its chunks, in the conversation of the reply, without a
      reply id and in order: in every run the approval of a chunk comes after one for every chunk
      before it. Where no write is late each chunk is requested once, a later one later. */
  lemma ChunksInOrder(labels: seq<Label>, c: nat, j: nat)
    requires c in Run(labels).chunkOf
    ensures var s := Run(labels);
      var o := s.chunkOf[c];
      && Carries(s.rows, o.orig, o.whole) && Carries(s.rows, c, o.chunk)
      && o.i < |o.chunks| && o.chunk == Payload.Message(o.whole.conversation, o.chunks[o.i], None)
      && (j < o.i ==>
            exists c' :: (c' in s.chunkOf && c' < c
              && s.chunkOf[c'].orig == o.orig && s.chunkOf[c'].chunks == o.chunks && s.chunkOf[c'].i == j))
      && (PromptFrom(INIT, labels) ==>
            forall c' :: c' in s.chunkOf && s.chunkOf[c'].orig == o.orig ==>
              (c' < c <==> s.chunkOf[c'].i < o.i))
  {
    hide Continue, PromptFrom, Payload.SendPayload;
    RunInOrder(labels);
    RunIsBound(labels);
    var s := Run(labels);
    assert ChunkOk(s, c);
    assert j < s.chunkOf[c].i ==> AskedFor(s, s.chunkOf[c].orig, s.chunkOf[c].chunks, j, c);
  }
}
