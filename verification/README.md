# Verified model of the agent's gates, ledgers and text algorithms

A Dafny model of the parts of the TACHY agent that promise something over time or across calls:
what may be sent, answered, repaired, promoted, merged or scheduled, and the text algorithms these
decisions read. `dafny verify dfyconfig.toml` checks all of it.

| file | what it models |
|---|---|
| `PyText.dfy`, `SqlLike.dfy` | white space, word characters, ASCII case, `strip`, substring and whole-word search, SQL `LIKE` |
| `Approvals.dfy` | the approval table as transactions, and what a lawful history of one approval is |
| `SendProtocol.dfy` | `execute_send`, the chunked auto-send, `execute_approved` and `respond` as any number of interleaved callers that may die anywhere |
| `SendTokens.dfy`, `SendSteps.dfy` | what can still become an attempt of an approval, who holds it, and how it becomes one |
| `SendResults.dfy`, `ChunkOrder.dfy` | what every run of it keeps: one attempt, authorised, of the stored payload; the whole reply or its chunks, in order |
| `LateWrites.dfy` | which late writes of `respond` break that, with runs in which they do |
| `SendOutcomes.dfy` | what the final status of an approval says about the attempt, and one call left alone |
| `LoopAlone.dfy` | the interleaved chunk loop left alone does what the sequential one does |
| `Gateway.dfy` | the same operations as one caller runs them, updating the table in place |
| `Payload.dfy` | the canonical JSON payload, printed and read back |
| `Inbound.dfy` | the worker's lock, batching, and the processed ledger under crashes |
| `Lifecycle.dfy` | promotion and rollback of child modules over a window of health samples |
| `RepairQueue.dfy` | the failure accumulator and the one-fix rule of `auto_heal` |
| `Corrections.dfy` | the reply check against stored corrections and the rewriting that enforces them |
| `ChatChunks.dfy` | splitting a reply into chat bubbles |
| `BraceScanner.dfy` | finding the JSON action in a model reply |
| `Recall.dfy` | keyword recall behind a LIKE prefilter |
| `Scheduler.dfy` | recurring tasks: next run, daily cap, error state |
| `SelfImprove.dfy` | the branch, merge, boot-check and rollback sequence |
| `CodingLoop.dfy` | the bounded execute loop, its done gates, and transcript compaction |
| `Mood.dfy` | the rounded moving average |

Code that updates state is a class or a method with loops, proved against functions of the old
state; the theorems over runs are lemmas about those functions. The outside world (model answers,
handlers, transport, git, clock, probes) enters as parameters that may take any value.

## What the model says about the code that its comments do not

- `respond` reads the row and then updates it with no condition. A write that lands late is harmless
  if it rejects, or if the row is still pending or approved; an approval written over a row that
  was claimed, used, or superseded by chunks still underway lets a second attempt, or a chunk beside
  the whole reply, go out.
  `LateWrites.LateWriteExact` draws the line exactly; `LateWrites.TwoRespondersSendTwice`
  and `LateWrites.SplitReplySentWhole` are runs on the wrong side of it.
- `supersede` also retires an approval that is already approved, not only a pending one.
- A message is answered by every poll that sees it, instead of once, exactly when the row that marks
  it is not one a lookup of it finds: the empty id, a numeric id whose key exceeds the 255-character
  title, and on MySQL, where LIKE takes the backslash for an escape, an id such as `1\2`. In the
  other direction a mark hides every message of its conversation whose id it begins with.
- A surrogate pair in a body and the character it denotes have the same payload; a reply to message
  id 0 loses that id when approved from chat, so its payload no longer matches and it is not sent.
- The module docstring promises an immediate rollback on red health at any step. The score gate
  comes first: `Lifecycle.RollsBackIff` says when a module is rolled back, and a low-scoring red one is
  held (`Lifecycle.RedModuleHeld`).
- Evidence tiers are not monotone: one anonymous complaint stops hard system events from ever
  making the same signature ready (`RepairQueue.ComplaintMasksHardEvents`).
- A signature cut at 160 characters right after a dash is not a fixed point of `_slug`: its status
  marks go to the signature without the dash. It is itself repaired again and again
  (`RepairQueue.UnsettledRepairedTwice`), and it makes that other, settled signature be repaired
  twice or lose its escalation (`RepairQueue.StrayMarksRepairTwice`).
- A heal that dies between its two marks leaves its signature in `repairing`, from where neither notes nor
  heals move it (`RepairQueue.DyingHealStrands`).
- The brace scanner drops well-formed actions behind an opening brace that is never closed, and is
  one level off after a stray closing brace.
- Rows that match a token only inside a longer word can use up the 2000 recall candidates;
  `Recall.RecalledExactly` says when that changes the answer.
- A pause or deletion made while a task's handler runs is lost. The daily cap counts per task row, and
  only dispatches whose end is recorded: a worker killed in a handler dispatches again.
- In the self-improvement run, a boot check that raises or a reset that fails leaves the merge in
  place; if neither work-branch checkout succeeds the change lands on the start branch; a
  deletions-only diff counts as zero lines (`SelfImprove.PureDeletionsAreFree`).
- The coding loop can end with none of done, stuck and error: a tool call whose `args` is not an
  object or whose `tool` is a list, a review with an infinite confidence or with issues that are not
  texts, or an exception of the test run leaves it (`CodingLoop.ActionRaisesIff`,
  `CodingLoop.ReviewRaisesIff`).
- Once verification has passed in the coding loop it is not repeated: a done run leaves what was
  verified exactly when no tool edited anything after the first passing claim
  (`CodingLoop.DoneIsVerifiedIff`, and `CodingLoop.EditAfterVerification` for a run that did).

## Model

| member | source | states |
|---|---|---|
| Approvals.AttemptedOnce | app/safety/approvals.py:61-149 | a history with two execution attempts of one approval is not one the transitions allow |
| Approvals.AttemptWasAuthorised | app/safety/approvals.py:20-110 | in a lawful history every attempt is preceded by a claim, the claim by an approval, the approval by the request |
| Approvals.FaithfulAttempts | app/safety/approvals.py:20-149 | a table that agrees with its history attempted each approval at most once, after request, approval and claim in that order |
| Approvals.StaleDecisionIsLawful | app/safety/approvals.py:40-58 | a late unconditional write keeps table and history in agreement if and only if the row is pending when it lands |
| Gateway.ApprovalStore.RequestApproval | app/safety/approvals.py:20-37 | a fresh pending row is appended, nothing else changes, history stays lawful |
| Gateway.ApprovalStore.Respond | app/safety/approvals.py:40-58 | with one caller at a time only a pending row is decided; any other is left alone |
| Gateway.ApprovalStore.ClaimExecution | app/safety/approvals.py:61-110 | compare-and-set from approved on the exact action and payload |
| Gateway.ApprovalStore.CompleteExecution | app/safety/approvals.py:113-149 | only an executing row reaches a terminal state |
| Gateway.ApprovalStore.Supersede | app/safety/approvals.py:152-203 | compare-and-set from pending or approved on the exact action and payload |
| Gateway.ApprovalStore.ExecuteSend | app/agents/tody_agent.py:1515-1606 | sends exactly when the approval is approved for this very message; then claims, attempts, completes, and ends terminal whatever the transport does; otherwise nothing changes |
| Gateway.ApprovalStore.ExecuteApproved | app/brain/action_engine.py:184-237 | runs exactly the stored payload of an approved brain action, once, ending terminal; otherwise nothing changes |
| Gateway.ApprovalStore.AutoSend | app/agents/tody_agent.py:1397-1437 | table, log and transports for every outcome: one bubble is attempted under the queued approval with the whole message; several only if that approval is superseded, each requested, approved, claimed and attempted in the conversation of the reply, with exactly its own text and no reply id, in order; a lost race sends nothing |
| Gateway.ChunkLogTransports | app/agents/tody_agent.py:1424-1434 | read off the log alone, the messages handed to the transport are the attempted bubbles in order, each addressed to the conversation of the whole reply under its own fresh approval |
| Gateway.ApprovalStore.SendChunk | app/agents/tody_agent.py:1424-1434 | one bubble goes out under a fresh approval for exactly that bubble, which ends terminal whatever the transport does |
| SendTokens.TokensConserved | app/safety/approvals.py:40-203 | whatever one statement, crash or outside operation does, the claimable, held and used-up rights to one approval together do not grow, except by an approval written late |
| SendResults.AtMostOneAttempt | app/agents/tody_agent.py:1515-1606 | over every interleaving and crash in which late writes are harmless, two attempts are of different approvals |
| LateWrites.LateWriteExact | app/safety/approvals.py:40-58 | after a late write some continuation without further late ones attempts an approval twice, or a chunk and its whole reply, if and only if the write is an approval of a row that is no longer pending or approved and was held or used, or is the whole of chunks still underway, or a chunk whose whole still is |
| LateWrites.SecondToken | app/safety/approvals.py:40-58 | in any state, a late approval of a row whose claim is held or used can be followed by a second attempt |
| LateWrites.WholeAfterChunks | app/agents/tody_agent.py:1405-1437 | in any state, a late approval of a reply whose chunks are underway can be followed by the whole and a chunk both going out |
| LateWrites.TwoRespondersSendTwice | app/agents/tody_agent.py:817-824 | a run of two responders and two callers that sends the same message twice under one approval |
| LateWrites.SplitReplySentWhole | app/agents/tody_agent.py:1405-1437 | for every long reply, a run in which an approval read before the reply was split and written after it lets the whole and a chunk go out |
| SendResults.AttemptsAreAuthorised | app/agents/tody_agent.py:1515-1606 | in every run, late writes or not, each attempt was preceded by the request, then an approval, then a claim of that id |
| SendResults.AttemptIsTheStoredOne | app/agents/tody_agent.py:1525-1540 | in every run the transported message agrees in conversation, reply id and characters with any message whose payload the approval stores; a brain action runs the stored payload |
| SendResults.ClaimedStaysClaimed | app/safety/approvals.py:61-149 | action and payload of a row never change, and a claimed, refused or superseded approval becomes claimable again only by an approval written late |
| SendResults.WholeReplyXorChunks | app/agents/tody_agent.py:1405-1437 | where a chunk has an approval, the chunk is a part of the reply, in the conversation of the reply and without a reply id, and the original approval carries the whole reply's payload; if the chunk was or can be attempted the whole was not and cannot be, and the chunk's attempts carry exactly the chunk; without late writes the whole stands superseded and unattempted |
| ChunkOrder.ChunksInOrder | app/agents/tody_agent.py:1424-1434 | in every run, late writes or not, each approval for a bubble carries one chunk of the reply, in the conversation of the reply and without a reply id, and comes after one for every chunk before it; where no write is late each chunk is requested at most once and a later one later |
| SendOutcomes.SuccessWasAttempted | app/agents/tody_agent.py:1515-1606 | in every run, with late writes, crashes and failures, an approval recorded as carried out was attempted |
| SendOutcomes.CallAlone | app/agents/tody_agent.py:1515-1606 | from any state, a call that nothing disturbs claims its approval, makes one attempt with exactly what was approved, and leaves the row succeeded or failed as the attempt went; if it fails before the attempt there is none |
| SendOutcomes.CallRefused | app/agents/tody_agent.py:1518-1540 | a call whose approval is not approved for exactly that message, or not a brain action, changes nothing whatever its statements do |
| LoopAlone.LoopSendsAll | app/agents/tody_agent.py:1405-1437 | from any state, the interleaved chunk loop run without disturbance leaves exactly the table and log of the sequential auto-send, for any number of chunks and any results of the transport |
| LoopAlone.FailedLoopStops | app/agents/tody_agent.py:1424-1434 | a loop whose own statement fails has changed nothing by it and does nothing more, in any continuation |
| LoopAlone.WriteLands | app/safety/approvals.py:40-58 | a responder writes what was decided, whatever has become of the row since it was read |
| Payload.StringReadsBack | app/agents/tody_agent.py:43-45 | reading an escaped string yields its characters, adjacent surrogate pairs joined, and stops at its closing quote |
| Payload.JoinedIdentity | app/agents/tody_agent.py:43-45 | a body reads back unchanged if and only if it holds no adjacent surrogate pair |
| Payload.IntReadsBack | app/agents/tody_agent.py:43-53 | every integer reads back from its decimal text |
| Payload.RereadOfPayload | app/agents/tody_agent.py:817-822 | what the approve command gets back from any payload: same conversation, joined body, reply id unless it is 0 |
| Payload.PayloadPinsMessage | app/agents/tody_agent.py:48-53 | two messages have the same payload if and only if conversation, reply id and characters agree |
| Payload.PayloadInjective | app/agents/tody_agent.py:48-53 | on bodies without surrogate pairs the payload is injective |
| Payload.PayloadSpelled | app/agents/tody_agent.py:48-53 | the stored text of a printable ASCII message, key by key and without blanks; the reply id is there only if the message has one |
| Payload.EscapesSpelled | app/agents/tody_agent.py:43-45 | quotes, backslashes and control characters by their short escapes, every other character by one or two four-digit escapes |
| Payload.ApproveReprints | app/agents/tody_agent.py:817-822 | reading a payload for approval and printing it again reproduces it if and only if the reply id is not 0 |
| SqlLike.ContainsSlice | app/memory/base_memory.py:101-104 | the LIKE search finds any query without escapes, wildcards included, wherever it stands verbatim |
| SqlLike.PlainContains | app/memory/base_memory.py:129-135 | without wildcards and backslashes the LIKE search is exactly case-insensitive substring search, on both databases |
| SqlLike.BackslashIsDropped | app/memory/base_memory.py:101-104 | on MySQL a query with a backslash finds exactly what the query without it finds |
| SqlLike.BackslashAtEnd | app/memory/base_memory.py:101-104 | on MySQL a query ending in a backslash escapes the closing wildcard: it finds exactly the texts that end in the query and a percent sign |
| SqlLike.ContainsShorter | app/memory/base_memory.py:101-104 | whatever a query finds, each beginning of it without escapes finds |
| PyText.HasWordIff | app/brain/correction_memory.py:201-202 | the whole-word search succeeds if and only if some slice equals the word up to case with no word character on either side |
| Inbound.MarkedIsFoundIff | app/memory/dialogue_memory.py:56-82 | for any ledger and id, a mark makes the id count as processed if and only if it did before or the id is findable |
| Inbound.FindableIf | app/memory/base_memory.py:74-104 | every nonempty id whose key fits the title and holds no escape is findable, whatever wildcards it holds |
| Inbound.NumericFindableIff | app/memory/base_memory.py:74-75 | a numeric id is findable if and only if its key is at most 255 characters |
| Inbound.BackslashIsUnfindable | app/memory/base_memory.py:101-104 | an id with a backslash before a digit is not findable on MySQL, and is on SQLite |
| Inbound.LookupIff | app/memory/dialogue_memory.py:56-62 | for numeric ids the lookup succeeds if and only if some mark in the same conversation begins with the id and the id's key fits the title |
| Inbound.LeftOutIff | app/agents/tody_worker.py:249-260 | a foreign message with content and a numeric id is left out of the batch if and only if some mark of its conversation begins with its id |
| Inbound.PrefixIsShadowed | app/memory/dialogue_memory.py:56-62 | marking an id makes every nonempty prefix of it without escapes count as processed |
| Inbound.LatestUnprocessed | app/agents/tody_worker.py:242-309 | the loop returns the pending ids of the window |
| Inbound.BatchIsUnprocessed | app/agents/tody_worker.py:249-260 | an id is in the batch if and only if some row of the window has text or an attachment, was not sent by the agent itself, has that id, and the lookup does not report it |
| Inbound.BatchOfOne | app/agents/tody_worker.py:249-260 | a row alone is batched if and only if its own fields and the lookup of its id say so |
| Inbound.OwnMessagesUnanswered | app/agents/tody_worker.py:255-256 | a poll that sees only messages the agent sent itself sends and marks nothing |
| Inbound.BatchInOrder | app/agents/tody_worker.py:249-309 | the batch follows the chronological order of the window |
| Inbound.PollOutcome | app/agents/tody_agent.py:1339-1437 | the reply goes out for the whole batch if and only if it was drafted for sending and the process lived past the approval and the marks; a throttled batch is marked like an answered one, a failed one not at all; the newest id is marked first |
| Inbound.EachMessageAnsweredOnce | app/agents/tody_agent.py:1339-1437 | over any polls, each dying after any statement, no findable id is in two batches whose reply was sent, and every findable sent id is remembered |
| Inbound.AnsweredAgainIff | app/agents/tody_agent.py:1339-1437 | findable is exact: n polls of a message not yet processed answer it once if its id is findable and n times if not |
| Inbound.AnsweredEveryTime | app/memory/dialogue_memory.py:56-70 | the empty id, over-long numeric ids and, on MySQL, ids with a backslash before a digit are answered by each of n polls |
| Inbound.Worker.DraftReply | app/agents/tody_agent.py:1339-1437 | statement by statement: all ids marked, newest first, before the send, and nothing sent if any mark was not made |
| Inbound.Worker.PollConversationOnce | app/agents/tody_worker.py:84-131 | a busy lock changes only the skip counter; otherwise, dry run and failed fetch included, counters, ledger and sends change as the poll says and the lock is released |
| Inbound.Worker.PollOnce | app/agents/tody_worker.py:44-184 | an exception apart, a full social pass visits every conversation and any other scan goes on to the first one with a pending message; the world is that after the polls visited, unchanged in a dry run and when nothing was pending; at most one send unless all are answered; the lock is released on every path |
| Lifecycle.ComputeHealth | app/brain/module_runtime.py:153-179 | the loop computes the averages of the newest ten samples, 100 and 0 when there are none |
| Lifecycle.HealthIs | app/brain/module_runtime.py:153-179 | score and error rate in plain numbers: 100, 75 and 40 points for quick, slow and failing samples, averaged over the ten newest |
| Lifecycle.RedIffNotGreen | app/brain/canary_controller.py:22-23 | the thresholds on the averages mean: some sample of the last ten failed, or more than four in five were slow |
| Lifecycle.ThresholdMeansFlawless | app/brain/module_evaluator.py:42-44 | for every threshold, how many failures it forgives: above 75 none, and the critical one is never met |
| Lifecycle.ModuleRow.AdvanceOnce | app/brain/module_lifecycle.py:106-173 | one pipeline step: permission, sample, score, health, sample floor, promotion, in that order |
| Lifecycle.PermissionIs | app/brain/module_lifecycle.py:62-73 | the gate by name: nothing while autonomy is off; "low" admits only low, "high" the three lower risks, "critical" any, and every other ceiling low and medium; an unknown risk passes under "critical" only |
| Lifecycle.ThresholdIs | app/brain/module_lifecycle.py:42-47 | the score each risk needs: an unknown risk is held to that of high, and critical needs 101 |
| Lifecycle.AdvanceIs | app/brain/module_lifecycle.py:106-173 | what every step does to the whole row, stated with the plain permission: terminal, refused, held, rolled back, gathering, promoted |
| Lifecycle.AboveCeilingNeverActive | app/brain/module_lifecycle.py:62-73 | over any run, a module whose risk lies above every ceiling in force becomes active only through a direct write |
| Lifecycle.RedModuleHeld | app/brain/module_lifecycle.py:136-148 | a canary with only failing samples and a low score is held, not rolled back |
| Lifecycle.EntersActiveOnlyThroughGates | app/brain/module_lifecycle.py:116-160 | an operation makes a module active if and only if it is an advance from canary_25 with every gate green and the floor met, or a direct write of the registry |
| Lifecycle.CriticalNeverActive | app/brain/module_lifecycle.py:42-47 | no run without a direct activation in the registry makes a critical module active |
| Lifecycle.RollbackStays | app/brain/module_lifecycle.py:106-183 | a rollback is final, whatever samples, scores and advances follow, until an approval or a direct write; it leaves the active version as it was |
| Lifecycle.ActivatedVersionStays | app/brain/module_registry.py:121-130 | a version activated by hand stays the active one, in every run without a further move by hand |
| Lifecycle.ScoreIsLatest | app/brain/module_evaluator.py:42-44 | the score the gate reads is that of the latest evaluation |
| Lifecycle.ApprovalRestarts | app/brain/module_lifecycle.py:106-253 | an approval puts a module at 5% wherever it was: the next advance does not make it active, and takes it to 25% if and only if permission, score, health and sample floor allow |
| Lifecycle.FloorAboveWindowBlocks | app/brain/module_lifecycle.py:149-152 | with a sample floor above ten no run without a direct activation makes a module active |
| Lifecycle.ActiveTakesAtLeast | app/brain/module_lifecycle.py:131-160 | from shadow with no samples, active takes at least max(3, floor + 1) advances and a floor of at most ten |
| Lifecycle.GreenRunIsExact | app/brain/module_lifecycle.py:131-160 | with every gate green as long as it matters, slow samples included, a run from an empty shadow module reaches active if and only if it has max(3, floor + 1) advances |
| Lifecycle.SlowRunIsGreen | app/brain/module_runtime.py:153-179 | such runs need not be quick: one quick sample and four slow ones are green throughout |
| RepairQueue.SlugFixedIff | app/brain/repair_queue.py:70-72 | `_slug` is idempotent on a text if and only if its slug does not end in a dash |
| RepairQueue.SlugIs | app/brain/repair_queue.py:70-72 | a signature holds the letters, digits, colons and plus signs of the lower-case text in their order, all of them if it is shorter than 160; it is "unknown" if there are none |
| RepairQueue.Store.NoteFailure | app/brain/repair_queue.py:93-156 | the upsert: fields updated one by one give the accumulated row with its next status, all other rows untouched |
| RepairQueue.MarkReachesRowIff | app/brain/repair_queue.py:210-230 | marking a row under its stored signature reaches it if and only if the noted text has settled; otherwise it stays as it is and the sibling row, if any, takes the mark |
| RepairQueue.RowIsFold | app/brain/repair_queue.py:104-156 | a row is the fold of its notes, and is ready if and only if some beginning of its history had enough evidence |
| RepairQueue.ReadyExactly | app/brain/repair_queue.py:47-173 | for every history: ready if and only if some beginning of it has a tier-1 note, or strongest tier 2 and two notes with a guardian or two distinct people among them, or strongest tier 3 and two notes |
| RepairQueue.StatusAfterNote | app/brain/repair_queue.py:114-156 | the status of a known row after one more note, whatever its marks were: fixed becomes escalated, observing becomes ready on enough evidence, all else stays |
| RepairQueue.GuardianComplainsTwice | app/brain/repair_queue.py:165-172 | one complaint of the guardian leaves a signature observing, a second makes it ready |
| RepairQueue.FirstFixIs | app/brain/repair_queue.py:100-137 | the fix class of a row is that of the first note with a known class |
| RepairQueue.PeopleInOrder | app/brain/repair_queue.py:129-136 | the people are listed in the order of their first complaints |
| RepairQueue.QueueIsFold | app/brain/repair_queue.py:93-156 | in a queue of many signatures each row is the row of exactly its own notes |
| RepairQueue.PeopleAreWitnesses | app/brain/repair_queue.py:129-136 | the people are distinct, at most twenty, named by non-guardian notes, and complete until twenty |
| RepairQueue.SelfCritiqueNeverReady | app/brain/repair_queue.py:159-173 | tier-4 notes alone never make a row ready, however many |
| RepairQueue.OneStrangerNeverReady | app/brain/repair_queue.py:165-172 | tier-2 and tier-4 notes of at most one person and no guardian never make a row ready |
| RepairQueue.ComplaintMasksHardEvents | app/brain/repair_queue.py:118-119 | two hard events are ready, but with one anonymous complaint after the first no number of further hard events is |
| RepairQueue.HealStartsIff | app/brain/self_diagnose.py:85-148 | a heal begins exactly on a ready row for code than which no such row has stronger evidence, and which is among the eight strongest ready rows |
| RepairQueue.RepairedAtMostOnce | app/brain/self_diagnose.py:124-161 | in every run of notes, heals and dying heals, a signature on which no other text's marks land is repaired at most once, and is then fixed or escalated |
| RepairQueue.StrayMarksRepairTwice | app/brain/self_diagnose.py:146-159 | the condition is exact: for every text whose marks land on another signature, that settled signature is repaired twice in a run |
| RepairQueue.EscalatedStays | app/brain/repair_queue.py:139-153 | an escalated row on which no other text's marks land stays escalated in every continuation |
| RepairQueue.StrayMarksUndoEscalation | app/brain/self_diagnose.py:146-159 | with such marks an escalated row goes back to repairing |
| RepairQueue.DyingHealStrands | app/brain/self_diagnose.py:144-161 | a heal that dies between its two marks leaves an undisturbed signature in repairing for good, never repaired, while other heals may follow |
| RepairQueue.UnsettledRepairedTwice | app/brain/self_diagnose.py:146-159 | for every text whose slug does not settle there is a run that repairs it twice |
| RepairQueue.UnsettledTextExists | app/brain/repair_queue.py:70-72 | such a text exists, with a settled signature its marks land on |
| RepairQueue.SlugSettles | app/brain/repair_queue.py:70-72 | from its second application on `_slug` changes nothing |
| Corrections.ViolatesRules | app/brain/correction_memory.py:190-212 | the loop lists the violations of every rule in order |
| Corrections.ViolationIff | app/brain/correction_memory.py:190-212 | what each kind of rule forbids, word by word, and that no other rule forbids anything |
| Corrections.Enforce | app/brain/correction_memory.py:215-235 | the rewriting computes the enforced reply, which violates no rule, for every rule list and every reply, and keeps the reply but for what `EnforcedKeeps` says |
| Corrections.EnforcedKeeps | app/brain/correction_memory.py:215-235 | what is kept: no violation, the reply itself; a wrong address alone, the reply with standing occurrences of the name replaced; any other, the apology followed by that text with slices that read like the thirteen phrases replaced, one phrase after the other, and nothing else changed |
| Corrections.ReplyStandsWhole | app/brain/correction_memory.py:226-234 | a reply with none of the phrases stands whole behind the apology |
| Corrections.SubPhraseReplaces | app/brain/correction_memory.py:229-231 | replacing a phrase cuts the text into pieces that stand and slices equal to the phrase up to case that are replaced |
| Corrections.SubRohitReplaces | app/brain/correction_memory.py:222-224 | rewriting the name replaces only slices that read like it and have no word character on either side |
| Corrections.SubPhraseCreatesNothing | app/brain/correction_memory.py:229-231 | replacing one phrase removes it everywhere and creates none of the thirteen that was absent |
| Corrections.NoRohitLeft | app/brain/correction_memory.py:222-224 | after the rewrite the name no longer stands as a word |
| Corrections.RohitBecomesPapa | app/brain/correction_memory.py:222-224 | if the name stood as a word, the new address stands as a word |
| Corrections.EnforceIdempotent | app/brain/correction_memory.py:215-235 | a second pass changes nothing |
| ChatChunks.Chunks | app/agents/tody_agent.py:139-167 | between 1 and max_chunks bubbles spelling the reply up to white space and in order, none empty for a nonblank reply, those before the last place at most 1.5 times the target or one sentence |
| ChatChunks.SplitParagraph | app/agents/tody_agent.py:155-164 | a long paragraph is appended as pieces that are within the target or one sentence, losing nothing and leaving the earlier bubbles alone |
| BraceScanner.ExtractJson | app/coding/agent.py:140-155 | for every text and decoder: the decoding of the first depth-zero block that decodes, or nothing exactly when none does |
| BraceScanner.AnswerRightIff | app/coding/agent.py:140-155 | without stray closing braces an answer is the first outermost pair that decodes, and finding nothing is right if and only if no outermost pair inside a brace left open for good decodes |
| BraceScanner.BlocksAreOutermostIff | app/agents/chat_tool_loop.py:104-119 | without stray closing braces the blocks tried are the outermost pairs if and only if the count returns to zero after every closing brace |
| BraceScanner.StrayCloserShifts | app/coding/agent.py:142-154 | behind a stray closing brace the blocks tried are exactly the pairs one level further in |
| BraceScanner.StrayCloserHidesBlock | app/coding/agent.py:142-154 | so a well-formed outermost block is not tried |
| BraceScanner.UnclosedBraceHidesBlock | app/coding/agent.py:142-154 | behind an unclosed opening brace a well-formed outermost block is not tried |
| Recall.OverlapImpliesMatch | app/memory/base_memory.py:128-146 | a row sharing a token with the query passes the LIKE prefilter |
| Recall.TokensOfJoin | app/memory/base_memory.py:143-145 | joining fields with a blank neither splits nor merges a token |
| Recall.TokensAreWholeRuns | app/memory/base_memory.py:46-47 | the tokens of a text are exactly the maximal runs of letters and digits of its lower-case form |
| Recall.ScoreIs | app/memory/base_memory.py:142-158 | the score in numbers: 1 per shared token, a tenth of the importance, 2 for a permanent row, 1.5 for a semantic one, 3 when the module shares a token |
| Recall.SelectableIs | app/memory/base_memory.py:125-127 | in scope are the rows not archived and, if a project is named, of that project |
| Recall.RecallRows | app/memory/base_memory.py:109-160 | the loop returns the ranked hits, the same list as a scan of every row in scope whenever at most 2000 rows match |
| Recall.TopOfRanking | app/memory/base_memory.py:142-160 | the answer is the top of the ranking by score and id among all rows in scope that share a token |
| Recall.RecalledExactly | app/memory/base_memory.py:109-160 | for rows with distinct ids the answer is the full scan's if and only if every row of the full scan's answer is among the 2000 newest matches |
| Recall.FalseMatchesStarveAHit | app/memory/base_memory.py:136-147 | any 2000 newer rows that match without sharing a token hide a true hit |
| Recall.StarvedTable | app/memory/base_memory.py:128-147 | a table of 2001 rows with distinct ids where that happens |
| Recall.LikeMatchesInsideWord | app/memory/base_memory.py:129-135 | LIKE matches a token inside a longer word, which is no token match |
| Scheduler.NextRunIsNextOccurrence | app/brain/autonomous_tasks.py:195-212 | the next run is strictly later: the first instant at the wall time, within a day, or the clamped interval away |
| Scheduler.Registry.BeginRun | app/brain/autonomous_tasks.py:392-403 | dispatches exactly an active row below its cap with readable parameters; otherwise postpones, or leaves the row as it was |
| Scheduler.BegunIs | app/brain/autonomous_tasks.py:371-403 | which rows are dispatched, and every field of the row after the turn began: a row at its cap keeps status and totals and is put off to its next time |
| Scheduler.BeginMovesOn | app/brain/autonomous_tasks.py:386-403 | whatever becomes of the first listed row, the sweep goes on to the next and touches no other row |
| Scheduler.FreshlyDue | app/brain/autonomous_tasks.py:195-247 | a new or resumed row is active and due at the right next time; resuming changes nothing else |
| Scheduler.Registry.RunDue | app/brain/autonomous_tasks.py:352-434 | a sweep over the earliest due active rows is the composition of their turns, in that order, one failure or lost end never stopping the rest |
| Scheduler.DueListExists | app/brain/autonomous_tasks.py:352-360 | at every moment and for every limit there is such a list |
| Scheduler.DueListSize | app/brain/autonomous_tasks.py:352-360 | the list holds all due rows or exactly `limit` of them |
| Scheduler.CapHolds | app/brain/autonomous_tasks.py:371-434 | with a clock that never goes back and any other operations and deaths in between, the dispatches of a row on one IST date exceed the cap by at most those whose end was lost, and its total counts the others |
| Scheduler.CapIsExact | app/brain/autonomous_tasks.py:371-434 | without lost ends a row is dispatched at most cap times per IST date |
| Scheduler.LostRunIsRepeated | app/brain/autonomous_tasks.py:392-433 | a lost end lets a row under a cap of one be dispatched twice |
| Scheduler.AfterDispatch | app/brain/autonomous_tasks.py:411-429 | when its handler returns a row is in error, or active and due strictly later, within a day at the wall time or the clamped interval away, and no other row changed |
| Scheduler.DispatchesAreSpaced | app/brain/autonomous_tasks.py:352-434 | after its handler succeeded a row is not dispatched again, whatever else happens but a resume of it, before the wall-clock occurrence or interval computed at that moment |
| Scheduler.RunningIsNotListed | app/brain/autonomous_tasks.py:386-393 | in every run the row being dispatched has left the list of its sweep, which names no row twice |
| Scheduler.ErrorHoldsUntilResumed | app/brain/autonomous_tasks.py:394-395 | a row in error is not dispatched before it is resumed, whatever else happens |
| Scheduler.StopWhileRunningIsLost | app/brain/autonomous_tasks.py:424-429 | a pause or deletion keeps its effect past a handler's return if and only if that row's handler was not running |
| SelfImprove.Improver.RunApply | app/brain/self_improve.py:176-310 | with the work branch checked out, the start branch ends at the merge exactly when every gate passed and the merge took effect and was not reset, else where it was; push, restart and the deployment record follow a boot check that returned 0 and nothing else; without autonomy, promotion, passing tests or with protected files nothing moves |
| SelfImprove.Improver.Promote | app/brain/self_improve.py:222-267 | merge, boot check, and reset or deployment, for every outcome of every command |
| SelfImprove.StartMovesIff | app/brain/self_improve.py:176-267 | in terms of the commands and limits themselves: when the start branch ends at the merge, and when the result is pushed and recorded |
| SelfImprove.StatusIs | app/brain/self_improve.py:176-303 | each final status is reached under exactly one condition on the commands; everything else is an error |
| SelfImprove.TouchesProtectedIff | app/brain/self_improve.py:37-45 | a change is protected if and only if one of the twelve names stands somewhere in the path of a changed file |
| SelfImprove.DailyCapHolds | app/brain/self_improve.py:48-51 | over runs one after the other, whatever was deployed before, no date is taken beyond the cap, midnight included |
| CodingLoop.CompactStands | app/coding/agent.py:302-313 | compacting keeps the task message first and the newest twelve messages unchanged, within fifteen messages |
| CodingLoop.SemicolonsBetween | app/coding/agent.py:302-313 | the actions a synopsis names are separated by a semicolon and a blank |
| CodingLoop.AppendStands | app/coding/agent.py:577-579 | appending a step's two messages keeps transcript and history in step |
| CodingLoop.AgentRun.OnClaim | app/coding/agent.py:499-533 | done exactly when verification passed now or before and the review approves or was already held; the other ends as the gates answer |
| CodingLoop.AgentRun.OnTool | app/coding/agent.py:562-575 | while the run goes on no failing action occurred three times in six consecutive tool steps |
| CodingLoop.StepEnds | app/coding/agent.py:457-575 | when a step ends the run, in plain numbers: an unparseable reply as the fourth setback, a failed test run as the sixth, a failed tool call as the eighth or as the same failing action a third time among six |
| CodingLoop.StreakIs | app/coding/agent.py:457-575 | over runs the streak is the number of setbacks since the last tool call that worked |
| CodingLoop.MoveIs | app/coding/agent.py:482-540 | an object reply counts as giving up before a claim and as a claim before a tool call; an empty one as no reply |
| CodingLoop.NoObjectIs | app/coding/agent.py:475-495 | a failing provider ends the run, a decoder that raises leaves the loop, a reply without an object or with an empty one is unparseable |
| CodingLoop.ReviewIs | app/coding/agent.py:400-420 | a review refuses exactly when its object holds `"approved": false` and can be read; an absent or failing review approves |
| CodingLoop.AgentRun.Execute | app/coding/agent.py:457-581 | stops within the bound for exactly one reason if and only if no exception left the loop; done means verified and reviewed; what call k shows the model is the compacted transcript of this run at step k; a thrashing action is the last tool step |
| CodingLoop.TranscriptIsFaithful | app/coding/agent.py:302-313 | through any number of compactions the transcript at step n opens with the task, ends with the newest twelve messages of the uncut history of n steps, or all of them, unchanged, and has at most fifteen |
| CodingLoop.RaisedIff | app/coding/agent.py:402-577 | an exception leaves the loop if and only if some step is reached whose call or whose consulted gate raises |
| CodingLoop.ActionRaisesIff | app/coding/agent.py:536-575 | an action as first reply ends the run with none of done, stuck and error if and only if its `args` is not an object, its `tool` is a list or an object, or the tool itself raises |
| CodingLoop.ReviewRaisesIff | app/coding/agent.py:402-526 | so does a claim whose review is reached, if and only if its reply cannot be decoded, its confidence is not finite, or it refuses with issues that are not texts |
| CodingLoop.DoneIsVerifiedIff | app/coding/agent.py:499-533 | a done run has a first passing claim, and the workspace it leaves is the verified one if and only if no tool edited anything after it |
| CodingLoop.EditAfterVerification | app/coding/agent.py:499-533 | a run that is done with an edit after its only verification |
| Mood.UpdateMood | app/brain/emotion_engine.py:264-275 | the loop sums give the blended, rounded mood |
| Mood.MoodTracksAverage | app/brain/emotion_engine.py:264-275 | over any updates the stored mood stays in range and within 0.0025 of the unrounded average |
| Mood.UpdateIs | app/brain/emotion_engine.py:36-272 | an update in numbers: four fifths of the old mood and one fifth of the mean of signed intensity, and of intensity weighted 0.25, 0.5, 0.75 and 1, to within half a thousandth |
| Mood.RoundIs | app/brain/emotion_engine.py:269-270 | the stored number is the nearest thousandth, the even one of two equally near |
| Mood.StartIsForgotten | app/brain/emotion_engine.py:264-275 | two moods that see the same n updates end within 0.8^n of their first distance, give or take 0.005 |

## Left out

- Language models, prompts, reply wording, HTTP, voice, vision, typing indicators and audit logging: every answer or result is an arbitrary parameter.
- Gateway.ApprovalStore.Respond: one caller at a time; the window between its read and its write is `Read` and `Write` in `SendProtocol`.
- BraceScanner.ExtractJson: scans the text that is left once code fences are stripped; the stripping is not modelled.
- BraceScanner.BlocksAreOutermostIff: for texts without stray closing braces; `StrayCloserShifts` says what happens behind one.
- Transactions other than `respond` are atomic and commits succeed, except where a crash or a lost end is the subject; two `auto_heal` calls, two schedulers or two self-improvement runs at once are not modelled.
- Unicode case folding and collations: letters fold as ASCII in the rewriting, the tokens and LIKE; other characters stand for themselves.
- Binary floating point: health averages, recall scores and moods are exact.
- Payload.RereadOfPayload: the reader covers objects of strings and integers without blanks, which is what the printer writes; other JSON values are refused.
- Recall.RecallRows: the query is any set of tokens; the choice of the sixteen longest is not modelled.
- Inbound.LookupIff: exact for numeric ids; ids with wildcards or other characters have the one-way results beside it.
- Scheduler.NextRunIsNextOccurrence: the text "HH:MM" arrives parsed.
- SelfImprove.Improver.RunApply: assumes the run starts on a branch other than its work branch; pushing the work branch and the reports have no modelled effect.
- RepairQueue.RowIsFold: sample text, source and conversation of a row are not modelled.
- CodingLoop.AgentRun.Execute: the text of an action in the stuck detector and of the messages is given, not printed from the reply; whether a tool call edits the workspace is given with it, and the test run edits nothing; alerts, risk telemetry, the change-set guard and the final diff are not modelled.
- The registry of actions, direct execution of low-risk actions, `run_advisory`, the detection of corrections and conversational cues: they add no run-level property.
