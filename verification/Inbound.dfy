/** app/agents/tody_worker.py with the processed ledger of app/memory/dialogue_memory.py:
    pending messages are batched, marked, then answered; a poll may die between statements. */
module Inbound {
  import opened PyText
  import opened SqlLike

  const TITLE_LIMIT := 255

  /** A ledger row as the lookup sees it. Message and conversation ids are their text. */
  datatype Entry = Entry(title: string, content: string)
  datatype Ledger = Ledger(db: Dialect, rows: seq<Entry>)

  // ----- the ledger ---------------------------------------------------------------

  const HEAD := "processed:tody:"

  function ProcessedKey(conv: string, id: string): string {
    HEAD + conv + ":" + id
  }

  function Content(conv: string, id: string): string {
    "Processed inbound message " + id + " for tody:" + conv
  }

  predicate Mentions(db: Dialect, e: Entry, key: string) {
    Contains(db, key, e.title) || Contains(db, key, e.content)
  }

  predicate WasProcessed(ledger: Ledger, conv: string, id: string) {
    id != "" && exists k :: 0 <= k < |ledger.rows| && Mentions(ledger.db, ledger.rows[k], ProcessedKey(conv, id))
  }

  function Title(key: string): string {
    if |key| <= TITLE_LIMIT then key else key[..TITLE_LIMIT]
  }

  function NewEntry(conv: string, id: string): Entry {
    Entry(Title(ProcessedKey(conv, id)), Content(conv, id))
  }

  function Mark(ledger: Ledger, conv: string, id: string): (r: Ledger)
    ensures r.db == ledger.db
  {
    if id == "" || WasProcessed(ledger, conv, id) then ledger else ledger.(rows := ledger.rows + [NewEntry(conv, id)])
  }

  function MarkAll(ledger: Ledger, conv: string, ids: seq<string>): (r: Ledger)
    ensures r.db == ledger.db
  {
    if ids == [] then ledger else Mark(MarkAll(ledger, conv, ids[..|ids| - 1]), conv, ids[|ids| - 1])
  }

  /** The row written for the id is one that a lookup of the id finds. */
  predicate Findable(db: Dialect, conv: string, id: string) {
    id != "" && Mentions(db, NewEntry(conv, id), ProcessedKey(conv, id))
  }

  /** A mark is found again exactly for the findable ids, unless an older row did the job before. */
  lemma MarkedIsFoundIff(ledger: Ledger, conv: string, id: string)
    ensures WasProcessed(Mark(ledger, conv, id), conv, id)
       <==> WasProcessed(ledger, conv, id) || Findable(ledger.db, conv, id)
  {
    hide Mentions;
    var after := Mark(ledger, conv, id);
    if !WasProcessed(ledger, conv, id) && id != "" {
      assert after.rows[|ledger.rows|] == NewEntry(conv, id);
      forall k | 0 <= k < |ledger.rows| ensures !Mentions(ledger.db, after.rows[k], ProcessedKey(conv, id)) {
        assert after.rows[k] == ledger.rows[k];
      }
    }
  }

  /** Whatever wildcards an id holds, it is findable if its key fits the title and holds nothing the
      database takes for an escape. */
  lemma FindableIf(db: Dialect, conv: string, id: string)
    requires id != "" && |ProcessedKey(conv, id)| <= 255 && NoEscape(db, ProcessedKey(conv, id))
    ensures Findable(db, conv, id)
  {
    hide Like;
    var key := ProcessedKey(conv, id);
    ContainsSlice(db, key, "", "");
    assert "" + key + "" == key;
  }

  lemma MarkKeepsProcessed(ledger: Ledger, conv: string, id: string, conv': string, id': string)
    requires WasProcessed(ledger, conv, id)
    ensures WasProcessed(Mark(ledger, conv', id'), conv, id)
  {
    hide Contains;
    var k :| 0 <= k < |ledger.rows| && Mentions(ledger.db, ledger.rows[k], ProcessedKey(conv, id));
    assert Mentions(ledger.db, Mark(ledger, conv', id').rows[k], ProcessedKey(conv, id));
  }

  lemma {:induction false} MarkAllKeepsProcessed(
      ledger: Ledger, conv: string, id: string, conv': string, ids: seq<string>)
    requires WasProcessed(ledger, conv, id)
    ensures WasProcessed(MarkAll(ledger, conv', ids), conv, id)
  {
    hide WasProcessed, Mark;
    if ids == [] {
    } else {
      MarkAllKeepsProcessed(ledger, conv, id, conv', ids[..|ids| - 1]);
      MarkKeepsProcessed(MarkAll(ledger, conv', ids[..|ids| - 1]), conv, id, conv', ids[|ids| - 1]);
    }
  }

  lemma {:induction false} MarkAllMarksAll(ledger: Ledger, conv: string, ids: seq<string>, id: string)
    requires id in ids && Findable(ledger.db, conv, id)
    ensures WasProcessed(MarkAll(ledger, conv, ids), conv, id)
  {
    hide WasProcessed, Mark, Findable;
    var n := |ids| - 1;
    var before := MarkAll(ledger, conv, ids[..n]);
    if ids[n] == id {
      MarkedIsFoundIff(before, conv, id);
    } else {
      MarkAllMarksAll(ledger, conv, ids[..n], id);
      MarkKeepsProcessed(before, conv, id, conv, ids[n]);
    }
  }

  /** The lookup over-approximates: marking an id also marks every id it starts with. */
  lemma PrefixIsShadowed(ledger: Ledger, conv: string, id: string, more: string)
    requires id != "" && Findable(ledger.db, conv, id + more) && NoEscape(ledger.db, ProcessedKey(conv, id))
    ensures WasProcessed(Mark(ledger, conv, id + more), conv, id)
  {
    hide Like, Mark, Findable;
    var key := ProcessedKey(conv, id);
    assert ProcessedKey(conv, id + more) == key + more;
    MarkedIsFoundIff(ledger, conv, id + more);
    var rows := Mark(ledger, conv, id + more).rows;
    var k :| 0 <= k < |rows| && Mentions(ledger.db, rows[k], key + more);
    if Contains(ledger.db, key + more, rows[k].title) {
      ContainsShorter(ledger.db, key, more, rows[k].title);
    } else {
      ContainsShorter(ledger.db, key, more, rows[k].content);
    }
    assert Mentions(ledger.db, rows[k], key);
  }

  // ----- numeric ids ----------------------------------------------------------------

  predicate Numeric(s: string) {
    s != "" && forall k :: 0 <= k < |s| ==> '0' <= s[k] <= '9'
  }

  /** Digits, and perhaps backslashes among them. */
  predicate Digital(s: string) {
    forall k :: 0 <= k < |s| ==> '0' <= s[k] <= '9' || s[k] == '\\'
  }

  lemma KeyIsPlain(conv: string, id: string)
    requires Numeric(conv) && Numeric(id)
    ensures Plain(ProcessedKey(conv, id)) && Lower(ProcessedKey(conv, id)) == ProcessedKey(conv, id)
  {
    var key := ProcessedKey(conv, id);
    assert Plain(HEAD) && Lower(HEAD) == HEAD;
    forall k | 0 <= k < |key| ensures Plain([key[k]]) && LowerChar(key[k]) == key[k] {
      if k < 15 {
        assert key[k] == HEAD[k] && LowerChar(HEAD[k]) == Lower(HEAD)[k];
      } else if k < 15 + |conv| {
        assert key[k] == conv[k - 15];
      } else if k > 15 + |conv| {
        assert key[k] == id[k - 16 - |conv|];
      }
    }
    assert forall k :: 0 <= k < |key| ==> [key[k]][0] == key[k];
  }

  predicate FreeOfP(t: string) {
    forall k :: 0 <= k < |t| ==> LowerChar(t[k]) != 'p'
  }

  /** The stored texts hold a 'p' at their very beginning only. */
  lemma OnlyFirstP(conv: string, id: string)
    requires Numeric(conv) && Digital(id)
    ensures FreeOfP(Title(ProcessedKey(conv, id))[1..]) && FreeOfP(Content(conv, id)[1..])
  {
    hide FreeOfP, LowerChar;
    var head, mid := "Processed inbound message ", " for tody:";
    DigitsFreeOfP(conv);
    DigitsFreeOfP(id);
    KeyTextFreeOfP();
    HeadTextFreeOfP();
    MidTextFreeOfP();
    FreeConcat(HEAD[1..], conv);
    FreeConcat(HEAD[1..] + conv, ":");
    FreeConcat(HEAD[1..] + conv + ":", id);
    assert ProcessedKey(conv, id)[1..] == HEAD[1..] + conv + ":" + id;
    FreePrefix(Title(ProcessedKey(conv, id))[1..], ProcessedKey(conv, id)[1..]);
    FreeConcat(head[1..], id);
    FreeConcat(head[1..] + id, mid);
    FreeConcat(head[1..] + id + mid, conv);
    assert Content(conv, id)[1..] == head[1..] + id + mid + conv;
  }

  lemma KeyTextFreeOfP()
    ensures FreeOfP(HEAD[1..]) && FreeOfP(":")
  {
  }

  lemma HeadTextFreeOfP()
    ensures FreeOfP("Processed inbound message "[1..])
  {
    var t := "Processed inbound message ";
    forall k | 0 < k < |t| ensures LowerChar(t[k]) != 'p' {
    }
  }

  lemma MidTextFreeOfP()
    ensures FreeOfP(" for tody:")
  {
  }

  lemma FreePrefix(a: string, b: string)
    requires a <= b && FreeOfP(b)
    ensures FreeOfP(a)
  {
    assert forall k :: 0 <= k < |a| ==> a[k] == b[k];
  }

  lemma DigitsFreeOfP(s: string)
    requires Digital(s) || Numeric(s)
    ensures FreeOfP(s)
  {
  }

  lemma FreeConcat(a: string, b: string)
    requires FreeOfP(a) && FreeOfP(b)
    ensures FreeOfP(a + b)
  {
  }

  lemma MatchesAtFirstP(t: string, key: string)
    requires key != "" && key[0] == 'p' && t != "" && FreeOfP(t[1..])
    ensures Occurs(key, t) <==> StartsFold(t, key)
  {
    OccursIffSlice(key, t);
    assert t[0..] == t;
    forall k | 1 <= k <= |t| - |key| ensures !StartsFold(t[k..], key) {
      assert t[k..][0] == t[1..][k - 1];
    }
  }

  /** A numeric key is mentioned by the row of another mark only at the beginning of its title. */
  lemma MentionsAtStart(db: Dialect, conv: string, id: string, conv': string, id': string)
    requires Numeric(conv) && Numeric(id) && Numeric(conv') && Digital(id')
    ensures Mentions(db, NewEntry(conv', id'), ProcessedKey(conv, id))
       <==> StartsFold(Title(ProcessedKey(conv', id')), ProcessedKey(conv, id))
  {
    hide Like, StartsFold, Occurs, FreeOfP;
    var key, e := ProcessedKey(conv, id), NewEntry(conv', id');
    KeyIsPlain(conv, id);
    PlainContains(db, key, e.title);
    PlainContains(db, key, e.content);
    OnlyFirstP(conv', id');
    assert key[0] == HEAD[0] == 'p';
    MatchesAtFirstP(e.title, key);
    MatchesAtFirstP(e.content, key);
    assert !StartsFold(e.content, key) by { NoKeyInContent(conv', id', key); }
  }

  lemma NoKeyInContent(conv: string, id: string, key: string)
    requires |key| > 15 && key[..15] == HEAD
    ensures !StartsFold(Content(conv, id), key)
  {
    var head, t := "Processed inbound message ", Content(conv, id);
    assert t[9] == head[9] && key[..15][9] == key[9] == ':';
  }

  lemma KeyPrefixIff(conv: string, id: string, conv': string, id': string)
    requires Numeric(conv) && Numeric(conv')
    ensures ProcessedKey(conv, id) <= ProcessedKey(conv', id') <==> conv == conv' && id <= id'
  {
    var key, key' := ProcessedKey(conv, id), ProcessedKey(conv', id');
    assert key[15 + |conv|] == ':' && key'[15 + |conv'|] == ':';
    assert |conv| < |conv'| ==> key'[15 + |conv|] == conv'[|conv|];
    assert |conv| > |conv'| ==> key[15 + |conv'|] == conv[|conv'|];
    assert conv == key[15..15 + |conv|] && conv' == key'[15..15 + |conv'|];
    assert id == key[16 + |conv|..] && id' == key'[16 + |conv'|..];
  }

  /** A numeric key begins the title of a numeric mark exactly when the conversation is the same, the
      marked id begins with the id and the key is short enough not to be cut. */
  lemma KeyStartsTitleIff(conv: string, id: string, conv': string, id': string)
    requires Numeric(conv) && Numeric(id) && Numeric(conv') && Numeric(id')
    ensures StartsFold(Title(ProcessedKey(conv', id')), ProcessedKey(conv, id))
       <==> conv == conv' && id <= id' && |ProcessedKey(conv, id)| <= TITLE_LIMIT
  {
    hide ProcessedKey;
    var key, key' := ProcessedKey(conv, id), ProcessedKey(conv', id');
    KeyPrefixIff(conv, id, conv', id');
    KeyIsPlain(conv', id');
    assert forall k :: 0 <= k < |key'| ==> LowerChar(key'[k]) == Lower(key')[k] == key'[k];
    assert StartsFold(Title(key'), key) ==> key <= Title(key') <= key';
    assert key <= key' && |key| <= TITLE_LIMIT ==> key <= Title(key');
  }

  /** A ledger of marks, whatever order they were made in. */
  function Marks(db: Dialect, made: seq<(string, string)>): Ledger {
    Ledger(db, seq(|made|, i requires 0 <= i < |made| => NewEntry(made[i].0, made[i].1)))
  }

  /** The exact meaning of the lookup for numeric ids: some mark in the same conversation extends
      the id, and the id's own key fits the title. */
  lemma LookupIff(db: Dialect, made: seq<(string, string)>, conv: string, id: string)
    requires Numeric(conv) && Numeric(id)
    requires forall k :: 0 <= k < |made| ==> Numeric(made[k].0) && Numeric(made[k].1)
    ensures WasProcessed(Marks(db, made), conv, id) <==>
      |ProcessedKey(conv, id)| <= 255 && exists k :: 0 <= k < |made| && made[k].0 == conv && id <= made[k].1
  {
    hide Mentions, NewEntry, ProcessedKey;
    var ledger := Marks(db, made);
    forall k | 0 <= k < |made|
      ensures Mentions(db, ledger.rows[k], ProcessedKey(conv, id)) <==>
        |ProcessedKey(conv, id)| <= 255 && made[k].0 == conv && id <= made[k].1
    {
      MentionsAtStart(db, conv, id, made[k].0, made[k].1);
      KeyStartsTitleIff(conv, id, made[k].0, made[k].1);
    }
  }

  /** For numeric ids the title limit is the exact boundary: a longer key is cut when stored, its
      row never matches, and the mark might as well not have been made. */
  lemma NumericFindableIff(db: Dialect, conv: string, id: string)
    requires Numeric(conv) && Numeric(id)
    ensures Findable(db, conv, id) <==> |ProcessedKey(conv, id)| <= 255
  {
    hide Mentions, NewEntry, ProcessedKey, Title;
    MentionsAtStart(db, conv, id, conv, id);
    KeyStartsTitleIff(conv, id, conv, id);
  }

  /** On MySQL an id with a backslash before a digit is never found: the pattern asks for the id
      without the backslash, which is not what was stored. */
  lemma BackslashIsUnfindable(conv: string, a: string, b: string)
    requires Numeric(conv) && (a == "" || Numeric(a)) && Numeric(b)
    ensures !Findable(MySQL, conv, a + "\\" + b)
    ensures |ProcessedKey(conv, a + "\\" + b)| <= 255 ==> Findable(SQLite, conv, a + "\\" + b)
  {
    hide Like;
    var id, bare := a + "\\" + b, a + b;
    var key, wanted := ProcessedKey(conv, id), ProcessedKey(conv, bare);
    var front := HEAD + conv + ":" + a;
    assert key == front + "\\" + b && wanted == front + b;
    KeyIsPlain(conv, bare);
    assert Plain(front) && Plain(b) by { assert forall k :: 0 <= k < |front| ==> front[k] == wanted[k]; }
    BackslashIsDropped(front, b, NewEntry(conv, id).title);
    BackslashIsDropped(front, b, NewEntry(conv, id).content);
    MentionsAtStart(MySQL, conv, bare, conv, id);
    assert key[|front|] == '\\' && wanted[|front|] == b[0];
    assert StartsFold(key, wanted) ==> LowerChar(key[|front|]) == wanted[|front|];
    if |key| <= TITLE_LIMIT {
      FindableIf(SQLite, conv, id);
    }
  }

  // ----- batching -----------------------------------------------------------------

  /** One row of the message window, in chronological order. */
  datatype Item = Item(id: Option<string>, hasText: bool, hasAttachment: bool, fromSelf: bool)

  predicate IsPending(ledger: Ledger, conv: string, item: Item) {
    && (item.hasText || item.hasAttachment)
    && !item.fromSelf
    && item.id.Some?
    && !WasProcessed(ledger, conv, item.id.value)
  }

  function Batch(ledger: Ledger, conv: string, window: seq<Item>): seq<string> {
    if window == [] then []
    else
      (if IsPending(ledger, conv, window[0]) then [window[0].id.value] else []) + Batch(ledger, conv, window[1..])
  }

  method LatestUnprocessed(ledger: Ledger, conv: string, window: seq<Item>) returns (pending: seq<string>)
    ensures pending == Batch(ledger, conv, window)
  {
    hide WasProcessed;
    pending := [];
    assert window[0..] == window && pending + Batch(ledger, conv, window) == Batch(ledger, conv, window);
    for i := 0 to |window|
      invariant pending + Batch(ledger, conv, window[i..]) == Batch(ledger, conv, window)
    {
      BatchStep(ledger, conv, window, i, pending);
      var item := window[i];
      if !item.hasText && !item.hasAttachment {
        continue;
      }
      if item.fromSelf {
        continue;
      }
      if item.id.None? || WasProcessed(ledger, conv, item.id.value) {
        continue;
      }
      pending := pending + [item.id.value];
    }
    assert pending + Batch(ledger, conv, window[|window|..]) == pending;
  }

  lemma BatchStep(ledger: Ledger, conv: string, window: seq<Item>, i: nat, done: seq<string>)
    requires i < |window|
    ensures IsPending(ledger, conv, window[i]) ==>
      done + Batch(ledger, conv, window[i..]) == done + [window[i].id.value] + Batch(ledger, conv, window[i + 1..])
    ensures !IsPending(ledger, conv, window[i]) ==>
      done + Batch(ledger, conv, window[i..]) == done + Batch(ledger, conv, window[i + 1..])
  {
    hide IsPending;
    assert window[i..][1..] == window[i + 1..];
    assert [] + Batch(ledger, conv, window[i + 1..]) == Batch(ledger, conv, window[i + 1..]);
  }

  /** A row of the window is batched for what it is and for what the ledger says of its id. */
  lemma BatchOfOne(ledger: Ledger, conv: string, item: Item)
    ensures Batch(ledger, conv, [item]) ==
      if (item.hasText || item.hasAttachment) && !item.fromSelf && item.id.Some?
         && !WasProcessed(ledger, conv, item.id.value)
      then [item.id.value] else []
  {
    hide WasProcessed;
    assert [item][1..] == [];
  }

  lemma {:induction false} BatchIsUnprocessed(ledger: Ledger, conv: string, window: seq<Item>, id: string)
    ensures id in Batch(ledger, conv, window) <==>
      && !WasProcessed(ledger, conv, id)
      && exists k :: 0 <= k < |window| && (window[k].hasText || window[k].hasAttachment)
           && !window[k].fromSelf && window[k].id == Some(id)
  {
    hide WasProcessed;
    BatchHasPending(ledger, conv, window, id);
    if k :| 0 <= k < |window| && IsPending(ledger, conv, window[k]) && window[k].id.value == id {
      assert window[k].id == Some(id);
    }
    if k :| 0 <= k < |window| && (window[k].hasText || window[k].hasAttachment)
            && !window[k].fromSelf && window[k].id == Some(id) {
      assert !WasProcessed(ledger, conv, id) ==> IsPending(ledger, conv, window[k]);
    }
  }

  lemma {:induction false} BatchHasPending(ledger: Ledger, conv: string, window: seq<Item>, id: string)
    ensures id in Batch(ledger, conv, window) <==>
      exists k :: 0 <= k < |window| && IsPending(ledger, conv, window[k]) && window[k].id.value == id
  {
    hide WasProcessed;
    if window == [] {
    } else {
      var rest := window[1..];
      BatchHasPending(ledger, conv, rest, id);
      if id in Batch(ledger, conv, rest) {
        var k :| 0 <= k < |rest| && IsPending(ledger, conv, rest[k]) && rest[k].id.value == id;
        assert window[k + 1] == rest[k];
      }
      if k :| 0 <= k < |window| && IsPending(ledger, conv, window[k]) && window[k].id.value == id {
        if k > 0 {
          assert rest[k - 1] == window[k];
        }
      }
    }
  }

  /** A foreign message with content and a numeric id is left out of the batch exactly when some mark
      in its conversation begins with its id: its own mark, or that of a longer id. */
  lemma LeftOutIff(db: Dialect, made: seq<(string, string)>, conv: string, item: Item)
    requires (item.hasText || item.hasAttachment) && !item.fromSelf && item.id.Some?
    requires Numeric(conv) && Numeric(item.id.value) && |ProcessedKey(conv, item.id.value)| <= 255
    requires forall k :: 0 <= k < |made| ==> Numeric(made[k].0) && Numeric(made[k].1)
    ensures Batch(Marks(db, made), conv, [item]) == [] <==>
      exists k :: 0 <= k < |made| && made[k].0 == conv && item.id.value <= made[k].1
  {
    hide WasProcessed, ProcessedKey;
    LookupIff(db, made, conv, item.id.value);
    BatchOfOne(Marks(db, made), conv, item);
  }

  /** The batch follows the order of the window. */
  lemma {:induction false} BatchInOrder(ledger: Ledger, conv: string, older: seq<Item>, newer: seq<Item>)
    ensures Batch(ledger, conv, older + newer) == Batch(ledger, conv, older) + Batch(ledger, conv, newer)
  {
    hide IsPending;
    if older == [] {
      assert older + newer == newer;
    } else {
      assert (older + newer)[1..] == older[1..] + newer;
      BatchInOrder(ledger, conv, older[1..], newer);
    }
  }

  // ----- polls --------------------------------------------------------------------

  datatype Verdict = LlmError | Throttled | Drafted(autoSend: bool, sentIds: seq<string>)

  /** One poll of one conversation: what the server showed, what the model and the policies
      decided, and after how many statements the process died (a large number for a full poll). */
  datatype Poll = Poll(conv: string, window: seq<Item>, verdict: Verdict, crashAfter: nat)

  datatype Sent = Sent(conv: string, ids: seq<string>)
  datatype World = World(ledger: Ledger, sends: seq<Sent>)

  /** The newest id first, then the others in order. */
  function MarkOrder(batch: seq<string>): seq<string>
    requires batch != []
  {
    [batch[|batch| - 1]] + batch[..|batch| - 1]
  }

  function Prefix<T>(s: seq<T>, n: int): seq<T> {
    if n <= 0 then [] else if n >= |s| then s else s[..n]
  }

  /** Statements of a drafted reply: queue the approval, mark each id, send. A throttled reply
      has the marks only. */
  function AfterPoll(w: World, p: Poll): World {
    var batch := Batch(w.ledger, p.conv, p.window);
    if batch == [] then w
    else
      match p.verdict
      case LlmError => w
      case Throttled => w.(ledger := MarkAll(w.ledger, p.conv, Prefix(MarkOrder(batch), p.crashAfter)))
      case Drafted(autoSend, sentIds) =>
        var marked := MarkAll(w.ledger, p.conv, Prefix(MarkOrder(batch), p.crashAfter - 1));
        if autoSend && p.crashAfter > 1 + |batch|
        then World(MarkAll(marked, p.conv, sentIds), w.sends + [Sent(p.conv, batch)])
        else w.(ledger := marked)
  }

  function AfterPolls(w: World, polls: seq<Poll>): World {
    if polls == [] then w else AfterPoll(AfterPolls(w, polls[..|polls| - 1]), polls[|polls| - 1])
  }

  ghost predicate Remembered(w: World) {
    forall k, id :: 0 <= k < |w.sends| && id in w.sends[k].ids && Findable(w.ledger.db, w.sends[k].conv, id) ==>
      WasProcessed(w.ledger, w.sends[k].conv, id)
  }

  ghost predicate AnsweredOnce(w: World) {
    forall j, k, id ::
      (0 <= j < k < |w.sends| && w.sends[j].conv == w.sends[k].conv && id in w.sends[j].ids && id in w.sends[k].ids) ==>
      !Findable(w.ledger.db, w.sends[k].conv, id)
  }

  lemma {:induction false} PollForgetsNothing(w: World, p: Poll, conv: string, id: string)
    requires WasProcessed(w.ledger, conv, id)
    ensures WasProcessed(AfterPoll(w, p).ledger, conv, id)
  {
    hide WasProcessed, MarkAll, Batch;
    var batch := Batch(w.ledger, p.conv, p.window);
    if batch != [] && !p.verdict.LlmError? {
      MarkAllKeepsProcessed(w.ledger, conv, id, p.conv, Prefix(MarkOrder(batch), p.crashAfter));
      var marks := Prefix(MarkOrder(batch), p.crashAfter - 1);
      MarkAllKeepsProcessed(w.ledger, conv, id, p.conv, marks);
      if p.verdict.Drafted? {
        MarkAllKeepsProcessed(MarkAll(w.ledger, p.conv, marks), conv, id, p.conv, p.verdict.sentIds);
      }
    }
  }

  /** A batch whose reply went out is marked in full. */
  lemma SentIsMarked(w: World, p: Poll, id: string)
    requires |AfterPoll(w, p).sends| > |w.sends|
    requires id in Batch(w.ledger, p.conv, p.window) && Findable(w.ledger.db, p.conv, id)
    ensures WasProcessed(AfterPoll(w, p).ledger, p.conv, id)
  {
    hide WasProcessed, MarkAll, Batch, Findable;
    var batch := Batch(w.ledger, p.conv, p.window);
    var marks := MarkOrder(batch);
    assert Prefix(marks, p.crashAfter - 1) == marks;
    assert id in marks by {
      var k :| 0 <= k < |batch| && batch[k] == id;
      if k < |batch| - 1 {
        assert marks[k + 1] == id;
      } else {
        assert marks[0] == id;
      }
    }
    MarkAllMarksAll(w.ledger, p.conv, marks, id);
    MarkAllKeepsProcessed(MarkAll(w.ledger, p.conv, marks), p.conv, id, p.conv, p.verdict.sentIds);
  }

  lemma PollKeepsPromise(w: World, p: Poll)
    requires Remembered(w) && AnsweredOnce(w)
    ensures Remembered(AfterPoll(w, p)) && AnsweredOnce(AfterPoll(w, p))
  {
    hide WasProcessed, Findable, MarkAll, Batch;
    var w' := AfterPoll(w, p);
    var batch := Batch(w.ledger, p.conv, p.window);
    forall k, id | 0 <= k < |w'.sends| && id in w'.sends[k].ids && Findable(w.ledger.db, w'.sends[k].conv, id)
      ensures WasProcessed(w'.ledger, w'.sends[k].conv, id)
    {
      if k < |w.sends| {
        assert w'.sends[k] == w.sends[k];
        PollForgetsNothing(w, p, w.sends[k].conv, id);
      } else {
        SentIsMarked(w, p, id);
      }
    }
    forall j, k, id | 0 <= j < k < |w'.sends| && w'.sends[j].conv == w'.sends[k].conv
        && id in w'.sends[j].ids && id in w'.sends[k].ids
      ensures !Findable(w.ledger.db, w'.sends[k].conv, id)
    {
      assert w'.sends[j] == w.sends[j];
      if k < |w.sends| {
        assert w'.sends[k] == w.sends[k];
      } else {
        PendingIsUnprocessed(w.ledger, p.conv, p.window, id);
      }
    }
  }

  lemma PendingIsUnprocessed(ledger: Ledger, conv: string, window: seq<Item>, id: string)
    requires id in Batch(ledger, conv, window)
    ensures !WasProcessed(ledger, conv, id)
  {
    hide WasProcessed, Batch;
    BatchHasPending(ledger, conv, window, id);
    var k :| 0 <= k < |window| && IsPending(ledger, conv, window[k]) && window[k].id.value == id;
  }

  /** Over any sequence of polls, each dying where it likes, no message is in two batches whose
      replies were sent. */
  lemma {:induction false} EachMessageAnsweredOnce(ledger: Ledger, polls: seq<Poll>)
    ensures AnsweredOnce(AfterPolls(World(ledger, []), polls))
    ensures Remembered(AfterPolls(World(ledger, []), polls))
  {
    hide WasProcessed, Findable;
    if polls == [] {
    } else {
      EachMessageAnsweredOnce(ledger, polls[..|polls| - 1]);
      PollKeepsPromise(AfterPolls(World(ledger, []), polls[..|polls| - 1]), polls[|polls| - 1]);
    }
  }

  /** The agent never answers itself: a poll that sees only its own messages changes nothing. */
  lemma OwnMessagesUnanswered(w: World, p: Poll)
    requires forall k :: 0 <= k < |p.window| ==> p.window[k].fromSelf
    ensures AfterPoll(w, p) == w
  {
    hide WasProcessed;
    var batch := Batch(w.ledger, p.conv, p.window);
    if batch != [] {
      BatchIsUnprocessed(w.ledger, p.conv, p.window, batch[0]);
    }
  }

  /** What one poll sends and marks. The reply is sent for the whole batch exactly when it was drafted
      for sending and the process lived to the statement after the approval and the marks; the newest
      id is marked first; a throttled batch is marked like an answered one, a failed one not at all. */
  lemma PollOutcome(w: World, p: Poll)
    requires Batch(w.ledger, p.conv, p.window) != []
    ensures var (w', batch) := (AfterPoll(w, p), Batch(w.ledger, p.conv, p.window));
      && w'.sends == (if p.verdict.Drafted? && p.verdict.autoSend && p.crashAfter >= |batch| + 2
                      then w.sends + [Sent(p.conv, batch)] else w.sends)
      && (p.verdict.LlmError? ==> w' == w)
      && (p.verdict.Throttled? && p.crashAfter == 0 ==> w' == w)
      && (p.verdict.Throttled? && p.crashAfter == 1 ==> w'.ledger == Mark(w.ledger, p.conv, batch[|batch| - 1]))
      && (p.verdict.Drafted? && p.crashAfter <= 1 ==> w' == w)
      && (p.verdict.Drafted? && p.crashAfter == 2 && |batch| > 1 ==>
            w'.ledger == Mark(w.ledger, p.conv, batch[|batch| - 1]))
      && ((p.verdict.Throttled? && p.crashAfter >= |batch|) || (p.verdict.Drafted? && p.crashAfter > |batch|) ==>
            forall id :: id in batch && Findable(w.ledger.db, p.conv, id) ==> WasProcessed(w'.ledger, p.conv, id))
  {
    hide WasProcessed, Mark, Batch, Findable;
    var batch := Batch(w.ledger, p.conv, p.window);
    var marks := MarkOrder(batch);
    assert marks[..1] == [marks[0]] && marks[..1][..0] == [] && marks[0] == batch[|batch| - 1];
    assert MarkAll(w.ledger, p.conv, marks[..1]) == Mark(w.ledger, p.conv, marks[0]);
    forall id | id in batch && Findable(w.ledger.db, p.conv, id)
      ensures WasProcessed(MarkAll(w.ledger, p.conv, marks), p.conv, id)
    {
      var k :| 0 <= k < |batch| && batch[k] == id;
      assert marks[if k < |batch| - 1 then k + 1 else 0] == id;
      MarkAllMarksAll(w.ledger, p.conv, marks, id);
    }
    forall id | p.verdict.Drafted? && WasProcessed(MarkAll(w.ledger, p.conv, marks), p.conv, id)
      ensures WasProcessed(MarkAll(MarkAll(w.ledger, p.conv, marks), p.conv, p.verdict.sentIds), p.conv, id)
    {
      MarkAllKeepsProcessed(MarkAll(w.ledger, p.conv, marks), p.conv, id, p.conv, p.verdict.sentIds);
    }
  }

  /** A poll that sees one message and answers it to the end. */
  function SoloPoll(conv: string, id: string): Poll {
    Poll(conv, [Item(Some(id), true, false, false)], Drafted(true, []), 3)
  }

  lemma SoloAnswered(w: World, conv: string, id: string)
    ensures AfterPoll(w, SoloPoll(conv, id))
         == if WasProcessed(w.ledger, conv, id) then w
            else World(Mark(w.ledger, conv, id), w.sends + [Sent(conv, [id])])
  {
    hide WasProcessed, Mark;
    var window := SoloPoll(conv, id).window;
    assert window[1..] == [];
    if !WasProcessed(w.ledger, conv, id) {
      assert Batch(w.ledger, conv, window) == [id];
      assert MarkOrder([id]) == [id];
      assert [id][..0] == [] && MarkAll(w.ledger, conv, []) == w.ledger;
      assert MarkAll(w.ledger, conv, [id]) == Mark(w.ledger, conv, id);
      assert MarkAll(Mark(w.ledger, conv, id), conv, []) == Mark(w.ledger, conv, id);
    }
  }

  /** Findable is the exact condition: a message not yet processed is answered once by any number of
      polls if its id is findable, and by every poll if it is not. */
  lemma {:induction false} AnsweredAgainIff(ledger: Ledger, conv: string, id: string, n: nat)
    requires !WasProcessed(ledger, conv, id)
    ensures var w := AfterPolls(World(ledger, []), seq(n, i => SoloPoll(conv, id)));
      && w.ledger.db == ledger.db
      && |w.sends| == (if Findable(ledger.db, conv, id) && n > 1 then 1 else n)
      && (forall k :: 0 <= k < |w.sends| ==> w.sends[k] == Sent(conv, [id]))
      && (WasProcessed(w.ledger, conv, id) <==> Findable(ledger.db, conv, id) && n > 0)
  {
    hide AfterPoll, WasProcessed, Mark, Findable;
    var polls := seq(n, i => SoloPoll(conv, id));
    if n == 0 {
    } else {
      AnsweredAgainIff(ledger, conv, id, n - 1);
      assert polls[..n - 1] == seq(n - 1, i => SoloPoll(conv, id));
      var before := AfterPolls(World(ledger, []), polls[..n - 1]);
      SoloAnswered(before, conv, id);
      MarkedIsFoundIff(before.ledger, conv, id);
    }
  }

  /** The ids that every poll answers again: the empty one, a numeric one too long for the title, and
      on MySQL one with a backslash before a digit. */
  lemma AnsweredEveryTime(ledger: Ledger, conv: string, id: string, a: string, b: string, n: nat)
    requires !WasProcessed(ledger, conv, id)
    requires || id == ""
             || (Numeric(conv) && Numeric(id) && |ProcessedKey(conv, id)| > 255)
             || (ledger.db == MySQL && Numeric(conv) && (a == "" || Numeric(a)) && Numeric(b) && id == a + "\\" + b)
    ensures |AfterPolls(World(ledger, []), seq(n, i => SoloPoll(conv, id))).sends| == n
  {
    hide AfterPolls, WasProcessed, Mentions, ProcessedKey;
    AnsweredAgainIff(ledger, conv, id, n);
    if id != "" {
      if ledger.db == MySQL && Numeric(conv) && (a == "" || Numeric(a)) && Numeric(b) && id == a + "\\" + b {
        BackslashIsUnfindable(conv, a, b);
      } else {
        NumericFindableIff(ledger.db, conv, id);
      }
    }
  }

  // ----- the worker ---------------------------------------------------------------

  datatype Result = Busy | DryRun | Nothing | NotAnswered | Answered | Raised

  class Worker {
    var locked: bool
    var runs: nat
    var processed: nat
    var skipped: nat
    var world: World

    constructor (ledger: Ledger)
      ensures !locked && runs == processed == skipped == 0 && world == World(ledger, [])
    {
      locked := false;
      runs, processed, skipped := 0, 0, 0;
      world := World(ledger, []);
    }

    /** `draft_reply_to_message` from the verdict on: queue, mark one id after the other, send. */
    method DraftReply(p: Poll, batch: seq<string>) returns (result: Result)
      requires batch == Batch(world.ledger, p.conv, p.window) != []
      modifies this`world
      ensures world == AfterPoll(old(world), p)
      ensures result.NotAnswered? ==> p.verdict.LlmError?
      ensures result.Answered? ==> !p.verdict.LlmError? && p.crashAfter >= |batch|
      ensures result in {NotAnswered, Answered, Raised}
    {
      hide Batch, Mark;
      if p.verdict.LlmError? {
        return NotAnswered;
      }
      var budget: int := p.crashAfter;
      if p.verdict.Drafted? {
        budget := budget - 1;
      }
      var order := MarkOrder(batch);
      var done := 0;
      ghost var ledger := world.ledger;
      assert order[..0] == [];
      while done < |order| && budget > 0
        invariant 0 <= done <= |order|
        invariant budget == (if p.verdict.Drafted? then p.crashAfter - 1 else p.crashAfter) - done
        invariant done == 0 || budget >= 0
        invariant world.ledger == MarkAll(ledger, p.conv, order[..done])
        invariant world.sends == old(world.sends)
        decreases |order| - done
      {
        world := world.(ledger := Mark(world.ledger, p.conv, order[done]));
        done, budget := done + 1, budget - 1;
        assert order[..done][..done - 1] == order[..done - 1];
      }
      assert order[..done] == Prefix(order, if p.verdict.Drafted? then p.crashAfter - 1 else p.crashAfter);
      if done < |order| {
        return Raised;
      }
      if p.verdict.Drafted? && p.verdict.autoSend {
        if budget <= 0 {
          return Raised;
        }
        world := World(MarkAll(world.ledger, p.conv, p.verdict.sentIds), world.sends + [Sent(p.conv, batch)]);
      }
      result := Answered;
    }

    method PollConversationOnce(visit: Visit, dryRun: bool) returns (result: Result)
      modifies this
      ensures old(locked) ==>
        result == Busy && locked && skipped == old(skipped) + 1
        && runs == old(runs) && processed == old(processed) && world == old(world)
      ensures !old(locked) ==>
        && !locked && runs == old(runs) + 1
        && world == (if dryRun || visit.FetchRaises? then old(world) else AfterPoll(old(world), visit.poll))
        && processed == old(processed) + (if result.Answered? then 1 else 0)
        && skipped == old(skipped) + (if result in {Nothing, DryRun, NotAnswered} then 1 else 0)
        && (visit.FetchRaises? ==> result.Raised?)
        && (result.Nothing? <==> visit.Fetched? && old(Batch(world.ledger, visit.poll.conv, visit.poll.window)) == [])
    {
      if locked {
        skipped := skipped + 1;
        return Busy;
      }
      locked := true;
      runs := runs + 1;
      if visit.FetchRaises? {
        locked := false;
        return Raised;
      }
      var p := visit.poll;
      var batch := LatestUnprocessed(world.ledger, p.conv, p.window);
      if batch == [] {
        result := Nothing;
      } else if dryRun {
        result := DryRun;
      } else {
        result := DraftReply(p, batch);
      }
      if result.Answered? {
        processed := processed + 1;
      } else if !result.Raised? {
        skipped := skipped + 1;
      }
      locked := false;
    }

    /** The inbox scan: one conversation after the other. It stops at the first candidate in a dry
        run, at the first reply unless the autonomous social mode answers them all, and at the
        first exception in any case. `inbox` is None when listing the conversations raised. */
    method PollOnce(inbox: Option<seq<Visit>>, dryRun: bool, social: bool) returns (visited: nat, result: Result)
      modifies this
      ensures old(locked) ==>
        result == Busy && visited == 0 && locked && skipped == old(skipped) + 1
        && runs == old(runs) && processed == old(processed) && world == old(world)
      ensures !old(locked) ==>
        && !locked && runs == old(runs) + 1
        && (inbox.None? ==> result.Raised? && visited == 0)
        && (inbox.Some? ==> visited <= |inbox.value| && forall k :: 0 <= k < visited ==> inbox.value[k].Fetched?)
        && world == (if dryRun || inbox.None? then old(world)
                     else AfterPolls(old(world), Polls(inbox.value[..visited])))
        && (!social ==> |world.sends| <= |old(world.sends)| + 1)
        && processed == old(processed) + (if result.Answered? then 1 else 0)
        && skipped == old(skipped) + (if result in {Nothing, NotAnswered, DryRun} then 1 else 0)
        && (dryRun ==> !result.Answered?)
        && (dryRun ==> (result.DryRun? <==> inbox.Some? && Seen(old(world.ledger), inbox.value[..visited])))
      // Where the scan stops: an exception apart, a full social pass visits everybody, any other scan
      // goes on to the first conversation with a pending message, or through all of them.
      ensures !old(locked) && inbox.Some? && !result.Raised? ==>
        if social && !dryRun then visited == |inbox.value|
        else
          && (visited == |inbox.value| || Seen(old(world.ledger), inbox.value[..visited]))
          && (visited > 0 ==> !Seen(old(world.ledger), inbox.value[..visited - 1]))
      ensures !old(locked) && result.Nothing? ==>
        inbox.Some? && visited == |inbox.value| && world == old(world) && !Seen(world.ledger, inbox.value)
      ensures !old(locked) && inbox.Some? && result.Raised? ==>
        (visited < |inbox.value| && inbox.value[visited].FetchRaises?) || (visited > 0 && !dryRun)
    {
      hide AfterPoll, Batch, Seen;
      visited, result := 0, Nothing;
      NothingSeen(world.ledger);
      if locked {
        skipped := skipped + 1;
        return 0, Busy;
      }
      locked := true;
      runs := runs + 1;
      if inbox.None? {
        locked := false;
        return 0, Raised;
      }
      var visits := inbox.value;
      var stop := false;
      while visited < |visits| && !stop
        invariant visited <= |visits| && forall k :: 0 <= k < visited ==> visits[k].Fetched?
        invariant runs == old(runs) + 1 && processed == old(processed) && skipped == old(skipped)
        invariant world == if dryRun then old(world) else AfterPolls(old(world), Polls(visits[..visited]))
        invariant (!social || dryRun) && !stop ==> |world.sends| == |old(world.sends)|
        invariant !social || dryRun ==> |world.sends| <= |old(world.sends)| + 1
        invariant result in {Nothing, NotAnswered, Answered, Raised, DryRun}
        invariant dryRun ==> result in {Nothing, Raised, DryRun}
        invariant dryRun ==> (result.DryRun? <==> Seen(old(world.ledger), visits[..visited]))
        invariant dryRun && !stop ==> result.Nothing?
        invariant !dryRun ==> !result.DryRun?
        invariant (!social || dryRun) && !stop ==> result.Nothing?
        invariant (!social || dryRun) && stop ==>
          visited > 0 && !result.Nothing? && Seen(old(world.ledger), visits[..visited])
        invariant (!social || dryRun) && visited > 0 ==> !Seen(old(world.ledger), visits[..visited - 1])
        invariant social && !dryRun && stop ==> result.Raised?
        invariant result.Nothing? ==> world == old(world) && !Seen(old(world.ledger), visits[..visited])
        invariant result.Raised? ==> visited > 0 && !dryRun
        decreases |visits| - visited, !stop
      {
        if visits[visited].FetchRaises? {
          result, stop := Raised, true;
          break;
        }
        SeenStep(old(world.ledger), visits, visited);
        var p := visits[visited].poll;
        var batch := LatestUnprocessed(world.ledger, p.conv, p.window);
        AtMostOneSend(world, p);
        visited := visited + 1;
        assert Polls(visits[..visited])[..visited - 1] == Polls(visits[..visited - 1]);
        if batch != [] && dryRun {
          result, stop := DryRun, true;
        } else if batch != [] {
          var one := DraftReply(p, batch);
          result := if social && !one.Raised? then Answered else one;
          stop := !social || one.Raised?;
        }
      }
      assert visits[..|visits|] == visits;
      if result.Answered? {
        processed := processed + 1;
      } else if !result.Raised? {
        skipped := skipped + 1;
      }
      locked := false;
    }
  }

  /** A conversation to visit: what fetching its messages gave. */
  datatype Visit = Fetched(poll: Poll) | FetchRaises

  function Polls(visits: seq<Visit>): seq<Poll>
    requires forall k :: 0 <= k < |visits| ==> visits[k].Fetched?
  {
    seq(|visits|, k requires 0 <= k < |visits| => visits[k].poll)
  }

  predicate HasPending(ledger: Ledger, visit: Visit) {
    visit.Fetched? && Batch(ledger, visit.poll.conv, visit.poll.window) != []
  }

  /** Some visited conversation has a pending message. */
  predicate Seen(ledger: Ledger, visits: seq<Visit>) {
    exists k :: 0 <= k < |visits| && HasPending(ledger, visits[k])
  }

  lemma NothingSeen(ledger: Ledger)
    ensures !Seen(ledger, [])
  {
  }

  lemma SeenStep(ledger: Ledger, visits: seq<Visit>, n: nat)
    requires n < |visits| && visits[n].Fetched?
    ensures Seen(ledger, visits[..n + 1]) <==>
      Seen(ledger, visits[..n]) || HasPending(ledger, visits[n])
  {
    hide Batch;
    assert visits[..n + 1] == visits[..n] + [visits[n]];
    if k :| 0 <= k < n && HasPending(ledger, visits[..n][k]) {
      assert visits[..n + 1][k] == visits[..n][k];
    }
    if HasPending(ledger, visits[n]) {
      assert visits[..n + 1][n] == visits[n];
    }
  }

  lemma AtMostOneSend(w: World, p: Poll)
    ensures |w.sends| <= |AfterPoll(w, p).sends| <= |w.sends| + 1
    ensures Batch(w.ledger, p.conv, p.window) == [] ==> AfterPoll(w, p) == w
  {
    hide Batch, MarkAll;
  }
}
