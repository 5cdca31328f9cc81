/** `_chat_chunks` of app/agents/tody_agent.py: a long reply cut into a few chat bubbles. */
module ChatChunks {
  import opened PyText

  const BREAK := "\n\n"

  // ----- what survives the cutting --------------------------------------------------

  /** The text without its white space. */
  function Squeeze(s: string): string {
    if s == "" then "" else (if IsSpace(s[0]) then "" else [s[0]]) + Squeeze(s[1..])
  }

  function Concat(parts: seq<string>): string {
    if parts == [] then "" else parts[0] + Concat(parts[1..])
  }

  lemma {:induction false} SqueezeJoin(a: string, b: string)
    ensures Squeeze(a + b) == Squeeze(a) + Squeeze(b)
  {
    if a == "" {
      assert a + b == b;
    } else {
      assert (a + b)[1..] == a[1..] + b;
      SqueezeJoin(a[1..], b);
    }
  }

  lemma {:induction false} ConcatJoin(a: seq<string>, b: seq<string>)
    ensures Concat(a + b) == Concat(a) + Concat(b)
  {
    if a == [] {
      assert a + b == b;
    } else {
      assert (a + b)[1..] == a[1..] + b;
      ConcatJoin(a[1..], b);
    }
  }

  lemma {:induction false} SqueezeLStrip(s: string)
    ensures Squeeze(LStrip(s)) == Squeeze(s)
  {
    if s != "" && IsSpace(s[0]) {
      SqueezeLStrip(s[1..]);
    }
  }

  lemma {:induction false} SqueezeRStrip(s: string)
    ensures Squeeze(RStrip(s)) == Squeeze(s)
  {
    if s != "" && IsSpace(s[|s| - 1]) {
      var n := |s| - 1;
      SqueezeRStrip(s[..n]);
      assert s == s[..n] + [s[n]];
      SqueezeJoin(s[..n], [s[n]]);
    }
  }

  lemma SqueezeStrip(s: string)
    ensures Squeeze(Strip(s)) == Squeeze(s)
    ensures |Strip(s)| <= |s|
  {
    SqueezeLStrip(s);
    SqueezeRStrip(LStrip(s));
    StripShorter(s);
  }

  lemma StripShorter(s: string)
    ensures |LStrip(s)| <= |s| && |RStrip(s)| <= |s| && |Strip(s)| <= |s|
  {
  }

  lemma SqueezeBreak(a: string, b: string)
    ensures Squeeze(a + BREAK + b) == Squeeze(a) + Squeeze(b)
    ensures Squeeze(a + " " + b) == Squeeze(a) + Squeeze(b)
  {
    SqueezeJoin(a + BREAK, b);
    SqueezeJoin(a, BREAK);
    SqueezeJoin(a + " ", b);
    SqueezeJoin(a, " ");
    assert BREAK[1..] == "\n" && "\n"[1..] == "" && " "[1..] == "";
    assert Squeeze("\n") == "" && Squeeze(BREAK) == "" && Squeeze(" ") == "";
  }

  lemma {:induction false} SqueezeBlank(s: string)
    ensures Squeeze(s) == "" ==> Strip(s) == ""
  {
    if Squeeze(s) == "" {
      LStripBlank(s);
    }
  }

  lemma {:induction false} LStripBlank(s: string)
    requires Squeeze(s) == ""
    ensures LStrip(s) == ""
  {
    if s == "" {
    } else {
      LStripBlank(s[1..]);
    }
  }

  // ----- paragraphs and sentences ------------------------------------------------------

  /** `text.split("\n\n")`, with `cur` the paragraph read so far. */
  function Paragraphs(cur: string, s: string): seq<string>
    decreases |s|
  {
    if s == "" then [cur]
    else if BREAK <= s then [cur] + Paragraphs("", s[2..])
    else Paragraphs(cur + [s[0]], s[1..])
  }

  predicate EndsSentence(s: string) {
    s != "" && s[|s| - 1] in {'.', '!', '?'}
  }

  /** `re.split(r"(?<=[.!?])\s+", para)`, with `cur` the sentence read so far. */
  function Sentences(cur: string, s: string): seq<string>
    decreases |s|
  {
    StripShorter(s);
    if s == "" then [cur]
    else if IsSpace(s[0]) && EndsSentence(cur) then
      StripShorter(s[1..]);
      [cur] + Sentences("", LStrip(s[1..]))
    else Sentences(cur + [s[0]], s[1..])
  }

  lemma {:induction false} ParagraphsKeepText(cur: string, s: string)
    ensures Squeeze(Concat(Paragraphs(cur, s))) == Squeeze(cur) + Squeeze(s)
    decreases |s|
  {
    hide IsSpace;
    if s == "" {
      assert Concat([cur]) == cur + Concat([]);
      assert cur + "" == cur;
    } else if BREAK <= s {
      var rest := Paragraphs("", s[2..]);
      ParagraphsKeepText("", s[2..]);
      assert ([cur] + rest)[1..] == rest;
      SqueezeJoin(cur, Concat(rest));
      assert s == "" + BREAK + s[2..];
      SqueezeBreak("", s[2..]);
    } else {
      ParagraphsKeepText(cur + [s[0]], s[1..]);
      SqueezeJoin(cur, [s[0]]);
      SqueezeJoin([s[0]], s[1..]);
      assert s == [s[0]] + s[1..];
    }
  }

  lemma {:induction false} SentencesKeepText(cur: string, s: string)
    ensures Squeeze(Concat(Sentences(cur, s))) == Squeeze(cur) + Squeeze(s)
    decreases |s|
  {
    hide IsSpace, EndsSentence;
    if s == "" {
      assert Concat([cur]) == cur + Concat([]);
      assert cur + "" == cur;
    } else if IsSpace(s[0]) && EndsSentence(cur) {
      StripShorter(s[1..]);
      var rest := Sentences("", LStrip(s[1..]));
      SentencesKeepText("", LStrip(s[1..]));
      SqueezeLStrip(s[1..]);
      assert ([cur] + rest)[1..] == rest;
      SqueezeJoin(cur, Concat(rest));
    } else {
      SentencesKeepText(cur + [s[0]], s[1..]);
      SqueezeJoin(cur, [s[0]]);
      SqueezeJoin([s[0]], s[1..]);
      assert s == [s[0]] + s[1..];
    }
  }

  /** A piece the sentence splitter produced from some paragraph, possibly trimmed. */
  predicate IsSentence(text: string, c: string) {
    exists p, k ::
      (p in Paragraphs("", text) && 0 <= k < |Sentences("", Strip(p))|
       && (c == Sentences("", Strip(p))[k] || c == Strip(Sentences("", Strip(p))[k])))
  }

  // ----- the algorithm ------------------------------------------------------------------

  /** Short enough for a bubble, or a sentence that could not be cut. */
  predicate Fits(text: string, target: nat, c: string) {
    2 * |c| <= 3 * target || IsSentence(text, c)
  }

  /** The bubbles so far: none empty, and those before the last place fit. */
  predicate Good(text: string, target: nat, maxChunks: nat, parts: seq<string>) {
    && (forall i :: 0 <= i < |parts| ==> parts[i] != "")
    && (forall i :: 0 <= i < |parts| && i < maxChunks - 1 ==> Fits(text, target, parts[i]))
  }

  lemma GoodAppend(text: string, target: nat, maxChunks: nat, parts: seq<string>, c: string)
    requires Good(text, target, maxChunks, parts) && c != ""
    requires |parts| < maxChunks - 1 ==> Fits(text, target, c)
    ensures Good(text, target, maxChunks, parts + [c])
    ensures Concat(parts + [c]) == Concat(parts) + c
    ensures Squeeze(Concat(parts + [c])) == Squeeze(Concat(parts)) + Squeeze(c)
  {
    hide Fits;
    ConcatJoin(parts, [c]);
    assert Concat([c]) == c + Concat([]);
    assert c + "" == c;
    SqueezeJoin(Concat(parts), c);
  }

  /** A run of sentences within the target, or one sentence. */
  predicate SentenceRun(text: string, target: nat, c: string) {
    |c| <= target || IsSentence(text, c)
  }

  /** Cutting one long paragraph at sentence boundaries near the target. */
  method SplitParagraph(text: string, target: nat, maxChunks: nat, parts: seq<string>, p: string)
    returns (r: seq<string>)
    requires p in Paragraphs("", text) && Good(text, target, maxChunks, parts)
    ensures Good(text, target, maxChunks, r)
    ensures parts <= r && forall i :: |parts| <= i < |r| ==> SentenceRun(text, target, r[i])
    ensures Squeeze(Concat(r)) == Squeeze(Concat(parts)) + Squeeze(p)
  {
    hide Good, IsSentence, Sentences, Paragraphs, Squeeze, Concat, Strip;
    r := parts;
    var para := Strip(p);
    var sentences := Sentences("", para);
    SentencesKeepText("", para);
    SqueezeStrip(p);
    var buf := "";
    EmptySqueeze();
    assert sentences[0..] == sentences;
    for j := 0 to |sentences|
      invariant Good(text, target, maxChunks, r)
      invariant parts <= r && forall i :: |parts| <= i < |r| ==> SentenceRun(text, target, r[i])
      invariant buf != "" ==> SentenceRun(text, target, buf)
      invariant Squeeze(Concat(r)) + (Squeeze(buf) + Squeeze(Concat(sentences[j..])))
             == Squeeze(Concat(parts)) + Squeeze(p)
    {
      var s := sentences[j];
      HeadSentence(sentences, j);
      SentenceIsOne(text, p, j);
      if buf != "" && |buf| + |s| + 1 > target {
        GoodAppend(text, target, maxChunks, r, buf);
        r := r + [buf];
        buf := s;
      } else {
        JoinSentence(buf, s);
        buf := Strip(buf + " " + s);
      }
    }
    assert sentences[|sentences|..] == [];
    if buf != "" {
      GoodAppend(text, target, maxChunks, r, buf);
      r := r + [buf];
    }
  }

  lemma EmptySqueeze()
    ensures Squeeze("") == "" && Concat([]) == ""
    ensures forall s: string :: "" + s == s && s + "" == s
  {
  }

  lemma HeadSentence(parts: seq<string>, j: nat)
    requires j < |parts|
    ensures Squeeze(Concat(parts[j..])) == Squeeze(parts[j]) + Squeeze(Concat(parts[j + 1..]))
  {
    assert parts[j..][1..] == parts[j + 1..];
    SqueezeJoin(parts[j], Concat(parts[j + 1..]));
  }

  lemma SentenceIsOne(text: string, p: string, j: nat)
    requires p in Paragraphs("", text) && j < |Sentences("", Strip(p))|
    ensures var s := Sentences("", Strip(p))[j];
      IsSentence(text, s) && IsSentence(text, Strip(s))
  {
    hide Paragraphs, Sentences, Strip;
  }

  lemma JoinSentence(buf: string, s: string)
    ensures Squeeze(Strip(buf + " " + s)) == Squeeze(buf) + Squeeze(s)
    ensures |Strip(buf + " " + s)| <= |buf| + |s| + 1
    ensures buf == "" ==> Strip(buf + " " + s) == Strip(s)
  {
    SqueezeBreak(buf, s);
    SqueezeStrip(buf + " " + s);
    if buf == "" {
      assert (buf + " " + s)[1..] == s;
    }
  }

  /** At most `maxChunks` bubbles, at least one, that spell the reply. */
  method Chunks(reply: string, maxChunks: nat, target: nat) returns (parts: seq<string>)
    requires maxChunks >= 1
    ensures 1 <= |parts| <= maxChunks
    ensures Squeeze(Concat(parts)) == Squeeze(reply)
    ensures Squeeze(reply) != "" ==> forall i :: 0 <= i < |parts| ==> parts[i] != ""
    ensures |Strip(reply)| <= target ==> parts == [Strip(reply)]
    ensures |Strip(reply)| > target ==>
      forall i :: 0 <= i < |parts| && i < maxChunks - 1 ==> Fits(Strip(reply), target, parts[i])
  {
    hide IsSentence, Sentences, Paragraphs, Squeeze, Concat, Strip, Good, Fits;
    var text := Strip(reply);
    SqueezeStrip(reply);
    EmptySqueeze();
    if |text| <= target {
      OneBubble(reply);
      return [text];
    }
    parts := [];
    assert Good(text, target, maxChunks, []) by { NoneYet(text, target, maxChunks); }
    var paragraphs := Paragraphs("", text);
    ParagraphsKeepText("", text);
    assert paragraphs[0..] == paragraphs;
    for i := 0 to |paragraphs|
      invariant Good(text, target, maxChunks, parts)
      invariant Squeeze(Concat(parts)) + Squeeze(Concat(paragraphs[i..])) == Squeeze(text)
    {
      var p := paragraphs[i];
      var para := Strip(p);
      HeadSentence(paragraphs, i);
      SqueezeStrip(p);
      if para == "" {
        continue;
      }
      if parts != [] && |parts[|parts| - 1]| + |para| + 2 <= target {
        MergeLast(text, target, maxChunks, parts, para);
        parts := parts[..|parts| - 1] + [parts[|parts| - 1] + BREAK + para];
      } else if 2 * |para| <= 3 * target || |parts| >= maxChunks - 1 {
        ShortFits(text, target, para);
        GoodAppend(text, target, maxChunks, parts, para);
        parts := parts + [para];
      } else {
        parts := SplitParagraph(text, target, maxChunks, parts, p);
      }
    }
    assert paragraphs[|paragraphs|..] == [];
    if |parts| > maxChunks {
      parts := MergeTail(text, target, maxChunks, parts);
    }
    GoodMeans(text, target, maxChunks, parts);
    assert parts != [] by { NotBlank(reply, parts); }
    if parts == [] {
      parts := [text];
    }
  }

  lemma GoodMeans(text: string, target: nat, maxChunks: nat, parts: seq<string>)
    requires Good(text, target, maxChunks, parts)
    ensures forall i :: 0 <= i < |parts| ==> parts[i] != ""
    ensures forall i :: 0 <= i < |parts| && i < maxChunks - 1 ==> Fits(text, target, parts[i])
  {
    hide Fits;
  }

  lemma NoneYet(text: string, target: nat, maxChunks: nat)
    ensures Good(text, target, maxChunks, [])
  {
  }

  lemma ShortFits(text: string, target: nat, c: string)
    ensures 2 * |c| <= 3 * target ==> Fits(text, target, c)
  {
  }

  lemma OneBubble(reply: string)
    ensures Squeeze(Concat([Strip(reply)])) == Squeeze(reply)
    ensures Squeeze(reply) != "" ==> Strip(reply) != ""
  {
    var t := Strip(reply);
    SqueezeStrip(reply);
    assert Concat([t]) == t + Concat([]);
    assert t + "" == t;
  }

  /** A stripped text that is not empty is not blank, so some paragraph was kept. */
  lemma NotBlank(reply: string, parts: seq<string>)
    requires Squeeze(Concat(parts)) == Squeeze(Strip(reply)) && Strip(reply) != ""
    ensures parts != []
  {
    SqueezeStrip(reply);
    SqueezeBlank(reply);
  }

  lemma MergeLast(text: string, target: nat, maxChunks: nat, parts: seq<string>, para: string)
    requires parts != [] && Good(text, target, maxChunks, parts) && para != ""
    requires |parts[|parts| - 1]| + |para| + 2 <= target
    ensures var r := parts[..|parts| - 1] + [parts[|parts| - 1] + BREAK + para];
      && Good(text, target, maxChunks, r)
      && Squeeze(Concat(r)) == Squeeze(Concat(parts)) + Squeeze(para)
  {
    hide IsSentence, Squeeze, Concat;
    var n := |parts| - 1;
    var front, last := parts[..n], parts[n];
    assert parts == front + [last];
    assert Good(text, target, maxChunks, front);
    GoodAppend(text, target, maxChunks, front, last);
    GoodAppend(text, target, maxChunks, front, last + BREAK + para);
    SqueezeBreak(last, para);
  }

  /** `"\n\n".join(parts)` */
  function Joined(parts: seq<string>): string
    requires parts != []
  {
    if |parts| == 1 then parts[0] else parts[0] + BREAK + Joined(parts[1..])
  }

  lemma {:induction false} JoinedKeepsText(parts: seq<string>)
    requires parts != [] && forall i :: 0 <= i < |parts| ==> parts[i] != ""
    ensures Squeeze(Joined(parts)) == Squeeze(Concat(parts)) && Joined(parts) != ""
  {
    if |parts| == 1 {
      assert Concat(parts) == parts[0] + Concat([]);
      assert parts[0] + "" == parts[0];
    } else {
      JoinedKeepsText(parts[1..]);
      SqueezeBreak(parts[0], Joined(parts[1..]));
      SqueezeJoin(parts[0], Concat(parts[1..]));
    }
  }

  method MergeTail(text: string, target: nat, maxChunks: nat, parts: seq<string>) returns (r: seq<string>)
    requires 1 <= maxChunks < |parts| && Good(text, target, maxChunks, parts)
    ensures |r| == maxChunks && Good(text, target, maxChunks, r)
    ensures Squeeze(Concat(r)) == Squeeze(Concat(parts))
  {
    hide Fits, Squeeze, Concat;
    var front, tail := parts[..maxChunks - 1], parts[maxChunks - 1..];
    JoinedKeepsText(tail);
    assert Good(text, target, maxChunks, front);
    GoodAppend(text, target, maxChunks, front, Joined(tail));
    assert parts == front + tail;
    ConcatJoin(front, tail);
    SqueezeJoin(Concat(front), Concat(tail));
    r := front + [Joined(tail)];
  }
}
