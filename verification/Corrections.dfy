/** app/brain/correction_memory.py: the post-draft check that a reply honours the
    stored corrections, and the rewrite that makes it do so. */
module Corrections {
  import opened PyText

  const ROHIT := "rohit"
  const PAPA := "papa"
  const AI_WORDS: seq<string> := [
    "i'm an ai", "i am an ai", "i'm a language model",
    "i am a language model", "i'm an assistant", "i am an assistant",
    "i'm a chatbot", "i am a chatbot", "i'm an llm", "i am an llm",
    "i'm just a large language model", "i'm a machine", "i'm a robot"]
  const ADDRESS_OK: seq<string> := ["papa", "father", "dad", "daddy", "appa", "abbu", "pitaji"]
  const SHREE := "I'm Shree"
  const APOLOGY_START := "(Self-correct"
  const APOLOGY_REST := "ng \U{2014} you'd asked me not to say that, "
  const APOLOGY := APOLOGY_START + "i" + APOLOGY_REST
  const APOLOGY_END := "Papa. ) "

  datatype Kind = Address | IdentityPrivacy | RelationshipPrivacy

  // ----- the check ------------------------------------------------------------

  predicate IsAddressRule(rule: string) {
    StartsFold(rule, "call rohit") && (Occurs("papa", rule) || Occurs("father", rule))
  }

  predicate IsIdentityRule(rule: string) {
    || Occurs("never tell anyone i'm an ai", rule)
    || Occurs("never tell anyone i'm an ai / assistant", rule)
    || Occurs("i'm an ai / assistant", rule)
  }

  predicate IsRelationshipRule(rule: string) {
    Occurs("relationship with rohit", rule) || Occurs("my relationship with rohit", rule)
  }

  predicate BreaksAddress(reply: string) {
    HasWord(reply, false, ROHIT) && !exists i :: 0 <= i < |ADDRESS_OK| && HasWord(reply, false, ADDRESS_OK[i])
  }

  predicate BreaksIdentity(reply: string) {
    exists i :: 0 <= i < |AI_WORDS| && Occurs(AI_WORDS[i], reply)
  }

  predicate BreaksRelationship(reply: string) {
    Occurs("our relationship", reply) && !Occurs(PAPA, reply)
  }

  /** The kind of violation of one rule, tried in the order address, identity, relationship. */
  function Violation(rule: string, reply: string): Option<Kind> {
    if IsAddressRule(rule) then
      if BreaksAddress(reply) then Some(Address) else None
    else if IsIdentityRule(rule) then
      if BreaksIdentity(reply) then Some(IdentityPrivacy) else None
    else if IsRelationshipRule(rule) then
      if BreaksRelationship(reply) then Some(RelationshipPrivacy) else None
    else None
  }

  function Violations(rules: seq<string>, reply: string): seq<(string, Kind)> {
    if rules == [] then []
    else
      var rest := Violations(rules[1..], reply);
      match Violation(rules[0], reply)
      case Some(k) => [(rules[0], k)] + rest
      case None => rest
  }

  function Kinds(rules: seq<string>, reply: string): set<Kind> {
    set v | v in Violations(rules, reply) :: v.1
  }

  method ViolatesRules(rules: seq<string>, reply: string) returns (violations: seq<(string, Kind)>)
    ensures violations == Violations(rules, reply)
  {
    violations := [];
    for i := 0 to |rules|
      invariant violations + Violations(rules[i..], reply) == Violations(rules, reply)
    {
      assert rules[i..][1..] == rules[i + 1..];
      match Violation(rules[i], reply) {
        case Some(k) => violations := violations + [(rules[i], k)];
        case None =>
      }
    }
  }

  lemma {:induction false} OccursPart(a: string, w: string, b: string, s: string)
    requires Occurs(a + w + b, s)
    ensures Occurs(w, s)
  {
    var v := a + w + b;
    OccursIffSlice(v, s);
    OccursIffSlice(w, s);
    var k :| 0 <= k <= |s| - |v| && StartsFold(s[k..], v);
    forall i | 0 <= i < |w| ensures LowerChar(s[k + |a|..][i]) == w[i] {
      assert v[|a| + i] == w[i] && LowerChar(s[k..][|a| + i]) == v[|a| + i];
    }
    assert StartsFold(s[k + |a|..], w);
  }

  /** What each kind of rule forbids. Of the overlapping tests of the rule's text the shortest decide. */
  lemma ViolationIff(rule: string, reply: string)
    ensures Violation(rule, reply) ==
      if StartsFold(rule, "call rohit") && (Occurs("papa", rule) || Occurs("father", rule)) then
        (if HasWord(reply, false, "rohit")
            && forall w :: w in {"papa", "father", "dad", "daddy", "appa", "abbu", "pitaji"} ==>
                 !HasWord(reply, false, w)
         then Some(Address) else None)
      else if Occurs("never tell anyone i'm an ai", rule) || Occurs("i'm an ai / assistant", rule) then
        (if exists i :: 0 <= i < 13 && Occurs(AI_WORDS[i], reply) then Some(IdentityPrivacy) else None)
      else if Occurs("relationship with rohit", rule) then
        (if Occurs("our relationship", reply) && !Occurs("papa", reply) then Some(RelationshipPrivacy) else None)
      else None
  {
    hide Occurs, HasWord, StartsFold;
    OverlappingTests(rule);
    AddressesAre(reply);
  }

  lemma OverlappingTests(rule: string)
    ensures Occurs("never tell anyone i'm an ai / assistant", rule) ==> Occurs("never tell anyone i'm an ai", rule)
    ensures Occurs("my relationship with rohit", rule) ==> Occurs("relationship with rohit", rule)
  {
    hide Occurs;
    if Occurs("never tell anyone i'm an ai / assistant", rule) {
      assert "never tell anyone i'm an ai / assistant" == "" + "never tell anyone i'm an ai" + " / assistant";
      OccursPart("", "never tell anyone i'm an ai", " / assistant", rule);
    }
    if Occurs("my relationship with rohit", rule) {
      assert "my relationship with rohit" == "my " + "relationship with rohit" + "";
      OccursPart("my ", "relationship with rohit", "", rule);
    }
  }

  lemma AddressesAre(reply: string)
    ensures (exists i :: 0 <= i < |ADDRESS_OK| && HasWord(reply, false, ADDRESS_OK[i])) <==>
      exists w :: w in {"papa", "father", "dad", "daddy", "appa", "abbu", "pitaji"} && HasWord(reply, false, w)
  {
    hide HasWord;
    assert ADDRESS_OK[0] == "papa" && ADDRESS_OK[1] == "father" && ADDRESS_OK[2] == "dad" && ADDRESS_OK[3] == "daddy";
    assert ADDRESS_OK[4] == "appa" && ADDRESS_OK[5] == "abbu" && ADDRESS_OK[6] == "pitaji";
  }

  /** The check goes through the rules one by one, in order. */
  lemma {:induction false} ViolationsInOrder(a: seq<string>, b: seq<string>, reply: string)
    ensures Violations(a + b, reply) == Violations(a, reply) + Violations(b, reply)
  {
    if a == [] {
      assert a + b == b;
    } else {
      assert (a + b)[1..] == a[1..] + b;
      ViolationsInOrder(a[1..], b, reply);
    }
  }

  lemma OneRuleViolated(rule: string, reply: string)
    ensures Violations([rule], reply) ==
      if Violation(rule, reply).Some? then [(rule, Violation(rule, reply).value)] else []
  {
    hide Violation;
    assert [rule][1..] == [];
  }

  // ----- the rewrite ----------------------------------------------------------

  predicate RohitHere(s: string, before: bool) {
    !before && StartsFold(s, ROHIT) && (|s| == 5 || !IsWord(s[5]))
  }

  /** `re.sub(r"\bRohit\b", "Papa", s, flags=re.I)` */
  function SubRohit(s: string, before: bool): string
    decreases |s|
  {
    if s == "" then ""
    else if RohitHere(s, before) then "Papa" + SubRohit(s[5..], true)
    else [s[0]] + SubRohit(s[1..], IsWord(s[0]))
  }

  /** `re.sub(re.escape(w), "I'm Shree", s, flags=re.I)` */
  function SubPhrase(s: string, w: string): string
    requires w != ""
    decreases |s|
  {
    if s == "" then ""
    else if StartsFold(s, w) then SHREE + SubPhrase(s[|w|..], w)
    else [s[0]] + SubPhrase(s[1..], w)
  }

  /** The first `n` phrases replaced one after the other. */
  function SubPhrases(s: string, n: nat): string
    requires n <= |AI_WORDS|
  {
    if n == 0 then s else SubPhrase(SubPhrases(s, n - 1), AI_WORDS[n - 1])
  }

  function Readdress(kinds: set<Kind>, reply: string): string {
    if Address in kinds && HasWord(reply, false, ROHIT) then SubRohit(reply, false) else reply
  }

  function Enforced(rules: seq<string>, reply: string): string {
    var kinds := Kinds(rules, reply);
    var r := Readdress(kinds, reply);
    if IdentityPrivacy in kinds || RelationshipPrivacy in kinds
    then SubPhrases(APOLOGY + APOLOGY_END + r, |AI_WORDS|)
    else r
  }

  method Enforce(rules: seq<string>, reply: string) returns (r: string)
    ensures r == Enforced(rules, reply)
    ensures Violations(rules, r) == []
  {
    r := reply;
    var vs := ViolatesRules(rules, r);
    if vs == [] {
      assert Kinds(rules, reply) == {};
      return;
    }
    var kinds := set v | v in vs :: v.1;
    if Address in kinds && HasWord(r, false, ROHIT) {
      r := SubRohit(r, false);
    }
    if IdentityPrivacy in kinds || RelationshipPrivacy in kinds {
      r := APOLOGY + APOLOGY_END + r;
      ghost var drafted := r;
      for i := 0 to |AI_WORDS|
        invariant r == SubPhrases(drafted, i)
      {
        r := SubPhrase(r, AI_WORDS[i]);
      }
    }
    EnforcedIsClean(rules, reply);
  }

  // ----- word-by-word facts about the phrases -----------------------------------

  /** What the proofs need of a phrase: it opens with "i'" or "i ", has no 'p' anywhere, and no
      proper tail of two or more characters can run into the replacement text. */
  predicate Phrase(v: string) {
    && 5 < |v|
    && v[0] == 'i' && (v[1] == '\'' || v[1] == ' ')
    && (v[1] == '\'' ==> v[4] != 's')
    && (forall k :: 0 <= k < |v| ==> v[k] != 'p')
    && (forall k :: 1 <= k < |v| - 1 ==> !(v[k] == 'i' && v[k + 1] == '\''))
  }

  lemma ShortPhrases()
    ensures Phrase("i'm an ai") && Phrase("i am an ai") && Phrase("i'm a chatbot")
    ensures Phrase("i am a chatbot") && Phrase("i'm an llm") && Phrase("i am an llm")
    ensures Phrase("i'm a machine") && Phrase("i'm a robot")
  {
  }

  lemma LongPhrases()
    ensures Phrase("i'm a language model") && Phrase("i am a language model")
    ensures Phrase("i'm an assistant") && Phrase("i am an assistant")
  {
  }

  lemma LongestPhrase()
    ensures Phrase("i'm just a large language model")
  {
  }

  lemma AiWordsArePhrases(i: nat)
    requires i < |AI_WORDS|
    ensures Phrase(AI_WORDS[i])
  {
    ShortPhrases();
    LongPhrases();
    LongestPhrase();
  }

  // ----- replacing a phrase -------------------------------------------------------

  lemma ShreeIsNoTail(t: string, v: string, j: nat)
    requires Phrase(v) && j + 1 < |v|
    requires SHREE <= t
    ensures !StartsFold(t, v[j..])
  {
    assert t[0] == 'I' && t[1] == '\'' && t[4] == 'S';
  }

  /** If the rewritten text starts with a tail of a phrase, so did the text before. */
  lemma {:induction false} TailSurvives(s: string, w: string, v: string, j: nat)
    requires Phrase(w) && Phrase(v) && j <= |v|
    requires StartsFold(SubPhrase(s, w), v[j..])
    ensures StartsFold(s, v[j..])
    ensures j == 0 ==> !StartsFold(s, w)
    decreases |v| - j
  {
    var t := SubPhrase(s, w);
    if j == |v| {
    } else {
      assert v[j..][0] == v[j] == LowerChar(t[0]);
      if StartsFold(s, w) {
        if j + 1 < |v| {
          ShreeIsNoTail(t, v, j);
        }
      } else {
        assert t == [s[0]] + SubPhrase(s[1..], w);
        forall k | 0 <= k < |v[j + 1..]| ensures LowerChar(SubPhrase(s[1..], w)[k]) == v[j + 1..][k] {
          assert v[j..][k + 1] == LowerChar(t[k + 1]);
        }
        TailSurvives(s[1..], w, v, j + 1);
        forall k | 0 <= k < |v[j..]| ensures LowerChar(s[k]) == v[j..][k] {
          if k > 0 {
            assert v[j + 1..][k - 1] == LowerChar(s[1..][k - 1]);
          }
        }
      }
    }
  }

  /** Replacing one phrase removes it everywhere and creates no phrase that was not there. */
  lemma {:induction false} SubPhraseCreatesNothing(s: string, w: string, v: string)
    requires Phrase(w) && Phrase(v)
    requires v == w || !Occurs(v, s)
    ensures !Occurs(v, SubPhrase(s, w))
    decreases |s|
  {
    var t := SubPhrase(s, w);
    if StartsFold(t, v) {
      assert v[0..] == v;
      TailSurvives(s, w, v, 0);
      assert false;
    }
    if s == "" {
    } else if StartsFold(s, w) {
      if Occurs(v, s[|w|..]) {
        OccursTail(v, s, |w|);
      }
      SubPhraseCreatesNothing(s[|w|..], w, v);
      NothingInShree(v, SubPhrase(s[|w|..], w), 0);
    } else {
      assert t[1..] == SubPhrase(s[1..], w);
      SubPhraseCreatesNothing(s[1..], w, v);
    }
  }

  lemma {:induction false} OccursTail(v: string, s: string, n: nat)
    requires n <= |s| && Occurs(v, s[n..])
    ensures Occurs(v, s)
  {
    OccursInside(v, s[..n], s[n..], "");
    assert s[..n] + s[n..] + "" == s;
  }

  /** No phrase starts inside the replacement text, whatever follows it. */
  lemma {:induction false} NothingInShree(v: string, t: string, n: nat)
    requires Phrase(v) && !Occurs(v, t) && n <= |SHREE|
    ensures !Occurs(v, SHREE[n..] + t)
    decreases |SHREE| - n
  {
    var u := SHREE[n..] + t;
    if n == |SHREE| {
      assert u == t;
    } else {
      assert u[0] == SHREE[n];
      if StartsFold(u, v) {
        assert v[0] == LowerChar(SHREE[n]);
        assert v[0..] == v;
        ShreeIsNoTail(u, v, 0);
      }
      assert u[1..] == SHREE[n + 1..] + t;
      NothingInShree(v, t, n + 1);
    }
  }

  lemma {:induction false} SubPhrasesClears(s: string, n: nat, i: nat)
    requires i < n <= |AI_WORDS|
    ensures !Occurs(AI_WORDS[i], SubPhrases(s, n))
  {
    AiWordsArePhrases(i);
    AiWordsArePhrases(n - 1);
    if i < n - 1 {
      SubPhrasesClears(s, n - 1, i);
    }
    SubPhraseCreatesNothing(SubPhrases(s, n - 1), AI_WORDS[n - 1], AI_WORDS[i]);
  }

  /** No phrase can start inside `p`, even one that would run past its end. */
  predicate NoPhraseStart(p: string) {
    p == "" || (&& (LowerChar(p[0]) == 'i' ==> 1 < |p| && p[1] != '\'' && p[1] != ' ')
                && NoPhraseStart(p[1..]))
  }

  lemma NoStartInLead(p: string, s: string, w: string)
    requires Phrase(w) && NoPhraseStart(p) && p != ""
    ensures !StartsFold(p + s, w)
  {
  }

  lemma {:induction false} SubPhraseKeepsLead(p: string, s: string, w: string)
    requires Phrase(w) && NoPhraseStart(p)
    ensures SubPhrase(p + s, w) == p + SubPhrase(s, w)
    decreases |p|
  {
    hide Phrase, StartsFold;
    if p == "" {
      assert p + s == s;
    } else {
      NoStartInLead(p, s, w);
      assert (p + s)[1..] == p[1..] + s;
      SubPhraseKeepsLead(p[1..], s, w);
    }
  }

  lemma {:induction false} SubPhrasesKeepsLead(p: string, s: string, n: nat)
    requires n <= |AI_WORDS| && NoPhraseStart(p)
    ensures SubPhrases(p + s, n) == p + SubPhrases(s, n)
  {
    if n == 0 {
    } else {
      SubPhrasesKeepsLead(p, s, n - 1);
      AiWordsArePhrases(n - 1);
      SubPhraseKeepsLead(p, SubPhrases(s, n - 1), AI_WORDS[n - 1]);
    }
  }

  // ----- replacing the name -------------------------------------------------------

  /** A text with no 'p' at the head of the rewritten reply was there before. */
  lemma {:induction false} HeadSurvivesRohit(s: string, before: bool, u: string)
    requires forall k :: 0 <= k < |u| ==> u[k] != 'p'
    requires StartsFold(SubRohit(s, before), u)
    ensures StartsFold(s, u)
    ensures |SubRohit(s, before)| == |u| <==> |s| == |u|
    ensures |SubRohit(s, before)| > |u| && |s| > |u| ==> IsWord(SubRohit(s, before)[|u|]) == IsWord(s[|u|])
    decreases |u|
  {
    var t := SubRohit(s, before);
    if u == "" {
    } else {
      assert LowerChar(t[0]) == u[0];
      assert t == [s[0]] + SubRohit(s[1..], IsWord(s[0]));
      forall k | 0 <= k < |u[1..]| ensures LowerChar(t[1..][k]) == u[1..][k] {
        assert LowerChar(t[k + 1]) == u[k + 1];
      }
      HeadSurvivesRohit(s[1..], IsWord(s[0]), u[1..]);
      forall k | 0 <= k < |u| ensures LowerChar(s[k]) == u[k] {
        if k > 0 {
          assert LowerChar(s[1..][k - 1]) == u[1..][k - 1];
        }
      }
    }
  }

  lemma {:induction false} NoRohitLeft(s: string, before: bool)
    ensures !HasWord(SubRohit(s, before), before, ROHIT)
    decreases |s|
  {
    var t := SubRohit(s, before);
    if s == "" {
    } else if RohitHere(s, before) {
      NoRohitLeft(s[5..], true);
      var rest := SubRohit(s[5..], true);
      assert t == "Papa" + rest;
      PapaAddsNoRohit(rest, before);
    } else {
      NoRohitLeft(s[1..], IsWord(s[0]));
      assert t[1..] == SubRohit(s[1..], IsWord(s[0]));
      if !before && StartsFold(t, ROHIT) && (|t| == 5 || !IsWord(t[5])) {
        HeadSurvivesRohit(s, before, ROHIT);
      }
    }
  }

  lemma PapaAddsNoRohit(rest: string, before: bool)
    requires !HasWord(rest, true, ROHIT)
    ensures !HasWord("Papa" + rest, before, ROHIT)
  {
    var t := "Papa" + rest;
    assert t[0] == 'P' && t[1] == 'a' && t[2] == 'p' && t[3] == 'a';
    assert t[1..][1..] == t[2..] && t[2..][1..] == t[3..] && t[3..][1..] == rest;
    assert !StartsFold(t, ROHIT) && !StartsFold(t[1..], ROHIT)
        && !StartsFold(t[2..], ROHIT) && !StartsFold(t[3..], ROHIT);
    assert !HasWord(t[3..], true, ROHIT);
    assert !HasWord(t[2..], true, ROHIT);
    assert !HasWord(t[1..], true, ROHIT);
  }

  lemma {:induction false} RohitBecomesPapa(s: string, before: bool)
    requires HasWord(s, before, ROHIT)
    ensures HasWord(SubRohit(s, before), before, PAPA)
    decreases |s|
  {
    var t := SubRohit(s, before);
    if RohitHere(s, before) {
      var rest := SubRohit(s[5..], true);
      assert t == "Papa" + rest;
      HeadSurvivesRohit(s[5..], true, "");
      assert StartsFold(t, PAPA);
      assert |t| > 4 ==> t[4] == rest[0];
    } else {
      RohitBecomesPapa(s[1..], IsWord(s[0]));
      assert t[1..] == SubRohit(s[1..], IsWord(s[0]));
    }
  }

  lemma {:induction false} RohitCreatesNoPhrase(s: string, before: bool, v: string)
    requires Phrase(v) && !Occurs(v, s)
    ensures !Occurs(v, SubRohit(s, before))
    decreases |s|
  {
    var t := SubRohit(s, before);
    if StartsFold(t, v) {
      HeadSurvivesRohit(s, before, v);
      assert false;
    }
    if s == "" {
    } else if RohitHere(s, before) {
      if Occurs(v, s[5..]) {
        OccursTail(v, s, 5);
      }
      RohitCreatesNoPhrase(s[5..], true, v);
      var rest := SubRohit(s[5..], true);
      assert t == "Papa" + rest;
      assert t[1..][1..] == t[2..] && t[2..][1..] == t[3..] && t[3..][1..] == rest;
      assert t[1] == 'a' && t[2] == 'p' && t[3] == 'a';
      assert !Occurs(v, t[3..]) && !Occurs(v, t[2..]) && !Occurs(v, t[1..]);
    } else {
      assert t[1..] == SubRohit(s[1..], IsWord(s[0]));
      RohitCreatesNoPhrase(s[1..], IsWord(s[0]), v);
    }
  }

  // ----- the theorem ----------------------------------------------------------------

  lemma {:induction false} KindListed(rules: seq<string>, reply: string, rule: string)
    requires rule in rules && Violation(rule, reply).Some?
    ensures Violation(rule, reply).value in Kinds(rules, reply)
  {
    if rule == rules[0] {
      assert (rule, Violation(rule, reply).value) in Violations(rules, reply);
    } else {
      KindListed(rules[1..], reply, rule);
      var k := Violation(rule, reply).value;
      var v :| v in Violations(rules[1..], reply) && v.1 == k;
      assert v in Violations(rules, reply);
    }
  }

  lemma {:induction false} CleanList(rules: seq<string>, reply: string)
    requires forall rule :: rule in rules ==> Violation(rule, reply).None?
    ensures Violations(rules, reply) == []
  {
    if rules == [] {
    } else {
      CleanList(rules[1..], reply);
    }
  }

  lemma {:induction false} KindComesFromRule(rules: seq<string>, reply: string, k: Kind)
    requires k in Kinds(rules, reply)
    ensures k == Address ==> BreaksAddress(reply)
    ensures k == IdentityPrivacy ==> BreaksIdentity(reply)
    ensures k == RelationshipPrivacy ==> BreaksRelationship(reply)
  {
    var v :| v in Violations(rules, reply) && v.1 == k;
    if Violation(rules[0], reply) != Some(k) {
      assert v in Violations(rules[1..], reply);
      KindComesFromRule(rules[1..], reply, k);
    }
  }

  predicate NoI(p: string) {
    forall k :: 0 <= k < |p| ==> LowerChar(p[k]) != 'i'
  }

  lemma ApologyPiecesHaveNoI()
    ensures NoI(APOLOGY_START) && NoI(APOLOGY_REST) && NoI(APOLOGY_END)
    ensures APOLOGY_REST != "" && APOLOGY_REST[0] == 'n'
  {
    assert forall k :: 0 <= k < |APOLOGY_REST| ==> APOLOGY_REST[k] != 'i' && APOLOGY_REST[k] != 'I';
  }

  lemma {:induction false} NoPhraseInLead(a: string, b: string)
    requires NoI(a) && NoPhraseStart(b)
    ensures NoPhraseStart(a + b)
  {
    if a == "" {
      assert a + b == b;
    } else {
      assert (a + b)[1..] == a[1..] + b;
      NoPhraseInLead(a[1..], b);
    }
  }

  lemma NothingHasNoPhrase()
    ensures NoPhraseStart("")
  {
  }

  lemma NoPhraseAtI(b: string)
    requires b != "" && b[0] == 'n' && NoPhraseStart(b)
    ensures NoPhraseStart("i" + b)
  {
    var t := "i" + b;
    assert t[1..] == b && t[1] == 'n';
  }

  lemma NoPhraseAroundI(a: string, b: string, c: string)
    requires NoI(a) && NoI(b) && NoI(c) && b != "" && b[0] == 'n'
    ensures NoPhraseStart(a + "i" + b + c)
  {
    hide NoPhraseStart, NoI;
    NothingHasNoPhrase();
    assert c + "" == c;
    NoPhraseInLead(c, "");
    NoPhraseInLead(b, c);
    NoPhraseAtI(b + c);
    NoPhraseInLead(a, "i" + (b + c));
    assert a + "i" + b + c == a + ("i" + (b + c));
  }

  lemma LeadHasNoPhrase()
    ensures NoPhraseStart(APOLOGY + APOLOGY_END)
  {
    hide NoI, NoPhraseStart;
    ApologyPiecesHaveNoI();
    NoPhraseAroundI(APOLOGY_START, APOLOGY_REST, APOLOGY_END);
  }

  /** An apologising rewrite carries the word "Papa" whatever the reply said. */
  lemma ApologyAddressesPapa(s: string)
    ensures HasWord(SubPhrases(APOLOGY + APOLOGY_END + s, |AI_WORDS|), false, PAPA)
  {
    hide SubPhrase, SubPhrases, NoPhraseStart;
    LeadHasNoPhrase();
    SubPhrasesKeepsLead(APOLOGY + APOLOGY_END, s, |AI_WORDS|);
    var tail := APOLOGY_END + SubPhrases(s, |AI_WORDS|);
    assert APOLOGY + APOLOGY_END + SubPhrases(s, |AI_WORDS|) == APOLOGY + tail;
    assert StartsFold(tail, PAPA) && tail[4] == '.';
    assert HasWord(tail, false, PAPA);
    WordAfter(APOLOGY, false, tail, PAPA);
  }

  lemma PapaSatisfies(reply: string)
    requires HasWord(reply, false, PAPA)
    ensures !BreaksAddress(reply) && !BreaksRelationship(reply)
  {
    assert ADDRESS_OK[0] == PAPA;
    WordOccurs(reply, false, PAPA);
  }

  /** Whatever the draft and whatever the rules, the enforced reply breaks none of them. */
  lemma EnforcedIsClean(rules: seq<string>, reply: string)
    ensures Violations(rules, Enforced(rules, reply)) == []
  {
    var kinds := Kinds(rules, reply);
    var r := Enforced(rules, reply);
    if IdentityPrivacy in kinds || RelationshipPrivacy in kinds {
      ApologyAddressesPapa(Readdress(kinds, reply));
      PapaSatisfies(r);
      forall i | 0 <= i < |AI_WORDS| ensures !Occurs(AI_WORDS[i], r) {
        SubPhrasesClears(APOLOGY + APOLOGY_END + Readdress(kinds, reply), |AI_WORDS|, i);
      }
    } else if Address in kinds {
      KindComesFromRule(rules, reply, Address);
      RohitBecomesPapa(reply, false);
      PapaSatisfies(r);
      if !BreaksIdentity(reply) {
        forall i | 0 <= i < |AI_WORDS| ensures !Occurs(AI_WORDS[i], r) {
          AiWordsArePhrases(i);
          RohitCreatesNoPhrase(reply, false, AI_WORDS[i]);
        }
      }
    }
    forall rule | rule in rules ensures Violation(rule, r).None? {
      if Violation(rule, reply).Some? {
        KindListed(rules, reply, rule);
      }
    }
    CleanList(rules, r);
  }

  /** A second pass changes nothing. */
  lemma EnforceIdempotent(rules: seq<string>, reply: string)
    ensures Enforced(rules, Enforced(rules, reply)) == Enforced(rules, reply)
  {
    EnforcedIsClean(rules, reply);
  }

  // ----- what the rewriting keeps -----------------------------------------------------

  /** The pieces of a text with the gaps between them filled in. */
  function Weave(keeps: seq<string>, gaps: seq<string>): string
    requires |keeps| == |gaps| + 1
  {
    if gaps == [] then keeps[0] else keeps[0] + gaps[0] + Weave(keeps[1..], gaps[1..])
  }

  function Copies(w: string, n: nat): (r: seq<string>)
    ensures |r| == n
  {
    seq(n, i => w)
  }

  /** `t` is `s` with the slices `hits` replaced by `put`; the pieces `keeps` between them stand. */
  predicate Replaces(s: string, t: string, keeps: seq<string>, hits: seq<string>, put: string) {
    |keeps| == |hits| + 1 && s == Weave(keeps, hits) && t == Weave(keeps, Copies(put, |hits|))
  }

  lemma WeaveFirst(keeps: seq<string>, gaps: seq<string>, keep: string, gap: string)
    requires |keeps| == |gaps| + 1
    ensures Weave([keep] + keeps, [gap] + gaps) == keep + gap + Weave(keeps, gaps)
  {
    assert ([keep] + keeps)[1..] == keeps && ([gap] + gaps)[1..] == gaps;
  }

  lemma WeaveLonger(keeps: seq<string>, gaps: seq<string>, c: char)
    requires |keeps| == |gaps| + 1
    ensures Weave([[c] + keeps[0]] + keeps[1..], gaps) == [c] + Weave(keeps, gaps)
  {
    var longer := [[c] + keeps[0]] + keeps[1..];
    assert longer[1..] == keeps[1..];
    if gaps == [] {
    } else {
      assert [c] + keeps[0] + gaps[0] + Weave(keeps[1..], gaps[1..])
          == [c] + (keeps[0] + gaps[0] + Weave(keeps[1..], gaps[1..]));
    }
  }

  lemma CopiesFirst(w: string, n: nat)
    ensures Copies(w, n + 1) == [w] + Copies(w, n)
  {
  }

  lemma HitReads(s: string, w: string)
    requires StartsFold(s, w)
    ensures |w| <= |s| && Lower(s[..|w|]) == w
  {
  }

  lemma ReplacesNothing(put: string)
    ensures Replaces("", "", [""], [], put)
  {
    assert Weave([""], []) == "";
    assert Copies(put, 0) == [];
  }

  /** The first `n` characters are a hit. */
  lemma HitFirst(s: string, n: nat, t: string, keeps: seq<string>, hits: seq<string>, put: string)
    requires n <= |s| && Replaces(s[n..], t, keeps, hits, put)
    ensures Replaces(s, put + t, [""] + keeps, [s[..n]] + hits, put)
  {
    hide Weave, Copies;
    WeaveFirst(keeps, hits, "", s[..n]);
    assert "" + s[..n] + s[n..] == s;
    CopiesFirst(put, |hits|);
    WeaveFirst(keeps, Copies(put, |hits|), "", put);
    assert "" + put == put;
  }

  /** The first character is kept. */
  lemma KeepFirst(s: string, t: string, keeps: seq<string>, hits: seq<string>, put: string)
    requires s != "" && Replaces(s[1..], t, keeps, hits, put)
    ensures Replaces(s, [s[0]] + t, [[s[0]] + keeps[0]] + keeps[1..], hits, put)
  {
    hide Weave, Copies;
    WeaveLonger(keeps, hits, s[0]);
    WeaveLonger(keeps, Copies(put, |hits|), s[0]);
    assert [s[0]] + s[1..] == s;
  }

  lemma PiecesAroundHits(s: string, t: string, keeps: seq<string>, hits: seq<string>, put: string)
    requires Replaces(s, t, keeps, hits, put)
    ensures |keeps| == |hits| + 1
  {
  }

  /** Replacing a phrase replaces slices that read like it, and nothing else. */
  lemma {:induction false} SubPhraseReplaces(s: string, w: string) returns (keeps: seq<string>, hits: seq<string>)
    requires w != ""
    ensures Replaces(s, SubPhrase(s, w), keeps, hits, "I'm Shree")
    ensures forall h :: h in hits ==> Lower(h) == w
    ensures hits != [] ==> Occurs(w, s)
    decreases |s|
  {
    hide Replaces, StartsFold;
    if s == "" {
      keeps, hits := [""], [];
      ReplacesNothing("I'm Shree");
    } else if StartsFold(s, w) {
      HitReads(s, w);
      var k, h := SubPhraseReplaces(s[|w|..], w);
      keeps, hits := [""] + k, [s[..|w|]] + h;
      HitFirst(s, |w|, SubPhrase(s[|w|..], w), k, h, "I'm Shree");
    } else {
      var k, h := SubPhraseReplaces(s[1..], w);
      PiecesAroundHits(s[1..], SubPhrase(s[1..], w), k, h, "I'm Shree");
      keeps, hits := [[s[0]] + k[0]] + k[1..], h;
      KeepFirst(s, SubPhrase(s[1..], w), k, h, "I'm Shree");
    }
  }

  /** Each hit stands as a word of its own: what comes before and after it is no word character. */
  predicate Standing(keeps: seq<string>, before: bool) {
    |keeps| > 1 ==>
      && (if keeps[0] == "" then !before else !IsWord(keeps[0][|keeps[0]| - 1]))
      && (forall k :: 1 <= k < |keeps| && keeps[k] != "" ==> !IsWord(keeps[k][0]))
      && (forall k :: 1 <= k < |keeps| - 1 ==> keeps[k] != "" && !IsWord(keeps[k][|keeps[k]| - 1]))
  }

  lemma StandingHit(keeps: seq<string>)
    requires keeps != [] && Standing(keeps, true)
    requires keeps[0] != "" ==> !IsWord(keeps[0][0])
    ensures Standing([""] + keeps, false)
  {
  }

  lemma StandingKeep(keeps: seq<string>, c: char, before: bool)
    requires keeps != [] && Standing(keeps, IsWord(c))
    ensures Standing([[c] + keeps[0]] + keeps[1..], before)
  {
  }

  /** Replacing the name replaces slices that read like it and stand as words, and nothing else. */
  lemma {:induction false} SubRohitReplaces(s: string, before: bool) returns (keeps: seq<string>, hits: seq<string>)
    ensures Replaces(s, SubRohit(s, before), keeps, hits, "Papa")
    ensures forall h :: h in hits ==> Lower(h) == "rohit"
    ensures keeps != [] && Standing(keeps, before)
    ensures keeps[0] != "" ==> s != "" && keeps[0][0] == s[0]
    decreases |s|
  {
    hide Replaces, StartsFold, Standing;
    if s == "" {
      keeps, hits := [""], [];
      ReplacesNothing("Papa");
      assert Standing([""], before) by { NoHitStands(before); }
    } else if RohitHere(s, before) {
      HitReads(s, "rohit");
      var k, h := SubRohitReplaces(s[5..], true);
      keeps, hits := [""] + k, [s[..5]] + h;
      HitFirst(s, 5, SubRohit(s[5..], true), k, h, "Papa");
      StandingHit(k);
    } else {
      var k, h := SubRohitReplaces(s[1..], IsWord(s[0]));
      keeps, hits := [[s[0]] + k[0]] + k[1..], h;
      KeepFirst(s, SubRohit(s[1..], IsWord(s[0])), k, h, "Papa");
      StandingKeep(k, s[0], before);
    }
  }

  lemma NoHitStands(before: bool)
    ensures Standing([""], before)
  {
  }

  /** `t` is `s` with some slices that read like `phrase` replaced. */
  ghost predicate Reworded(s: string, t: string, phrase: string) {
    exists keeps, hits :: Replaces(s, t, keeps, hits, "I'm Shree") && AllRead(hits, phrase)
  }

  predicate AllRead(hits: seq<string>, phrase: string) {
    forall h :: h in hits ==> Lower(h) == phrase
  }

  /** Thirteen replacements one after the other, each of slices that read like its phrase. */
  ghost predicate Shreed(texts: seq<string>) {
    |texts| == 14 && forall i :: 0 <= i < 13 ==> Reworded(texts[i], texts[i + 1], AI_WORDS[i])
  }

  function Stages(s: string): seq<string> {
    seq(14, i requires 0 <= i < 14 => SubPhrases(s, i))
  }

  lemma StagesShreed(s: string)
    ensures Shreed(Stages(s)) && Stages(s)[0] == s && Stages(s)[13] == SubPhrases(s, |AI_WORDS|)
  {
    hide SubPhrase, Reworded;
    var texts := Stages(s);
    forall i | 0 <= i < 13 ensures Reworded(texts[i], texts[i + 1], AI_WORDS[i]) {
      assert texts[i + 1] == SubPhrase(SubPhrases(s, i), AI_WORDS[i]);
      PhraseReworded(SubPhrases(s, i), AI_WORDS[i]);
    }
  }

  lemma PhraseReworded(s: string, w: string)
    requires w != ""
    ensures Reworded(s, SubPhrase(s, w), w)
  {
    hide SubPhrase, Replaces;
    var keeps, hits := SubPhraseReplaces(s, w);
    assert AllRead(hits, w);
  }

  /** The thirteen phrases. */
  lemma PhrasesAre()
    ensures AI_WORDS[..6] == ["i'm an ai", "i am an ai", "i'm a language model",
                              "i am a language model", "i'm an assistant", "i am an assistant"]
    ensures AI_WORDS[6..] == ["i'm a chatbot", "i am a chatbot", "i'm an llm", "i am an llm",
                              "i'm just a large language model", "i'm a machine", "i'm a robot"]
  {
  }

  /** The apology, in the pieces the proofs need. */
  function Lead(): string {
    "(Self-correct" + "i" + "ng \U{2014} you'd asked me not to say that, " + "Papa. ) "
  }

  /** What an enforced reply consists of. Without a violation it is the reply. A breach of the address
      alone changes whole words of the name. Any other breach puts the apology in front of the reply,
      readdressed if need be, and replaces in it slices that read like the phrases. */
  lemma EnforcedKeeps(rules: seq<string>, reply: string)
    returns (texts: seq<string>, keeps: seq<string>, hits: seq<string>)
    ensures Kinds(rules, reply) == {} ==> Enforced(rules, reply) == reply
    ensures Shreed(texts)
    ensures Replaces(reply, texts[0], keeps, hits, "Papa") && Standing(keeps, false) && AllRead(hits, "rohit")
    ensures Address !in Kinds(rules, reply) ==> texts[0] == reply
    ensures Enforced(rules, reply) ==
      if IdentityPrivacy in Kinds(rules, reply) || RelationshipPrivacy in Kinds(rules, reply)
      then Lead() + texts[13]
      else texts[0]
  {
    hide SubPhrase, SubPhrases, Replaces, Shreed, Standing, Stages, NoPhraseStart, HasWord;
    var kinds := Kinds(rules, reply);
    var readdressed := Readdress(kinds, reply);
    texts := Stages(readdressed);
    StagesShreed(readdressed);
    LeadHasNoPhrase();
    SubPhrasesKeepsLead(APOLOGY + APOLOGY_END, readdressed, |AI_WORDS|);
    keeps, hits := [reply], [];
    if readdressed == reply {
      KeptWhole(reply);
    } else {
      keeps, hits := SubRohitReplaces(reply, false);
    }
  }

  lemma KeptWhole(reply: string)
    ensures Replaces(reply, reply, [reply], [], "Papa") && Standing([reply], false)
  {
    assert Copies("Papa", 0) == [];
  }

  lemma {:induction false} NothingToReplace(s: string, n: nat)
    requires n <= |AI_WORDS| && forall i :: 0 <= i < |AI_WORDS| ==> !Occurs(AI_WORDS[i], s)
    ensures SubPhrases(s, n) == s
  {
    hide SubPhrase, Occurs;
    if n == 0 {
    } else {
      NothingToReplace(s, n - 1);
      var keeps, hits := SubPhraseReplaces(s, AI_WORDS[n - 1]);
      assert Copies("I'm Shree", 0) == [] == hits;
    }
  }

  /** So a reply that breaks a privacy rule without any of the phrases stands whole behind the apology. */
  lemma ReplyStandsWhole(rules: seq<string>, reply: string)
    requires RelationshipPrivacy in Kinds(rules, reply) && Address !in Kinds(rules, reply)
    requires forall i :: 0 <= i < |AI_WORDS| ==> !Occurs(AI_WORDS[i], reply)
    ensures Enforced(rules, reply) == Lead() + reply
  {
    hide SubPhrase, SubPhrases, NoPhraseStart, Occurs;
    LeadHasNoPhrase();
    SubPhrasesKeepsLead(APOLOGY + APOLOGY_END, reply, |AI_WORDS|);
    NothingToReplace(reply, |AI_WORDS|);
  }
}
