/** `_extract_json` of app/coding/agent.py and app/agents/chat_tool_loop.py: find the JSON action
    in a model reply by counting braces. `decode` stands for `json.loads`: None when it rejects the
    block, anything else, be it a value or another exception, when it ends the scan. */
module BraceScanner {
  import opened PyText

  function Delta(c: char): int {
    if c == '{' then 1 else if c == '}' then -1 else 0
  }

  /** Opening minus closing braces before position `i`. */
  function Depth(text: string, i: nat): int
    requires i <= |text|
  {
    if i == 0 then 0 else Depth(text, i - 1) + Delta(text[i - 1])
  }

  /** Nothing between the ends of `i..j` comes back to the depth of `i`. */
  predicate Above(text: string, i: nat, j: nat)
    requires j <= |text|
  {
    forall k :: i < k <= j ==> Depth(text, k) > Depth(text, i)
  }

  /** Braces `i` and `j` belong together. */
  predicate Matched(text: string, i: int, j: int) {
    && 0 <= i < j < |text| && text[i] == '{' && text[j] == '}'
    && Depth(text, j + 1) == Depth(text, i) && Above(text, i, j)
  }

  ghost predicate Outermost(text: string, i: int, j: int) {
    Matched(text, i, j) && !exists a, b :: a < i && j < b && Matched(text, a, b)
  }

  /** A block the scanner tries: matched braces that open at depth zero. */
  predicate Block(text: string, i: int, j: int) {
    Matched(text, i, j) && Depth(text, i) == 0
  }

  /** `r` is the decoding of the first block that decodes, or nothing if none does. */
  ghost predicate FirstDecoding<T(!new)>(text: string, decode: string -> Option<T>, r: Option<T>) {
    if r.Some? then
      exists i, j :: Block(text, i, j) && decode(text[i..j + 1]) == r
        && forall a, b :: Block(text, a, b) && b < j ==> decode(text[a..b + 1]) == None
    else
      forall i, j :: Block(text, i, j) ==> decode(text[i..j + 1]) == None
  }

  /** The scanner's promise: `r` is the decoding of the first outermost pair that decodes. */
  ghost predicate FirstOutermost<T(!new)>(text: string, decode: string -> Option<T>, r: Option<T>) {
    if r.Some? then
      exists i, j :: Outermost(text, i, j) && decode(text[i..j + 1]) == r
        && forall a, b :: Outermost(text, a, b) && b < j ==> decode(text[a..b + 1]) == None
    else
      forall i, j :: Outermost(text, i, j) ==> decode(text[i..j + 1]) == None
  }

  /** Every brace open at position `k` is closed later. */
  predicate ReturnsToZero(text: string, k: int) {
    exists m: nat :: k < m <= |text| && Depth(text, m) == 0
  }

  method ExtractJson<T(!new)>(text: string, decode: string -> Option<T>) returns (r: Option<T>)
    ensures FirstDecoding(text, decode, r)
    ensures NoUnderflow(text) ==>
      (FirstOutermost(text, decode, r) <==>
        r.Some? || forall i, j :: Outermost(text, i, j) && !ReturnsToZero(text, j) ==> decode(text[i..j + 1]) == None)
  {
    var depth: int, start: Option<nat> := 0, None;
    for i := 0 to |text|
      invariant depth == Depth(text, i)
      invariant start.Some? <==> depth > 0
      invariant start.Some? ==>
        start.value < i && text[start.value] == '{' && Depth(text, start.value) == 0 && Above(text, start.value, i)
      invariant forall a, b :: Block(text, a, b) && b < i ==> decode(text[a..b + 1]) == None
    {
      if text[i] == '{' {
        if depth == 0 {
          start := Some(i);
        }
        depth := depth + 1;
      } else if text[i] == '}' {
        depth := depth - 1;
        if depth == 0 && start.Some? {
          var s := start.value;
          r := decode(text[s..i + 1]);
          assert Block(text, s, i);
          if r.Some? {
            AnswerRightIff(text, decode, r);
            return;
          }
          forall a | Block(text, a, i) ensures a == s {
            SameClose(text, a, s, i);
          }
          start := None;
        }
      }
      NoOtherClose(text, i);
    }
    r := None;
    AnswerRightIff(text, decode, r);
  }

  /** Two blocks that close at the same brace are the same block. */
  lemma SameClose(text: string, a: int, s: int, j: int)
    requires Block(text, a, j) && Block(text, s, j)
    ensures a == s
  {
  }

  /** A position that is not a return to zero from above closes no block. */
  lemma NoOtherClose(text: string, i: nat)
    requires i < |text|
    ensures forall a :: Block(text, a, i) ==> text[i] == '}' && Depth(text, i) == 1 && Depth(text, i + 1) == 0
  {
    forall a | Block(text, a, i) ensures Depth(text, i) == 1 {
      assert Depth(text, i + 1) == 0;
    }
  }

  // ----- blocks and balanced text ------------------------------------------------------

  predicate NoUnderflow(text: string) {
    forall k :: 0 <= k <= |text| ==> Depth(text, k) >= 0
  }

  lemma {:induction false} EnclosingOpen(text: string, i: nat, d: nat) returns (a: nat)
    requires i <= |text| && Depth(text, i) == d + 1
    ensures a < i && text[a] == '{' && Depth(text, a) == d
    ensures forall k :: a < k <= i ==> Depth(text, k) > d
  {
    a := i - 1;
    while Depth(text, a) > d
      invariant a < i
      invariant forall k :: a < k <= i ==> Depth(text, k) > d
      decreases a
    {
      a := a - 1;
    }
    assert Depth(text, a + 1) == Depth(text, a) + Delta(text[a]);
  }

  lemma {:induction false} EnclosingClose(text: string, j: nat, d: nat, m: nat) returns (b: nat)
    requires j <= m <= |text| && Depth(text, j) == d + 1 && Depth(text, m) <= d
    ensures j <= b < m && text[b] == '}' && Depth(text, b + 1) == d
    ensures forall k :: j <= k <= b ==> Depth(text, k) > d
  {
    b := j;
    while Depth(text, b + 1) > d
      invariant j <= b < m
      invariant forall k :: j <= k <= b ==> Depth(text, k) > d
      decreases m - b
    {
      b := b + 1;
    }
    assert Depth(text, b + 1) == Depth(text, b) + Delta(text[b]);
  }

  /** Without a stray closing brace a block is an outermost pair after which the count comes back
      to zero, and nothing else. */
  lemma BlockIff(text: string, i: int, j: int)
    requires NoUnderflow(text)
    ensures Block(text, i, j) <==> Outermost(text, i, j) && ReturnsToZero(text, j)
  {
    if Block(text, i, j) {
      assert Depth(text, j + 1) == 0;
    } else if Matched(text, i, j) && ReturnsToZero(text, j) {
      var m: nat :| j < m <= |text| && Depth(text, m) == 0;
      var d := Depth(text, i) - 1;
      var a := EnclosingOpen(text, i, d);
      var b := EnclosingClose(text, j + 1, d, m);
      forall k | a < k <= b ensures Depth(text, k) > d {
        assert i < k <= j ==> Depth(text, k) > Depth(text, i);
      }
      assert Matched(text, a, b);
    }
  }

  /** Every matched pair lies in an outermost one. */
  lemma {:induction false} InOutermost(text: string, i: int, j: int) returns (a: int, b: int)
    requires Matched(text, i, j)
    ensures a <= i && j <= b && Outermost(text, a, b)
    decreases |text| - (j - i)
  {
    if c, e :| c < i && j < e && Matched(text, c, e) {
      a, b := InOutermost(text, c, e);
    } else {
      a, b := i, j;
    }
  }

  /** A closing brace that does not underflow closes something. */
  lemma ClosesSomething(text: string, j: nat) returns (i: nat)
    requires NoUnderflow(text) && j < |text| && text[j] == '}'
    ensures Matched(text, i, j)
  {
    assert Depth(text, j + 1) == Depth(text, j) - 1;
    assert Depth(text, j + 1) >= 0;
    i := EnclosingOpen(text, j, Depth(text, j + 1));
  }

  /** The blocks are the outermost pairs exactly when after every closing brace the count comes back
      to zero: no opening brace before a closing one is left open for good. */
  lemma BlocksAreOutermostIff(text: string)
    requires NoUnderflow(text)
    ensures (forall i, j :: Block(text, i, j) <==> Outermost(text, i, j))
       <==> (forall k :: 0 <= k < |text| && text[k] == '}' ==> ReturnsToZero(text, k))
  {
    hide Depth, Matched, Block;
    forall i, j ensures Block(text, i, j) <==> Outermost(text, i, j) && ReturnsToZero(text, j) {
      BlockIff(text, i, j);
    }
    if forall k :: 0 <= k < |text| && text[k] == '}' ==> ReturnsToZero(text, k) {
      forall i, j | Outermost(text, i, j) ensures ReturnsToZero(text, j) {
        ClosingBrace(text, i, j);
      }
    }
    if forall i, j :: Block(text, i, j) <==> Outermost(text, i, j) {
      forall k | 0 <= k < |text| && text[k] == '}' ensures ReturnsToZero(text, k) {
        var i := ClosesSomething(text, k);
        var a, b := InOutermost(text, i, k);
        assert Block(text, a, b);
        assert ReturnsToZero(text, b);
      }
    }
  }

  lemma ClosingBrace(text: string, i: int, j: int)
    requires Outermost(text, i, j)
    ensures 0 <= i < j < |text| && text[j] == '}'
  {
  }

  /** What the scanner finds is always the first outermost pair that decodes. Finding nothing is
      right exactly when no outermost pair inside a brace left open for good would have decoded. */
  lemma AnswerRightIff<T(!new)>(text: string, decode: string -> Option<T>, r: Option<T>)
    requires FirstDecoding(text, decode, r)
    ensures NoUnderflow(text) ==>
      (FirstOutermost(text, decode, r) <==>
        r.Some? || forall i, j :: Outermost(text, i, j) && !ReturnsToZero(text, j) ==> decode(text[i..j + 1]) == None)
  {
    hide Depth, Above, ReturnsToZero;
    if NoUnderflow(text) {
      forall i, j ensures Block(text, i, j) <==> Outermost(text, i, j) && ReturnsToZero(text, j) {
        BlockIff(text, i, j);
      }
      if r.Some? {
        var i, j :| Block(text, i, j) && decode(text[i..j + 1]) == r
          && forall a, b :: Block(text, a, b) && b < j ==> decode(text[a..b + 1]) == None;
        forall a, b | Outermost(text, a, b) && b < j ensures decode(text[a..b + 1]) == None {
          assert ReturnsToZero(text, b) by { ReturnsEarlier(text, b, j); }
        }
      }
    }
  }

  lemma ReturnsEarlier(text: string, b: int, j: int)
    requires b < j && ReturnsToZero(text, j)
    ensures ReturnsToZero(text, b)
  {
    hide Depth;
  }

  // ----- where the scanner gives up ------------------------------------------------------

  lemma DepthsOf3(text: string)
    requires |text| == 3
    ensures Depth(text, 0) == 0 && Depth(text, 1) == Delta(text[0])
    ensures Depth(text, 2) == Delta(text[0]) + Delta(text[1])
    ensures Depth(text, 3) == Delta(text[0]) + Delta(text[1]) + Delta(text[2])
  {
    assert Depth(text, 1) == Depth(text, 0) + Delta(text[0]);
    assert Depth(text, 2) == Depth(text, 1) + Delta(text[1]);
    assert Depth(text, 3) == Depth(text, 2) + Delta(text[2]);
  }

  lemma {:induction false} DepthAfterCloser(text: string, k: nat)
    requires k <= |text|
    ensures Depth("}" + text, k + 1) == Depth(text, k) - 1
  {
    if k == 0 {
      assert Depth("}" + text, 0) == 0;
    } else {
      DepthAfterCloser(text, k - 1);
    }
  }

  /** Behind a stray closing brace the scanner is one level off for the rest of the text: it tries
      the pairs directly inside an outermost one, and never an outermost one. */
  lemma StrayCloserShifts(text: string, i: int, j: int)
    ensures Block("}" + text, i + 1, j + 1) <==> Matched(text, i, j) && Depth(text, i) == 1
  {
    hide Depth;
    var t := "}" + text;
    if 0 <= i < j < |text| {
      forall k: nat | k <= |text| ensures Depth(t, k + 1) == Depth(text, k) - 1 {
        DepthAfterCloser(text, k);
      }
      assert t[i + 1] == text[i] && t[j + 1] == text[j];
      if Above(t, i + 1, j + 1) {
        forall k | i < k <= j ensures Depth(text, k) > Depth(text, i) {
          assert Depth(t, k + 1) > Depth(t, i + 1);
        }
      }
      if Above(text, i, j) {
        forall k | i + 1 < k <= j + 1 ensures Depth(t, k) > Depth(t, i + 1) {
          assert Depth(text, k - 1) > Depth(text, i);
        }
      }
    }
  }

  /** A stray closing brace in front hides a well-formed outermost block from the scanner. */
  lemma StrayCloserHidesBlock()
    ensures Outermost("}{}", 1, 2) && forall i, j :: !Block("}{}", i, j)
  {
    DepthsOf3("}{}");
    assert Matched("}{}", 1, 2);
    forall i, j ensures !Block("}{}", i, j) {
      assert Matched("}{}", i, j) ==> i == 1;
    }
  }

  /** So does an opening brace that is never closed. */
  lemma UnclosedBraceHidesBlock()
    ensures NoUnderflow("{{}") && Outermost("{{}", 1, 2) && forall i, j :: !Block("{{}", i, j)
  {
    DepthsOf3("{{}");
    assert Matched("{{}", 1, 2);
    forall i, j ensures !Block("{{}", i, j) {
      assert Matched("{{}", i, j) ==> j == 2;
    }
  }
}
