/** The canonical send payload: `json.dumps(..., ensure_ascii=True, sort_keys=True,
    separators=(",", ":"))` on the way in and `json.loads` on the approve path.
    A Python `str` is a sequence of code points, which may be surrogates. */
module Payload {
  import opened PyText

  type CodePoint = c: int | 0 <= c < 0x11_0000
  type PyStr = seq<CodePoint>

  datatype Message = Message(conversation: int, body: PyStr, replyTo: Option<int>)
  datatype Value = Text(text: PyStr) | Number(number: int)
  datatype Read<+T> = Fail | Got(value: T, rest: string)

  // ----- surrogates -------------------------------------------------------------

  predicate High(c: CodePoint) { 0xd800 <= c <= 0xdbff }

  predicate Low(c: CodePoint) { 0xdc00 <= c <= 0xdfff }

  function Combine(hi: CodePoint, lo: CodePoint): (c: CodePoint)
    requires High(hi) && Low(lo)
    ensures c >= 0x1_0000
    ensures 0xd800 + (c - 0x1_0000) / 0x400 == hi && 0xdc00 + (c - 0x1_0000) % 0x400 == lo
  {
    0x1_0000 + (hi - 0xd800) * 0x400 + (lo - 0xdc00)
  }

  /** The text with each adjacent high-low pair of surrogates read as one character. */
  function Joined(s: PyStr): PyStr {
    if s == [] then []
    else if |s| > 1 && High(s[0]) && Low(s[1]) then [Combine(s[0], s[1])] + Joined(s[2..])
    else [s[0]] + Joined(s[1..])
  }

  predicate HasPair(s: PyStr) {
    exists k :: 0 <= k < |s| - 1 && High(s[k]) && Low(s[k + 1])
  }

  // ----- printing ---------------------------------------------------------------

  function HexDigit(d: nat): char
    requires d < 16
  {
    if d < 10 then ('0' as int + d) as char else ('a' as int + (d - 10)) as char
  }

  function Hex4(n: nat): (t: string)
    requires n < 0x1_0000
    ensures |t| == 4
  {
    [HexDigit(n / 0x1000), HexDigit(n / 0x100 % 16), HexDigit(n / 0x10 % 16), HexDigit(n % 16)]
  }

  function UEscape(n: nat): string
    requires n < 0x1_0000
  {
    "\\u" + Hex4(n)
  }

  predicate Printable(c: CodePoint) {
    0x20 <= c <= 0x7e && c != 0x22 && c != 0x5c
  }

  function Escape(c: CodePoint): string {
    if c == 0x22 then "\\\""
    else if c == 0x5c then "\\\\"
    else if c == 0x0a then "\\n"
    else if c == 0x0d then "\\r"
    else if c == 0x09 then "\\t"
    else if c == 0x0c then "\\f"
    else if c == 0x08 then "\\b"
    else if Printable(c) then [c as char]
    else if c < 0x1_0000 then UEscape(c)
    else
      var n := c - 0x1_0000;
      UEscape(0xd800 + n / 0x400) + UEscape(0xdc00 + n % 0x400)
  }

  function Escapes(s: PyStr): string {
    if s == [] then "" else Escape(s[0]) + Escapes(s[1..])
  }

  function Quoted(s: PyStr): string {
    "\"" + Escapes(s) + "\""
  }

  function Digits(n: nat): (t: string)
    ensures t != "" && forall k :: 0 <= k < |t| ==> '0' <= t[k] <= '9'
    ensures n > 0 ==> t[0] != '0'
  {
    var last := ('0' as int + n % 10) as char;
    if n < 10 then [last] else Digits(n / 10) + [last]
  }

  function IntText(n: int): string {
    if n < 0 then "-" + Digits(-n) else Digits(n)
  }

  function ValueText(v: Value): string {
    match v
    case Text(s) => Quoted(s)
    case Number(n) => IntText(n)
  }

  /** A member with an identifier for its key, and the text after the colon. */
  function Member(key: string, text: string): string {
    "\"" + (key + ("\"" + (":" + text)))
  }

  function ReplyMember(replyTo: Option<int>): string {
    match replyTo
    case Some(r) => "," + Member("reply_to_message_id", IntText(r) + "}")
    case None => "}"
  }

  /** Keys in sorted order, no blanks. */
  function SendPayload(m: Message): string {
    "{" + Member("body", Quoted(m.body) + ("," + FromConversation(m)))
  }

  function FromConversation(m: Message): string {
    Member("conversation_id", IntText(m.conversation) + ReplyMember(m.replyTo))
  }

  /** A body of printable ASCII without quotes and backslashes. */
  predicate PlainText(text: string) {
    forall k :: 0 <= k < |text| ==> ' ' <= text[k] <= '~' && text[k] != '"' && text[k] != '\\'
  }

  lemma {:induction false} PlainEscapes(text: string, s: PyStr)
    requires PlainText(text) && |s| == |text| && forall k :: 0 <= k < |s| ==> s[k] == text[k] as int
    ensures Escapes(s) == text
  {
    if s == [] {
    } else {
      PlainEscapes(text[1..], s[1..]);
      assert Escape(s[0]) == [text[0]] && text == [text[0]] + text[1..];
    }
  }

  lemma Flatten(a: string, b: string, c: string, d: string, rest: string)
    ensures a + (b + (c + (d + rest))) == a + b + c + d + rest
  {
  }

  /** A member spelled out: its key in quotes, a colon and the text. */
  lemma MemberSpelled(text: string)
    ensures Member("body", text) == "\"body\":" + text
    ensures Member("conversation_id", text) == "\"conversation_id\":" + text
    ensures Member("reply_to_message_id", text) == "\"reply_to_message_id\":" + text
  {
    Flatten("\"", "body", "\"", ":", text);
    Flatten("\"", "conversation_id", "\"", ":", text);
    Flatten("\"", "reply_to_message_id", "\"", ":", text);
    assert "\"" + "body" + "\"" + ":" == "\"body\":";
    assert "\"" + "conversation_id" + "\"" + ":" == "\"conversation_id\":";
    assert "\"" + "reply_to_message_id" + "\"" + ":" == "\"reply_to_message_id\":";
  }

  /** The payload as it is stored, spelled out for a plain body. */
  lemma PayloadSpelled(m: Message, text: string)
    requires PlainText(text) && |m.body| == |text| && forall k :: 0 <= k < |text| ==> m.body[k] == text[k] as int
    ensures var reply :=
        if m.replyTo.Some? then "," + ("\"reply_to_message_id\":" + (IntText(m.replyTo.value) + "}")) else "}";
      var conversation := "\"conversation_id\":" + (IntText(m.conversation) + reply);
      SendPayload(m) == "{" + ("\"body\":" + ("\"" + text + "\"" + ("," + conversation)))
  {
    hide Member, IntText, Escapes, PlainText;
    PlainEscapes(text, m.body);
    if m.replyTo.Some? {
      MemberSpelled(IntText(m.replyTo.value) + "}");
    }
    MemberSpelled(IntText(m.conversation) + ReplyMember(m.replyTo));
    MemberSpelled(Quoted(m.body) + ("," + FromConversation(m)));
  }

  /** All other characters are escaped, in small hexadecimal digits, those beyond the first plane twice. */
  lemma EscapesSpelled()
    ensures Escape(0x22) == "\\\"" && Escape(0x5c) == "\\\\" && Escape(0x0a) == "\\n"
    ensures Escape(0x0d) == "\\r" && Escape(0x09) == "\\t" && Escape(0x0c) == "\\f" && Escape(0x08) == "\\b"
    ensures Escape(0) == "\\u0000" && Escape(0x1f) == "\\u001f" && Escape(0x7f) == "\\u007f"
    ensures Escape(0xffff) == "\\uffff" && Escape(0x1_0000) == "\\ud800\\udc00"
  {
    hide Hex4;
    HexSpelled();
    assert UEscape(0) == "\\u0000" && UEscape(0xffff) == "\\uffff";
  }

  lemma HexSpelled()
    ensures Hex4(0) == "0000" && Hex4(0x1f) == "001f" && Hex4(0x7f) == "007f" && Hex4(0xffff) == "ffff"
    ensures Hex4(0xd800) == "d800" && Hex4(0xdc00) == "dc00"
  {
  }

  // ----- reading ----------------------------------------------------------------

  function HexValue(c: char): Option<nat> {
    if '0' <= c <= '9' then Some(c as int - '0' as int)
    else if 'a' <= c <= 'f' then Some(c as int - 'a' as int + 10)
    else if 'A' <= c <= 'F' then Some(c as int - 'A' as int + 10)
    else None
  }

  /** Either case will do. */
  lemma HexValueIs(k: nat)
    requires k < 16
    ensures HexValue("0123456789abcdef"[k]) == Some(k) && HexValue("0123456789ABCDEF"[k]) == Some(k)
  {
    if k < 10 {
      assert "0123456789abcdef"[k] as int == '0' as int + k;
      assert "0123456789ABCDEF"[k] as int == '0' as int + k;
    } else {
      assert "0123456789abcdef"[k] as int == 'a' as int + k - 10;
      assert "0123456789ABCDEF"[k] as int == 'A' as int + k - 10;
    }
  }

  /** Four hexadecimal digits at the head of `t`. */
  function ReadHex4(t: string): (r: Option<nat>)
    ensures r.Some? ==> |t| >= 4 && r.value < 0x1_0000
  {
    if |t| < 4 then None
    else match (HexValue(t[0]), HexValue(t[1]), HexValue(t[2]), HexValue(t[3]))
      case (Some(a), Some(b), Some(c), Some(d)) =>
        if a < 16 && b < 16 && c < 16 && d < 16 then Some(a * 0x1000 + b * 0x100 + c * 0x10 + d) else None
      case _ => None
  }

  function ShortEscape(c: char): Option<CodePoint> {
    match c
    case '"' => Some(0x22)
    case '\\' => Some(0x5c)
    case '/' => Some(0x2f)
    case 'b' => Some(0x08)
    case 'f' => Some(0x0c)
    case 'n' => Some(0x0a)
    case 'r' => Some(0x0d)
    case 't' => Some(0x09)
    case _ => None
  }

  /** One string element: a character, a short escape, or one or two `\u` escapes. */
  function ReadElement(t: string): (r: Read<CodePoint>)
    requires t != ""
    ensures r.Got? ==> |r.rest| < |t|
  {
    if t[0] != '\\' then
      if t[0] as int < 0x20 then Fail else Got(t[0] as int, t[1..])
    else if |t| == 1 then Fail
    else if t[1] != 'u' then
      match ShortEscape(t[1])
      case Some(c) => Got(c, t[2..])
      case None => Fail
    else
      match ReadHex4(t[2..])
      case None => Fail
      case Some(u) =>
        var rest := t[6..];
        if High(u) && "\\u" <= rest then
          match ReadHex4(rest[2..])
          case None => Fail
          case Some(v) => if Low(v) then Got(Combine(u, v), rest[6..]) else Got(u, rest)
        else Got(u, rest)
  }

  /** The rest of a string whose opening quote has been read. */
  function ReadString(t: string): (r: Read<PyStr>)
    ensures r.Got? ==> |r.rest| < |t|
    decreases |t|
  {
    if t == "" then Fail
    else if t[0] == '"' then Got([], t[1..])
    else
      match ReadElement(t)
      case Fail => Fail
      case Got(c, rest) =>
        match ReadString(rest)
        case Fail => Fail
        case Got(s, rest') => Got([c] + s, rest')
  }

  predicate DigitAhead(t: string) {
    t != "" && '0' <= t[0] <= '9'
  }

  function ReadDigits(t: string, acc: nat): (r: Read<nat>)
    ensures r.Got? && |r.rest| <= |t|
    decreases |t|
  {
    if DigitAhead(t) then ReadDigits(t[1..], 10 * acc + (t[0] as int - '0' as int)) else Got(acc, t)
  }

  /** `0|[1-9][0-9]*` */
  function ReadNat(t: string): (r: Read<nat>)
    ensures r.Got? ==> |r.rest| < |t|
  {
    if !DigitAhead(t) then Fail
    else if t[0] == '0' then Got(0, t[1..])
    else ReadDigits(t[1..], t[0] as int - '0' as int)
  }

  function ReadInt(t: string): (r: Read<int>)
    ensures r.Got? ==> |r.rest| < |t|
  {
    if t != "" && t[0] == '-' then
      match ReadNat(t[1..])
      case Fail => Fail
      case Got(n, rest) => Got(0 - n, rest)
    else
      match ReadNat(t)
      case Fail => Fail
      case Got(n, rest) => Got(n, rest)
  }

  function ReadValue(t: string): (r: Read<Value>)
    ensures r.Got? ==> |r.rest| < |t|
  {
    if t != "" && t[0] == '"' then
      match ReadString(t[1..])
      case Fail => Fail
      case Got(s, rest) => Got(Text(s), rest)
    else
      match ReadInt(t)
      case Fail => Fail
      case Got(n, rest) => Got(Number(n), rest)
  }

  /** Members up to and including the closing brace; a later member with the same key wins. */
  function ReadMembers(t: string): (r: Read<map<PyStr, Value>>)
    decreases |t|
  {
    if t == "" || t[0] != '"' then Fail
    else
      match ReadString(t[1..])
      case Fail => Fail
      case Got(key, rest) =>
        if rest == "" || rest[0] != ':' then Fail
        else
          match ReadValue(rest[1..])
          case Fail => Fail
          case Got(v, after) =>
            if after == "" then Fail
            else if after[0] == '}' then Got(map[key := v], after[1..])
            else if after[0] != ',' then Fail
            else
              match ReadMembers(after[1..])
              case Fail => Fail
              case Got(m, end) => Got(map[key := v] + m, end)
  }

  function ReadObject(t: string): Option<map<PyStr, Value>> {
    if |t| < 2 || t[0] != '{' then None
    else if t == "{}" then Some(map[])
    else
      match ReadMembers(t[1..])
      case Got(m, rest) => if rest == "" then Some(m) else None
      case Fail => None
  }

  predicate Identifier(key: string) {
    forall k :: 0 <= k < |key| ==> 'a' <= key[k] <= 'z' || key[k] == '_'
  }

  /** An identifier as a Python string. */
  function Name(key: string): (r: PyStr)
    requires Identifier(key)
    ensures |r| == |key| && forall k :: 0 <= k < |key| ==> r[k] == key[k] as int
  {
    seq(|key|, k requires 0 <= k < |key| => key[k] as int)
  }

  const BODY := Name("body")
  const CONVERSATION := Name("conversation_id")
  const REPLY_TO := Name("reply_to_message_id")

  /** The arguments the approve command takes from a stored payload: a missing or zero reply id
      counts as no reply id. */
  function Reread(stored: string): Option<Message> {
    match ReadObject(stored)
    case None => None
    case Some(m) =>
      if CONVERSATION in m && m[CONVERSATION].Number? && BODY in m && m[BODY].Text? then
        var reply := if REPLY_TO in m && m[REPLY_TO].Number? && m[REPLY_TO].number != 0
          then Some(m[REPLY_TO].number) else None;
        Some(Message(m[CONVERSATION].number, m[BODY].text, reply))
      else None
  }

  // ----- reading back what was printed ---------------------------------------------

  lemma HexDigitsAddUp(n: nat)
    requires n < 0x1_0000
    ensures n / 0x1000 < 16
    ensures n == n / 0x1000 * 0x1000 + n / 0x100 % 16 * 0x100 + n / 0x10 % 16 * 0x10 + n % 16
  {
  }

  lemma Hex4ReadsBack(n: nat, rest: string)
    requires n < 0x1_0000
    ensures ReadHex4(Hex4(n) + rest) == Some(n)
  {
    hide HexDigit, HexValue;
    HexDigitsAddUp(n);
    HexDigitReadsBack(n / 0x1000);
    HexDigitReadsBack(n / 0x100 % 16);
    HexDigitReadsBack(n / 0x10 % 16);
    HexDigitReadsBack(n % 16);
    var t := Hex4(n) + rest;
    assert t[..4] == Hex4(n);
  }

  lemma HexDigitReadsBack(d: nat)
    requires d < 16
    ensures HexValue(HexDigit(d)) == Some(d)
  {
  }

  lemma UEscapeSplits(n: nat, rest: string)
    requires n < 0x1_0000
    ensures var t := UEscape(n) + rest;
      |t| >= 6 && "\\u" <= t && ReadHex4(t[2..]) == Some(n) && t[6..] == rest
  {
    var t := UEscape(n) + rest;
    assert t[2..] == Hex4(n) + rest;
    Hex4ReadsBack(n, rest);
  }

  /** Text that would complete a high surrogate into a pair. */
  predicate LowEscapeAhead(t: string) {
    "\\u" <= t && match ReadHex4(t[2..]) case Some(v) => Low(v) case None => true
  }

  lemma UElementReadsBack(u: CodePoint, rest: string)
    requires u < 0x1_0000
    requires High(u) ==> !LowEscapeAhead(rest)
    ensures ReadElement(UEscape(u) + rest) == Got(u, rest)
  {
    hide Hex4, ReadHex4;
    var t := UEscape(u) + rest;
    UEscapeSplits(u, rest);
    assert t[0] == '\\' && t[1] == 'u';
  }

  lemma UPairReadsBack(hi: CodePoint, lo: CodePoint, rest: string)
    requires High(hi) && Low(lo)
    ensures ReadElement(UEscape(hi) + (UEscape(lo) + rest)) == Got(Combine(hi, lo), rest)
  {
    hide Hex4, ReadHex4, Combine;
    var t := UEscape(hi) + (UEscape(lo) + rest);
    UEscapeSplits(hi, UEscape(lo) + rest);
    UEscapeSplits(lo, rest);
    assert t[0] == '\\' && t[1] == 'u';
  }

  /** How the text of one character starts, which is all the string reader looks at. */
  lemma EscapeCases(c: CodePoint)
    ensures Escape(c) != "" && Escape(c)[0] != '"'
    ensures c < 0x1_0000 && |Escape(c)| > 2 ==> Escape(c) == UEscape(c)
    ensures c >= 0x1_0000 ==>
      var hi, lo := 0xd800 + (c - 0x1_0000) / 0x400, 0xdc00 + (c - 0x1_0000) % 0x400;
      High(hi) && Low(lo) && Combine(hi, lo) == c && Escape(c) == UEscape(hi) + UEscape(lo)
    ensures |Escape(c)| == 1 ==> Escape(c)[0] != '\\' && Escape(c)[0] as int == c >= 0x20
    ensures |Escape(c)| == 2 ==> Escape(c)[0] == '\\' && Escape(c)[1] != 'u' && ShortEscape(Escape(c)[1]) == Some(c)
    ensures High(c) || Low(c) ==> Escape(c) == UEscape(c)
  {
    hide Hex4;
  }

  lemma ElementReadsBack(c: CodePoint, rest: string)
    requires High(c) ==> !LowEscapeAhead(rest)
    ensures ReadElement(Escape(c) + rest) == Got(c, rest)
  {
    hide Escape, Hex4, ReadHex4, Combine, LowEscapeAhead, UEscape, ShortEscape;
    var t := Escape(c) + rest;
    EscapeCases(c);
    if c >= 0x1_0000 {
      var hi, lo := 0xd800 + (c - 0x1_0000) / 0x400, 0xdc00 + (c - 0x1_0000) % 0x400;
      assert t == UEscape(hi) + (UEscape(lo) + rest);
      UPairReadsBack(hi, lo, rest);
    } else if |Escape(c)| > 2 {
      UElementReadsBack(c, rest);
    } else if |Escape(c)| == 1 {
      assert t[0] == Escape(c)[0] && t[1..] == rest;
    } else {
      assert t[0] == Escape(c)[0] && t[1] == Escape(c)[1] && t[2..] == rest;
    }
  }

  lemma PairReadsBack(hi: CodePoint, lo: CodePoint, rest: string)
    requires High(hi) && Low(lo)
    ensures Escape(hi) + Escape(lo) == Escape(Combine(hi, lo))
    ensures ReadElement(Escape(hi) + (Escape(lo) + rest)) == Got(Combine(hi, lo), rest)
  {
    hide Escape, UEscape, ReadElement;
    EscapeCases(hi);
    EscapeCases(lo);
    EscapeCases(Combine(hi, lo));
    UPairReadsBack(hi, lo, rest);
  }

  /** The text of a string body, its closing quote and what follows. */
  function Closing(s: PyStr, rest: string): string {
    Escapes(s) + ("\"" + rest)
  }

  lemma NoLowEscape(c: CodePoint, after: string)
    requires !Low(c)
    ensures !LowEscapeAhead(Escape(c) + after)
  {
    hide Escape, Hex4, ReadHex4, Combine, UEscape, ShortEscape;
    var t := Escape(c) + after;
    EscapeCases(c);
    if c >= 0x1_0000 {
      var hi, lo := 0xd800 + (c - 0x1_0000) / 0x400, 0xdc00 + (c - 0x1_0000) % 0x400;
      assert t == UEscape(hi) + (UEscape(lo) + after);
      UEscapeSplits(hi, UEscape(lo) + after);
    } else if |Escape(c)| > 2 {
      UEscapeSplits(c, after);
    } else {
      assert t[0] == Escape(c)[0];
      assert |Escape(c)| == 2 ==> t[1] == Escape(c)[1] != 'u';
    }
  }

  /** After the text of `s`, a low escape lies ahead only if `s` starts with a low surrogate. */
  lemma NothingLowAhead(s: PyStr, rest: string)
    requires s != [] ==> !Low(s[0])
    ensures !LowEscapeAhead(Closing(s, rest))
  {
    hide Escape, ReadHex4;
    var t := Closing(s, rest);
    if s == [] {
      assert t[0] == '"';
    } else {
      assert t == Escape(s[0]) + Closing(s[1..], rest);
      NoLowEscape(s[0], Closing(s[1..], rest));
    }
  }

  lemma EscapesOfTwo(s: PyStr)
    requires |s| > 1
    ensures Escapes(s) == Escape(s[0]) + (Escape(s[1]) + Escapes(s[2..]))
  {
    hide Escape;
    assert s[1..][1..] == s[2..];
  }

  lemma ReadOn(t: string, c: CodePoint, after: string, s: PyStr, rest: string)
    requires t != "" && t[0] != '"'
    requires ReadElement(t) == Got(c, after) && ReadString(after) == Got(s, rest)
    ensures ReadString(t) == Got([c] + s, rest)
  {
    hide ReadElement;
  }

  lemma PairStep(s: PyStr, rest: string)
    requires |s| > 1 && High(s[0]) && Low(s[1])
    requires ReadString(Closing(s[2..], rest)) == Got(Joined(s[2..]), rest)
    ensures ReadString(Closing(s, rest)) == Got(Joined(s), rest)
  {
    hide Escape, Combine, ReadElement, ReadString, UEscape, ShortEscape, LowEscapeAhead;
    var after := Closing(s[2..], rest);
    EscapesOfTwo(s);
    assert Closing(s, rest) == Escape(s[0]) + (Escape(s[1]) + after);
    PairReadsBack(s[0], s[1], after);
    EscapeCases(s[0]);
    ReadOn(Closing(s, rest), Combine(s[0], s[1]), after, Joined(s[2..]), rest);
  }

  lemma SingleStep(s: PyStr, rest: string)
    requires s != [] && !(|s| > 1 && High(s[0]) && Low(s[1]))
    requires ReadString(Closing(s[1..], rest)) == Got(Joined(s[1..]), rest)
    ensures ReadString(Closing(s, rest)) == Got(Joined(s), rest)
  {
    hide Escape, Combine, ReadElement, ReadString, UEscape, ShortEscape, LowEscapeAhead;
    var after := Closing(s[1..], rest);
    assert Closing(s, rest) == Escape(s[0]) + after;
    if High(s[0]) {
      NothingLowAhead(s[1..], rest);
    }
    EscapeCases(s[0]);
    ElementReadsBack(s[0], after);
    ReadOn(Closing(s, rest), s[0], after, Joined(s[1..]), rest);
  }

  lemma {:induction false} StringReadsBack(s: PyStr, rest: string)
    ensures ReadString(Closing(s, rest)) == Got(Joined(s), rest)
    decreases |s|
  {
    if s == [] {
      assert Closing(s, rest) == "\"" + rest;
    } else if |s| > 1 && High(s[0]) && Low(s[1]) {
      StringReadsBack(s[2..], rest);
      PairStep(s, rest);
    } else {
      StringReadsBack(s[1..], rest);
      SingleStep(s, rest);
    }
  }

  /** Printing does not see the difference between a pair and the character it denotes. */
  lemma {:induction false} JoinedPrintsTheSame(s: PyStr)
    ensures Escapes(Joined(s)) == Escapes(s)
    decreases |s|
  {
    hide Escape, Combine;
    if s == [] {
    } else if |s| > 1 && High(s[0]) && Low(s[1]) {
      var c, rest := Combine(s[0], s[1]), Joined(s[2..]);
      EscapesOfTwo(s);
      PairReadsBack(s[0], s[1], "");
      JoinedPrintsTheSame(s[2..]);
      assert ([c] + rest)[1..] == rest;
      assert Escapes([c] + rest) == Escape(c) + Escapes(rest);
    } else {
      var rest := Joined(s[1..]);
      JoinedPrintsTheSame(s[1..]);
      assert ([s[0]] + rest)[1..] == rest;
    }
  }

  /** A body reads back unchanged exactly when it holds no adjacent surrogate pair. */
  lemma {:induction false} JoinedIdentity(s: PyStr)
    ensures |Joined(s)| <= |s|
    ensures Joined(s) == s <==> !HasPair(s)
    decreases |s|
  {
    if s == [] {
    } else if |s| > 1 && High(s[0]) && Low(s[1]) {
      JoinedIdentity(s[2..]);
      assert HasPair(s);
    } else {
      JoinedIdentity(s[1..]);
      assert Joined(s)[1..] == Joined(s[1..]);
      if HasPair(s) {
        var k :| 0 <= k < |s| - 1 && High(s[k]) && Low(s[k + 1]);
        assert High(s[1..][k - 1]) && Low(s[1..][k]);
      }
      if HasPair(s[1..]) {
        var k :| 0 <= k < |s| - 2 && High(s[1..][k]) && Low(s[1..][k + 1]);
        assert High(s[k + 1]) && Low(s[k + 2]);
      }
    }
  }

  lemma {:induction false} DigitsReadBack(n: nat, more: string)
    ensures ReadDigits(Digits(n) + more, 0) == ReadDigits(more, n)
  {
    var last := ('0' as int + n % 10) as char;
    assert ([last] + more)[1..] == more;
    if n >= 10 {
      DigitsReadBack(n / 10, [last] + more);
      assert Digits(n) + more == Digits(n / 10) + ([last] + more);
    }
  }

  lemma NatReadsBack(n: nat, rest: string)
    requires !DigitAhead(rest)
    ensures ReadNat(Digits(n) + rest) == Got(n, rest)
  {
    var t := Digits(n) + rest;
    DigitsReadBack(n, rest);
    if n == 0 {
      assert t[1..] == rest;
    } else {
      LeadingDigit(n, t, rest);
    }
  }

  lemma LeadingDigit(n: nat, t: string, rest: string)
    requires n > 0 && t == Digits(n) + rest && ReadDigits(t, 0) == Got(n, rest)
    ensures ReadNat(t) == Got(n, rest)
  {
    hide Digits;
    assert t[0] == Digits(n)[0];
    assert ReadDigits(t, 0) == ReadDigits(t[1..], t[0] as int - '0' as int);
  }

  lemma IntReadsBack(n: int, rest: string)
    requires !DigitAhead(rest)
    ensures ReadInt(IntText(n) + rest) == Got(n, rest)
  {
    hide ReadNat, Digits;
    var t := IntText(n) + rest;
    if n < 0 {
      NatReadsBack(-n, rest);
      assert t == "-" + (Digits(-n) + rest);
      assert t[1..] == Digits(-n) + rest;
    } else {
      NatReadsBack(n, rest);
      assert t[0] == Digits(n)[0];
    }
  }

  function AsRead(v: Value): Value {
    match v
    case Text(s) => Text(Joined(s))
    case Number(n) => v
  }

  lemma ValueReadsBack(v: Value, rest: string)
    requires !DigitAhead(rest)
    ensures ReadValue(ValueText(v) + rest) == Got(AsRead(v), rest)
  {
    hide ReadString, Escapes, ReadNat, Digits, ReadInt, Joined;
    var t := ValueText(v) + rest;
    match v {
      case Text(s) =>
        assert t[1..] == Closing(s, rest);
        StringReadsBack(s, rest);
      case Number(n) =>
        IntReadsBack(n, rest);
        assert t[0] == IntText(n)[0] != '"';
    }
  }

  lemma {:induction false} KeyReadsBack(key: string, rest: string)
    requires Identifier(key)
    ensures ReadString(key + ("\"" + rest)) == Got(Name(key), rest)
  {
    var t := key + ("\"" + rest);
    if key == "" {
      assert t == "\"" + rest;
    } else {
      assert t[1..] == key[1..] + ("\"" + rest);
      KeyReadsBack(key[1..], rest);
      assert Name(key) == [key[0] as int] + Name(key[1..]);
    }
  }

  /** One member at the head of `t`, then the closing brace or a comma. */
  lemma MemberReadOn(t: string, key: string, text: string, v: Value, after: string)
    requires Identifier(key) && after != ""
    requires t == Member(key, text)
    requires ReadValue(text) == Got(v, after)
    ensures after[0] == '}' ==> ReadMembers(t) == Got(map[Name(key) := v], after[1..])
    ensures after[0] == ',' && ReadMembers(after[1..]).Got? ==>
      var r := ReadMembers(after[1..]);
      ReadMembers(t) == Got(map[Name(key) := v] + r.value, r.rest)
  {
    var rest := ":" + text;
    assert t[1..] == key + ("\"" + rest);
    KeyReadsBack(key, rest);
    assert rest[1..] == text;
  }

  lemma KeysDiffer()
    ensures BODY != CONVERSATION && BODY != REPLY_TO && CONVERSATION != REPLY_TO
  {
    assert BODY[0] == 'b' as int && CONVERSATION[0] == 'c' as int && REPLY_TO[0] == 'r' as int;
  }

  // ----- main results -----------------------------------------------------------------

  function ReplyEntry(replyTo: Option<int>): map<PyStr, Value> {
    match replyTo
    case Some(r) => map[REPLY_TO := Number(r)]
    case None => map[]
  }

  function Entries(m: Message): map<PyStr, Value> {
    map[BODY := Text(Joined(m.body))] + (map[CONVERSATION := Number(m.conversation)] + ReplyEntry(m.replyTo))
  }

  lemma ReplyReadsBack(r: int)
    ensures ReadMembers(ReplyMember(Some(r))[1..]) == Got(map[REPLY_TO := Number(r)], "")
  {
    var t := Member("reply_to_message_id", IntText(r) + "}");
    ValueReadsBack(Number(r), "}");
    assert "}"[1..] == "";
    assert ("," + t)[1..] == t;
    MemberReadOn(t, "reply_to_message_id", IntText(r) + "}", Number(r), "}");
  }

  lemma ConversationReadsBack(m: Message)
    ensures ReadMembers(FromConversation(m))
         == Got(map[CONVERSATION := Number(m.conversation)] + ReplyEntry(m.replyTo), "")
  {
    hide ReadMembers, ReadValue, Digits, IntText, Name;
    var after := ReplyMember(m.replyTo);
    ValueReadsBack(Number(m.conversation), after);
    var number := IntText(m.conversation);
    MemberReadOn(FromConversation(m), "conversation_id", number + after, Number(m.conversation), after);
    if m.replyTo.Some? {
      ReplyReadsBack(m.replyTo.value);
    } else {
      assert map[CONVERSATION := Number(m.conversation)] + map[] == map[CONVERSATION := Number(m.conversation)];
    }
  }

  lemma ObjectReadsBack(m: Message)
    ensures ReadObject(SendPayload(m)) == Some(Entries(m))
  {
    hide ReadMembers, Escapes, ReadValue, IntText, Joined, FromConversation, Name;
    var after := "," + FromConversation(m);
    var t := SendPayload(m);
    assert after[1..] == FromConversation(m);
    assert t[1..] == Member("body", Quoted(m.body) + after);
    ConversationReadsBack(m);
    ValueReadsBack(Text(m.body), after);
    MemberReadOn(t[1..], "body", Quoted(m.body) + after, Text(Joined(m.body)), after);
  }

  /** What the approve path gets back from the payload of any message. */
  lemma RereadOfPayload(m: Message)
    ensures Reread(SendPayload(m))
         == Some(Message(m.conversation, Joined(m.body), if m.replyTo == Some(0) then None else m.replyTo))
  {
    ObjectReadsBack(m);
    KeysDiffer();
  }

  lemma JoinedBodyPrintsTheSame(m: Message)
    ensures SendPayload(m.(body := Joined(m.body))) == SendPayload(m)
  {
    JoinedPrintsTheSame(m.body);
  }

  lemma JoinedTwice(s: PyStr)
    ensures Joined(Joined(s)) == Joined(s)
  {
    JoinedPrintsTheSame(s);
    StringReadsBack(s, "");
    StringReadsBack(Joined(s), "");
  }

  /** Two messages share a payload exactly when they name the same conversation and reply and
      their bodies are the same characters. */
  lemma PayloadPinsMessage(a: Message, b: Message)
    ensures SendPayload(a) == SendPayload(b) <==>
      a.conversation == b.conversation && a.replyTo == b.replyTo && Joined(a.body) == Joined(b.body)
  {
    hide SendPayload, ReadObject, Joined, Name;
    JoinedBodyPrintsTheSame(a);
    JoinedBodyPrintsTheSame(b);
    if SendPayload(a) == SendPayload(b) {
      ObjectReadsBack(a);
      ObjectReadsBack(b);
      KeysDiffer();
      var e := Entries(a);
      assert REPLY_TO in e <==> a.replyTo.Some?;
      assert REPLY_TO in e <==> b.replyTo.Some?;
      assert e[BODY] == Text(Joined(a.body)) == Text(Joined(b.body));
      assert e[CONVERSATION] == Number(a.conversation) == Number(b.conversation);
      assert a.replyTo.Some? ==> e[REPLY_TO] == Number(a.replyTo.value) == Number(b.replyTo.value);
    }
  }

  /** Among messages whose bodies hold no surrogate pair the payload is injective. */
  lemma PayloadInjective(a: Message, b: Message)
    requires !HasPair(a.body) && !HasPair(b.body)
    requires SendPayload(a) == SendPayload(b)
    ensures a == b
  {
    PayloadPinsMessage(a, b);
    JoinedIdentity(a.body);
    JoinedIdentity(b.body);
  }

  /** Reading a payload for approval and printing it again reproduces it, unless the message
      was a reply to id 0: that reply id is lost and the two texts differ. */
  lemma ApproveReprints(m: Message)
    ensures Reread(SendPayload(m)).Some?
    ensures SendPayload(Reread(SendPayload(m)).value) == SendPayload(m) <==> m.replyTo != Some(0)
  {
    RereadOfPayload(m);
    var back := Reread(SendPayload(m)).value;
    PayloadPinsMessage(back, m);
    JoinedTwice(m.body);
  }
}
