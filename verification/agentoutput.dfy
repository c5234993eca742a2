/** What the front ends read out of an agent's result: the reply text (the newest assistant
    message) and the sentiment label and score (from the sentiment agent's `output`). The command
    line and the chat page apply the same rules. */
module AgentOutput {
  import opened Wrappers
  import opened Text

  /** One item of a list-valued message content: a dict with a 'text' key, or anything else. */
  datatype Block = TextBlock(text: string) | OtherBlock

  /** A message's content: a list of blocks, or any other value as its `str()`. */
  datatype Content = Blocks(blocks: seq<Block>) | Scalar(s: string)

  /** A message object; each attribute may be missing. `kind` is the `type` attribute. */
  datatype Message = Message(kind: Option<string>, role: Option<string>, content: Option<Content>)

  /** A value a dict field may hold. */
  datatype Field = FStr(s: string) | FNum(x: real) | FOther

  /** The `output` entry of a result: a string, a dict (with its optional 'label' and 'score'
      entries and its `str()`), or another value (with its `str()`). */
  datatype Value = VStr(s: string) | VDict(labelField: Option<Field>, scoreField: Option<Field>, repr: string) | VOther(repr: string)

  /** What `invoke` returned: a dict with optional 'messages' and 'output' entries, or something else. */
  datatype AgentResult = Dict(messages: Option<seq<Message>>, output: Option<Value>) | NotDict

  const NoResponse := "I apologize, but I couldn't generate a response."

  // ---------------------------------------------------------------------------------------
  // Reply text

  /** A message that ends the newest-first scan: its `type` is 'ai', or its `role` is 'assistant'. */
  predicate Decisive(m: Message) {
    m.kind == Some("ai") || m.role == Some("assistant")
  }

  /** The index of the newest decisive message. */
  function LastDecisive(msgs: seq<Message>): (r: Option<nat>)
    ensures r.Some? ==> r.value < |msgs| && Decisive(msgs[r.value])
    ensures r.Some? ==> forall j :: r.value < j < |msgs| ==> !Decisive(msgs[j])
    ensures r.None? ==> forall j :: 0 <= j < |msgs| ==> !Decisive(msgs[j])
  {
    if |msgs| == 0 then None
    else if Decisive(msgs[|msgs| - 1]) then Some(|msgs| - 1)
    else LastDecisive(msgs[..|msgs| - 1])
  }

  /** The 'text' entries of the text blocks, in order. */
  function BlockTexts(bs: seq<Block>): (r: seq<string>)
    ensures |r| <= |bs|
  {
    if |bs| == 0 then []
    else
      var last := bs[|bs| - 1];
      BlockTexts(bs[..|bs| - 1]) + (if last.TextBlock? then [last.text] else [])
  }

  /** The text of a content value: the concatenated block texts, or the scalar's `str()`. */
  function ContentText(c: Content): string {
    match c
    case Blocks(bs) => Concat(BlockTexts(bs))
    case Scalar(s) => s
  }

  /** The text shown for an `output` value: its `str()`. */
  function ValueText(v: Value): string {
    match v
    case VStr(s) => s
    case VDict(_, _, repr) => repr
    case VOther(repr) => repr
  }

  /** The reply-text rule, as a reference: the newest decisive message gives the text (if it has
      content); with no 'messages' entry, 'output' gives it; otherwise `default` stays. */
  function ReplyText(r: AgentResult, default: string): string {
    match r
    case NotDict => default
    case Dict(Some(msgs), _) =>
      var i := LastDecisive(msgs);
      if i.Some? && msgs[i.value].content.Some? then ContentText(msgs[i.value].content.value) else default
    case Dict(None, Some(v)) => ValueText(v)
    case Dict(None, None) => default
  }

  /** The scan the front ends run: walk the messages newest first and stop at the first decisive
      one; a list content is joined from its text blocks in order. */
  method ExtractReplyText(r: AgentResult, default: string) returns (text: string)
    ensures text == ReplyText(r, default)
  {
    text := default;
    if r.Dict? {
      if r.messages.Some? {
        var msgs := r.messages.value;
        var i := |msgs|;
        while i > 0
          invariant 0 <= i <= |msgs|
          invariant forall j :: i <= j < |msgs| ==> !Decisive(msgs[j])
          invariant text == default
          decreases i
        {
          var m := msgs[i - 1];
          if Decisive(m) {
            if m.content.Some? {
              match m.content.value
              case Blocks(bs) =>
                var parts: seq<string> := [];
                var k := 0;
                while k < |bs|
                  invariant 0 <= k <= |bs|
                  invariant parts == BlockTexts(bs[..k])
                {
                  assert bs[..k + 1][..k] == bs[..k];
                  if bs[k].TextBlock? {
                    parts := parts + [bs[k].text];
                  }
                  k := k + 1;
                }
                assert bs[..|bs|] == bs;
                text := Concat(parts);
              case Scalar(s) =>
                text := s;
            }
            assert LastDecisive(msgs[..i]) == Some(i - 1);
            LastDecisiveSuffix(msgs, i);
            return;
          }
          i := i - 1;
        }
        LastDecisiveSuffix(msgs, 0);
      } else if r.output.Some? {
        text := ValueText(r.output.value);
      }
    }
  }

  /** Messages after the prefix `msgs[..i]` that are not decisive do not move the newest decisive one. */
  lemma {:induction false} LastDecisiveSuffix(msgs: seq<Message>, i: nat)
    requires i <= |msgs|
    requires forall j :: i <= j < |msgs| ==> !Decisive(msgs[j])
    ensures LastDecisive(msgs) == LastDecisive(msgs[..i])
    decreases |msgs| - i
  {
    if i < |msgs| {
      var init := msgs[..|msgs| - 1];
      assert init[..i] == msgs[..i];
      LastDecisiveSuffix(init, i);
    } else {
      assert msgs[..i] == msgs;
    }
  }

  /** The newest decisive message decides the text, whatever precedes it. */
  lemma NewestDecisiveWins(msgs: seq<Message>, m: Message, output: Option<Value>, default: string)
    requires Decisive(m)
    ensures ReplyText(Dict(Some(msgs + [m]), output), default)
         == (if m.content.Some? then ContentText(m.content.value) else default)
  {
  }

  /** Messages that are neither 'ai' nor 'assistant' are skipped. */
  lemma LaterOthersIgnored(msgs: seq<Message>, later: seq<Message>, output: Option<Value>, default: string)
    requires forall j :: 0 <= j < |later| ==> !Decisive(later[j])
    ensures ReplyText(Dict(Some(msgs + later), output), default) == ReplyText(Dict(Some(msgs), output), default)
  {
    var all := msgs + later;
    assert all[..|msgs|] == msgs;
    LastDecisiveSuffix(all, |msgs|);
  }

  /** 'output' is read only when there is no 'messages' entry; an empty message list does not fall back to it. */
  lemma OutputOnlyWithoutMessages(msgs: seq<Message>, v: Value, default: string)
    ensures ReplyText(Dict(Some(msgs), Some(v)), default) == ReplyText(Dict(Some(msgs), None), default)
    ensures ReplyText(Dict(Some([]), Some(v)), default) == default
    ensures ReplyText(Dict(None, Some(v)), default) == ValueText(v)
  {
  }

  /** Block texts are joined in order: the text of a list content is the text of its first part
      followed by the text of the rest. */
  lemma {:induction false} BlockTextsAppend(a: seq<Block>, b: seq<Block>)
    ensures BlockTexts(a + b) == BlockTexts(a) + BlockTexts(b)
    decreases |b|
  {
    if |b| == 0 {
      assert a + b == a;
    } else {
      assert (a + b)[..|a + b| - 1] == a + b[..|b| - 1];
      BlockTextsAppend(a, b[..|b| - 1]);
    }
  }

  lemma ContentTextAppend(a: seq<Block>, b: seq<Block>)
    ensures ContentText(Blocks(a + b)) == ContentText(Blocks(a)) + ContentText(Blocks(b))
  {
    BlockTextsAppend(a, b);
    ConcatAppend(BlockTexts(a), BlockTexts(b));
  }

  // ---------------------------------------------------------------------------------------
  // The score pattern `'score':\s*(-?\d+\.?\d*)`

  /** A matched number: its sign, its integer digits, whether a point follows, and the digits after it. */
  datatype ScoreToken = ScoreToken(negative: bool, whole: string, point: bool, frac: string)

  const ScoreKey := "'score':"

  /** The longest run of ASCII digits `s` starts with. */
  function DigitPrefix(s: string): (r: string)
    ensures r <= s && AllDigits(r)
    ensures |r| < |s| ==> !IsDigit(s[|r|])
  {
    if |s| > 0 && IsDigit(s[0]) then [s[0]] + DigitPrefix(s[1..]) else ""
  }

  /** The pattern matched at the start of `t`, greedily, as `re` does there: the key, then the number. */
  function MatchStart(t: string): (r: Option<ScoreToken>)
    ensures r.Some? ==> StartsWith(t, ScoreKey)
  {
    if StartsWith(t, ScoreKey) then NumberAfterKey(t[|ScoreKey|..]) else None
  }

  /** What follows the key: any whitespace, an optional minus, at least one digit, an optional
      point, then any digits. */
  function NumberAfterKey(t: string): (r: Option<ScoreToken>)
    ensures r.Some? ==> WellFormed(r.value)
  {
    var (neg, v) := SplitSign(TrimStart(t));
    var (whole, x) := SplitDigits(v);
    if whole == "" then None
    else
      var (point, y) := SplitPoint(x);
      Some(ScoreToken(neg, whole, point, SplitDigits(y).0))
  }

  /** An optional leading minus, and what follows it. */
  function SplitSign(u: string): (bool, string) {
    if |u| > 0 && u[0] == '-' then (true, u[1..]) else (false, u)
  }

  /** The longest leading run of digits, and what follows it. */
  function SplitDigits(v: string): (r: (string, string))
    ensures AllDigits(r.0) && r.0 + r.1 == v
  {
    var w := DigitPrefix(v);
    assert v == w + v[|w|..];
    (w, v[|w|..])
  }

  /** An optional leading point, and what follows it. */
  function SplitPoint(x: string): (bool, string) {
    if |x| > 0 && x[0] == '.' then (true, x[1..]) else (false, x)
  }

  lemma SignReads(neg: bool, v: string)
    requires |v| > 0 && v[0] != '-'
    ensures SplitSign((if neg then "-" else "") + v) == (neg, v)
  {
    if neg {
      assert ("-" + v)[1..] == v;
    } else {
      assert "" + v == v;
    }
  }

  lemma DigitsRead(w: string, x: string)
    requires AllDigits(w)
    requires |x| > 0 ==> !IsDigit(x[0])
    ensures SplitDigits(w + x) == (w, x)
  {
    DigitPrefixOf(w, x);
  }

  lemma PointReads(point: bool, y: string)
    requires !point ==> |y| == 0 || y[0] != '.'
    ensures SplitPoint((if point then "." else "") + y) == (point, y)
  {
    if point {
      assert ("." + y)[1..] == y;
    } else {
      assert "" + y == y;
    }
  }

  /** No match starts at a character other than a quote. */
  lemma NoMatchWithoutQuote(t: string)
    requires |t| > 0 && t[0] != '\''
    ensures MatchStart(t).None?
  {
    if |t| >= |ScoreKey| {
      assert t[..|ScoreKey|][0] != ScoreKey[0];
    }
  }

  /** The match starting at position `i` of `s`. */
  function MatchAt(s: string, i: nat): Option<ScoreToken>
    requires i <= |s|
  {
    MatchStart(s[i..])
  }

  /** Whether the pattern matches at each position of `s`, the end included. */
  function Hits(s: string): (r: seq<bool>)
    ensures |r| == |s| + 1
    ensures forall q :: 0 <= q <= |s| ==> r[q] == MatchAt(s, q).Some?
  {
    seq(|s| + 1, q requires 0 <= q <= |s| => MatchAt(s, q).Some?)
  }

  /** The leftmost true entry of `hits` from `from` on. */
  function FirstTrue(hits: seq<bool>, from: nat): (r: Option<nat>)
    requires from <= |hits|
    ensures r.Some? ==> from <= r.value < |hits| && hits[r.value]
    ensures r.Some? ==> forall q :: from <= q < r.value ==> !hits[q]
    ensures r.None? ==> forall q :: from <= q < |hits| ==> !hits[q]
    decreases |hits| - from
  {
    if from == |hits| then None
    else if hits[from] then Some(from)
    else FirstTrue(hits, from + 1)
  }

  /** `re.search`: the leftmost position from `from` on where the pattern matches. */
  function FirstMatch(s: string, from: nat): (r: Option<nat>)
    requires from <= |s|
    ensures r.Some? ==> from <= r.value <= |s| && MatchAt(s, r.value).Some?
    ensures r.Some? ==> forall q :: from <= q < r.value ==> MatchAt(s, q).None?
    ensures r.None? ==> forall q :: from <= q <= |s| ==> MatchAt(s, q).None?
  {
    FirstTrue(Hits(s), from)
  }

  /** `abs(float(group))`: the matched number without its sign. */
  function Magnitude(t: ScoreToken): (r: real)
    requires AllDigits(t.whole) && AllDigits(t.frac)
    ensures r >= 0.0
  {
    DigitsValue(t.whole) as real + DigitsValue(t.frac) as real / Pow10(|t.frac|) as real
  }

  const MatchedlessScore: real := 0.8

  /** The score read from a string output: the magnitude of the first match, or 0.8 without one. */
  function StringScore(s: string): (r: real)
    ensures r >= 0.0
  {
    var m := FirstMatch(s, 0);
    if m.Some? then Magnitude(MatchAt(s, m.value).value) else MatchedlessScore
  }

  /** How a well-formed token is written: the key, one space, then the number. */
  function ScoreText(t: ScoreToken): string {
    ScoreKey + " " + NumberText(t)
  }

  function NumberText(t: ScoreToken): string {
    (if t.negative then "-" else "") + t.whole + (if t.point then "." else "") + t.frac
  }

  predicate WellFormed(t: ScoreToken) {
    |t.whole| > 0 && AllDigits(t.whole) && AllDigits(t.frac) && (t.point || t.frac == "")
  }

  /** `rest` cannot extend the number that ends the token: it starts with neither a digit nor,
      when the token has no point, a point. */
  predicate Delimits(t: ScoreToken, rest: string) {
    |rest| > 0 ==> !IsDigit(rest[0]) && (t.point || rest[0] != '.')
  }

  /** A run of digits followed by a non-digit reads back as that run. */
  lemma {:induction false} DigitPrefixOf(w: string, rest: string)
    requires AllDigits(w)
    requires |rest| > 0 ==> !IsDigit(rest[0])
    ensures DigitPrefix(w + rest) == w
    decreases |w|
  {
    if |w| > 0 {
      assert (w + rest)[1..] == w[1..] + rest;
      DigitPrefixOf(w[1..], rest);
    } else {
      assert w + rest == rest;
    }
  }

  /** What the token writes after its digits before the point. */
  function AfterWhole(t: ScoreToken, rest: string): string {
    (if t.point then "." else "") + t.frac + rest
  }

  /** Skipping the space and the sign of a written token leaves its digits and what follows. */
  lemma SignOfToken(t: ScoreToken, rest: string)
    requires WellFormed(t)
    ensures SplitSign(TrimStart(" " + NumberText(t) + rest)) == (t.negative, t.whole + AfterWhole(t, rest))
  {
    var v := t.whole + AfterWhole(t, rest);
    var u := (if t.negative then "-" else "") + v;
    assert " " + NumberText(t) + rest == " " + u;
    assert v[0] == t.whole[0] && IsDigit(v[0]);
    assert !IsSpace(u[0]) by {
      if !t.negative {
        assert u[0] == v[0];
      }
    }
    TrimStartPadded(" ", u);
    SignReads(t.negative, v);
  }

  /** The digits, the point and the fraction of a written token read back as written. */
  lemma TailOfToken(t: ScoreToken, rest: string)
    requires WellFormed(t) && Delimits(t, rest)
    ensures SplitDigits(t.whole + AfterWhole(t, rest)) == (t.whole, AfterWhole(t, rest))
    ensures SplitPoint(AfterWhole(t, rest)) == (t.point, t.frac + rest)
    ensures SplitDigits(t.frac + rest).0 == t.frac
  {
    var y := t.frac + rest;
    var x := AfterWhole(t, rest);
    assert x == (if t.point then "." else "") + y;
    assert |x| > 0 ==> !IsDigit(x[0]) by {
      if t.point {
        assert x[0] == '.';
      } else {
        assert x == rest;
      }
    }
    DigitsRead(t.whole, x);
    assert !t.point ==> |y| == 0 || y[0] != '.' by {
      if !t.point {
        assert y == rest;
      }
    }
    PointReads(t.point, y);
    DigitsRead(t.frac, rest);
  }

  /** The number part reads back exactly the token that was written, after one space. */
  lemma NumberReadsToken(t: ScoreToken, rest: string)
    requires WellFormed(t) && Delimits(t, rest)
    ensures NumberAfterKey(" " + NumberText(t) + rest) == Some(t)
  {
    SignOfToken(t, rest);
    TailOfToken(t, rest);
  }

  /** The pattern reads back exactly the token that was written. */
  lemma MatchReadsToken(t: ScoreToken, rest: string)
    requires WellFormed(t) && Delimits(t, rest)
    ensures MatchStart(ScoreText(t) + rest) == Some(t)
  {
    var s := ScoreText(t) + rest;
    assert s == ScoreKey + (" " + NumberText(t) + rest);
    assert StartsWith(s, ScoreKey);
    assert s[|ScoreKey|..] == " " + NumberText(t) + rest;
    NumberReadsToken(t, rest);
  }

  /** Before any quote character no match can start, so the first match of a quote-free prefix
      followed by a written token is that token. */
  lemma FirstMatchAfterPlainPrefix(prefix: string, t: ScoreToken, rest: string)
    requires WellFormed(t) && Delimits(t, rest)
    requires forall k :: 0 <= k < |prefix| ==> prefix[k] != '\''
    ensures FirstMatch(prefix + ScoreText(t) + rest, 0) == Some(|prefix|)
    ensures MatchAt(prefix + ScoreText(t) + rest, |prefix|) == Some(t)
  {
    var tail := ScoreText(t) + rest;
    var s := prefix + ScoreText(t) + rest;
    assert s == prefix + tail;
    TokenAfterPrefix(prefix, tail, t, rest);
    QuoteFreeMisses(prefix, tail);
    FirstMatchReaches(s, 0, |prefix|);
  }

  lemma TokenAfterPrefix(prefix: string, tail: string, t: ScoreToken, rest: string)
    requires WellFormed(t) && Delimits(t, rest) && tail == ScoreText(t) + rest
    ensures MatchAt(prefix + tail, |prefix|) == Some(t)
  {
    assert (prefix + tail)[|prefix|..] == tail;
    MatchReadsToken(t, rest);
  }

  /** No match starts inside a quote-free prefix. */
  lemma QuoteFreeMisses(prefix: string, tail: string)
    requires forall k :: 0 <= k < |prefix| ==> prefix[k] != '\''
    ensures forall q :: 0 <= q < |prefix| ==> MatchAt(prefix + tail, q).None?
  {
    var s := prefix + tail;
    forall q | 0 <= q < |prefix|
      ensures MatchAt(s, q).None?
    {
      assert s[q..][0] == prefix[q];
      NoMatchWithoutQuote(s[q..]);
    }
  }

  /** When no match starts in `[from, at)` and one starts at `at`, the search returns it. */
  lemma FirstMatchReaches(s: string, from: nat, at: nat)
    requires from <= at <= |s|
    requires MatchAt(s, at).Some?
    requires forall q :: from <= q < at ==> MatchAt(s, q).None?
    ensures FirstMatch(s, from) == Some(at)
  {
    NoHitsBefore(s, from, at);
    HitAt(s, at);
    FirstTrueReaches(Hits(s), from, at);
  }

  lemma NoHitsBefore(s: string, from: nat, at: nat)
    requires from <= at <= |s|
    requires forall q :: from <= q < at ==> MatchAt(s, q).None?
    ensures forall q :: from <= q < at ==> !Hits(s)[q]
  {
  }

  lemma HitAt(s: string, at: nat)
    requires at <= |s| && MatchAt(s, at).Some?
    ensures Hits(s)[at]
  {
  }

  lemma FirstTrueReaches(hits: seq<bool>, from: nat, at: nat)
    requires from <= at < |hits| && hits[at]
    requires forall q :: from <= q < at ==> !hits[q]
    ensures FirstTrue(hits, from) == Some(at)
  {
  }

  // ---------------------------------------------------------------------------------------
  // Sentiment label and score

  const Positive := "POSITIVE"
  const Negative := "NEGATIVE"
  const Neutral := "NEUTRAL"
  const DefaultScore: real := 0.5

  /** The emoji both front ends show beside an answer: one table for the three labels, and the
      neutral face for any other label. */
  function SentimentEmoji(sentiment: string): (r: string)
    ensures r == "\U{1F610}" <==> sentiment != Positive && sentiment != Negative
    ensures sentiment == Positive ==> r == "\U{1F60A}"
    ensures sentiment == Negative ==> r == "\U{1F622}"
  {
    if sentiment == Positive then "\U{1F60A}"
    else if sentiment == Negative then "\U{1F622}"
    else "\U{1F610}"
  }

  function Abs(x: real): real {
    if x < 0.0 then -x else x
  }

  /** The `except Exception` recovery: look for the labels in `str(output)`, else keep what the
      failed branch had already assigned. */
  function Recover(repr: string, kept: string, score: real): (string, real) {
    if IsSubstring(Positive, repr) then (Positive, MatchedlessScore)
    else if IsSubstring(Negative, repr) then (Negative, MatchedlessScore)
    else (kept, score)
  }

  /** The label and score the front ends read from the sentiment agent's result. Without a dict
      result holding 'output' they stay NEUTRAL and 0.5. A string output is POSITIVE when it
      mentions POSITIVE, even if it also mentions NEGATIVE, then NEGATIVE when it mentions that,
      with the first matched number's magnitude as score (0.8 without one). A dict output gives
      its upper-cased 'label' (default NEUTRAL) and the magnitude of its 'score' (default 0.5);
      a non-string label or a non-numeric score raises, and the recovery scans `str(output)`.
      The score is never negative. */
  function ExtractSentiment(r: AgentResult): (res: (string, real))
    ensures res.1 >= 0.0
    ensures !(r.Dict? && r.output.Some?) ==> res == (Neutral, DefaultScore)
    ensures r.Dict? && r.output.Some? && r.output.value.VOther? ==> res == (Neutral, DefaultScore)
    ensures r.Dict? && r.output.Some? && r.output.value.VStr? ==>
      var s := r.output.value.s;
      && (res.0 == Positive <==> IsSubstring(Positive, s))
      && (res.0 == Negative <==> !IsSubstring(Positive, s) && IsSubstring(Negative, s))
      && (res.0 == Neutral <==> !IsSubstring(Positive, s) && !IsSubstring(Negative, s))
      && (res.0 != Neutral ==> res.1 == StringScore(s))
      && (res.0 == Neutral ==> res.1 == DefaultScore)
  {
    if !(r.Dict? && r.output.Some?) then (Neutral, DefaultScore)
    else
      match r.output.value
      case VStr(s) =>
        if IsSubstring(Positive, s) then (Positive, StringScore(s))
        else if IsSubstring(Negative, s) then (Negative, StringScore(s))
        else (Neutral, DefaultScore)
      case VDict(lf, sf, repr) =>
        if lf.Some? && !lf.value.FStr? then Recover(repr, Neutral, DefaultScore)
        else
          var up := if lf.None? then Neutral else Upper(lf.value.s);
          if sf.None? then (up, DefaultScore)
          else if sf.value.FNum? then (up, Abs(sf.value.x))
          else Recover(repr, up, DefaultScore)
      case VOther(_) => (Neutral, DefaultScore)
  }

  /** A dict output with a string 'label' and a numeric 'score' reads back as the upper-cased
      label with the score's magnitude; without either key the defaults stand in. */
  lemma DictReadsBack(word: string, x: real, repr: string)
    ensures ExtractSentiment(Dict(None, Some(VDict(Some(FStr(word)), Some(FNum(x)), repr)))) == (Upper(word), Abs(x))
    ensures ExtractSentiment(Dict(None, Some(VDict(None, Some(FNum(x)), repr)))) == (Neutral, Abs(x))
    ensures ExtractSentiment(Dict(None, Some(VDict(Some(FStr(word)), None, repr)))) == (Upper(word), DefaultScore)
  {
  }

  /** A dict output whose 'label' is not a string, or whose 'score' is not a number, raises inside
      the extraction; the recovery then finds POSITIVE (before NEGATIVE) in the dict's text with
      score 0.8, and otherwise keeps the label already assigned with score 0.5. */
  lemma DictRecovers(lf: Option<Field>, sf: Option<Field>, repr: string)
    requires (lf.Some? && !lf.value.FStr?) || (sf.Some? && !sf.value.FNum?)
    ensures var res := ExtractSentiment(Dict(None, Some(VDict(lf, sf, repr))));
      && (IsSubstring(Positive, repr) ==> res == (Positive, MatchedlessScore))
      && (!IsSubstring(Positive, repr) && IsSubstring(Negative, repr) ==> res == (Negative, MatchedlessScore))
      && (!IsSubstring(Positive, repr) && !IsSubstring(Negative, repr) ==>
            res == (if lf.Some? && lf.value.FStr? then Upper(lf.value.s) else Neutral, DefaultScore))
  {
  }

  /** A string output that mentions POSITIVE before any quote and then carries a written score
      reads back as POSITIVE with that score's magnitude. */
  lemma PositiveReportReadsBack(lead: string, t: ScoreToken, rest: string)
    requires WellFormed(t) && Delimits(t, rest)
    requires forall k :: 0 <= k < |lead| ==> lead[k] != '\''
    ensures ExtractSentiment(Dict(None, Some(VStr(Positive + lead + ScoreText(t) + rest))))
         == (Positive, Magnitude(t))
  {
    var prefix := Positive + lead;
    var s := prefix + ScoreText(t) + rest;
    assert Positive + lead + ScoreText(t) + rest == s;
    assert s[0..|Positive|] == Positive;
    QuoteFreeAfterLabel(lead);
    ScoreAfterPlainPrefix(prefix, t, rest);
  }

  /** The label itself holds no quote, so neither does the label followed by a quote-free text. */
  lemma QuoteFreeAfterLabel(lead: string)
    requires forall k :: 0 <= k < |lead| ==> lead[k] != '\''
    ensures forall k :: 0 <= k < |Positive + lead| ==> (Positive + lead)[k] != '\''
  {
    forall k | 0 <= k < |Positive + lead|
      ensures (Positive + lead)[k] != '\''
    {
      if k >= |Positive| {
        assert (Positive + lead)[k] == lead[k - |Positive|];
      }
    }
  }

  /** After a quote-free prefix, the score read is the magnitude of the written token. */
  lemma ScoreAfterPlainPrefix(prefix: string, t: ScoreToken, rest: string)
    requires WellFormed(t) && Delimits(t, rest)
    requires forall k :: 0 <= k < |prefix| ==> prefix[k] != '\''
    ensures StringScore(prefix + ScoreText(t) + rest) == Magnitude(t)
  {
    FirstMatchAfterPlainPrefix(prefix, t, rest);
  }
}
