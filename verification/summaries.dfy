/** The summary archive (`chatapp/memory/summarymemory.py`): a bounded list of summaries of
    completed short-term buffers, plus the history of every buffer handed in for summarising. */
module Summaries {
  import opened Wrappers
  import opened Text
  import opened Models
  import Fifo

  /** What the hosted text-generation call produced: the text of its first candidate, or any
      exception raised on the way (network, quota, a candidate without text). */
  datatype CallOutcome = Ok(text: string) | Fail

  /** A JSON value as far as a summary entry cares: a string, or anything else. */
  datatype Field = Str(s: string) | NonStr

  /** The outcome of `json.loads`: a parse error, a JSON value that is not an object, or an object. */
  datatype Parsed = Invalid | NonObject | Object(fields: map<string, Field>)

  /** The module's two globals: the archive and the list of summarised buffers. */
  datatype SummaryStore = SummaryStore(memory: SummaryMemory, history: seq<seq<ChatMemory>>)

  /** The confirmation `summarize_memory` returns, carrying the archive size it reports. */
  datatype SummaryNote = Created(total: nat) | BasicCreated(total: nat)

  const NoSummary := "No summary available"
  const NeutralMood := "NEUTRAL"
  const FallbackSummary := "Basic summary - extraction failed"
  const RecentLimit := 5

  /** The store the module starts with. */
  function InitialStore(): SummaryStore {
    SummaryStore(SummaryMemory([]), [])
  }

  /** `add_summary_entry`: append a new entry stamped `now`, evicting the oldest one when the
      archive grows past its capacity. */
  function AddSummaryEntry(m: SummaryMemory, summary: string, mood: string, now: string): (r: SummaryMemory)
    requires m.maxSummaries >= 1
    ensures r.maxSummaries == m.maxSummaries
    ensures |m.summaries| <= m.maxSummaries ==> |r.summaries| <= m.maxSummaries
    ensures |r.summaries| > 0 && r.summaries[|r.summaries| - 1] == SummaryEntry(summary, mood, now)
    ensures |m.summaries| < m.maxSummaries ==> r.summaries[..|r.summaries| - 1] == m.summaries
    ensures |m.summaries| >= m.maxSummaries ==> r.summaries[..|r.summaries| - 1] == m.summaries[1..]
  {
    var r := m.(summaries := Fifo.Push(m.summaries, SummaryEntry(summary, mood, now), m.maxSummaries));
    assert r.summaries[..|r.summaries| - 1] == (m.summaries + [SummaryEntry(summary, mood, now)])[|m.summaries| + 1 - |r.summaries|..|m.summaries|];
    r
  }

  /** `get_summaries`: the OLDEST five entries, not the most recent ones. */
  function GetSummaries(m: SummaryMemory): (r: seq<SummaryEntry>)
    ensures r <= m.summaries
    ensures |r| == if |m.summaries| < RecentLimit then |m.summaries| else RecentLimit
  {
    if |m.summaries| < RecentLimit then m.summaries else m.summaries[..RecentLimit]
  }

  /** Once the archive holds more than five distinct entries the newest one is not among those read. */
  lemma GetSummariesMissesNewest(m: SummaryMemory)
    requires |m.summaries| > RecentLimit
    requires forall i, j :: 0 <= i < j < |m.summaries| ==> m.summaries[i] != m.summaries[j]
    ensures m.summaries[|m.summaries| - 1] !in GetSummaries(m)
  {
  }

  /** `clear_summaries`: empty the archive; the capacity and the history are untouched. */
  function ClearSummaries(st: SummaryStore): (r: SummaryStore)
    ensures r.memory.summaries == [] && r.memory.maxSummaries == st.memory.maxSummaries
    ensures r.history == st.history
  {
    st.(memory := st.memory.(summaries := []))
  }

  /** The three fence removals: a leading "```json", then a leading "```", then a trailing "```". */
  function Unfence(t0: string): (r: string)
    ensures IsSubstring(r, t0)
  {
    var i1 := if StartsWith(t0, "```json") then 7 else 0;
    var t1 := t0[i1..];
    var i2 := if StartsWith(t1, "```") then i1 + 3 else i1;
    assert t0[i2..] == (if StartsWith(t1, "```") then t1[3..] else t1);
    var t2 := t0[i2..];
    var j := if EndsWith(t2, "```") then |t0| - 3 else |t0|;
    SliceIsSubstring(t0, i2, j);
    t0[i2..j]
  }

  /** The markdown-fence stripping applied to the model's text before it is parsed: strip, drop
      the fences, and strip again. */
  function StripFences(text: string): (r: string)
    ensures IsSubstring(r, text)
    ensures IsTrimmed(r)
  {
    var t0 := Strip(text);
    var t3 := Unfence(t0);
    var r := Strip(t3);
    SubstringTransitive(t3, t0, text);
    SubstringTransitive(r, t3, text);
    r
  }

  /** The fences come off a JSON code block, leaving its body between two newlines. */
  lemma UnfenceJson(s: string)
    ensures Unfence("```json\n" + s + "\n```") == "\n" + s + "\n"
  {
    var text := "```json\n" + s + "\n```";
    assert text[..7] == "```json";
    var t1 := text[7..];
    assert t1 == "\n" + s + "\n```";
    assert t1[0] == '\n';
    assert t1[|t1| - 3..] == "```";
    assert text[7..|text| - 3] == "\n" + s + "\n";
  }

  /** The fences come off an untagged code block, leaving its body between two newlines. */
  lemma UnfencePlain(s: string)
    ensures Unfence("```\n" + s + "\n```") == "\n" + s + "\n"
  {
    var text := "```\n" + s + "\n```";
    assert text[3] == '\n';
    assert !StartsWith(text, "```json");
    assert text[..3] == "```";
    var t2 := text[3..];
    assert t2 == "\n" + s + "\n```";
    assert t2[|t2| - 3..] == "```";
    assert text[3..|text| - 3] == "\n" + s + "\n";
  }

  /** A reply fenced as a JSON code block strips to exactly its body. */
  lemma FencedJsonStrips(s: string)
    requires IsTrimmed(s)
    ensures StripFences("```json\n" + s + "\n```") == s
  {
    var text := "```json\n" + s + "\n```";
    assert text[0] == '`' && text[|text| - 1] == '`';
    assert Strip(text) == text;
    UnfenceJson(s);
    StripPadded("\n", s, "\n");
  }

  /** A reply fenced as an untagged code block strips to exactly its body. */
  lemma FencedPlainStrips(s: string)
    requires IsTrimmed(s)
    ensures StripFences("```\n" + s + "\n```") == s
  {
    var text := "```\n" + s + "\n```";
    assert text[0] == '`' && text[|text| - 1] == '`';
    assert Strip(text) == text;
    UnfencePlain(s);
    StripPadded("\n", s, "\n");
  }

  /** A trimmed reply with no fence at either end is left as it is. */
  lemma UnfencedStrips(s: string)
    requires IsTrimmed(s)
    requires !StartsWith(s, "```") && !EndsWith(s, "```")
    ensures StripFences(s) == s
  {
    assert Strip(s) == s;
    UnfenceNoFence(s);
  }

  /** Without fences there is nothing to remove. */
  lemma UnfenceNoFence(s: string)
    requires !StartsWith(s, "```") && !EndsWith(s, "```")
    ensures Unfence(s) == s
  {
    StartsWithLonger(s, "```", "json");
    assert "```" + "json" == "```json";
    assert s[0..] == s;
    assert s[0..|s|] == s;
  }

  /** The `(summary, general_mood)` pair a successful reply yields, or `None` when any step of
      the success path raises: the call failed, the text is not JSON, not an object, or one of
      the two fields is present but not a string (the entry's validation rejects it). */
  function ParseSummary(reply: CallOutcome, parse: string -> Parsed): (r: Option<(string, string)>)
    ensures r.Some? <==>
      && reply.Ok?
      && parse(StripFences(reply.text)).Object?
      && FieldOk(parse(StripFences(reply.text)).fields, "summary")
      && FieldOk(parse(StripFences(reply.text)).fields, "general_mood")
    ensures r.Some? ==>
      var fields := parse(StripFences(reply.text)).fields;
      && r.value.0 == (if "summary" in fields then fields["summary"].s else NoSummary)
      && r.value.1 == (if "general_mood" in fields then fields["general_mood"].s else NeutralMood)
  {
    match reply
    case Fail => None
    case Ok(text) =>
      match parse(StripFences(text))
      case Object(fields) =>
        if FieldOk(fields, "summary") && FieldOk(fields, "general_mood") then
          Some((FieldOr(fields, "summary", NoSummary), FieldOr(fields, "general_mood", NeutralMood)))
        else
          None
      case _ => None
  }

  /** The field is absent or a string. */
  predicate FieldOk(fields: map<string, Field>, key: string) {
    key !in fields || fields[key].Str?
  }

  /** Python's `d.get(key, default)` for a field that is absent or a string. */
  function FieldOr(fields: map<string, Field>, key: string, default: string): string
    requires FieldOk(fields, key)
  {
    if key in fields then fields[key].s else default
  }

  /** The sentiment labels of the chats, in order. */
  function Labels(chats: seq<ChatMemory>): (r: seq<string>)
    ensures |r| == |chats|
    ensures forall k :: 0 <= k < |chats| ==> r[k] == chats[k].sentimentType
  {
    seq(|chats|, k requires 0 <= k < |chats| => chats[k].sentimentType)
  }

  /** Python's `max(cands, key=labels.count)`: a candidate whose count in `labels` is maximal.
      A later candidate replaces the current best only when its count is larger, so the pick is
      the first maximal one (`FirstMaxEarliest`). */
  function FirstMax(cands: seq<string>, labels: seq<string>): (r: string)
    requires |cands| > 0
    ensures r in cands
    ensures forall x :: x in cands ==> multiset(labels)[x] <= multiset(labels)[r]
    decreases |cands|
  {
    if |cands| == 1 then
      cands[0]
    else
      var init := cands[..|cands| - 1];
      var best := FirstMax(init, labels);
      var last := cands[|cands| - 1];
      assert cands == init + [last];
      if multiset(labels)[last] > multiset(labels)[best] then last else best
  }

  /** Every candidate before the pick has a strictly smaller count. */
  lemma {:induction false} FirstMaxEarliest(cands: seq<string>, labels: seq<string>)
    requires |cands| > 0
    ensures var r := FirstMax(cands, labels);
      forall i :: 0 <= i < |cands| && r !in cands[..i] ==>
        cands[i] == r || multiset(labels)[cands[i]] < multiset(labels)[r]
    decreases |cands|
  {
    if |cands| > 1 {
      var init := cands[..|cands| - 1];
      FirstMaxEarliest(init, labels);
      var r := FirstMax(cands, labels);
      forall i | 0 <= i < |cands| - 1 && r !in cands[..i]
        ensures cands[i] == r || multiset(labels)[cands[i]] < multiset(labels)[r]
      {
        assert cands[..i] == init[..i];
        assert cands[i] == init[i];
      }
      assert cands[..|cands| - 1] == init;
    }
  }

  /** `order` is how Python iterates `set(labels)`: each label exactly once. */
  ghost predicate IsIterationOrder(order: seq<string>, labels: seq<string>) {
    && (forall x :: x in order <==> x in labels)
    && (forall i, j :: 0 <= i < j < |order| ==> order[i] != order[j])
  }

  /** When `order` lists every label, the first maximal candidate of `order + labels` already
      lies in `order`, and everything before it in `order` has a smaller count. */
  lemma IterationOrderTie(order: seq<string>, labels: seq<string>, r: string)
    requires |labels| > 0
    requires r == FirstMax(order + labels, labels) && r in labels
    ensures IsIterationOrder(order, labels) ==>
      forall i :: 0 <= i < |order| && r !in order[..i] ==>
        order[i] == r || multiset(labels)[order[i]] < multiset(labels)[r]
  {
    var cands := order + labels;
    FirstMaxEarliest(cands, labels);
    if IsIterationOrder(order, labels) {
      forall i | 0 <= i < |order| && r !in order[..i]
        ensures order[i] == r || multiset(labels)[order[i]] < multiset(labels)[r]
      {
        assert cands[..i] == order[..i];
        assert cands[i] == order[i];
      }
    }
  }

  /** The fallback mood: `"NEUTRAL"` for no chats, otherwise a label of maximal count. Which of
      several tied labels wins depends on the set's iteration order, supplied as `order`; when it
      is a genuine iteration order the pick is the first maximal label in it, as in Python. */
  function DominantMood(labels: seq<string>, order: seq<string>): (r: string)
    ensures |labels| == 0 ==> r == NeutralMood
    ensures |labels| > 0 ==> r in labels && forall l :: l in labels ==> multiset(labels)[l] <= multiset(labels)[r]
    ensures |labels| > 0 && IsIterationOrder(order, labels) ==>
      forall i :: 0 <= i < |order| && r !in order[..i] ==>
        order[i] == r || multiset(labels)[order[i]] < multiset(labels)[r]
  {
    if |labels| == 0 then
      NeutralMood
    else
      var cands := order + labels;
      var r := FirstMax(cands, labels);
      assert labels[0] in cands;
      assert multiset(labels)[r] >= multiset(labels)[labels[0]] > 0;
      IterationOrderTie(order, labels, r);
      r
  }

  /** `summarize_memory`: record the buffer in the history, then append one summary entry,
      parsed from the model's reply or, when any step of that fails, a fallback entry whose mood is
      the dominant label of the buffer. Only the success path evicts; the fallback path appends
      past the capacity. */
  function Summarize(st: SummaryStore, chats: seq<ChatMemory>, reply: CallOutcome,
                     parse: string -> Parsed, now: string, order: seq<string>): (r: (SummaryStore, SummaryNote))
    requires st.memory.maxSummaries >= 1
    ensures r.0.history == st.history + [chats]
    ensures r.0.memory.maxSummaries == st.memory.maxSummaries
    ensures |r.0.memory.summaries| > 0
    ensures r.1.total == |r.0.memory.summaries|
    ensures r.0.memory.summaries[|r.0.memory.summaries| - 1].timestamp == now
    ensures ParseSummary(reply, parse).Some? ==>
      && r.1.Created?
      && r.0.memory == AddSummaryEntry(st.memory, ParseSummary(reply, parse).value.0, ParseSummary(reply, parse).value.1, now)
    ensures ParseSummary(reply, parse).None? ==>
      && r.1.BasicCreated?
      && r.0.memory.summaries == st.memory.summaries + [SummaryEntry(FallbackSummary, DominantMood(Labels(chats), order), now)]
  {
    var history := st.history + [chats];
    // The buffer just recorded is the last history entry, so this re-selection changes nothing.
    var chatsList := if |st.memory.summaries| == 0 && |history| > 0 then history[|history| - 1] else chats;
    assert chatsList == chats;
    match ParseSummary(reply, parse)
    case Some(parsed) =>
      var memory := AddSummaryEntry(st.memory, parsed.0, parsed.1, now);
      (SummaryStore(memory, history), Created(|memory.summaries|))
    case None =>
      var entry := SummaryEntry(FallbackSummary, DominantMood(Labels(chatsList), order), now);
      var memory := st.memory.(summaries := st.memory.summaries + [entry]);
      (SummaryStore(memory, history), BasicCreated(|memory.summaries|))
  }

  /** Every summarising call grows the archive by one entry, minus one evicted entry only on the
      success path when the archive was already at or over capacity. */
  lemma SummarizeSize(st: SummaryStore, chats: seq<ChatMemory>, reply: CallOutcome,
                      parse: string -> Parsed, now: string, order: seq<string>)
    requires st.memory.maxSummaries >= 1
    ensures var r := Summarize(st, chats, reply, parse, now, order).0;
      |r.memory.summaries| == (if ParseSummary(reply, parse).Some? && |st.memory.summaries| >= st.memory.maxSummaries
                               then |st.memory.summaries| else |st.memory.summaries| + 1)
  {
    var r := Summarize(st, chats, reply, parse, now, order).0;
    match ParseSummary(reply, parse)
    case Some(parsed) =>
      assert r.memory == AddSummaryEntry(st.memory, parsed.0, parsed.1, now);
    case None =>
  }

  /** The archive stays within capacity when every summary succeeds; one failure with a full
      archive pushes it past. */
  lemma FallbackOverflows(st: SummaryStore, chats: seq<ChatMemory>, parse: string -> Parsed, now: string, order: seq<string>)
    requires st.memory.maxSummaries >= 1
    requires |st.memory.summaries| == st.memory.maxSummaries
    ensures |Summarize(st, chats, Fail, parse, now, order).0.memory.summaries| == st.memory.maxSummaries + 1
  {
  }

  /** `gethistory`: every buffer ever summarised, oldest first. */
  function GetHistory(st: SummaryStore): seq<seq<ChatMemory>> {
    st.history
  }
}
