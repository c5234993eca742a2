/** What the agents' tools do to the stores while a front end processes one chat message. Which
    tools an agent calls, with which arguments, is the model's choice and arrives here as data;
    what each call does to the stores is the tool's own code. */
module AgentTools {
  import opened Wrappers
  import ShortTerm
  import Summaries
  import LongTerm

  /** Every store a tool can write: the short-term buffer and log, the summary archive with its
      history, and the profile store. */
  datatype Memory = Memory(short: ShortTerm.ShortTermStore, summaries: Summaries.SummaryStore, profiles: LongTerm.Store)

  /** The invariants the tools rely on: the buffer's, and an archive that can hold a summary. */
  predicate Valid(m: Memory) {
    ShortTerm.Valid(m.short) && m.summaries.memory.maxSummaries >= 1
  }

  /** One tool call. `StoreChat` is `add_to_short_term_memory` (with the outcome of the summarising
      model call it may make), `StoreReply` is `add_assistant_reply_to_short_term_memory`,
      `SaveProfile` is `save_memory`; `ReadOnly` stands for the tools that write nothing
      (`get_short_term_memory`, the sentiment analyser, web search). */
  datatype ToolUse =
    | StoreChat(call: ShortTerm.ToolCall)
    | StoreReply(user: string, assistant: string)
    | SaveProfile(profile: LongTerm.Profile)
    | ReadOnly

  /** The stores after one call. A call that raises leaves every store as it was. `rt` is the
      runtime context the tool sees. */
  function Use(m: Memory, u: ToolUse, rt: LongTerm.RuntimeContext, parse: string -> Summaries.Parsed): (r: Memory)
    requires Valid(m)
    ensures Valid(r)
    ensures ShortTerm.LogKept(m.short.moodShifts, r.short.moodShifts)
    ensures !u.SaveProfile? ==> r.profiles == m.profiles
    ensures u.SaveProfile? ==>
      r.profiles == (var w := LongTerm.SaveMemory(m.profiles, u.profile, rt); if w.Success? then w.value.0 else m.profiles)
    ensures u.ReadOnly? || u.SaveProfile? ==> r.short == m.short && r.summaries == m.summaries
    ensures u.StoreReply? ==> r.summaries == m.summaries
    ensures u.StoreReply? && !ShortTerm.ReplyAttaches(m.short, u.user) ==> r == m
  {
    match u
    case StoreChat(c) =>
      var t := ShortTerm.AddToShortTermMemory(m.short, m.summaries, c.user, c.assistant, c.score, c.sentiment,
                                              c.reply, parse, c.now, c.order);
      m.(short := t.0, summaries := t.1)
    case StoreReply(user, assistant) =>
      var w := ShortTerm.AddAssistantReply(m.short, user, assistant);
      if w.Success? then m.(short := w.value.0) else m
    case SaveProfile(p) =>
      var w := LongTerm.SaveMemory(m.profiles, p, rt);
      if w.Success? then m.(profiles := w.value.0) else m
    case ReadOnly => m
  }

  /** The stores after every call of one turn, oldest first. */
  function UseAll(m: Memory, uses: seq<ToolUse>, rt: LongTerm.RuntimeContext, parse: string -> Summaries.Parsed): (r: Memory)
    requires Valid(m)
    ensures Valid(r)
    ensures ShortTerm.LogKept(m.short.moodShifts, r.short.moodShifts)
    decreases |uses|
  {
    if |uses| == 0 then
      ShortTerm.LogKeptByAppend(m.short.moodShifts, m.short.moodShifts);
      m
    else
      var m' := Use(m, uses[0], rt, parse);
      var r := UseAll(m', uses[1..], rt, parse);
      ShortTerm.LogKeptTransitive(m.short.moodShifts, m'.short.moodShifts, r.short.moodShifts);
      r
  }

  /** A runtime context without a `user_id` attribute (absent, or present without one). */
  predicate NoUserId(rt: LongTerm.RuntimeContext) {
    rt.NoContext? || rt.NoUserIdAttribute?
  }

  /** Without a user id in the runtime context, no call of a turn ever writes a profile. */
  lemma {:induction false} ProfilesUntouched(m: Memory, uses: seq<ToolUse>, rt: LongTerm.RuntimeContext, parse: string -> Summaries.Parsed)
    requires Valid(m) && NoUserId(rt)
    ensures UseAll(m, uses, rt, parse).profiles == m.profiles
    decreases |uses|
  {
    if |uses| > 0 {
      ProfilesUntouched(Use(m, uses[0], rt, parse), uses[1..], rt, parse);
    }
  }

  /** A turn whose calls only read, or only try to save a profile, leaves the short-term store and
      the archive as they were. */
  lemma {:induction false} ReadOnlyTurn(m: Memory, uses: seq<ToolUse>, rt: LongTerm.RuntimeContext, parse: string -> Summaries.Parsed)
    requires Valid(m)
    requires forall i :: 0 <= i < |uses| ==> uses[i].ReadOnly? || uses[i].SaveProfile?
    ensures UseAll(m, uses, rt, parse).short == m.short
    ensures UseAll(m, uses, rt, parse).summaries == m.summaries
    decreases |uses|
  {
    if |uses| > 0 {
      assert uses[0].ReadOnly? || uses[0].SaveProfile?;
      ReadOnlyTurn(Use(m, uses[0], rt, parse), uses[1..], rt, parse);
    }
  }
}
