/** The chat page of the web front end: its sentiment styling, its session start, the rule by
    which each submitted prompt extends the displayed chat history, and what the agents' tools
    write while the prompt is answered. */
module ChatPage {
  import opened Wrappers
  import opened Text
  import opened Models
  import ShortTerm
  import Summaries
  import LongTerm
  import AgentTools
  import AgentOutput

  /** `get_sentiment_color`: unknown labels get grey. */
  function ColorOf(sentiment: string): (r: string)
    ensures r == "#6c757d" <==> sentiment !in {AgentOutput.Positive, AgentOutput.Negative, AgentOutput.Neutral}
    ensures sentiment == AgentOutput.Positive ==> r == "#28a745"
    ensures sentiment == AgentOutput.Negative ==> r == "#dc3545"
    ensures sentiment == AgentOutput.Neutral ==> r == "#ffc107"
  {
    if sentiment == AgentOutput.Positive then "#28a745"
    else if sentiment == AgentOutput.Negative then "#dc3545"
    else if sentiment == AgentOutput.Neutral then "#ffc107"
    else "#6c757d"
  }

  /** One displayed message: its role, its text, and the sentiment keys if it has them. */
  datatype HistoryEntry = HistoryEntry(role: string, content: string, sentiment: Option<(string, real)>)

  /** The per-message badge and caption render only for user entries that carry sentiment keys. */
  predicate BadgeShown(e: HistoryEntry) {
    e.role == "user" && e.sentiment.Some?
  }

  /** How the sentiment agent's call ended. */
  datatype SentimentCall = SentimentReturned(result: AgentOutput.AgentResult) | SentimentRaised

  /** How the replier agent's call ended. */
  datatype ReplyCall = ReplyReturned(result: AgentOutput.AgentResult) | ReplyRaised

  /** The label and score the page keeps: any exception from the sentiment agent resets them to
      NEUTRAL and 0.5; otherwise the shared extraction rule applies. */
  function PageSentiment(call: SentimentCall): (r: (string, real))
    ensures r.1 >= 0.0
    ensures call.SentimentRaised? ==> r == (AgentOutput.Neutral, AgentOutput.DefaultScore)
    ensures call.SentimentReturned? ==> r == AgentOutput.ExtractSentiment(call.result)
  {
    match call
    case SentimentRaised => (AgentOutput.Neutral, AgentOutput.DefaultScore)
    case SentimentReturned(result) => AgentOutput.ExtractSentiment(result)
  }

  function UserEntry(prompt: string): HistoryEntry {
    HistoryEntry("user", prompt, None)
  }

  /** One submitted prompt: the user entry is appended before any agent runs; the assistant
      entry, carrying the label and score, follows only when the replier returned. */
  function Submit(history: seq<HistoryEntry>, prompt: string, s: SentimentCall, reply: ReplyCall): (r: seq<HistoryEntry>)
    ensures |r| == |history| + (if reply.ReplyReturned? then 2 else 1)
    ensures r[..|history|] == history
    ensures r[|history|] == UserEntry(prompt)
    ensures reply.ReplyReturned? ==>
      r[|history| + 1] == HistoryEntry("assistant", AgentOutput.ReplyText(reply.result, AgentOutput.NoResponse), Some(PageSentiment(s)))
  {
    var withUser := history + [UserEntry(prompt)];
    match reply
    case ReplyRaised => withUser
    case ReplyReturned(result) =>
      withUser + [HistoryEntry("assistant", AgentOutput.ReplyText(result, AgentOutput.NoResponse), Some(PageSentiment(s)))]
  }

  /** One prompt, the outcomes of its two agent calls, and the tool calls the agents made while
      answering it, oldest first. The calls take effect whether or not the agent later raised. */
  datatype Turn = Turn(prompt: string, sentiment: SentimentCall, reply: ReplyCall, uses: seq<AgentTools.ToolUse>)

  function SubmitAll(history: seq<HistoryEntry>, turns: seq<Turn>): seq<HistoryEntry>
    decreases |turns|
  {
    if |turns| == 0 then history
    else SubmitAll(Submit(history, turns[0].prompt, turns[0].sentiment, turns[0].reply), turns[1..])
  }

  /** The number of turns whose replier call returned. */
  function Replied(turns: seq<Turn>): nat {
    if |turns| == 0 then 0 else (if turns[0].reply.ReplyReturned? then 1 else 0) + Replied(turns[1..])
  }

  /** Starting from an empty history, the badge never renders: user entries never carry sentiment
      keys, and the history holds one entry per prompt plus one per returned reply. */
  lemma {:induction false} NoBadgeEver(history: seq<HistoryEntry>, turns: seq<Turn>)
    requires forall i :: 0 <= i < |history| ==> !BadgeShown(history[i])
    ensures var r := SubmitAll(history, turns);
      && (forall i :: 0 <= i < |r| ==> !BadgeShown(r[i]))
      && |r| == |history| + |turns| + Replied(turns)
      && r[..|history|] == history
    decreases |turns|
  {
    if |turns| > 0 {
      var t := turns[0];
      var h := Submit(history, t.prompt, t.sentiment, t.reply);
      forall i | 0 <= i < |h|
        ensures !BadgeShown(h[i])
      {
        if i < |history| {
          assert h[i] == h[..|history|][i];
        }
      }
      NoBadgeEver(h, turns[1..]);
      var r := SubmitAll(h, turns[1..]);
      assert r[..|history|] == r[..|h|][..|history|];
    }
  }

  /** The page's session state: the displayed history, the session context once created, and the
      stores the agents' tools write, whose mood-shift log the page clears. */
  datatype Session = Session(chatHistory: seq<HistoryEntry>, context: Option<Context>, memory: AgentTools.Memory)

  /** The first render creates the context with `str(random.randint(1000, 9999))` as its id and
      clears the mood-shift log; later renders change nothing. `draw` is the random number. */
  function StartSession(s: Session, draw: int): (r: Session)
    requires 1000 <= draw <= 9999 && AgentTools.Valid(s.memory)
    ensures AgentTools.Valid(r.memory)
    ensures r.context.Some? && r.chatHistory == s.chatHistory
    ensures r.memory.short.memory == s.memory.short.memory
    ensures r.memory.summaries == s.memory.summaries && r.memory.profiles == s.memory.profiles
    ensures s.context.Some? ==> r == s
    ensures s.context.None? ==>
      && r.memory.short.moodShifts == []
      && var id := r.context.value.userId;
      && |id| == 4 && AllDigits(id) && DigitsValue(id) == draw
  {
    if s.context.Some? then s
    else
      assert Pow10(3) == 1000 && Pow10(4) == 10000 by {
        assert Pow10(1) == 10 && Pow10(2) == 100;
      }
      DecimalLength(draw, 4);
      Session(s.chatHistory, Some(Context(DecimalString(draw))), s.memory.(short := ShortTerm.ClearMoodShifts(s.memory.short)))
  }

  /** The runtime context the page's agents see. The sentiment agent is given
      `{'context': {"user_id": ...}}` as its run configuration, not a context object with a
      `user_id` attribute, and the replier is given nothing. */
  const PageRuntime: LongTerm.RuntimeContext := LongTerm.NoUserIdAttribute

  /** The runtime context evidently intended: one whose `user_id` is the session's id. */
  function IntendedRuntime(c: Context): (rt: LongTerm.RuntimeContext)
    ensures rt.WithUserId? && rt.userId == LongTerm.StrId(c.userId)
  {
    LongTerm.WithUserId(LongTerm.StrId(c.userId))
  }

  /** Streamlit's `chat_input` hands back a prompt only when one was submitted, and the page acts
      on it only when it is non-empty. */
  predicate Submitted(input: Option<Turn>) {
    input.Some? && input.value.prompt != ""
  }

  /** One render of the page, the agents' tools seeing `PageRuntime` (as written) or the
      session's own context (`intended`): start the session, then, if a non-empty prompt was
      submitted, extend the history and apply the turn's tool calls. */
  function Render(s: Session, draw: int, input: Option<Turn>, intended: bool,
                  parse: string -> Summaries.Parsed): (r: Session)
    requires 1000 <= draw <= 9999 && AgentTools.Valid(s.memory)
    ensures AgentTools.Valid(r.memory)
    ensures var started := StartSession(s, draw);
      && r.context == started.context
      && r.chatHistory == (if Submitted(input) then SubmitAll(s.chatHistory, [input.value]) else s.chatHistory)
      && r.memory == (if Submitted(input) then
                        AgentTools.UseAll(started.memory, input.value.uses,
                                          if intended then IntendedRuntime(started.context.value) else PageRuntime, parse)
                      else started.memory)
  {
    var started := StartSession(s, draw);
    if Submitted(input) then
      var t := input.value;
      var rt := if intended then IntendedRuntime(started.context.value) else PageRuntime;
      assert SubmitAll(s.chatHistory, [t]) == Submit(s.chatHistory, t.prompt, t.sentiment, t.reply) by {
        assert [t][1..] == [];
      }
      started.(chatHistory := Submit(started.chatHistory, t.prompt, t.sentiment, t.reply),
               memory := AgentTools.UseAll(started.memory, t.uses, rt, parse))
    else started
  }

  /** `show_chat_page` as written. */
  function ShowPage(s: Session, draw: int, input: Option<Turn>, parse: string -> Summaries.Parsed): (r: Session)
    requires 1000 <= draw <= 9999 && AgentTools.Valid(s.memory)
    ensures AgentTools.Valid(r.memory)
    ensures r.context == StartSession(s, draw).context
    ensures r.memory.profiles == s.memory.profiles
    ensures ShortTerm.LogKept(StartSession(s, draw).memory.short.moodShifts, r.memory.short.moodShifts)
  {
    var r := Render(s, draw, input, false, parse);
    if Submitted(input) then
      AgentTools.ProfilesUntouched(StartSession(s, draw).memory, input.value.uses, PageRuntime, parse);
      r
    else r
  }

  /** The mood-shift log is cleared only when the context is created: once a session has its
      context, a render keeps the context, never drops a record of the log, and leaves every
      store as it was when no prompt was submitted. */
  lemma ShiftsSurviveLaterRenders(s: Session, draw: int, input: Option<Turn>, parse: string -> Summaries.Parsed)
    requires 1000 <= draw <= 9999 && AgentTools.Valid(s.memory) && s.context.Some?
    ensures var r := ShowPage(s, draw, input, parse);
      && r.context == s.context
      && ShortTerm.LogKept(s.memory.short.moodShifts, r.memory.short.moodShifts)
      && (!Submitted(input) ==> r.memory == s.memory)
  {
  }

  /** A turn whose calls only read leaves the buffer, the log and the archive as the session start
      left them. */
  lemma ReadOnlyRender(s: Session, draw: int, input: Option<Turn>, parse: string -> Summaries.Parsed)
    requires 1000 <= draw <= 9999 && AgentTools.Valid(s.memory)
    requires input.Some? ==> forall i :: 0 <= i < |input.value.uses| ==> input.value.uses[i].ReadOnly?
    ensures ShowPage(s, draw, input, parse).memory == StartSession(s, draw).memory
  {
    if Submitted(input) {
      var started := StartSession(s, draw);
      AgentTools.ReadOnlyTurn(started.memory, input.value.uses, PageRuntime, parse);
      AgentTools.ProfilesUntouched(started.memory, input.value.uses, PageRuntime, parse);
    }
  }

  /** As written, every `save_memory` call the page's agents make raises: the runtime context
      they see has no `user_id` attribute. */
  lemma PageSaveRefused(store: LongTerm.Store, memory: LongTerm.Profile)
    ensures LongTerm.SaveMemory(store, memory, PageRuntime) == Failure(LongTerm.MissingUserId)
  {
  }

  /** With the intended runtime context, the id the page creates is accepted: a profile the
      sentiment agent saves on the first prompt is filed under that string id, never under the
      id 0 the prompts read (four digits never print as "0"). */
  lemma SessionIdAccepted(s: Session, draw: int, prompt: string, sc: SentimentCall, rc: ReplyCall,
                          p: LongTerm.Profile, parse: string -> Summaries.Parsed)
    requires 1000 <= draw <= 9999 && AgentTools.Valid(s.memory) && s.context.None? && prompt != ""
    ensures var r := Render(s, draw, Some(Turn(prompt, sc, rc, [AgentTools.SaveProfile(p)])), true, parse);
      var id := LongTerm.StrId(r.context.value.userId);
      && LongTerm.Truthy(id)
      && LongTerm.SavedAs(s.memory.profiles, p, id, r.memory.profiles, LongTerm.SaveMemory(s.memory.profiles, p, LongTerm.WithUserId(id)).value.1)
      && LongTerm.ProfileKey(id) != LongTerm.ProfileKey(LongTerm.DefaultUserId)
  {
    var started := StartSession(s, draw);
    var id := LongTerm.StrId(started.context.value.userId);
    var m := started.memory;
    var uses := [AgentTools.SaveProfile(p)];
    assert uses[1..] == [];
    assert AgentTools.UseAll(m, uses, IntendedRuntime(started.context.value), parse)
        == AgentTools.Use(m, uses[0], IntendedRuntime(started.context.value), parse);
  }
}
