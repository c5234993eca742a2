/** The short-term buffer and the mood-shift log (`chatapp/memory/shorttermmemory.py`). */
module ShortTerm {
  import opened Wrappers
  import opened Models
  import Fifo
  import Summaries

  /** The module's two globals: the buffer and the in-memory mood-shift log. A record wraps the
      very chat objects of the buffer, so the newest chat and the second chat of the newest record
      can be one object: `newestLogged` says they are, which happens exactly when the last append
      logged a shift and neither the buffer nor the log has been cleared since. */
  datatype ShortTermStore = ShortTermStore(memory: ShortTermMemory, moodShifts: seq<MoodShift>, newestLogged: bool)

  /** The confirmation the `add_to_short_term_memory` tool returns. */
  datatype ToolNote = MemoryFull(summary: Summaries.SummaryNote) | Added(count: nat)

  /** The exception `add_assistant_to_memory` raises on its fallback path: it calls the
      three-parameter `add_chat_to_memory` with four arguments. */
  datatype ToolError = ArityError

  const ShortTermCapacity := 5

  /** The state the module starts in: an empty buffer of capacity 5 and whatever mood shifts were
      loaded from the log file (the file itself is not modelled). */
  function InitialStore(loaded: seq<MoodShift>): (r: ShortTermStore)
    ensures Valid(r)
  {
    ShortTermStore(ShortTermMemory([], ShortTermCapacity), loaded, false)
  }

  /** The invariant of the module's single buffer: capacity 5, never more than 5 chats, and a
      shared newest chat is the second chat of the newest record. */
  predicate Valid(st: ShortTermStore) {
    && st.memory.maxChats == ShortTermCapacity && |st.memory.chats| <= ShortTermCapacity
    && (st.newestLogged ==> SharesNewest(st))
  }

  /** The newest record wraps two chats, the second of which is the buffer's newest chat. */
  predicate SharesNewest(st: ShortTermStore) {
    var chats, log := st.memory.chats, st.moodShifts;
    && |chats| > 0 && |log| > 0
    && |log[|log| - 1].moodshift.chat| == 2
    && log[|log| - 1].moodshift.chat[1] == chats[|chats| - 1]
  }

  /** Only the exact labels "POS" and "NEG", in either order, make a shift; scores are never looked at. */
  predicate IsMoodShift(prev: string, next: string) {
    (prev == "POS" && next == "NEG") || (prev == "NEG" && next == "POS")
  }

  /** The sentiment of the newest chat, if any. */
  function LastLabel(st: ShortTermStore): Option<string> {
    if |st.memory.chats| == 0 then None else Some(st.memory.chats[|st.memory.chats| - 1].sentimentType)
  }

  /** The mood-shift log after `chat` is appended: one new record `[previous newest, chat]`
      exactly when the two labels are "POS" and "NEG" in either order. */
  function ShiftLog(st: ShortTermStore, chat: ChatMemory): seq<MoodShift> {
    var chats := st.memory.chats;
    if ShiftLogged(st, chat)
    then st.moodShifts + [MoodShift(Local([chats[|chats| - 1], chat]))]
    else st.moodShifts
  }

  /** Appending `chat` logs a shift: the previous newest label and the new one are "POS" and "NEG". */
  predicate ShiftLogged(st: ShortTermStore, chat: ChatMemory) {
    var chats := st.memory.chats;
    |chats| > 0 && IsMoodShift(chats[|chats| - 1].sentimentType, chat.sentimentType)
  }

  /** Append `chat` to the buffer: log a shift against the previous newest chat, then push
      with single eviction. A logged record shares the appended chat. */
  function AppendChat(st: ShortTermStore, chat: ChatMemory): ShortTermStore {
    ShortTermStore(
      st.memory.(chats := Fifo.Push(st.memory.chats, chat, st.memory.maxChats)),
      ShiftLog(st, chat),
      ShiftLogged(st, chat))
  }

  /** Appending keeps the capacity invariant and puts the chat last, keeping every older chat
      except (when the buffer was full) the oldest one. */
  lemma AppendChatBuffer(st: ShortTermStore, chat: ChatMemory)
    ensures var r := AppendChat(st, chat);
      Valid(st) ==>
      && Valid(r)
      && |r.memory.chats| > 0 && r.memory.chats[|r.memory.chats| - 1] == chat
      && r.memory.chats[..|r.memory.chats| - 1] ==
         (if |st.memory.chats| < ShortTermCapacity then st.memory.chats else st.memory.chats[1..])
  {
    var chats := st.memory.chats;
    var pushed := Fifo.Push(chats, chat, st.memory.maxChats);
    if Valid(st) {
      assert pushed[..|pushed| - 1] == (chats + [chat])[|chats| + 1 - |pushed|..|chats|];
    }
  }

  /** `add_chat_to_memory`: append a chat carrying the given text, score and sentiment and no
      reply. The buffer stays within capacity and the chat goes last; a shift is logged exactly
      when the previous newest label and the new one are "POS" and "NEG" in either order. */
  function AddChatToMemory(st: ShortTermStore, user: string, score: real, sentiment: string): (r: ShortTermStore)
    ensures r.memory.maxChats == st.memory.maxChats
    ensures Valid(st) ==> Valid(r)
    ensures Valid(st) ==>
      && |r.memory.chats| > 0 && r.memory.chats[|r.memory.chats| - 1] == ChatMemory(user, None, score, sentiment)
      && r.memory.chats[..|r.memory.chats| - 1] ==
         (if |st.memory.chats| < ShortTermCapacity then st.memory.chats else st.memory.chats[1..])
    ensures |r.moodShifts| >= |st.moodShifts| && r.moodShifts[..|st.moodShifts|] == st.moodShifts
    ensures |r.moodShifts| == |st.moodShifts| + 1 <==>
      (|st.memory.chats| > 0 && IsMoodShift(st.memory.chats[|st.memory.chats| - 1].sentimentType, sentiment))
    ensures |r.moodShifts| == |st.moodShifts| + 1 ==>
      r.moodShifts[|st.moodShifts|].moodshift.chat ==
        [st.memory.chats[|st.memory.chats| - 1], ChatMemory(user, None, score, sentiment)]
    ensures |r.moodShifts| <= |st.moodShifts| + 1
    ensures r.newestLogged <==> |r.moodShifts| == |st.moodShifts| + 1
  {
    var chat := ChatMemory(user := user, sentimentScore := score, sentimentType := sentiment);
    AppendChatBuffer(st, chat);
    AppendChat(st, chat)
  }

  /** Shifts fire on the exact labels "POS" and "NEG" only, whatever label the agent passes: the
      full labels "POSITIVE", "NEGATIVE" and "NEUTRAL" never record one. */
  lemma FullLabelsNeverShift(st: ShortTermStore, user: string, score: real, sentiment: string)
    requires sentiment == "POSITIVE" || sentiment == "NEGATIVE" || sentiment == "NEUTRAL"
    ensures AddChatToMemory(st, user, score, sentiment).moodShifts == st.moodShifts
  {
  }

  /** Whether a shift is logged does not depend on either score. */
  lemma ScoresNeverCompared(st: ShortTermStore, user: string, a: real, b: real, sentiment: string)
    ensures AddChatToMemory(st, user, a, sentiment).moodShifts == st.moodShifts
        <==> AddChatToMemory(st, user, b, sentiment).moodShifts == st.moodShifts
  {
  }

  /** One appended chat: user text, score and sentiment. */
  datatype Turn = Turn(user: string, score: real, sentiment: string)

  /** Append every turn, oldest first. */
  function AddChats(st: ShortTermStore, turns: seq<Turn>): ShortTermStore
    decreases |turns|
  {
    if |turns| == 0 then st
    else AddChats(AddChatToMemory(st, turns[0].user, turns[0].score, turns[0].sentiment), turns[1..])
  }

  /** The number of POS/NEG flips between neighbouring labels, starting from `prev`. */
  function Flips(prev: Option<string>, labels: seq<string>): nat
    decreases |labels|
  {
    if |labels| == 0 then 0
    else (if prev.Some? && IsMoodShift(prev.value, labels[0]) then 1 else 0) + Flips(Some(labels[0]), labels[1..])
  }

  function TurnLabels(turns: seq<Turn>): (r: seq<string>)
    ensures |r| == |turns|
  {
    seq(|turns|, k requires 0 <= k < |turns| => turns[k].sentiment)
  }

  /** Eviction never hides a neighbour: over any run of appends the log gains exactly one
      record per POS/NEG flip between consecutive labels, and keeps what it had. */
  lemma {:induction false} ShiftCount(st: ShortTermStore, turns: seq<Turn>)
    requires Valid(st)
    ensures var r := AddChats(st, turns);
      && |r.moodShifts| == |st.moodShifts| + Flips(LastLabel(st), TurnLabels(turns))
      && r.moodShifts[..|st.moodShifts|] == st.moodShifts
    decreases |turns|
  {
    if |turns| > 0 {
      var t := turns[0];
      var st' := AddChatToMemory(st, t.user, t.score, t.sentiment);
      ShiftStep(st, t);
      ShiftCount(st', turns[1..]);
      FlipsStep(LastLabel(st), turns);
      PrefixOfPrefix(AddChats(st', turns[1..]).moodShifts, |st'.moodShifts|, |st.moodShifts|);
    }
  }

  /** One append: the log grows by one exactly on a flip from the old newest label, keeps its old
      records, and the new newest label is the appended one. */
  lemma ShiftStep(st: ShortTermStore, t: Turn)
    requires Valid(st)
    ensures var st' := AddChatToMemory(st, t.user, t.score, t.sentiment);
      && Valid(st')
      && |st'.moodShifts| == |st.moodShifts| + (if LastLabel(st).Some? && IsMoodShift(LastLabel(st).value, t.sentiment) then 1 else 0)
      && st'.moodShifts[..|st.moodShifts|] == st.moodShifts
      && LastLabel(st') == Some(t.sentiment)
  {
  }

  /** The flip count of a run of turns, split after its first turn. */
  lemma FlipsStep(prev: Option<string>, turns: seq<Turn>)
    requires |turns| > 0
    ensures Flips(prev, TurnLabels(turns))
      == (if prev.Some? && IsMoodShift(prev.value, turns[0].sentiment) then 1 else 0)
         + Flips(Some(turns[0].sentiment), TurnLabels(turns[1..]))
  {
    var labels := TurnLabels(turns);
    assert labels[0] == turns[0].sentiment;
    assert labels[1..] == TurnLabels(turns[1..]);
  }

  lemma PrefixOfPrefix<T>(s: seq<T>, m: nat, n: nat)
    requires n <= m <= |s|
    ensures s[..m][..n] == s[..n]
  {
  }

  /** `get_chats_from_memory`. */
  function GetChats(st: ShortTermStore): seq<ChatMemory> {
    st.memory.chats
  }

  /** `get_mood_shifts`. */
  function GetMoodShifts(st: ShortTermStore): seq<MoodShift> {
    st.moodShifts
  }

  /** A record with every reply blanked: what a record says once the replies written into its
      shared chats are set aside. */
  function Bare(m: MoodShift): (r: seq<ChatMemory>)
    ensures |r| == |m.moodshift.chat|
    ensures forall k :: 0 <= k < |r| ==> r[k] == m.moodshift.chat[k].(assistant := None)
  {
    seq(|m.moodshift.chat|, k requires 0 <= k < |m.moodshift.chat| => m.moodshift.chat[k].(assistant := None))
  }

  /** `after` keeps every record of `before`, in place and in order, up to the replies written
      into shared chats, and may hold more records after them. */
  predicate LogKept(before: seq<MoodShift>, after: seq<MoodShift>) {
    |before| <= |after| && forall i :: 0 <= i < |before| ==> Bare(after[i]) == Bare(before[i])
  }

  lemma LogKeptTransitive(a: seq<MoodShift>, b: seq<MoodShift>, c: seq<MoodShift>)
    requires LogKept(a, b) && LogKept(b, c)
    ensures LogKept(a, c)
  {
    forall i | 0 <= i < |a|
      ensures Bare(c[i]) == Bare(a[i])
    {
      assert Bare(c[i]) == Bare(b[i]);
    }
  }

  /** Appending records keeps the log. */
  lemma LogKeptByAppend(before: seq<MoodShift>, after: seq<MoodShift>)
    requires |before| <= |after| && after[..|before|] == before
    ensures LogKept(before, after)
  {
    forall i | 0 <= i < |before|
      ensures Bare(after[i]) == Bare(before[i])
    {
      assert after[i] == after[..|before|][i];
    }
  }

  /** `clear_memory`: empty the buffer; the mood-shift log and the capacity stay. */
  function ClearMemory(st: ShortTermStore): (r: ShortTermStore)
    ensures r.memory.chats == [] && !r.newestLogged
    ensures r.memory.maxChats == st.memory.maxChats && r.moodShifts == st.moodShifts
    ensures Valid(st) ==> Valid(r)
  {
    st.(memory := st.memory.(chats := []), newestLogged := false)
  }

  /** `clear_mood_shifts`: empty the mood-shift log; the buffer stays. */
  function ClearMoodShifts(st: ShortTermStore): (r: ShortTermStore)
    ensures r.moodShifts == [] && r.memory == st.memory && !r.newestLogged
    ensures Valid(st) ==> Valid(r)
  {
    st.(moodShifts := [], newestLogged := false)
  }

  /** The `add_to_short_term_memory` tool. The `assistant` argument is ignored. After appending,
      a buffer of five or more chats is summarised once and then cleared, so the buffer never
      holds more than four chats when the tool returns. */
  function AddToShortTermMemory(
    st: ShortTermStore, sm: Summaries.SummaryStore,
    user: string, assistant: string, score: real, sentiment: string,
    reply: Summaries.CallOutcome, parse: string -> Summaries.Parsed, now: string, order: seq<string>
  ): (r: (ShortTermStore, Summaries.SummaryStore, ToolNote))
    requires Valid(st) && sm.memory.maxSummaries >= 1
    ensures Valid(r.0) && |r.0.memory.chats| < ShortTermCapacity
    ensures r.0.moodShifts == AddChatToMemory(st, user, score, sentiment).moodShifts
    ensures LogKept(st.moodShifts, r.0.moodShifts)
    ensures r.1.memory.maxSummaries == sm.memory.maxSummaries
    ensures var added := AddChatToMemory(st, user, score, sentiment);
      if |st.memory.chats| + 1 >= ShortTermCapacity then
        && r.0.memory.chats == []
        && r.2.MemoryFull?
        && (r.1, r.2.summary) == Summaries.Summarize(sm, added.memory.chats, reply, parse, now, order)
      else
        && r.0.memory.chats == st.memory.chats + [ChatMemory(user, None, score, sentiment)]
        && r.1 == sm && r.2 == Added(|r.0.memory.chats|)
  {
    var added := AddChatToMemory(st, user, score, sentiment);
    LogKeptByAppend(st.moodShifts, added.moodShifts);
    if |added.memory.chats| >= 5 then
      var (sm', note) := Summaries.Summarize(sm, added.memory.chats, reply, parse, now, order);
      (ClearMemory(added), sm', MemoryFull(note))
    else
      (added, sm, Added(|added.memory.chats|))
  }

  /** The reply text passed to the tool never reaches any store. */
  lemma AssistantIgnored(
    st: ShortTermStore, sm: Summaries.SummaryStore, user: string, a: string, b: string, score: real, sentiment: string,
    reply: Summaries.CallOutcome, parse: string -> Summaries.Parsed, now: string, order: seq<string>)
    requires Valid(st) && sm.memory.maxSummaries >= 1
    ensures AddToShortTermMemory(st, sm, user, a, score, sentiment, reply, parse, now, order)
         == AddToShortTermMemory(st, sm, user, b, score, sentiment, reply, parse, now, order)
  {
  }

  /** One call of the tool: its arguments and the outcome of the summarising model call it may make. */
  datatype ToolCall = ToolCall(
    user: string, assistant: string, score: real, sentiment: string,
    reply: Summaries.CallOutcome, now: string, order: seq<string>)

  /** What a run of the tool needs before each call: a valid buffer below capacity and an
      archive that can hold a summary. */
  predicate Ready(st: ShortTermStore, sm: Summaries.SummaryStore) {
    Valid(st) && |st.memory.chats| < ShortTermCapacity && sm.memory.maxSummaries >= 1
  }

  /** The two sizes a run of the tool moves: the buffer's chat count and the history length. */
  function Sizes(st: ShortTermStore, sm: Summaries.SummaryStore): (int, int) {
    (|st.memory.chats|, |sm.history|)
  }

  /** The sizes after one call: the buffer grows by one, or a buffer reaching five chats is
      emptied into one more summary. */
  function NextSizes(s: (int, int)): (int, int) {
    if s.0 + 1 == ShortTermCapacity then (0, s.1 + 1) else (s.0 + 1, s.1)
  }

  /** One call of the tool, on the two stores a run carries from call to call. */
  method CallTool(st: ShortTermStore, sm: Summaries.SummaryStore, c: ToolCall, parse: string -> Summaries.Parsed)
    returns (r: (ShortTermStore, Summaries.SummaryStore))
    requires Ready(st, sm)
    ensures Ready(r.0, r.1) && r.1.memory.maxSummaries == sm.memory.maxSummaries
    ensures Sizes(r.0, r.1) == NextSizes(Sizes(st, sm))
  {
    ToolStep(st, sm, c, parse);
    var t := AddToShortTermMemory(st, sm, c.user, c.assistant, c.score, c.sentiment, c.reply, parse, c.now, c.order);
    r := (t.0, t.1);
  }

  /** Run the tool once per call, oldest first. The tool summarises on every fifth chat: the
      buffer cycles through sizes 0 to 4, and each completed cycle adds exactly one buffer to
      the summary history. */
  method RunTool(st: ShortTermStore, sm: Summaries.SummaryStore, calls: seq<ToolCall>, parse: string -> Summaries.Parsed)
    returns (r: (ShortTermStore, Summaries.SummaryStore))
    requires Ready(st, sm)
    ensures Ready(r.0, r.1) && r.1.memory.maxSummaries == sm.memory.maxSummaries
    ensures |r.0.memory.chats| == (|st.memory.chats| + |calls|) % ShortTermCapacity
    ensures |r.1.history| == |sm.history| + (|st.memory.chats| + |calls|) / ShortTermCapacity
  {
    r := (st, sm);
    for i := 0 to |calls|
      invariant Ready(r.0, r.1) && r.1.memory.maxSummaries == sm.memory.maxSummaries
      invariant Sizes(r.0, r.1) == CycleSizes(|st.memory.chats| + i, |sm.history|)
    {
      CycleNext(|st.memory.chats| + i, |sm.history|);
      r := CallTool(r.0, r.1, calls[i], parse);
    }
  }

  /** The sizes after `k` chats into a buffer that started empty, with `h` buffers already in the
      history: `k mod 5` chats, and one more history entry per five chats. */
  function CycleSizes(k: int, h: int): (int, int) {
    (k % ShortTermCapacity, h + k / ShortTermCapacity)
  }

  /** One more call moves the cycle sizes of `k` chats to those of `k + 1`. */
  lemma CycleNext(k: int, h: int)
    requires k >= 0
    ensures NextSizes(CycleSizes(k, h)) == CycleSizes(k + 1, h)
  {
    if k % ShortTermCapacity + 1 == ShortTermCapacity {
      assert k + 1 == ShortTermCapacity * (k / ShortTermCapacity + 1);
    } else {
      assert k + 1 == ShortTermCapacity * (k / ShortTermCapacity) + (k % ShortTermCapacity + 1);
    }
  }

  /** One tool call grows the buffer by one, or empties a buffer that reached five chats and adds
      one buffer to the summary history. */
  lemma ToolStep(st: ShortTermStore, sm: Summaries.SummaryStore, c: ToolCall, parse: string -> Summaries.Parsed)
    requires Valid(st) && |st.memory.chats| < ShortTermCapacity && sm.memory.maxSummaries >= 1
    ensures var r := AddToShortTermMemory(st, sm, c.user, c.assistant, c.score, c.sentiment, c.reply, parse, c.now, c.order);
      if |st.memory.chats| + 1 == ShortTermCapacity then
        |r.0.memory.chats| == 0 && |r.1.history| == |sm.history| + 1
      else
        |r.0.memory.chats| == |st.memory.chats| + 1 && |r.1.history| == |sm.history|
  {
    var r := AddToShortTermMemory(st, sm, c.user, c.assistant, c.score, c.sentiment, c.reply, parse, c.now, c.order);
    var added := AddChatToMemory(st, c.user, c.score, c.sentiment);
    if |st.memory.chats| + 1 >= ShortTermCapacity {
      var summarised := Summaries.Summarize(sm, added.memory.chats, c.reply, parse, c.now, c.order);
      assert r.1 == summarised.0;
    }
  }

  /** `add_assistant_to_memory` as written: attach the reply to the newest chat when it is the
      same user's unanswered message; otherwise the call raises, because it passes four
      arguments to the three-parameter `add_chat_to_memory`. Nothing is changed when it raises. */
  function AddAssistantToMemory(st: ShortTermStore, user: string, assistant: string): (r: Result<ShortTermStore, ToolError>)
    ensures r.Success? <==> ReplyAttaches(st, user)
    ensures r.Failure? ==> r.error == ArityError
    ensures r.Success? ==> AttachedOnly(st, r.value, assistant)
    ensures r.Success? && Valid(st) ==> Valid(r.value)
  {
    if ReplyAttaches(st, user) then Success(AttachReply(st, assistant)) else Failure(ArityError)
  }

  /** The newest chat is `user`'s and has no reply yet. */
  predicate ReplyAttaches(st: ShortTermStore, user: string) {
    var chats := st.memory.chats;
    |chats| > 0 && chats[|chats| - 1].user == user && chats[|chats| - 1].assistant.None?
  }

  /** The newest chat with `assistant` as its reply. */
  function Replied(st: ShortTermStore, assistant: string): ChatMemory
    requires |st.memory.chats| > 0
  {
    st.memory.chats[|st.memory.chats| - 1].(assistant := Some(assistant))
  }

  /** `after` differs from `before` only in the reply of the newest chat, which is now `assistant`,
      and, when that chat object is shared with the newest mood-shift record, in that record's
      second chat, which shows the same reply. */
  predicate AttachedOnly(before: ShortTermStore, after: ShortTermStore, assistant: string)
    requires |before.memory.chats| > 0
  {
    var n, log := |before.memory.chats|, before.moodShifts;
    && |after.memory.chats| == n
    && after.memory.chats[..n - 1] == before.memory.chats[..n - 1]
    && after.memory.chats[n - 1] == Replied(before, assistant)
    && after.memory.maxChats == before.memory.maxChats
    && after.newestLogged == before.newestLogged
    && if before.newestLogged && SharesNewest(before) then
         after.moodShifts == log[..|log| - 1] + [MoodShift(Local([log[|log| - 1].moodshift.chat[0], Replied(before, assistant)]))]
       else
         after.moodShifts == log
  }

  /** The in-place write `chats[-1].assistant = assistant`, seen through every reference to that chat. */
  function AttachReply(st: ShortTermStore, assistant: string): (r: ShortTermStore)
    requires |st.memory.chats| > 0
    ensures AttachedOnly(st, r, assistant)
    ensures Valid(st) ==> Valid(r)
    ensures LogKept(st.moodShifts, r.moodShifts)
  {
    var chats, log := st.memory.chats, st.moodShifts;
    var newest := Replied(st, assistant);
    var chats' := chats[..|chats| - 1] + [newest];
    assert chats'[..|chats| - 1] == chats[..|chats| - 1];
    var log' := if st.newestLogged && SharesNewest(st) then
                  log[..|log| - 1] + [MoodShift(Local([log[|log| - 1].moodshift.chat[0], newest]))]
                else log;
    AttachKeepsLog(st, assistant, log');
    st.(memory := st.memory.(chats := chats'), moodShifts := log')
  }

  /** Writing the reply into the shared chat of the newest record changes only that record's reply. */
  lemma AttachKeepsLog(st: ShortTermStore, assistant: string, log': seq<MoodShift>)
    requires |st.memory.chats| > 0
    requires var log := st.moodShifts;
      log' == if st.newestLogged && SharesNewest(st) then
                log[..|log| - 1] + [MoodShift(Local([log[|log| - 1].moodshift.chat[0], Replied(st, assistant)]))]
              else log
    ensures LogKept(st.moodShifts, log')
  {
    var log := st.moodShifts;
    if st.newestLogged && SharesNewest(st) {
      var last := log[|log| - 1];
      var last' := MoodShift(Local([last.moodshift.chat[0], Replied(st, assistant)]));
      assert Bare(last') == Bare(last) by {
        assert last.moodshift.chat == [last.moodshift.chat[0], last.moodshift.chat[1]];
      }
      forall i | 0 <= i < |log|
        ensures Bare(log'[i]) == Bare(log[i])
      {
        if i < |log| - 1 {
          assert log'[i] == log[i];
        }
      }
    }
  }

  /** A worked example of the sharing: after a POS chat "a", appending the NEG chat "b" logs a
      record, and attaching the reply "hi" to "b" shows in that record too. */
  lemma ReplyReachesShiftRecord()
    ensures var st0 := AddChatToMemory(InitialStore([]), "a", 0.9, "POS");
      var st1 := AddChatToMemory(st0, "b", 0.9, "NEG");
      var r := AddAssistantToMemory(st1, "b", "hi");
      && |st1.moodShifts| == 1
      && st1.moodShifts[0].moodshift.chat[1].assistant == None
      && r.Success?
      && |r.value.moodShifts| == 1
      && r.value.moodShifts[0].moodshift.chat[1] == ChatMemory("b", Some("hi"), 0.9, "NEG")
  {
    var st0 := AddChatToMemory(InitialStore([]), "a", 0.9, "POS");
    assert st0.memory.chats == [ChatMemory("a", None, 0.9, "POS")];
    var st1 := AddChatToMemory(st0, "b", 0.9, "NEG");
    assert st1.newestLogged && SharesNewest(st1);
  }

  /** The fallback raises whenever the buffer is empty, so a reply can never start a buffer. */
  lemma AssistantOnEmptyBufferRaises(st: ShortTermStore, user: string, assistant: string)
    requires |st.memory.chats| == 0
    ensures AddAssistantToMemory(st, user, assistant) == Failure(ArityError)
  {
  }

  /** `add_assistant_to_memory` as evidently intended: the fallback appends a neutral chat that
      already carries the reply. It never fails, keeps the buffer invariant, and never adds a
      mood-shift record. */
  function AddAssistantIntended(st: ShortTermStore, user: string, assistant: string): (r: ShortTermStore)
    ensures Valid(st) ==> Valid(r)
    ensures ReplyAttaches(st, user) ==> AttachedOnly(st, r, assistant)
    ensures !ReplyAttaches(st, user) && Valid(st) ==>
      |r.memory.chats| > 0 && r.memory.chats[|r.memory.chats| - 1] == ChatMemory(user, Some(assistant), 0.5, "NEUTRAL")
    ensures !ReplyAttaches(st, user) ==> r.moodShifts == st.moodShifts
    ensures |r.moodShifts| == |st.moodShifts|
  {
    if ReplyAttaches(st, user) then
      AttachReply(st, assistant)
    else
      var chat := ChatMemory(user, Some(assistant), 0.5, "NEUTRAL");
      assert ShiftLog(st, chat) == st.moodShifts;
      AppendChatBuffer(st, chat);
      AppendChat(st, chat)
  }

  const ReplyAdded := "Added assistant reply to memory."

  /** The `add_assistant_reply_to_short_term_memory` tool: it confirms only when the reply attaches
      to the same user's unanswered newest chat; otherwise the helper's exception escapes the tool
      and nothing changes. */
  function AddAssistantReply(st: ShortTermStore, user: string, assistant: string): (r: Result<(ShortTermStore, string), ToolError>)
    ensures r.Success? <==> ReplyAttaches(st, user)
    ensures r.Failure? ==> r.error == ArityError
    ensures r.Success? ==> r.value.1 == ReplyAdded && AttachedOnly(st, r.value.0, assistant)
    ensures r.Success? && Valid(st) ==> Valid(r.value.0)
  {
    match AddAssistantToMemory(st, user, assistant)
    case Success(st') => Success((st', ReplyAdded))
    case Failure(e) => Failure(e)
  }

  /** The same tool over the intended helper: it always confirms, the newest chat afterwards is the
      user's and carries the reply, the buffer stays within capacity, and no mood-shift record is
      added. */
  function AddAssistantReplyIntended(st: ShortTermStore, user: string, assistant: string): (r: (ShortTermStore, string))
    requires Valid(st)
    ensures Valid(r.0) && r.1 == ReplyAdded
    ensures |r.0.memory.chats| > 0
    ensures var newest := r.0.memory.chats[|r.0.memory.chats| - 1];
      newest.user == user && newest.assistant == Some(assistant)
    ensures |r.0.memory.chats| >= |st.memory.chats|
    ensures |r.0.moodShifts| == |st.moodShifts|
  {
    (AddAssistantIntended(st, user, assistant), ReplyAdded)
  }
}
