/** Prompt assembly for the three agents. Each prompt is the agent's fixed instructions followed
    by memory sections in a fixed order; a section whose store is empty shows a placeholder
    instead of the store's JSON. Building a prompt only reads the stores. */
module PromptMiddleware {
  import opened Text
  import opened Models
  import Summaries
  import ShortTerm
  import LongTerm

  /** `json.dumps` for the three kinds of value the prompts serialise. `profileBody` renders the
      members of a JSON object, without the surrounding braces. */
  datatype JsonCodec = JsonCodec(
    chat: ChatMemory -> string,
    entry: SummaryEntry -> string,
    profileBody: LongTerm.Profile -> string)

  const NoRecentConversations := "No recent conversations"
  const NoSummariesAvailable := "No summaries available"
  const NoLongTermMemory := "No long-term memory"

  const ShortTermHeading := "Short-term Memory (recent 5 conversations):"
  const SummaryHeading := "Summary Memory (conversation summaries):"
  const LongTermHeading := "Long-term Memory (user profile & preferences):"

  const ReplierInstructions := "\n    You are a helpful conversational assistant. Your role is to:\n        1. Provide helpful, contextual responses to user queries\n        2. Use web search when you need current information\n        3. Reference conversation history and user preferences from memory\n        4. Be friendly, helpful, and engaging\n        5. maintain your assistant memory for every chat\n        Always consider the user's emotional state and conversation history when responding.\n        Use web search for factual queries or current events.\n\n"
  const SentimentInstructions := "\n     You are a sentiment analysis specialist. Your role is to:\n        1. Analyze the sentiment of user messages using the analyze_sentiment tool\n        2. Store conversations in short-term memory with sentiment scores\n        3. When appropriate, save important user information to long-term memory\n        4. Provide sentiment insights and emotional context\n        Always use the sentiment analysis tool first, then store the conversation with sentiment data.\n        Be empathetic and understanding in your responses.\n    "
  const GlobalInstructions := "\n    You are a global conversation analyzer. Your role is to:\n        1. Analyze overall conversation patterns and sentiment trends\n        2. Provide comprehensive summaries of user interactions\n        3. Generate final sentiment analysis based on entire conversation history\n        4. Identify key insights about user preferences, mood patterns, and topics of interest\n        When a conversation session ends, provide a thoughtful summary including:\n        - Overall sentiment trend\n        - Key topics discussed\n        - User's emotional journey\n        - Important preferences or information learned\n    "

  const MemoryBanner := "\n\nCONTEXT MEMORY:\n\n"
  const MemoryClosing := "\n\nPlease respond considering both the recent conversation context and the user's long-term preferences.\n"

  /** `json.dumps` of a list: the encoded items between brackets, separated by ", ". */
  function DumpList<T>(enc: T -> string, xs: seq<T>): (r: string)
    ensures |r| >= 2 && r[0] == '[' && r[|r| - 1] == ']'
    ensures |xs| == 0 ==> r == "[]"
  {
    "[" + Join(seq(|xs|, i requires 0 <= i < |xs| => enc(xs[i])), ", ") + "]"
  }

  /** `json.dumps` of a profile: its members between braces. */
  function DumpObject(codec: JsonCodec, p: LongTerm.Profile): (r: string)
    ensures |r| >= 2 && r[0] == '{' && r[|r| - 1] == '}'
  {
    "{" + codec.profileBody(p) + "}"
  }

  /** The short-term section: the buffer's JSON, or the placeholder exactly when the buffer is empty. */
  function ShortTermBody(chats: seq<ChatMemory>, codec: JsonCodec): (r: string)
    ensures r == NoRecentConversations <==> |chats| == 0
    ensures |chats| > 0 ==> r == DumpList(codec.chat, chats)
  {
    if |chats| > 0 then DumpList(codec.chat, chats) else NoRecentConversations
  }

  /** The summary section of the replier and sentiment prompts: the JSON of what `get_summaries`
      returns, or the placeholder exactly when that is empty. */
  function SummaryBody(entries: seq<SummaryEntry>, codec: JsonCodec): (r: string)
    ensures r == NoSummariesAvailable <==> |entries| == 0
    ensures |entries| > 0 ==> r == DumpList(codec.entry, entries)
  {
    if |entries| > 0 then DumpList(codec.entry, entries) else NoSummariesAvailable
  }

  /** The long-term section: the profile stored under the `Context` class attribute (always 0),
      or the placeholder exactly when that item is absent or empty. */
  function LongTermBody(store: LongTerm.Store, codec: JsonCodec): (r: string)
    ensures var k := LongTerm.ProfileKey(LongTerm.DefaultUserId);
      r == NoLongTermMemory <==> k !in store || |store[k]| == 0
    ensures var k := LongTerm.ProfileKey(LongTerm.DefaultUserId);
      k in store && |store[k]| > 0 ==> r == DumpObject(codec, store[k])
  {
    var k := LongTerm.ProfileKey(LongTerm.DefaultUserId);
    if k in store && |store[k]| > 0 then DumpObject(codec, store[k]) else NoLongTermMemory
  }

  datatype Section = Section(heading: string, body: string)

  /** A prompt: a lead, the sections separated by blank lines, and a trailer. */
  datatype Prompt = Prompt(lead: string, sections: seq<Section>, trailer: string)

  function SectionText(s: Section): string {
    s.heading + "\n" + s.body
  }

  function SectionTexts(ss: seq<Section>): seq<string> {
    if |ss| == 0 then [] else [SectionText(ss[0])] + SectionTexts(ss[1..])
  }

  /** The prompt as the agent receives it. */
  function Render(p: Prompt): string {
    p.lead + Join(SectionTexts(p.sections), "\n\n") + p.trailer
  }

  /** The prompt shape the replier and the sentiment agent share: the instructions, the banner,
      then short-term, summary and long-term sections in that order. The summary section sees
      only the first five archived summaries. */
  function MemoryPrompt(instructions: string, st: ShortTerm.ShortTermStore, sm: Summaries.SummaryStore,
                        store: LongTerm.Store, codec: JsonCodec): (r: Prompt)
    ensures r.lead == instructions + MemoryBanner && r.trailer == MemoryClosing
    ensures |r.sections| == 3
    ensures r.sections[0] == Section(ShortTermHeading, ShortTermBody(ShortTerm.GetChats(st), codec))
    ensures r.sections[1] == Section(SummaryHeading, SummaryBody(Summaries.GetSummaries(sm.memory), codec))
    ensures r.sections[2] == Section(LongTermHeading, LongTermBody(store, codec))
  {
    Prompt(
      instructions + MemoryBanner,
      [ Section(ShortTermHeading, ShortTermBody(ShortTerm.GetChats(st), codec)),
        Section(SummaryHeading, SummaryBody(Summaries.GetSummaries(sm.memory), codec)),
        Section(LongTermHeading, LongTermBody(store, codec)) ],
      MemoryClosing)
  }

  /** `inject_memory_replier`. */
  function ReplierPrompt(st: ShortTerm.ShortTermStore, sm: Summaries.SummaryStore,
                         store: LongTerm.Store, codec: JsonCodec): (r: Prompt)
    ensures Render(r)
      == ReplierInstructions + MemoryBanner
         + ShortTermHeading + "\n" + ShortTermBody(ShortTerm.GetChats(st), codec)
         + "\n\n" + SummaryHeading + "\n" + SummaryBody(Summaries.GetSummaries(sm.memory), codec)
         + "\n\n" + LongTermHeading + "\n" + LongTermBody(store, codec)
         + MemoryClosing
  {
    MemoryPromptText(ReplierInstructions, st, sm, store, codec);
    MemoryPrompt(ReplierInstructions, st, sm, store, codec)
  }

  /** `inject_memory_sentiment`. */
  function SentimentPrompt(st: ShortTerm.ShortTermStore, sm: Summaries.SummaryStore,
                           store: LongTerm.Store, codec: JsonCodec): (r: Prompt)
    ensures Render(r)
      == SentimentInstructions + MemoryBanner
         + ShortTermHeading + "\n" + ShortTermBody(ShortTerm.GetChats(st), codec)
         + "\n\n" + SummaryHeading + "\n" + SummaryBody(Summaries.GetSummaries(sm.memory), codec)
         + "\n\n" + LongTermHeading + "\n" + LongTermBody(store, codec)
         + MemoryClosing
  {
    MemoryPromptText(SentimentInstructions, st, sm, store, codec);
    MemoryPrompt(SentimentInstructions, st, sm, store, codec)
  }

  /** `inject_global_prompt`: the summary section, holding every archived summary and never a
      placeholder (an empty archive shows as "[]"), then the short-term section; there is no
      long-term section. */
  function GlobalPrompt(st: ShortTerm.ShortTermStore, sm: Summaries.SummaryStore, codec: JsonCodec): (r: Prompt)
    ensures |r.sections| == 2
    ensures r.sections[0].heading == SummaryHeading && r.sections[1].heading == ShortTermHeading
    ensures r.sections[0].body != NoSummariesAvailable
    ensures r.sections[0].body == DumpList(codec.entry, sm.memory.summaries)
    ensures r.sections[1].body == ShortTermBody(ShortTerm.GetChats(st), codec)
    ensures forall i :: 0 <= i < |r.sections| ==> r.sections[i].heading != LongTermHeading
  {
    var all := DumpList(codec.entry, sm.memory.summaries);
    assert all[0] != NoSummariesAvailable[0];
    Prompt(
      GlobalInstructions + "\n    \n",
      [Section(SummaryHeading, all), Section(ShortTermHeading, ShortTermBody(ShortTerm.GetChats(st), codec))],
      "\n")
  }

  /** A rendered prompt of three sections: lead, each heading on its own line above its body,
      blank lines between sections, then the trailer. */
  lemma RenderThree(lead: string, a: Section, b: Section, c: Section, trailer: string)
    ensures Render(Prompt(lead, [a, b, c], trailer))
      == lead + a.heading + "\n" + a.body + "\n\n" + b.heading + "\n" + b.body
         + "\n\n" + c.heading + "\n" + c.body + trailer
  {
    SectionTextsThree(a, b, c);
    JoinThree(SectionText(a), SectionText(b), SectionText(c), "\n\n");
  }

  lemma SectionTextsThree(a: Section, b: Section, c: Section)
    ensures SectionTexts([a, b, c]) == [SectionText(a), SectionText(b), SectionText(c)]
  {
    assert [a, b, c][1..] == [b, c];
    SectionTextsTwo(b, c);
  }

  lemma SectionTextsTwo(a: Section, b: Section)
    ensures SectionTexts([a, b]) == [SectionText(a), SectionText(b)]
  {
    assert [a, b][1..] == [b] && [b][1..] == [];
    assert SectionTexts([b]) == [SectionText(b)];
  }

  /** Joining three parts puts the separator between each pair. */
  lemma JoinThree(x: string, y: string, z: string, sep: string)
    ensures Join([x, y, z], sep) == x + sep + y + sep + z
  {
    assert [x, y, z][1..] == [y, z] && [y, z][1..] == [z];
    assert Join([y, z], sep) == y + sep + z;
  }

  /** Joining two parts puts the separator between them. */
  lemma JoinTwo(x: string, y: string, sep: string)
    ensures Join([x, y], sep) == x + sep + y
  {
    assert [x, y][1..] == [y];
  }

  /** A rendered prompt of two sections. */
  lemma RenderTwo(lead: string, a: Section, b: Section, trailer: string)
    ensures Render(Prompt(lead, [a, b], trailer))
      == lead + a.heading + "\n" + a.body + "\n\n" + b.heading + "\n" + b.body + trailer
  {
    SectionTextsTwo(a, b);
    JoinTwo(SectionText(a), SectionText(b), "\n\n");
  }

  /** The rendered replier and sentiment prompts are the f-strings of `inject_memory_replier` and
      `inject_memory_sentiment`: instructions,
      banner, then each heading above its body, and the closing request. */
  lemma MemoryPromptText(instructions: string, st: ShortTerm.ShortTermStore, sm: Summaries.SummaryStore,
                         store: LongTerm.Store, codec: JsonCodec)
    ensures var s := ShortTermBody(ShortTerm.GetChats(st), codec);
      var m := SummaryBody(Summaries.GetSummaries(sm.memory), codec);
      var l := LongTermBody(store, codec);
      Render(MemoryPrompt(instructions, st, sm, store, codec))
        == instructions + MemoryBanner + ShortTermHeading + "\n" + s
           + "\n\n" + SummaryHeading + "\n" + m
           + "\n\n" + LongTermHeading + "\n" + l
           + MemoryClosing
  {
    var p := MemoryPrompt(instructions, st, sm, store, codec);
    assert p.sections == [p.sections[0], p.sections[1], p.sections[2]];
    RenderThree(p.lead, p.sections[0], p.sections[1], p.sections[2], p.trailer);
  }

  /** The rendered global prompt is the f-string of `inject_global_prompt` with its two bodies
      filled in. */
  lemma GlobalPromptText(st: ShortTerm.ShortTermStore, sm: Summaries.SummaryStore, codec: JsonCodec)
    ensures Render(GlobalPrompt(st, sm, codec))
      == GlobalInstructions + "\n    \n" + SummaryHeading + "\n" + DumpList(codec.entry, sm.memory.summaries)
         + "\n\n" + ShortTermHeading + "\n" + ShortTermBody(ShortTerm.GetChats(st), codec) + "\n"
  {
    var p := GlobalPrompt(st, sm, codec);
    assert p.sections == [p.sections[0], p.sections[1]];
    RenderTwo(p.lead, p.sections[0], p.sections[1], p.trailer);
  }

  /** Once the archive holds five summaries, a new summary that evicts nothing leaves the replier
      and sentiment prompts unchanged: they only ever see the oldest five. */
  lemma NewSummaryUnseen(instructions: string, st: ShortTerm.ShortTermStore, sm: Summaries.SummaryStore,
                         store: LongTerm.Store, codec: JsonCodec, summary: string, mood: string, now: string)
    requires Summaries.RecentLimit <= |sm.memory.summaries| < sm.memory.maxSummaries
    ensures var sm' := sm.(memory := Summaries.AddSummaryEntry(sm.memory, summary, mood, now));
      MemoryPrompt(instructions, st, sm', store, codec) == MemoryPrompt(instructions, st, sm, store, codec)
  {
    var m' := Summaries.AddSummaryEntry(sm.memory, summary, mood, now);
    assert m'.summaries[..|m'.summaries| - 1] == sm.memory.summaries;
    assert m'.summaries[..Summaries.RecentLimit] == sm.memory.summaries[..Summaries.RecentLimit];
  }

  /** A long-term store written only through `save_memory`, under ids none of which prints as
      "0", never holds a profile under the key the prompts look up, so their long-term section
      is always the placeholder. A write under the string "0" does reach that key
      (`LongTerm.ZeroStringReachesDefault`). */
  lemma LongTermAlwaysPlaceholder(writes: seq<(LongTerm.Profile, LongTerm.RuntimeContext)>, codec: JsonCodec)
    requires forall i :: 0 <= i < |writes| ==> !LongTerm.WritesZeroText(writes[i])
    ensures LongTermBody(LongTerm.SaveAll(map[], writes), codec) == NoLongTermMemory
  {
    LongTerm.SaveAllKeepsDefault(map[], writes);
  }
}
