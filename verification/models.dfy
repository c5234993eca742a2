/** The records of the chat application's memory subsystem. Every label is an unconstrained
    string, so `"POS"` and `"POSITIVE"` are different values. */
module Models {
  import opened Wrappers

  /** One exchange: the user's text, the assistant's reply once known, and the sentiment. */
  datatype ChatMemory = ChatMemory(
    user: string,
    assistant: Option<string> := None,
    sentimentScore: real,
    sentimentType: string)

  /** The short-term buffer; the application's single instance is created empty with capacity 5. */
  datatype ShortTermMemory = ShortTermMemory(chats: seq<ChatMemory>, maxChats: int := 5)

  datatype SummaryEntry = SummaryEntry(summary: string, generalMood: string, timestamp: string)

  /** The summary archive; created empty with capacity 10. */
  datatype SummaryMemory = SummaryMemory(summaries: seq<SummaryEntry>, maxSummaries: int := 10)

  /** The per-session identity record of the front ends. */
  datatype Context = Context(userId: string := "default_user")

  /** The chats a mood-shift record wraps; nothing constrains how many. */
  datatype Local = Local(chat: seq<ChatMemory>)

  datatype MoodShift = MoodShift(moodshift: Local)
}
