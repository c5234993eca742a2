/** The command-line front end: its input dispatch, its read loop and the sentiment styling of
    each answer. The agents' model calls are outside this model; what their tools write during a
    chat message arrives with each line, and the loop's own effects are the message counter and
    the `/clear` command. */
module Cli {
  import opened Text
  import ShortTerm
  import Summaries
  import LongTerm
  import AgentTools
  import AgentOutput

  /** What one input line asks for. `Chat` carries the stripped text that is sent to the agents. */
  datatype Command = Skip | Exit | Help | ShowMemory | ShowSummaries | ShowMood | ShowStats | Clear | Chat(text: string)

  /** The commands, lower-case. */
  const CommandWords: set<string> := {"/exit", "/quit", "/help", "/memory", "/summaries", "/mood", "/stats", "/clear"}

  /** Strip the line; an empty line is skipped; a command is recognised in any letter case; any
      other text is a chat message. */
  function Dispatch(line: string): (c: Command)
    ensures c == Skip <==> Strip(line) == ""
    ensures c == Exit <==> Strip(line) != "" && Lower(Strip(line)) in {"/exit", "/quit"}
    ensures c == Clear <==> Strip(line) != "" && Lower(Strip(line)) == "/clear"
    ensures c.Chat? <==> Strip(line) != "" && Lower(Strip(line)) !in CommandWords
    ensures c.Chat? ==> c.text == Strip(line)
  {
    var s := Strip(line);
    if s == "" then Skip else CommandFor(Lower(s), s)
  }

  /** The command a non-empty stripped line `s` asks for, given its lower-case form `l`. */
  function CommandFor(l: string, s: string): (c: Command)
    ensures c != Skip
    ensures c == Exit <==> l in {"/exit", "/quit"}
    ensures c == Clear <==> l == "/clear"
    ensures c.Chat? <==> l !in CommandWords
    ensures c.Chat? ==> c.text == s
  {
    if l == "/exit" || l == "/quit" then Exit
    else if l == "/help" then Help
    else if l == "/memory" then ShowMemory
    else if l == "/summaries" then ShowSummaries
    else if l == "/mood" then ShowMood
    else if l == "/stats" then ShowStats
    else if l == "/clear" then Clear
    else Chat(s)
  }

  /** Whitespace around a line never changes what it asks for. */
  lemma DispatchIgnoresPadding(a: string, line: string, b: string)
    requires AllSpace(a) && AllSpace(b) && IsTrimmed(line)
    ensures Dispatch(a + line + b) == Dispatch(line)
  {
    StripPadded(a, line, b);
    assert Strip(line) == line;
  }

  /** Two lines that agree once stripped and lower-cased ask for the same command. */
  lemma DispatchIgnoresCase(a: string, b: string)
    requires Lower(Strip(a)) == Lower(Strip(b))
    requires !Dispatch(a).Chat?
    ensures Dispatch(a) == Dispatch(b)
  {
    var sa, sb := Strip(a), Strip(b);
    assert |sa| == |Lower(sa)| == |Lower(sb)| == |sb|;
    if sa != "" {
      assert Dispatch(a) == CommandFor(Lower(sa), sa);
      assert Dispatch(b) == CommandFor(Lower(sb), sb);
      CommandIgnoresText(Lower(sa), sa, sb);
    }
  }

  /** For a command word, the line's own text plays no part. */
  lemma CommandIgnoresText(l: string, s1: string, s2: string)
    requires l in CommandWords
    ensures CommandFor(l, s1) == CommandFor(l, s2)
  {
  }

  /** The runtime context the CLI's agents see: `process_message` invokes them with no context. */
  const CliRuntime: LongTerm.RuntimeContext := LongTerm.NoContext

  /** The session counter and the stores the loop and the agents' tools write. */
  datatype CliState = CliState(messageCount: nat, memory: AgentTools.Memory)

  /** One line typed at the prompt, and the tool calls the agents made while it was processed
      (ignored unless the line is a chat message). */
  datatype Input = Input(line: string, uses: seq<AgentTools.ToolUse>)

  /** The command of every line, in order. */
  function Dispatched(inputs: seq<Input>): (r: seq<Command>)
    ensures |r| == |inputs|
    ensures forall i :: 0 <= i < |inputs| ==> r[i] == Dispatch(inputs[i].line)
  {
    if |inputs| == 0 then [] else [Dispatch(inputs[0].line)] + Dispatched(inputs[1..])
  }

  /** The tool calls of every line, in order. */
  function UsesOf(inputs: seq<Input>): (r: seq<seq<AgentTools.ToolUse>>)
    ensures |r| == |inputs|
    ensures forall i :: 0 <= i < |inputs| ==> r[i] == inputs[i].uses
  {
    if |inputs| == 0 then [] else [inputs[0].uses] + UsesOf(inputs[1..])
  }

  /** The state after one command that does not end the session. A chat message counts once
      (before the agents are called, so it counts even when they fail) and its tool calls write
      the stores; `/clear` empties the buffer and leaves the log, the archive and the profiles;
      every other command only displays. */
  function Step(s: CliState, c: Command, uses: seq<AgentTools.ToolUse>, parse: string -> Summaries.Parsed): (r: CliState)
    requires AgentTools.Valid(s.memory)
    ensures AgentTools.Valid(r.memory)
    ensures r.messageCount == s.messageCount + (if c.Chat? then 1 else 0)
    ensures ShortTerm.LogKept(s.memory.short.moodShifts, r.memory.short.moodShifts)
    ensures c == Clear ==>
      && r.memory.short.memory.chats == []
      && r.memory.short.moodShifts == s.memory.short.moodShifts
      && r.memory.summaries == s.memory.summaries && r.memory.profiles == s.memory.profiles
    ensures c.Chat? ==> r.memory == AgentTools.UseAll(s.memory, uses, CliRuntime, parse)
    ensures !c.Chat? && c != Clear ==> r == s
  {
    match c
    case Chat(_) => CliState(s.messageCount + 1, AgentTools.UseAll(s.memory, uses, CliRuntime, parse))
    case Clear =>
      var short := ShortTerm.ClearMemory(s.memory.short);
      ShortTerm.LogKeptByAppend(s.memory.short.moodShifts, short.moodShifts);
      s.(memory := s.memory.(short := short))
    case _ =>
      ShortTerm.LogKeptByAppend(s.memory.short.moodShifts, s.memory.short.moodShifts);
      s
  }

  /** The state after the commands `cmds`, none of them an exit, each with its tool calls: the
      reference the loop is measured against. */
  function Replay(s: CliState, cmds: seq<Command>, uses: seq<seq<AgentTools.ToolUse>>, parse: string -> Summaries.Parsed): (r: CliState)
    requires AgentTools.Valid(s.memory) && |uses| == |cmds|
    ensures AgentTools.Valid(r.memory)
    decreases |cmds|
  {
    if |cmds| == 0 then s
    else Step(Replay(s, cmds[..|cmds| - 1], uses[..|cmds| - 1], parse), cmds[|cmds| - 1], uses[|cmds| - 1], parse)
  }

  /** The number of commands up to the first exit, that one included; all of them without one. */
  function ReadLength(cmds: seq<Command>): (n: nat)
    ensures n <= |cmds|
    ensures forall k :: 0 <= k < n - 1 ==> cmds[k] != Exit
    ensures (n > 0 && cmds[n - 1] == Exit) || (n == |cmds| && forall k :: 0 <= k < |cmds| ==> cmds[k] != Exit)
  {
    if |cmds| == 0 then 0
    else if cmds[0] == Exit then 1
    else 1 + ReadLength(cmds[1..])
  }

  /** The commands the loop acts on: those read, without a final exit. */
  function Acted(cmds: seq<Command>): (n: nat)
    ensures n <= ReadLength(cmds) <= n + 1
    ensures forall k :: 0 <= k < n ==> cmds[k] != Exit
  {
    var read := ReadLength(cmds);
    if read > 0 && cmds[read - 1] == Exit then read - 1 else read
  }

  /** The number of chat messages among `cmds`. */
  function ChatCount(cmds: seq<Command>): nat {
    if |cmds| == 0 then 0 else ChatCount(cmds[..|cmds| - 1]) + (if cmds[|cmds| - 1].Chat? then 1 else 0)
  }

  /** `run`: read lines until an exit command. `read` is how many lines were consumed. The state
      is the replay of the commands acted on: the count rises once per chat message, the log only
      grows, and no profile is written, since the agents run without a context. */
  method Run(s: CliState, inputs: seq<Input>, parse: string -> Summaries.Parsed) returns (r: CliState, read: nat, ended: bool)
    requires AgentTools.Valid(s.memory)
    ensures var cmds := Dispatched(inputs);
      var n := Acted(cmds);
      && read == ReadLength(cmds)
      && (ended <==> read > 0 && cmds[read - 1] == Exit)
      && r == Replay(s, cmds[..n], UsesOf(inputs)[..n], parse)
      && r.messageCount == s.messageCount + ChatCount(cmds[..n])
    ensures ShortTerm.LogKept(s.memory.short.moodShifts, r.memory.short.moodShifts)
    ensures r.memory.profiles == s.memory.profiles
  {
    var cmds, uses := Dispatched(inputs), UsesOf(inputs);
    r, read, ended := RunCommands(s, cmds, uses, parse);
    var n := Acted(cmds);
    ReplayCounts(s, cmds[..n], uses[..n], parse);
    ReplayKeepsLog(s, cmds[..n], uses[..n], parse);
    ReplayKeepsProfiles(s, cmds[..n], uses[..n], parse);
  }

  /** The loop of `run` over the commands the lines ask for. */
  method RunCommands(s: CliState, cmds: seq<Command>, uses: seq<seq<AgentTools.ToolUse>>, parse: string -> Summaries.Parsed)
    returns (r: CliState, read: nat, ended: bool)
    requires AgentTools.Valid(s.memory) && |uses| == |cmds|
    ensures read == ReadLength(cmds)
    ensures ended <==> read > 0 && cmds[read - 1] == Exit
    ensures r == Replay(s, cmds[..Acted(cmds)], uses[..Acted(cmds)], parse)
  {
    r, read, ended := s, 0, false;
    assert cmds[..0] == [] && uses[..0] == [];
    while read < |cmds|
      invariant 0 <= read <= |cmds|
      invariant forall k :: 0 <= k < read ==> cmds[k] != Exit
      invariant ReadLength(cmds) == read + ReadLength(cmds[read..])
      invariant r == Replay(s, cmds[..read], uses[..read], parse)
      decreases |cmds| - read
    {
      var c := cmds[read];
      ReadStep(cmds, read);
      if c == Exit {
        ExitActsBefore(cmds, read);
        read, ended := read + 1, true;
        return;
      }
      ReplayStep(s, cmds, uses, read, parse);
      r := Step(r, c, uses[read], parse);
      read := read + 1;
    }
    NoExitActsAll(cmds);
  }

  /** An exit at `read`, after none, is the last command read and the first not acted on. */
  lemma ExitActsBefore(cmds: seq<Command>, read: nat)
    requires read < |cmds| && cmds[read] == Exit
    requires ReadLength(cmds) == read + ReadLength(cmds[read..])
    ensures ReadLength(cmds) == read + 1 && Acted(cmds) == read
  {
  }

  /** Without an exit every command is acted on. */
  lemma NoExitActsAll(cmds: seq<Command>)
    requires forall k :: 0 <= k < |cmds| ==> cmds[k] != Exit
    ensures ReadLength(cmds) == |cmds| && Acted(cmds) == |cmds|
  {
  }

  /** Reading one more command moves the remaining read length. */
  lemma ReadStep(cmds: seq<Command>, read: nat)
    requires read < |cmds|
    ensures ReadLength(cmds[read..]) == if cmds[read] == Exit then 1 else 1 + ReadLength(cmds[read + 1..])
  {
    assert cmds[read..][1..] == cmds[read + 1..];
  }

  /** The replay of one more command is one more step. */
  lemma ReplayStep(s: CliState, cmds: seq<Command>, uses: seq<seq<AgentTools.ToolUse>>, read: nat, parse: string -> Summaries.Parsed)
    requires AgentTools.Valid(s.memory) && |uses| == |cmds| && read < |cmds|
    ensures Replay(s, cmds[..read + 1], uses[..read + 1], parse)
         == Step(Replay(s, cmds[..read], uses[..read], parse), cmds[read], uses[read], parse)
  {
    assert cmds[..read + 1][..read] == cmds[..read];
    assert uses[..read + 1][..read] == uses[..read];
  }

  /** The count rises once per chat message. */
  lemma {:induction false} ReplayCounts(s: CliState, cmds: seq<Command>, uses: seq<seq<AgentTools.ToolUse>>, parse: string -> Summaries.Parsed)
    requires AgentTools.Valid(s.memory) && |uses| == |cmds|
    ensures Replay(s, cmds, uses, parse).messageCount == s.messageCount + ChatCount(cmds)
    decreases |cmds|
  {
    if |cmds| > 0 {
      ReplayCounts(s, cmds[..|cmds| - 1], uses[..|cmds| - 1], parse);
    }
  }

  /** Neither the loop nor the tools ever drop a mood-shift record: `/clear` leaves the log. */
  lemma {:induction false} ReplayKeepsLog(s: CliState, cmds: seq<Command>, uses: seq<seq<AgentTools.ToolUse>>, parse: string -> Summaries.Parsed)
    requires AgentTools.Valid(s.memory) && |uses| == |cmds|
    ensures ShortTerm.LogKept(s.memory.short.moodShifts, Replay(s, cmds, uses, parse).memory.short.moodShifts)
    decreases |cmds|
  {
    if |cmds| == 0 {
      ShortTerm.LogKeptByAppend(s.memory.short.moodShifts, s.memory.short.moodShifts);
    } else {
      var before := Replay(s, cmds[..|cmds| - 1], uses[..|cmds| - 1], parse);
      ReplayKeepsLog(s, cmds[..|cmds| - 1], uses[..|cmds| - 1], parse);
      ShortTerm.LogKeptTransitive(s.memory.short.moodShifts, before.memory.short.moodShifts,
                                  Replay(s, cmds, uses, parse).memory.short.moodShifts);
    }
  }

  /** No profile is ever written from the CLI: its agents run without a runtime context, so every
      `save_memory` call raises. */
  lemma {:induction false} ReplayKeepsProfiles(s: CliState, cmds: seq<Command>, uses: seq<seq<AgentTools.ToolUse>>, parse: string -> Summaries.Parsed)
    requires AgentTools.Valid(s.memory) && |uses| == |cmds|
    ensures Replay(s, cmds, uses, parse).memory.profiles == s.memory.profiles
    decreases |cmds|
  {
    if |cmds| > 0 {
      var before := Replay(s, cmds[..|cmds| - 1], uses[..|cmds| - 1], parse);
      ReplayKeepsProfiles(s, cmds[..|cmds| - 1], uses[..|cmds| - 1], parse);
      if cmds[|cmds| - 1].Chat? {
        AgentTools.ProfilesUntouched(before.memory, uses[|cmds| - 1], CliRuntime, parse);
      }
    }
  }

  /** After a `/clear` followed by display commands only, the buffer is empty. */
  lemma {:induction false} ClearThenDisplayEmpties(s: CliState, cmds: seq<Command>, uses: seq<seq<AgentTools.ToolUse>>,
                                                   k: nat, parse: string -> Summaries.Parsed)
    requires AgentTools.Valid(s.memory) && |uses| == |cmds|
    requires k < |cmds| && cmds[k] == Clear
    requires forall j :: k < j < |cmds| ==> !cmds[j].Chat?
    ensures Replay(s, cmds, uses, parse).memory.short.memory.chats == []
    decreases |cmds|
  {
    var n := |cmds|;
    if k < n - 1 {
      var cmds', uses' := cmds[..n - 1], uses[..n - 1];
      assert cmds'[k] == Clear;
      ClearThenDisplayEmpties(s, cmds', uses', k, parse);
    }
  }

  /** The tool calls that came with a command that is not a chat message play no part. */
  lemma NonChatIgnoresUses(s: CliState, c: Command, u1: seq<AgentTools.ToolUse>, u2: seq<AgentTools.ToolUse>, parse: string -> Summaries.Parsed)
    requires AgentTools.Valid(s.memory) && !c.Chat?
    ensures Step(s, c, u1, parse) == Step(s, c, u2, parse)
  {
  }

  /** Lines after an exit command are never read. */
  lemma LinesAfterExitIgnored(head: seq<Command>, tail1: seq<Command>, tail2: seq<Command>)
    ensures ReadLength(head + [Exit] + tail1) == ReadLength(head + [Exit] + tail2)
  {
    ReadThrough(head, tail1);
    ReadThrough(head, tail2);
  }

  /** The first exit in `head + [Exit]` stops the loop there, whatever follows. */
  lemma {:induction false} ReadThrough(head: seq<Command>, tail: seq<Command>)
    ensures ReadLength(head + [Exit] + tail) == ReadLength(head + [Exit])
    decreases |head|
  {
    var all := head + [Exit] + tail;
    if |head| > 0 && head[0] != Exit {
      assert all[1..] == head[1..] + [Exit] + tail;
      assert (head + [Exit])[1..] == head[1..] + [Exit];
      ReadThrough(head[1..], tail);
    }
  }

  /** The colour the answer's sentiment is printed in; unknown sentiments are white. */
  function SentimentColor(sentiment: string): (r: string)
    ensures r == "white" <==> sentiment !in {AgentOutput.Positive, AgentOutput.Negative, AgentOutput.Neutral}
    ensures sentiment == AgentOutput.Positive ==> r == "green"
    ensures sentiment == AgentOutput.Negative ==> r == "red"
    ensures sentiment == AgentOutput.Neutral ==> r == "yellow"
  {
    if sentiment == AgentOutput.Positive then "green"
    else if sentiment == AgentOutput.Negative then "red"
    else if sentiment == AgentOutput.Neutral then "yellow"
    else "white"
  }
}
