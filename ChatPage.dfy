/**
 * The chat page of the wizard: the agent built for a persona the first time
 * it is chosen (its instructions and its tools) and the chat history that
 * every submitted prompt extends with a user and an assistant entry.
 */
module ChatPage {
  import opened Wrappers
  import opened AgentClone

  /** The built-in agent tools the wizard can hand to an agent. */
  datatype Tool = WebSearch | FileSearch | CodeInterpreter

  /** The name under which a persona enables a tool. */
  function ToolName(t: Tool): string
  {
    match t
    case WebSearch => "web_search"
    case FileSearch => "file_search"
    case CodeInterpreter => "code"
  }

  /** The fixed order in which tools are handed to the agent. */
  function Rank(t: Tool): nat
  {
    match t
    case WebSearch => 0
    case FileSearch => 1
    case CodeInterpreter => 2
  }

  const AllTools: seq<Tool> := [WebSearch, FileSearch, CodeInterpreter]

  predicate InFixedOrder(ts: seq<Tool>)
  {
    forall i, j :: 0 <= i < j < |ts| ==> Rank(ts[i]) < Rank(ts[j])
  }

  /**
   * The tools of `ts` whose name is enabled, in the order of `ts`: the
   * specification of the tool selection.
   */
  function Keep(ts: seq<Tool>, enabled: seq<string>): (r: seq<Tool>)
  {
    if ts == [] then []
    else (if ToolName(ts[0]) in enabled then [ts[0]] else []) + Keep(ts[1..], enabled)
  }

  /** A tool is selected exactly when it is offered and its name is enabled. */
  lemma {:induction false} KeepMembers(ts: seq<Tool>, enabled: seq<string>)
    ensures forall t :: t in Keep(ts, enabled) <==> t in ts && ToolName(t) in enabled
  {
    if ts != [] {
      KeepMembers(ts[1..], enabled);
      assert ts == [ts[0]] + ts[1..];
    }
  }

  /** Selection never reorders: from tools in the fixed order it keeps that order. */
  lemma {:induction false} KeepOrdered(ts: seq<Tool>, enabled: seq<string>)
    requires InFixedOrder(ts)
    ensures InFixedOrder(Keep(ts, enabled))
  {
    if ts != [] {
      var rest := Keep(ts[1..], enabled);
      KeepOrdered(ts[1..], enabled);
      KeepMembers(ts[1..], enabled);
      forall t | t in rest
        ensures Rank(ts[0]) < Rank(t)
      {
        var j :| 0 <= j < |ts[1..]| && ts[1..][j] == t;
        assert ts[j + 1] == t;
      }
      var r := Keep(ts, enabled);
      forall i, j | 0 <= i < j < |r|
        ensures Rank(r[i]) < Rank(r[j])
      {
        if ToolName(ts[0]) in enabled {
          assert r == [ts[0]] + rest;
          if i == 0 {
            assert r[j] == rest[j - 1];
          } else {
            assert r[i] == rest[i - 1] && r[j] == rest[j - 1];
          }
        } else {
          assert r == rest;
        }
      }
    }
  }

  lemma KeepCons(t: Tool, ts: seq<Tool>, enabled: seq<string>)
    ensures Keep([t] + ts, enabled) == (if ToolName(t) in enabled then [t] else []) + Keep(ts, enabled)
  {
    assert ([t] + ts)[1..] == ts;
  }

  /** The selection from all tools, spelled out tool by tool. */
  lemma KeepAllTools(enabled: seq<string>)
    ensures Keep(AllTools, enabled)
         == (if ToolName(WebSearch) in enabled then [WebSearch] else [])
          + (if ToolName(FileSearch) in enabled then [FileSearch] else [])
          + (if ToolName(CodeInterpreter) in enabled then [CodeInterpreter] else [])
    ensures InFixedOrder(AllTools)
  {
    var w := if ToolName(WebSearch) in enabled then [WebSearch] else [];
    var f := if ToolName(FileSearch) in enabled then [FileSearch] else [];
    var c := if ToolName(CodeInterpreter) in enabled then [CodeInterpreter] else [];
    assert AllTools == [WebSearch] + [FileSearch, CodeInterpreter];
    assert [FileSearch, CodeInterpreter] == [FileSearch] + [CodeInterpreter];
    assert [CodeInterpreter] == [CodeInterpreter] + [];
    KeepCons(CodeInterpreter, [], enabled);
    assert Keep([CodeInterpreter], enabled) == c;
    KeepCons(FileSearch, [CodeInterpreter], enabled);
    assert Keep([FileSearch, CodeInterpreter], enabled) == f + c;
    KeepCons(WebSearch, [FileSearch, CodeInterpreter], enabled);
    assert Keep(AllTools, enabled) == w + (f + c);
    assert w + (f + c) == w + f + c;
    assert forall i :: 0 <= i < |AllTools| ==> Rank(AllTools[i]) == i;
  }

  lemma EveryToolKnown()
    ensures forall t: Tool :: t in AllTools
  {
    forall t: Tool
      ensures t in AllTools
    {
      assert AllTools[Rank(t)] == t;
    }
  }

  /**
   * Building `tools_to_use`: one membership test per known tool name, in
   * the fixed order; names that are not tool names are ignored.
   */
  method SelectTools(enabled: seq<string>) returns (tools: seq<Tool>)
    ensures tools == Keep(AllTools, enabled)
    ensures forall t :: t in tools <==> ToolName(t) in enabled
    ensures InFixedOrder(tools)
  {
    tools := [];
    if ToolName(WebSearch) in enabled {
      tools := tools + [WebSearch];
    }
    if ToolName(FileSearch) in enabled {
      tools := tools + [FileSearch];
    }
    if ToolName(CodeInterpreter) in enabled {
      tools := tools + [CodeInterpreter];
    }
    KeepAllTools(enabled);
    KeepOrdered(AllTools, enabled);
    KeepMembers(AllTools, enabled);
    EveryToolKnown();
  }

  /** The agent built for a persona: its name, its instructions and its tools. */
  datatype Agent = Agent(name: string, instructions: string, tools: seq<Tool>)

  datatype Role = User | Assistant

  /** One entry of the chat history. */
  datatype Message = Message(role: Role, content: string)

  const NoResponse := "No response."

  /** What the assistant entry says, given the agent's final output, if any. */
  function Reply(output: Option<string>): (r: string)
    ensures r != ""
    ensures output.Some? && output.value != "" ==> r == output.value
    ensures output.None? || output.value == "" ==> r == NoResponse
  {
    if output.Some? && output.value != "" then output.value else NoResponse
  }

  /** A history is a sequence of exchanges: user, assistant, user, assistant, ... */
  predicate Alternates(h: seq<Message>)
  {
    |h| % 2 == 0
    && forall i :: 0 <= i < |h| ==> h[i].role == (if i % 2 == 0 then User else Assistant)
  }

  /** The page's session state: the agents built so far, by persona id, and the history shown. */
  class ChatSessions {
    var agents: map<string, Agent>
    var history: seq<Message>

    ghost predicate Valid()
      reads this
    {
      Alternates(history)
    }

    constructor ()
      ensures Valid()
      ensures agents == map[] && history == []
    {
      agents := map[];
      history := [];
    }

    /**
     * Choosing persona `p`: the first time, its agent is built from its
     * system prompt and its selected tools and the history is cleared;
     * afterwards the existing agent is reused and the history is kept.
     */
    method OpenChat(p: Persona, listRepr: seq<string> -> string)
      requires Valid()
      modifies this
      ensures Valid()
      ensures p.id in old(agents) ==> agents == old(agents) && history == old(history)
      ensures p.id !in old(agents) ==>
        agents == old(agents)[p.id := Agent(p.name, SystemPrompt(p, listRepr), Keep(AllTools, p.toolsEnabled))]
        && history == []
    {
      if p.id !in agents {
        var tools := SelectTools(p.toolsEnabled);
        agents := agents[p.id := Agent(p.name, SystemPrompt(p, listRepr), tools)];
        history := [];
      }
    }

    /**
     * One chat turn. `prompt` is what the chat input returned and `output`
     * the agent's final output for it; an empty or absent prompt does nothing.
     */
    method SubmitPrompt(prompt: Option<string>, output: Option<string>)
      requires Valid()
      modifies this
      ensures Valid()
      ensures agents == old(agents)
      ensures prompt.Some? && prompt.value != "" ==>
        history == old(history) + [Message(User, prompt.value), Message(Assistant, Reply(output))]
      ensures prompt.None? || prompt.value == "" ==> history == old(history)
    {
      if prompt.Some? && prompt.value != "" {
        history := history + [Message(User, prompt.value)];
        history := history + [Message(Assistant, Reply(output))];
      }
    }
  }
}
