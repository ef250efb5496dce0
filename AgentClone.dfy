/**
 * The persona logic of the agent-clone wizard: the system prompt an agent
 * is instructed with, the parsing of the knowledge-sources text box, the
 * deletion of a persona and the check on the first step of the create form.
 */
module AgentClone {
  import opened Wrappers
  import opened PyStr

  /** A saved agent persona; `agentType` is the persona's `type` field. */
  datatype Persona = Persona(
    id: string,
    name: string,
    agentType: string,
    sourceType: string,
    source: string,
    shortDescription: string,
    toolsEnabled: seq<string>,
    memoryEnabled: bool,
    knowledgeSources: seq<string>)

  // ---------------------------------------------------------------- system prompt

  function ToolsClause(tools: seq<string>): string
  {
    if tools != [] then Join(tools, ", ") else "no extra tools"
  }

  function MemoryPhrase(enabled: bool): string
  {
    if enabled then "with memory" else "without memory"
  }

  /**
   * The knowledge clause. `listRepr` stands for Python's `repr` of a list
   * of strings, whose formatting is not modelled.
   */
  function KnowledgeClause(sources: seq<string>, listRepr: seq<string> -> string): string
  {
    if sources != [] then "Additional knowledge sources: " + listRepr(sources) else ""
  }

  /** The first two lines of the prompt: identity, source and expertise. */
  function Intro(p: Persona): string
  {
    "You are " + p.name + ", a " + p.agentType + " using " + p.sourceType + " (" + p.source + ").\n"
    + "Expertise: " + p.shortDescription + "\n"
  }

  const ToolsLabel := "Tools enabled: "

  /** Index at which the memory phrase starts in the prompt. */
  function MemoryAt(p: Persona): nat
  {
    |Intro(p)| + |ToolsLabel| + |ToolsClause(p.toolsEnabled)| + 2
  }

  /** The prompt's frame, around its four variable parts. */
  function Assemble(head: string, tools: string, memory: string, knowledge: string): string
  {
    head + tools + ", " + memory + ". " + knowledge
  }

  /** `make_system_prompt(persona)`. */
  function SystemPrompt(p: Persona, listRepr: seq<string> -> string): string
  {
    Assemble(Intro(p) + ToolsLabel, ToolsClause(p.toolsEnabled), MemoryPhrase(p.memoryEnabled),
             KnowledgeClause(p.knowledgeSources, listRepr))
  }

  /** The prompt opens by naming the persona, and its third line opens with the tools label. */
  lemma PromptIntroducesPersona(p: Persona, listRepr: seq<string> -> string)
    ensures "You are " + p.name <= SystemPrompt(p, listRepr)
    ensures OccursAt(SystemPrompt(p, listRepr), ToolsLabel, |Intro(p)|)
  {
    var head := Intro(p) + ToolsLabel;
    var r := SystemPrompt(p, listRepr);
    AssembleParts(head, ToolsClause(p.toolsEnabled), MemoryPhrase(p.memoryEnabled),
                  KnowledgeClause(p.knowledgeSources, listRepr));
    assert r[..|"You are " + p.name|] == head[..|"You are " + p.name|];
    assert r[|Intro(p)|..|Intro(p)| + |ToolsLabel|] == head[|Intro(p)|..|head|];
  }

  /** Where each part lands in the assembled prompt. */
  lemma AssembleParts(head: string, tools: string, memory: string, knowledge: string)
    ensures var r := Assemble(head, tools, memory, knowledge);
      && head <= r
      && OccursAt(r, tools, |head|)
      && OccursAt(r, memory, |head| + |tools| + 2)
      && EndsWith(r, ". " + knowledge)
      && (knowledge == "" ==> EndsWith(r, memory + ". "))
  {
    var r := Assemble(head, tools, memory, knowledge);
    var front := head + tools + ", ";
    assert r == head + (tools + (", " + memory + ". " + knowledge));
    assert r == front + (memory + (". " + knowledge));
    assert r == (front + memory) + (". " + knowledge);
    assert r[|head|..|head| + |tools|] == tools;
    assert r[|front|..|front| + |memory|] == memory;
    if knowledge == "" {
      assert r == front + (memory + ". ");
    }
  }

  /** A character of an occurrence is the character of the string at that place. */
  lemma OccursAtChar(s: string, t: string, k: nat, j: nat)
    requires OccursAt(s, t, k) && j < |t|
    ensures s[k + j] == t[j]
  {
    assert s[k..k + |t|][j] == t[j];
  }

  /** Every enabled tool name appears at its place in the ", "-joined tools clause. */
  lemma ToolsClauseNamesTool(ts: seq<string>, i: nat)
    requires i < |ts|
    ensures OccursAt(ToolsClause(ts), ts[i], Offset(ts, ", ", i))
  {
    JoinAt(ts, ", ", i);
  }

  /** With no tool enabled the tools line of the prompt reads "no extra tools". */
  lemma PromptWithoutTools(p: Persona, listRepr: seq<string> -> string)
    requires p.toolsEnabled == []
    ensures OccursAt(SystemPrompt(p, listRepr), "no extra tools", |Intro(p)| + |ToolsLabel|)
  {
    AssembleParts(Intro(p) + ToolsLabel, ToolsClause(p.toolsEnabled), MemoryPhrase(p.memoryEnabled),
                  KnowledgeClause(p.knowledgeSources, listRepr));
  }

  /**
   * Otherwise every enabled tool name appears in the tools line, in order,
   * at its place in the ", "-joined list.
   */
  lemma PromptListsTools(p: Persona, listRepr: seq<string> -> string)
    ensures forall i :: 0 <= i < |p.toolsEnabled| ==>
      OccursAt(SystemPrompt(p, listRepr), p.toolsEnabled[i],
               |Intro(p)| + |ToolsLabel| + Offset(p.toolsEnabled, ", ", i))
  {
    var ts := p.toolsEnabled;
    var head, tools := Intro(p) + ToolsLabel, ToolsClause(ts);
    var r := SystemPrompt(p, listRepr);
    AssembleParts(head, tools, MemoryPhrase(p.memoryEnabled), KnowledgeClause(p.knowledgeSources, listRepr));
    forall i | 0 <= i < |ts|
      ensures OccursAt(r, ts[i], |head| + Offset(ts, ", ", i))
    {
      ToolsClauseNamesTool(ts, i);
      OccursWithin(r, tools, |head|, ts[i], Offset(ts, ", ", i));
    }
  }

  /** The memory phrase sits right after the tools clause and its comma. */
  lemma PromptMemoryPhraseAt(p: Persona, listRepr: seq<string> -> string)
    ensures OccursAt(SystemPrompt(p, listRepr), MemoryPhrase(p.memoryEnabled), MemoryAt(p))
  {
    var head, tools := Intro(p) + ToolsLabel, ToolsClause(p.toolsEnabled);
    var memory, knowledge := MemoryPhrase(p.memoryEnabled), KnowledgeClause(p.knowledgeSources, listRepr);
    AssembleParts(head, tools, memory, knowledge);
    assert SystemPrompt(p, listRepr) == Assemble(head, tools, memory, knowledge);
    assert MemoryAt(p) == |head| + |tools| + 2;
  }

  /** The prompt says "with memory" exactly when memory is enabled. */
  lemma PromptStatesMemory(p: Persona, listRepr: seq<string> -> string)
    ensures p.memoryEnabled <==> OccursAt(SystemPrompt(p, listRepr), "with memory", MemoryAt(p))
    ensures !p.memoryEnabled ==> OccursAt(SystemPrompt(p, listRepr), "without memory", MemoryAt(p))
  {
    var memory := MemoryPhrase(p.memoryEnabled);
    PromptMemoryPhraseAt(p, listRepr);
    if !p.memoryEnabled {
      OccursAtChar(SystemPrompt(p, listRepr), memory, MemoryAt(p), 4);
      assert memory[4] == 'o' && "with memory"[4] == ' ';
    }
  }

  /** Two personas that differ only in the memory flag get different prompts. */
  lemma PromptDistinguishesMemory(p: Persona, listRepr: seq<string> -> string)
    ensures SystemPrompt(p.(memoryEnabled := true), listRepr)
         != SystemPrompt(p.(memoryEnabled := false), listRepr)
  {
    var on, off := p.(memoryEnabled := true), p.(memoryEnabled := false);
    PromptStatesMemory(on, listRepr);
    PromptStatesMemory(off, listRepr);
    assert MemoryAt(on) == MemoryAt(off);
    OccursAtChar(SystemPrompt(on, listRepr), "with memory", MemoryAt(on), 4);
    OccursAtChar(SystemPrompt(off, listRepr), "without memory", MemoryAt(off), 4);
    assert "with memory"[4] != "without memory"[4];
  }

  /**
   * The prompt ends with the memory sentence when the persona has no
   * knowledge sources, and with the knowledge clause, which names them,
   * otherwise.
   */
  lemma PromptEndsWithKnowledge(p: Persona, listRepr: seq<string> -> string)
    ensures p.knowledgeSources == [] ==>
      EndsWith(SystemPrompt(p, listRepr), MemoryPhrase(p.memoryEnabled) + ". ")
    ensures p.knowledgeSources != [] ==>
      EndsWith(SystemPrompt(p, listRepr), ". " + KnowledgeClause(p.knowledgeSources, listRepr))
      && KnowledgeClause(p.knowledgeSources, listRepr)
         == "Additional knowledge sources: " + listRepr(p.knowledgeSources)
  {
    AssembleParts(Intro(p) + ToolsLabel, ToolsClause(p.toolsEnabled), MemoryPhrase(p.memoryEnabled),
                  KnowledgeClause(p.knowledgeSources, listRepr));
  }

  // ---------------------------------------------------------------- knowledge sources

  /** `[s.strip() for s in lines if s.strip()]`. */
  function StripNonBlank(lines: seq<string>): seq<string>
  {
    if lines == [] then [] else KeptLine(lines[0]) + StripNonBlank(lines[1..])
  }

  /** One line's contribution: its stripped text, unless that is empty. */
  function KeptLine(line: string): seq<string>
  {
    var s := Strip(line);
    if s != "" then [s] else []
  }

  /** What is kept is never blank and never has whitespace at either end. */
  lemma {:induction false} StripNonBlankClean(lines: seq<string>)
    ensures |StripNonBlank(lines)| <= |lines|
    ensures forall x :: x in StripNonBlank(lines) ==> x != "" && IsStripped(x)
  {
    if lines != [] {
      StripNonBlankClean(lines[1..]);
      var s := Strip(lines[0]);
      assert IsStripped(s);
    }
  }

  lemma SeqAssoc<T>(a: seq<T>, b: seq<T>, c: seq<T>)
    ensures a + (b + c) == (a + b) + c
  {
  }

  /** Lines are kept or dropped one by one, in their order. */
  lemma {:induction false} StripNonBlankAppend(a: seq<string>, b: seq<string>)
    ensures StripNonBlank(a + b) == StripNonBlank(a) + StripNonBlank(b)
  {
    if a == [] {
      assert a + b == b;
    } else {
      assert (a + b)[0] == a[0];
      assert (a + b)[1..] == a[1..] + b;
      StripNonBlankAppend(a[1..], b);
      SeqAssoc(KeptLine(a[0]), StripNonBlank(a[1..]), StripNonBlank(b));
    }
  }

  /** The knowledge-sources text box, one source per line. */
  function ParseKnowledge(text: string): (r: seq<string>)
    ensures |r| <= |text|
    ensures forall x :: x in r ==> x != "" && IsStripped(x)
  {
    StripNonBlankClean(SplitLines(text));
    StripNonBlank(SplitLines(text))
  }

  /**
   * Text typed as lines separated by newlines parses to exactly those
   * lines, stripped, with the blank ones dropped, in their order.
   */
  lemma {:induction false} ParseJoinedLines(lines: seq<string>)
    requires forall l :: l in lines ==> NoBreak(l)
    ensures ParseKnowledge(Join(lines, "\n")) == StripNonBlank(lines)
  {
    if |lines| == 0 {
    } else if |lines| == 1 {
      var line := lines[0];
      assert Join(lines, "\n") == line;
      SplitSingleLine(line);
      if line == [] {
        assert KeptLine(line) == [];
      } else {
        assert SplitLines(line) == lines;
      }
    } else {
      var line, rest := lines[0], Join(lines[1..], "\n");
      assert Join(lines, "\n") == line + "\n" + rest;
      SplitFirstLine(line, "\n", rest);
      ParseJoinedLines(lines[1..]);
      var split := [line] + SplitLines(rest);
      assert split[0] == line && split[1..] == SplitLines(rest);
      assert StripNonBlank(split) == KeptLine(line) + StripNonBlank(SplitLines(rest));
    }
  }

  // ---------------------------------------------------------------- deleting

  /** `[x for x in personas if x.id != id]`. */
  function DeleteById(ps: seq<Persona>, id: string): (r: seq<Persona>)
    ensures |r| <= |ps|
    ensures forall x :: x in r <==> x in ps && x.id != id
  {
    if ps == [] then []
    else (if ps[0].id != id then [ps[0]] else []) + DeleteById(ps[1..], id)
  }

  /** Deletion keeps the surviving personas in their original order. */
  lemma {:induction false} DeleteByIdAppend(a: seq<Persona>, b: seq<Persona>, id: string)
    ensures DeleteById(a + b, id) == DeleteById(a, id) + DeleteById(b, id)
  {
    if a == [] {
      assert a + b == b;
    } else {
      assert (a + b)[1..] == a[1..] + b;
      DeleteByIdAppend(a[1..], b, id);
    }
  }

  /** Deleting an id no persona has changes nothing. */
  lemma {:induction false} DeleteAbsentId(ps: seq<Persona>, id: string)
    requires forall x :: x in ps ==> x.id != id
    ensures DeleteById(ps, id) == ps
  {
    if ps != [] {
      DeleteAbsentId(ps[1..], id);
      assert ps == [ps[0]] + ps[1..];
    }
  }

  // ---------------------------------------------------------------- create form, step 1

  /** What the first form step remembers for the second. */
  datatype Meta = Meta(name: string, agentType: string, sourceType: string, source: string)

  /** The session keys of the create page. */
  datatype FormState = FormState(
    generatedDesc: Option<string>,
    meta: Option<Meta>,
    shortDesc: Option<string>)

  /** The page state after a submission, and the warning shown if any. */
  datatype FormStep = FormStep(form: FormState, warning: Option<string>)

  const FillAllFields := "Please fill all fields."

  /**
   * Submitting "Generate Description". `generate` stands for the
   * description generator called with agent type, source type and source.
   */
  function SubmitBasicInfo(
    form: FormState, name: string, agentType: string, sourceType: string, source: string,
    generate: (string, string, string) -> string): (r: FormStep)
    ensures r.warning.Some? <==> name == "" || agentType == "" || source == ""
    ensures r.warning.Some? ==> r.warning.value == FillAllFields && r.form == form
    ensures r.warning.None? ==>
      r.form.generatedDesc == Some(generate(agentType, sourceType, source))
      && r.form.meta == Some(Meta(name, agentType, sourceType, source))
      && r.form.shortDesc == form.shortDesc
  {
    if name != "" && agentType != "" && source != "" then
      FormStep(form.(generatedDesc := Some(generate(agentType, sourceType, source)),
                     meta := Some(Meta(name, agentType, sourceType, source))), None)
    else
      FormStep(form, Some(FillAllFields))
  }
}
