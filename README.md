# Agent Clone Wizard — persona logic and conversation-history store

A Dafny model of the logic inside the Agent Clone Wizard, a small Streamlit app. Users define
agent personas and chat with them. The model covers two pieces.

- **Persona logic** (`agentclone.py`):
  - the system prompt an agent is instructed with (`make_system_prompt`);
  - the parsing of the "Knowledge sources (one per line)" text box;
  - deleting a persona by id;
  - the validity check on the first step of the create form;
  - the tools handed to an agent, picked from the persona's enabled tool names in a fixed order;
  - the chat page's session state: one agent built per persona id, and a chat history that
    each submitted prompt extends with a user entry and then an assistant entry.
- **Conversation-history store** (`memory.py`): the history-file path, and the loading and
  saving of one agent's turns in a JSON file that maps agent names to turn lists.

Files and modules:

| file | module | contents |
|---|---|---|
| `Wrappers.dfy` | `Wrappers` | `Option`, Python's `None` versus a value |
| `PyStr.dfy` | `PyStr` | Python's `sep.join`, `str.strip` and `str.splitlines`, by code point, with their characterising lemmas |
| `AgentClone.dfy` | `AgentClone` | `Persona`, the system prompt, knowledge parsing, delete by id, the create-form check |
| `ChatPage.dfy` | `ChatPage` | tools and their selection, the reply fallback, the class `ChatSessions` holding agents and chat history |
| `Memory.dfy` | `Memory` | the disk as a map from path to file contents; `HistoryPath`, `LoadHistory`, `Saved`; the class `HistoryFiles` whose `SaveHistory` reads, updates and writes back |

Modelling decisions:

- Python truthiness is written out:
  - an empty string, an empty list and `None` are false;
  - so `save_history` and `load_history` treat both `None` and `""` as "no path" (`NoPath`);
  - a prompt is processed only when the chat input returned a non-empty string;
  - an agent output counts only when it is a non-empty string.
- The files on disk are a `map<string, map<string, seq<Turn>>>`. A path that is not a key has
  no file.
- The create form's description generator and the Python `repr` of the knowledge-source list
  are passed in as function parameters (`generate`, `listRepr`). The model states how they
  are called and where their results go, and nothing about what they return.
- The agent's final output for a prompt is a parameter of `SubmitPrompt`.
- The source tests the literal names `"web_search"`, `"file_search"` and `"code"`. The model
  writes these as `ToolName(t)`, which maps each tool to that name.
- Behaviour the model keeps as the source has it: `chat_history` is one list shared by all
  personas. It is cleared only when an agent is built for a persona for the first time.
  Returning to a persona whose agent already exists keeps whatever history is on screen
  (`ChatSessions.OpenChat`).

## Model

| member | source | states |
|---|---|---|
| `PyStr.Join` | agentclone.py:43 | `sep.join(xs)`: nothing for no elements, the element itself for one, otherwise the elements with `sep` between neighbours; its layout is stated by `PyStr.JoinAt` |
| `PyStr.JoinAt` | agentclone.py:43 | `", ".join(xs)` is exactly the elements in order, each at its computed offset, with the separator between neighbours and the last element ending the string |
| `PyStr.Strip` | agentclone.py:127 | `s.strip()` is a contiguous slice of `s`: only whitespace is cut from either side, and none is left at either end |
| `PyStr.SplitLines` | agentclone.py:127 | `s.splitlines()` yields lines that contain no line boundary, and never more lines than characters; what the lines are is stated by `PyStr.SplitFirstLine`, `PyStr.SplitSingleLine` and `PyStr.SplitLinesKeepsText` |
| `PyStr.SplitFirstLine` | agentclone.py:127 | a line ended by any boundary (`"\r\n"` as one boundary, or a single boundary character) is split off whole and the rest is split on its own; with nothing after it, a final boundary adds no empty line |
| `PyStr.SplitSingleLine` | agentclone.py:127 | text without a boundary is one line, and the empty string has no lines |
| `PyStr.SplitLinesKeepsText` | agentclone.py:127 | the lines put back together are exactly the characters of the text that are not boundaries, in order: no text is lost or added |
| `AgentClone.SystemPrompt` | agentclone.py:42-50 | `make_system_prompt(persona)`: the two intro lines, then "Tools enabled: " with the tools clause, ", ", the memory phrase, ". " and the knowledge clause; its layout is stated by the `Prompt…` lemmas below |
| `AgentClone.ToolsClause` | agentclone.py:43 | the enabled tool names joined with ", ", or "no extra tools" when there are none (`AgentClone.PromptListsTools`, `AgentClone.PromptWithoutTools`) |
| `AgentClone.MemoryPhrase` | agentclone.py:44 | "with memory" when memory is enabled, else "without memory" (`AgentClone.PromptStatesMemory`) |
| `AgentClone.KnowledgeClause` | agentclone.py:45 | "Additional knowledge sources: " and the list text when there are sources, else empty (`AgentClone.PromptEndsWithKnowledge`) |
| `AgentClone.PromptIntroducesPersona` | agentclone.py:46-49 | the prompt starts with "You are " and the persona's name; its third line starts with "Tools enabled: " right after the two intro lines |
| `AgentClone.PromptWithoutTools` | agentclone.py:43 | with no enabled tools, the tools clause of the prompt reads "no extra tools" |
| `AgentClone.PromptListsTools` | agentclone.py:43 | every enabled tool name appears in the prompt, in order, at its position in the ", "-joined list |
| `AgentClone.PromptStatesMemory` | agentclone.py:44 | the prompt reads "with memory" at the memory position exactly when memory is enabled, and "without memory" otherwise |
| `AgentClone.PromptDistinguishesMemory` | agentclone.py:44-49 | two personas that differ only in the memory flag get different prompts |
| `AgentClone.PromptEndsWithKnowledge` | agentclone.py:45-49 | with no knowledge sources the prompt ends with the memory sentence; otherwise it ends with ". Additional knowledge sources: " followed by the sources' list text |
| `AgentClone.ParseKnowledge` | agentclone.py:127 | every parsed knowledge source is non-empty and has no leading or trailing whitespace |
| `AgentClone.StripNonBlank` | agentclone.py:127 | the comprehension `[s.strip() for s in lines if s.strip()]` over a list of lines; its properties are `AgentClone.StripNonBlankClean` and `AgentClone.StripNonBlankAppend` |
| `AgentClone.KeptLine` | agentclone.py:127 | one line's share of that comprehension: its stripped text, or nothing when that is empty |
| `AgentClone.StripNonBlankClean` | agentclone.py:127 | the stripped, non-blank lines are never more than the input lines, and each is non-empty with no whitespace at either end |
| `AgentClone.StripNonBlankAppend` | agentclone.py:127 | each line is kept or dropped on its own, so the input's line order is kept |
| `AgentClone.ParseJoinedLines` | agentclone.py:127 | text made of newline-separated lines parses to exactly those lines, stripped, with blank lines dropped, in their order |
| `AgentClone.DeleteById` | agentclone.py:75 | a persona survives deletion exactly when it was in the list and its id differs from the deleted id |
| `AgentClone.DeleteByIdAppend` | agentclone.py:75 | deletion acts element by element, so survivors keep their original order |
| `AgentClone.DeleteAbsentId` | agentclone.py:75 | deleting an id that no persona has leaves the list unchanged |
| `AgentClone.SubmitBasicInfo` | agentclone.py:89-95 | a warning "Please fill all fields." is shown exactly when the name, agent type or source is empty, and then the form state is unchanged; otherwise the description generated from agent type, source type and source is stored with the four fields |
| `ChatPage.KeepMembers` | agentclone.py:154-160 | a tool is selected exactly when it is offered and its name is among the enabled names |
| `ChatPage.KeepOrdered` | agentclone.py:154-160 | selection keeps the fixed order of the offered tools |
| `ChatPage.SelectTools` | agentclone.py:154-160 | the selected tools are web search, file search and code interpreter, in that order, each present exactly when its name is enabled; unknown names are ignored |
| `ChatPage.Reply` | agentclone.py:186-192 | the assistant entry is the agent's output when that is non-empty, else "No response.", so it is never empty |
| `ChatPage.ChatSessions.constructor` | agentclone.py:150-176 | a new page has no agents and an empty history |
| `ChatPage.ChatSessions.OpenChat` | agentclone.py:150-172 | the first time a persona is chosen, an agent is built from its name, system prompt and selected tools, and the history is cleared; later choices change nothing; history keeps alternating user and assistant entries |
| `ChatPage.ChatSessions.SubmitPrompt` | agentclone.py:181-192 | a non-empty prompt appends exactly two entries, the user's prompt then the assistant's reply; otherwise nothing changes; agents never change; alternation is preserved |
| `Memory.HistoryPath` | memory.py:3-4 | the path is "chat_history.json" when persistent and absent otherwise |
| `Memory.LoadHistory` | memory.py:6-10 | no path or no file gives `[]`; a stored entry for the agent is returned as is; a non-empty result comes only from a stored entry |
| `Memory.Saved` | memory.py:12-20 | without a path the disk is unchanged; with one, loading the same agent and path returns the saved history; every other agent and path loads as before; a missing file becomes a file holding only that agent; no other file changes |
| `Memory.SaveIdempotent` | memory.py:12-20 | saving the same history twice leaves the same disk as saving it once |
| `Memory.SavesCommute` | memory.py:12-20 | saves for two different agents to the same path can happen in either order with the same result |
| `Memory.HistoryFiles.SaveHistory` | memory.py:12-20 | the read-modify-write leaves the disk as `Saved` describes, so the saved history loads back |

## Left out

- `load_personas` and `save_personas` (agentclone.py:20-27) and `app_utils.py` are file I/O and pydantic validation. Deletion and parsing are modelled on the persona list itself.
- `generate_short_desc` (agentclone.py:29-40) is a call to the OpenAI API run under `asyncio`. It is the `generate` parameter of `SubmitBasicInfo`.
- The Streamlit navigation, the approve/edit/retry buttons, the second form step's persona construction and `st.rerun` (agentclone.py:52-135, apart from lines 75, 89-95 and 127) are UI flow.
- uuid generation (agentclone.py:10, 119) is nondeterministic. Ids are given strings.
- Python's `repr` of a list (agentclone.py:45) is not modelled. It is the `listRepr` parameter.
- The agent and chat-session objects (agentclone.py:155-168, 185) are external. Their module name `oa_agents` is never imported in agentclone.py, so as written the first choice of a persona raises `NameError` at line 156, 158, 160 or 162. Lines 163-192 then never run: no agent is stored, the history is not cleared at line 170, and no prompt is ever answered. The model describes the code as it would behave with the agent library imported under that name. It keeps the agent's name, instructions and tools, and takes the output of a run as a parameter. The model name and temperature are not modelled (a float).
- `ChatSessions.SubmitPrompt`: in the source the user entry is appended before the agent runs. If the run raises, the history keeps only the user entry. Exceptions are not modelled, so the model always appends both entries.
- Displaying messages (agentclone.py:178-179, 189, 192) is output only.
- `Memory`: the JSON file may hold anything JSON allows. The model assumes it holds a map from agent names to lists of turns, as `save_history` writes it. Malformed files, I/O errors and JSON formatting are not modelled.
- `rag_utils.py` and `functions.py` wrap the Chroma vector store, OpenAI embeddings and a LangChain retriever. These are foreign libraries over float vectors; whole uploaded files are stored as single unchunked texts.
