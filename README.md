# Hierarchical agent teams: a Dafny model

This project models the orchestration core of a demo of hierarchical agent
teams built on LangGraph. A root team and three nested teams (research,
writing, adaptive RAG) each consist of a supervisor node and worker nodes.

- **Supervisor.** It asks a structured language-model classifier which worker
  acts next, or whether the team is done.
- **Workers.** Every worker appends exactly one message tagged with its own
  name, then hands control back to the supervisor.
- **Nested teams.** A nested team sees only the parent conversation's last
  message. It reports its own last message back as that one tagged message.
- **Adaptive RAG team.** Its workers retrieve, grade, rewrite and generate over
  a question and a list of documents.
- **Writing team's file tools.** These read, write, outline and edit files in
  a temporary working directory.

Every language model, the retriever, the web loader and the Python
interpreter are uninterpreted function parameters.

Modules, from the leaves up:

- `Common` (common.dfy): an Option type, Python's decimal `str(n)` with its
  read-back, `str.join`, and the subsequence relation.
- `Lines` (lines.dfy): Python's `readlines()` on a text file. It is proved to
  be inverse to `"".join` / `writelines`.
- `OrderedKeys` (orderedkeys.dfy): the ascending enumeration of a finite set of
  integers, which is `sorted(d.items())` on integer keys.
- `Conversation` (conversation.dfy): messages, documents, the graph state, the
  partial updates a node returns, how the graph applies them, and the faults a
  node can raise.
- `Tools` (tools.dfy): the document tools over a `WorkingDirectory` class whose
  `files` map the methods overwrite, the `edit_document` insert loop, and the
  input guards of the scraping and Python tools.
- `Nodes` (nodes.dfy): the RAG step functions and the two decision functions.
  Grading is also a loop method proved equal to its specification.
- `Agents` (agents.dfy): the supervisor router and every single-step worker
  node.
- `Teams` (teams.dfy): team graphs and the teams the application builds.
  - A run is a fuel-bounded specification function `RunFrom`.
  - A run is also executed by the loop method `Run`, proved equal to
    `RunFrom`.
  - The run-level properties: budget, history-only-grows, step/message
    accounting, finishing at once, exhaustion under a classifier that never
    finishes.

Decisions where the model had to choose:

- **Files are stored as whole contents.** `write_document` writes arbitrary
  text, so the working directory maps a file name to its content. Every reader
  goes through the `readlines` view, and `edit_document` writes back the
  joined lines.
- **The empty file name.** It is the directory itself and never a key
  (`WorkingDirectory.Valid`).
- **Unknown routes.** A route to a name with no node aborts the run
  (`UnknownNode`). It does so only when that node is about to run.
- **Running out of budget.** It is its own outcome, `Exhausted`, distinct from
  finishing. When a nested run is exhausted, the parent worker raises, and the
  parent run is `Aborted` with fault `RecursionLimit`.
- **Supervisor instructions are resolved when a team is built.** The default
  instruction is `DefaultPrompt`, which is the exact text of the source. The
  RAG and root instructions are prompt templates applied to the member names
  joined by `", "`.

Behaviour of the code worth noting:

- The supervisor can raise. On an empty conversation
  `state["messages"][-1]` fails.
- A fail-open "no answer" ends the run exactly as a genuine FINISH does. The
  two cannot be told apart (`SupervisorRetriesThenFailsOpen`).
- `edit_document` itself raises on a missing file (`Threw(CannotOpen)`)
  instead of returning an error text as the other tools do.

## Model

| member | source | states |
|---|---|---|
| Common.NatToString | backend/src/tools.py:76 | `str(i)` of a natural number is non-empty, all decimal digits, with no leading zero |
| Common.DecimalRoundTrip | backend/src/tools.py:76 | reading the decimal rendering back gives the number |
| Common.NatToStringInjective | backend/src/tools.py:75-76 | distinct outline numbers render as distinct strings |
| Common.IntToString | backend/src/tools.py:173 | `str(n)` of any integer starts with '-' exactly when negative and contains no newline |
| Common.JoinLength | backend/src/agents.py:122 | a joined string is as long as its parts plus one separator between neighbours |
| Lines.LineEnd | backend/src/tools.py:109 | the first line read ends at the first newline, inclusive, or at the end of the text |
| Lines.ConcatReadLines | backend/src/tools.py:165-176 | writing back the lines `readlines` returned reproduces the file exactly |
| Lines.ReadLinesWellFormed | backend/src/tools.py:109 | every line read is non-empty, has no inner newline, and all but the last end with a newline |
| Lines.ReadLinesConcat | backend/src/tools.py:165-176 | reading back a written well-formed line list gives that list |
| OrderedKeys.Least | backend/src/tools.py:168 | the least key of a non-empty key set is in it and below every other key |
| OrderedKeys.SortedKeysProperties | backend/src/tools.py:168 | the sorted keys list every key exactly once, strictly ascending |
| OrderedKeys.SortedKeysStep | backend/src/tools.py:168-169 | the sorted enumeration starts with the least key, then the rest sorted |
| Tools.WrapPage | backend/src/tools.py:44 | a scraped page renders as a `<Document ...>` block |
| Tools.WrappedPages | backend/src/tools.py:43-46 | one wrapped block per loaded page, in order |
| Tools.ScrapeWebpages | backend/src/tools.py:36-46 | the reply is the no-URL error exactly when no URL is given; otherwise it is the loaded pages' blocks joined by blank lines |
| Tools.JoinStart | backend/src/tools.py:43-46 | joined page blocks start with '<', so they never equal the error reply |
| Tools.PythonReplTool | backend/src/tools.py:199-204 | the reply is the no-code error exactly when the code is blank (`isspace`); otherwise it is the interpreter's output after the success header |
| Tools.Clamp | backend/src/tools.py:111-113 | the start index is clamped into 0..len(lines) |
| Tools.SliceEnd | backend/src/tools.py:115 | the slice end follows Python slicing: omitted means the end, negative counts from the end, out of range is clamped |
| Tools.SliceProperties | backend/src/tools.py:111-115 | the lines read are one contiguous run of the file, the requested one in range; an omitted end reads to the end; a negative start reads from the first line; an end before the start reads nothing |
| Tools.NumberedLines | backend/src/tools.py:75-76 | the i-th outline line is `"{i+1}. {point}\n"` |
| Tools.OutlineExtend | backend/src/tools.py:75-76 | each loop step appends the next numbered line to the file |
| Tools.OutlineReadsBack | backend/src/tools.py:66-76 | an outline of single-line points reads back as exactly one numbered line per point |
| Tools.ApplyInsertsSucceedsIff | backend/src/tools.py:169-173 | the inserts all succeed exactly when the j-th line number lies in 1..(original length + j + 1) |
| Tools.ApplyInsertsFailsAtFirst | backend/src/tools.py:169-173 | the reported out-of-range number is that of the first insert out of range, all earlier ones having fitted |
| Tools.ApplyInsertsKeepsLines | backend/src/tools.py:169-171 | a successful edit adds one line per insert and keeps every original line in its relative order |
| Tools.ApplyInsertsKeepsPrefix | backend/src/tools.py:169-171 | inserts below a line number leave the lines above it unchanged |
| Tools.ApplyInsertsPlacesText | backend/src/tools.py:168-171 | with ascending line numbers, each insert's text ends up on the line with its number |
| Tools.ItemsAt | backend/src/tools.py:168 | the pairs, in order, of the given keys and their texts |
| Tools.SortedItems | backend/src/tools.py:168 | `sorted(inserts.items())`: ascending and distinct line numbers, exactly the inserts |
| Tools.EditSucceeds | backend/src/tools.py:165-178 | a successful edit has original length + number of inserts lines, keeps the original lines in order, and has every insert's text on its line number |
| Tools.PlacedByKey | backend/src/tools.py:168-171 | text placed for every sorted item is placed for every key of the insert map |
| Tools.WorkingDirectory.constructor | backend/src/tools.py:16-18 | a fresh temporary directory holds no files |
| Tools.WorkingDirectory.ReadDocument | backend/src/tools.py:100-115 | an empty name and a missing file give their error texts; otherwise the lines of Slice (clamped start, Python slice end) joined with "\n", so SliceProperties applies to the tool's reply; the whole file when no bounds are given; exactly lines start..end when both are in range |
| Tools.WorkingDirectory.WriteDocument | backend/src/tools.py:135-142 | an empty name is refused and nothing changes; otherwise exactly that file now holds the content |
| Tools.WorkingDirectory.CreateOutline | backend/src/tools.py:66-77 | no points or no name is refused before writing; otherwise exactly that file holds the numbered outline |
| Tools.WorkingDirectory.EditDocument | backend/src/tools.py:165-178 | a missing file raises; an out-of-range number returns its error and leaves every file unchanged; otherwise exactly that file is replaced by the edited lines |
| Tools.InsertAll | backend/src/tools.py:168-173 | the insert loop computes ApplyInserts over the sorted inserts |
| Tools.ApplyInsertsStep | backend/src/tools.py:169-173 | one loop iteration: insert in range, otherwise stop with that number |
| Tools.ItemsInStep | backend/src/tools.py:168-169 | the remaining sorted inserts are the least one followed by the rest |
| Tools.ItemsAtCons | backend/src/tools.py:168 | the items of a key list starting with k start with k's item |
| Conversation.Apply | backend/src/agents.py:13-16 | applying an update appends its messages; each of `next`, `question` and `documents` takes the update's value when the update sets it and keeps its old value otherwise |
| Nodes.Retrieve | backend/src/nodes.py:17-20 | the question is the first message's content; the documents are exactly the retriever's answer; an empty conversation raises |
| Nodes.RetrieveUsesFirstMessageOnly | backend/src/nodes.py:17-19 | retrieval depends on the first message's content only |
| Nodes.RelevantAppend | backend/src/nodes.py:46-50 | grading one more document appends it exactly when it is graded "yes" |
| Nodes.RelevantIsSubsequence | backend/src/nodes.py:45-53 | the graded list is a subsequence of the input: order kept, nothing added, no longer |
| Nodes.RelevantMembers | backend/src/nodes.py:46-50 | a document is kept exactly when it is an input graded "yes" |
| Nodes.RelevantKeepsAllIff | backend/src/nodes.py:46-50 | grading keeps every document exactly when all are graded "yes" |
| Nodes.DocumentsGraded | backend/src/nodes.py:42-53 | unset documents raise; otherwise the documents are exactly Relevant (every "yes" document in order, duplicates included), a subsequence, with the question unchanged |
| Nodes.GradeDocuments | backend/src/nodes.py:37-53 | the filtering loop computes DocumentsGraded |
| Nodes.TransformQuery | backend/src/nodes.py:61-62 | the documents are unchanged and the question is the rewriter's version |
| Nodes.Generate | backend/src/nodes.py:26-34 | unset documents raise; otherwise documents and question pass through, and the answer is generated from the page contents joined by blank lines |
| Nodes.DecideToGenerate | backend/src/nodes.py:68-72 | "transform_query" exactly when no document is set or left, "generate" otherwise |
| Nodes.GradeGeneration | backend/src/nodes.py:81-102 | "useful" exactly when both grades are "yes", "not useful" when grounded only, "not supported" when not grounded |
| Nodes.UngroundedIgnoresAnswerGrader | backend/src/nodes.py:90-102 | an ungrounded answer is judged without the answer grader |
| Agents.Options | backend/src/agents.py:28 | the options are FINISH followed by the members, and nothing else |
| Agents.RouterContext | backend/src/agents.py:48 | the classifier context is exactly the system instruction and the last message |
| Agents.RouteOf | backend/src/agents.py:52-55 | no answer routes to the end node, FINISH routes to the end node, any other answer routes to itself; never FINISH |
| Agents.SupervisorNode | backend/src/agents.py:45-57 | an empty conversation raises; otherwise it adds no message and records its route in `next` |
| Agents.SupervisorRoutesWithinOptions | backend/src/agents.py:41-57 | with a classifier kept to its options, the route is a member or the end node |
| Agents.SupervisorSeesLastMessageOnly | backend/src/agents.py:47-48 | the routing depends on the last message only |
| Agents.SupervisorFirstAnswerDecides | backend/src/agents.py:50-55 | a first answer decides, whatever the retry would say |
| Agents.SupervisorRetriesThenFailsOpen | backend/src/agents.py:50-57 | with no first answer the retry on the last message decides; with none either, the run ends and `next` records the end node |
| Agents.Reply | backend/src/agents.py:66-69 | a worker's command: one message tagged with its name, back to the supervisor, `next` untouched |
| Agents.AgentWorker | backend/src/agents.py:66-106 | an agent worker replies with its agent's last message content, and raises when the agent returns no messages |
| Agents.RetrieveWorker | backend/src/agents.py:120-128 | the reply reports the number and text of the retrieved documents and stores them and the question |
| Agents.GradeReply | backend/src/agents.py:130-138 | grading that raises makes the worker raise with the same fault; otherwise the one message "Relevant docs after grading:\n" + the documents' text, back to the supervisor, storing the graded documents and question |
| Agents.GradeWorker | backend/src/agents.py:130-138 | the stored documents become the relevant ones, in order, with the question kept; the message is "Relevant docs after grading:\n" + their text; unset documents raise |
| Agents.TransformWorker | backend/src/agents.py:140-146 | a fixed message; the documents are rewritten unchanged and the question is rewritten |
| Agents.GenerateWorker | backend/src/agents.py:148-153 | the answer is the one message; documents and question are left alone |
| Agents.GenerateKeepsRagState | backend/src/agents.py:148-153 | a generate step keeps documents, question and `next`, and adds one message |
| Teams.Names | backend/src/agents.py:76 | the members offered to the supervisor are the team's node names, in order |
| Teams.FindMember | backend/src/agents.py:78-80 | a name resolves to a node carrying it, or to none exactly when no member carries it |
| Teams.NestedReply | backend/src/agents.py:173-178 | a finished nested run reports its last message under the member's name; a nested abort or exhaustion makes the worker raise |
| Teams.Run | backend/src/agents.py:77-82 | executing a team graph computes RunFrom from the supervisor with the full budget |
| Teams.ExecNode | backend/src/agents.py:77-80 | running a node computes NodeStep |
| Teams.ExecWorker | backend/src/agents.py:173-192 | running a member, through the grading loop and nested runs, computes WorkerStep |
| Teams.WorkerStepReplies | backend/src/agents.py:66-192 | every member adds exactly one human message tagged with its name and returns to the supervisor |
| Teams.NodeStepShape | backend/src/agents.py:45-74 | a supervisor step adds nothing and routes to a member or the end; a member step adds one message tagged by a member |
| Teams.NestedSeesLastMessageOnly | backend/src/agents.py:173-176 | a nested team's reply depends on the parent's last message only |
| Teams.NestedAddsOneMessage | backend/src/agents.py:173-192 | a finished nested run takes the parent from N to N+1 messages, however many steps it took; an exhausted nested run raises RecursionLimit |
| Teams.RunWithinBudget | backend/src/main.py:51-53 | a run takes at most its budget, is exhausted only after all of it, and a finished run records the end node |
| Teams.AppendExtends | backend/src/agents.py:13 | appending member-tagged messages extends the history |
| Teams.ExtendsTransitive | backend/src/agents.py:13 | two history extensions compose into one |
| Teams.RunExtendsHistory | backend/src/agents.py:45-74 | a run only appends to the conversation, and only messages tagged by members |
| Teams.SupervisorStepKeepsLength | backend/src/agents.py:45-57 | a supervisor step keeps the message count and never routes to the supervisor |
| Teams.MemberStepAddsOne | backend/src/agents.py:66-74 | a member step adds one message and returns to the supervisor |
| Teams.AccountingAtSupervisor | backend/src/agents.py:45-74 | from the supervisor, a run takes two steps per appended message, plus one final supervisor step when it finishes |
| Teams.AccountingAtMember | backend/src/agents.py:45-74 | from a member, a run takes one step fewer than that |
| Teams.FinishAtOnce | backend/src/agents.py:50-57 | a first answer of FINISH ends the run after one supervisor step with the conversation unchanged |
| Teams.AgentMemberReplies | backend/src/agents.py:66-74 | an agent member that always answers always replies to the supervisor |
| Teams.AgentsOnlyMembersReply | backend/src/agents.py:66-74 | a team of agents that always answer is a team whose members never raise (MembersReply) |
| Teams.NeverFinishingRunIsExhausted | backend/src/main.py:51-53 | a classifier that never finishes, over members that never raise on a non-empty conversation (any kind of member, nested teams included), exhausts exactly the budget |
| Teams.NeverFinishingMember | backend/src/main.py:51-53 | the same, from a member node |
| Teams.DistinctNamesExcludeSupervisor | backend/src/agents.py:78-80 | distinct member names never include the supervisor's node name |
| Teams.ResearchTeamBuilt | backend/src/agents.py:76-82 | the research team offers search and web_scraper, distinct and not named supervisor |
| Teams.DocTeamBuilt | backend/src/agents.py:108-116 | the writing team offers doc_writer, outline_taker and chart_generator |
| Teams.RagTeamBuilt | backend/src/agents.py:155-169 | the RAG team offers retrieve, grade_documents, transform_query and generate |
| Teams.HierarchyBuilt | backend/src/agents.py:194-204 | the root graph offers research_team, writing_team and adaptive_rag_team |
| Teams.RequestRun | backend/src/main.py:51-53 | any team run from the user's prompt with budget 50 keeps to it, and keeps the prompt as first message with only member-tagged replies after it |
| Teams.RequestAccounting | backend/src/main.py:51-53 | such a run, with a classifier kept to its options and no member named supervisor, takes two steps per reply plus a final supervisor step |
| Teams.ApplicationTeamsBuilt | backend/src/agents.py:76-204 | the research, writing and RAG teams as built offer exactly their own members, and the root graph over them offers the three teams and no supervisor member |
| Teams.ApplicationRun | backend/src/main.py:46-53 | the application's run of the root graph over the three built teams, from the user's prompt with budget 50, keeps to the budget and keeps the prompt as first message with every later message from one of the three teams |
| Teams.ApplicationAccounting | backend/src/main.py:46-53 | with a classifier kept to its options, that run takes two steps per team reply plus a final supervisor step |

## Left out

- Logging: `print` calls and the log side effects of the supervisor and the
  RAG functions are not modelled.
- Transport: the websocket server, streaming and `serialize_state` in
  backend/src/main.py are not modelled. The run's budget of 50 is modelled as
  `Teams.CallerLimit`, and its input as `Teams.UserRequest`.
- Library internals: LangGraph's internals are abstracted.
  - The `add_messages` reducer is modelled as plain append. It also replaces
    messages by ID and coerces non-message values.
  - Checkpointing is not modelled.
  - The exact counting of `recursion_limit` is abstracted: one step per node
    execution; a run is exhausted when the pending node would exceed the
    budget.
- Static edge: the extra static edge `supervisor → END` of the root graph
  (backend/src/agents.py:205) is not modelled; only the supervisor's
  `Command` routes.
- Nested budget: every nested run gets the same budget afresh (`env.limit`).
  How LangGraph propagates the configuration into a sub-graph call is not
  modelled.
- Graph rebuilding: the source rebuilds a sub-graph on every nested call. The
  model reuses the same team value, which behaves the same since building is
  deterministic.
- Language models and prompts: classifier, graders, rewriter, generator and
  agents are function parameters that behave deterministically.
  - The prompt texts of backend/src/prompts.py are not part of this model. The
    RAG and root instructions are template functions.
  - `Literal[*options]` is the hypothesis `RespectsOptions`.
  - The agents' internal tool calls are not connected to the `Tools` model.
- Broken wiring: this is not reproduced.
  - backend/src/nodes.py:4, 39, 58 and 78 import `rag_chain`,
    `retrieval_grader`, `question_rewriter`, `hallucination_grader` and
    `answer_grader`. backend/src/prompts.py defines none of them; it defines
    only the factories `get_retrieval_grader`, `get_rewrite_grader` and
    `get_rag_chain`, which take the model.
  - backend/src/agents.py:131, 141 and 149 pass the model as an extra first
    argument to `grade_documents`, `transform_query` and `generate`, which take
    only the state. In Python these calls would raise.
  - The model calls the RAG functions with the state alone, as their
    signatures are declared, and takes the relevance grader, rewriter and generator as
    parameters.
- External tools: the vector store and retriever construction
  (backend/src/vectorstore.py and the module global at nodes.py:8) are not
  modelled. Tavily search, `WebBaseLoader` and `PythonREPL` are not modelled
  either; only their input guards are, with the loader and interpreter as
  parameters.
- Exception texts: the `except` branches of the tools, which return
  `str(e)`/`repr(e)` texts of filesystem or foreign-call failures, are not
  modelled. The one failure the model keeps is opening a missing file in
  `edit_document`.
- File paths: path semantics are not modelled (directories, `..`, absolute
  paths, creating subdirectories). A file name is a map key.
- Newlines: text-mode newline translation (`\r\n`, `\r`) is not modelled.
- Agents.ListRepr: renders `repr` of a list of names with single quotes and no
  escaping. This matches Python only for names without quotes or backslashes,
  which holds for every member name the application uses.
- Unset keys: the model reads a never-written key as `None`. `State`
  (backend/src/agents.py:13-16) is a TypedDict, so its `= None` entries
  declare no usable default, and what a node sees for such a key depends on
  how the graph library passes its state, which is not modelled.
  - Suppose the graph passes no such key. A nested RAG run starts from the
    last message alone (backend/src/agents.py:189). `transform_query` run there
    before any `retrieve` would then raise KeyError at backend/src/nodes.py:61,
    where the model returns `Ok` with the rewriter applied to `None`.
  - `decide_to_generate` would raise in the same way at
    backend/src/nodes.py:68.
  - `grade_documents` and `generate` raise in the model too (`NoDocuments`),
    though for a `None` value rather than a missing key.
