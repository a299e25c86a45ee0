/** The supervisor router and the single-step worker nodes of every team.
    A node maps the state to a routing Command: the next node and an update.
    The language model is a structured classifier passed in as a function
    from the option list and the chat context to an optional choice. */
module Agents {
  import opened Common
  import opened Conversation
  import opened Nodes

  /** The graph's terminal node. */
  const End := "__end__"
  /** The classifier's "done" answer. */
  const Finish := "FINISH"
  /** The node name every team's supervisor is registered under. */
  const Supervisor := "supervisor"

  datatype Command = Command(goto: string, update: Update)

  /** The structured router: given the allowed options and the chat context it
      answers one option, or nothing. */
  type Classifier = (seq<string>, seq<Message>) -> Option<string>

  /** The router's answer always lies in the option set it was given. */
  ghost predicate RespectsOptions(classify: Classifier)
  {
    forall options, context :: classify(options, context).Some? ==> classify(options, context).value in options
  }

  function Last<T>(s: seq<T>): T
    requires s != []
  {
    s[|s| - 1]
  }

  /** The options offered to the classifier: FINISH, then the members. */
  function Options(members: seq<string>): (options: seq<string>)
    ensures |options| == |members| + 1 && options[0] == Finish && options[1..] == members
    ensures forall x :: x in options <==> x == Finish || x in members
  {
    [Finish] + members
  }

  /** Python's repr of a list of plain names: ['a', 'b']. */
  function ListRepr(names: seq<string>): string
  {
    "[" + Join(", ", seq(|names|, i requires 0 <= i < |names| => "'" + names[i] + "'")) + "]"
  }

  /** The instruction used when a team gives none. */
  function DefaultPrompt(members: seq<string>): string
  {
    "You are a supervisor tasked with managing a conversation between the"
    + " following workers: " + ListRepr(members) + ". Given the following user request and state,"
    + " respond with the worker to act next. Each worker will perform a"
    + " task and respond with their results and status. When finished,"
    + " respond with FINISH. Remember return **strict JSON only**,"
    + " e.g., {'next':'worker_name'} or {'next':'FINISH'}."
  }

  /** The instruction a supervisor is built with: the team's own, or the
      default one naming the members. */
  function PromptFor(members: seq<string>, prompt: Option<string>): string
  {
    if prompt.Some? then prompt.value else DefaultPrompt(members)
  }

  /** The first classifier context: the system instruction and the last
      message of the conversation, nothing of the history before it. */
  function RouterContext(instruction: string, messages: seq<Message>): (context: seq<Message>)
    requires messages != []
    ensures |context| == 2
    ensures context[0] == Message(System, instruction, None) && context[1] == Last(messages)
  {
    [Message(System, instruction, None), Last(messages)]
  }

  /** The node a classifier answer leads to: no answer fails open to
      FINISH, and FINISH is the terminal node. */
  function RouteOf(response: Option<string>): (goto: string)
    ensures goto != Finish
    ensures response.None? ==> goto == End
    ensures response.Some? && response.value != Finish ==> goto == response.value
    ensures response == Some(Finish) ==> goto == End
  {
    var choice := if response.Some? then response.value else Finish;
    if choice == Finish then End else choice
  }

  /** supervisor_node: an empty conversation raises (it has no last
      message). Otherwise one classifier call on the instruction and the
      last message; if it yields nothing, one retry on the last message
      alone; the answer is routed through RouteOf and recorded in `next`. */
  function SupervisorNode(members: seq<string>, instruction: string, classify: Classifier, st: State): (r: Result<Command>)
    ensures r.Raised? <==> st.messages == []
    ensures r.Raised? ==> r.fault == EmptyMessages
    ensures r.Ok? ==> r.value.update == Update([], Set(r.value.goto), Keep, Keep)
    ensures r.Ok? ==> r.value.goto != Finish
  {
    if st.messages == [] then Raised(EmptyMessages)
    else
      var options := Options(members);
      var context := RouterContext(instruction, st.messages);
      var first := classify(options, context);
      var response := if first.Some? then first else classify(options, [context[1]]);
      var goto := RouteOf(response);
      Ok(Command(goto, Update([], Set(goto), Keep, Keep)))
  }

  /** With a classifier that keeps to its options, the supervisor routes to
      one of its members or ends; it never names anything else. */
  lemma SupervisorRoutesWithinOptions(members: seq<string>, instruction: string, classify: Classifier, st: State)
    requires RespectsOptions(classify)
    requires st.messages != []
    ensures SupervisorNode(members, instruction, classify, st).Ok?
    ensures var goto := SupervisorNode(members, instruction, classify, st).value.goto;
            goto in members || goto == End
  {
    var options := Options(members);
    var context := RouterContext(instruction, st.messages);
    var first := classify(options, context);
    var second := classify(options, [context[1]]);
    var response := if first.Some? then first else second;
    assert first.Some? ==> first.value in options;
    assert second.Some? ==> second.value in options;
    var goto := RouteOf(response);
    assert SupervisorNode(members, instruction, classify, st) == Ok(Command(goto, Update([], Set(goto), Keep, Keep)));
    if response.Some? && response.value != Finish {
      assert goto == response.value && goto in options;
    }
  }

  /** The supervisor's decision depends on the last message only: two
      conversations with the same last message are routed alike, whatever
      came before and whatever else the states hold. */
  lemma SupervisorSeesLastMessageOnly(members: seq<string>, instruction: string, classify: Classifier,
                                      st: State, st': State)
    requires st.messages != [] && st'.messages != []
    requires Last(st.messages) == Last(st'.messages)
    ensures SupervisorNode(members, instruction, classify, st) == SupervisorNode(members, instruction, classify, st')
  {
  }

  /** An answer to the first call decides: FINISH ends the run, any other
      answer is the next node, and the retry context is never consulted
      (any classifier agreeing on the first context routes alike). */
  lemma SupervisorFirstAnswerDecides(members: seq<string>, instruction: string, classify: Classifier,
                                     other: Classifier, st: State, choice: string)
    requires st.messages != []
    requires classify(Options(members), RouterContext(instruction, st.messages)) == Some(choice)
    requires other(Options(members), RouterContext(instruction, st.messages)) == Some(choice)
    ensures SupervisorNode(members, instruction, classify, st) == SupervisorNode(members, instruction, other, st)
    ensures SupervisorNode(members, instruction, classify, st).value.goto == (if choice == Finish then End else choice)
  {
  }

  /** When the first call yields nothing, the decision is the answer to the
      retry on the last message alone; when that yields nothing too, the
      supervisor fails open: it ends the run and records the end node,
      not FINISH, in `next`. */
  lemma SupervisorRetriesThenFailsOpen(members: seq<string>, instruction: string, classify: Classifier, st: State)
    requires st.messages != []
    requires classify(Options(members), RouterContext(instruction, st.messages)) == None
    ensures SupervisorNode(members, instruction, classify, st).value.goto ==
            RouteOf(classify(Options(members), [Last(st.messages)]))
    ensures classify(Options(members), [Last(st.messages)]) == None ==>
            SupervisorNode(members, instruction, classify, st).value ==
            Command(End, Update([], Set(End), Keep, Keep))
  {
  }

  // ---------------------------------------------------------------------
  // Worker nodes. Each appends one human message tagged with the worker's
  // own node name and routes back to the supervisor.

  /** A worker's reply: one tagged message, the given other keys, back to the supervisor. */
  function Reply(name: string, content: string, question: Field<Option<string>>,
                 documents: Field<Option<seq<Document>>>): (cmd: Command)
    ensures cmd.goto == Supervisor
    ensures cmd.update.messages == [Tagged(content, name)] && cmd.update.next.Keep?
  {
    Command(Supervisor, Update([Tagged(content, name)], Keep, question, documents))
  }

  /** A ReAct agent worker (search, web_scraper, doc_writer, outline_taker,
      chart_generator): the agent sees the whole state, and the content of
      the last message of its result becomes the worker's one message. An
      agent result without messages raises. */
  function AgentWorker(name: string, agent: State -> seq<Message>, st: State): (r: Result<Command>)
    ensures r.Raised? <==> agent(st) == []
    ensures r.Ok? ==> r.value == Reply(name, Last(agent(st)).content, Keep, Keep)
  {
    var result := agent(st);
    if result == [] then Raised(EmptyMessages) else Ok(Reply(name, Last(result).content, Keep, Keep))
  }

  /** retrieve_node: reports how many documents came back and their text,
      and stores the retrieved documents and the question. */
  function RetrieveWorker(name: string, st: State, retriever: string -> seq<Document>): (r: Result<Command>)
    ensures r.Raised? <==> st.messages == []
    ensures r.Ok? ==>
      var docs := retriever(st.messages[0].content);
      r.value == Reply(name, "Retrieved " + NatToString(|docs|) + " docs:\n" + DocsText(docs),
                       Set(Some(st.messages[0].content)), Set(Some(docs)))
  {
    match Retrieve(st, retriever)
    case Raised(f) => Raised(f)
    case Ok(u) =>
      var docs := u.documents.value;
      Ok(Reply(name, "Retrieved " + NatToString(|docs|) + " docs:\n" + DocsText(docs),
               Set(u.question), Set(u.documents)))
  }

  /** grade_documents_node, given the result of grading: reports the
      surviving documents' text and stores them and the question. */
  function GradeReply(name: string, graded: Result<RagUpdate>): (r: Result<Command>)
    requires graded.Ok? ==> graded.value.documents.Some?
    ensures r.Raised? <==> graded.Raised?
    ensures r.Raised? ==> r.fault == graded.fault
    ensures r.Ok? ==> r.value == Reply(name, "Relevant docs after grading:\n" + DocsText(graded.value.documents.value),
                                       Set(graded.value.question), Set(graded.value.documents))
  {
    match graded
    case Raised(f) => Raised(f)
    case Ok(u) =>
      Ok(Reply(name, "Relevant docs after grading:\n" + DocsText(u.documents.value),
               Set(u.question), Set(u.documents)))
  }

  /** grade_documents_node: the stored documents become the relevant ones,
      in order, and the question is kept. */
  function GradeWorker(name: string, st: State, grader: (Option<string>, string) -> string): (r: Result<Command>)
    ensures r.Raised? <==> st.documents.None?
    ensures r.Ok? ==> r.value.update.documents == Set(Some(Relevant(st.documents.value, st.question, grader)))
    ensures r.Ok? ==> r.value.update.question == Set(st.question)
    ensures r.Ok? ==> r.value.goto == Supervisor && r.value.update.next.Keep?
    ensures r.Ok? ==>
              r.value.update.messages ==
              [Tagged("Relevant docs after grading:\n" + DocsText(Relevant(st.documents.value, st.question, grader)), name)]
  {
    GradeReply(name, DocumentsGraded(st, grader))
  }

  /** transform_query_node: a fixed message; the documents are written back
      as they were and the question is the rewritten one. */
  function TransformWorker(name: string, st: State, rewriter: Option<string> -> string): (r: Command)
    ensures r == Reply(name, "Transformed query", Set(Some(rewriter(st.question))), Set(st.documents))
  {
    var u := TransformQuery(st, rewriter);
    Reply(name, "Transformed query", Set(u.question), Set(u.documents))
  }

  /** generate_node: the generated answer is the message; documents and
      question are not touched. */
  function GenerateWorker(name: string, st: State, generator: (string, Option<string>) -> string): (r: Result<Command>)
    ensures r.Raised? <==> st.documents.None?
    ensures r.Ok? ==> r.value.update.question.Keep? && r.value.update.documents.Keep?
    ensures r.Ok? ==> r.value.update.messages == [Tagged(generator(DocsText(st.documents.value), st.question), name)]
  {
    match Generate(st, generator)
    case Raised(f) => Raised(f)
    case Ok(g) => Ok(Reply(name, g.generation, Keep, Keep))
  }

  /** A generate step leaves the RAG team's documents and question exactly
      as they were and appends one message. */
  lemma GenerateKeepsRagState(name: string, st: State, generator: (string, Option<string>) -> string)
    requires st.documents.Some?
    ensures GenerateWorker(name, st, generator).Ok?
    ensures var st' := Apply(st, GenerateWorker(name, st, generator).value.update);
            st'.documents == st.documents && st'.question == st.question && st'.next == st.next &&
            |st'.messages| == |st.messages| + 1
  {
  }
}
