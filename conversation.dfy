/** The shared graph state of every team: the conversation, the last routing
    directive, and the RAG team's current question and documents; and the
    partial updates that nodes return and the graph applies. */
module Conversation {
  import opened Common

  /** The role of a chat message. The user's prompt and every worker result
      are human messages; the supervisor's instruction is a system message. */
  datatype Role = Human | System | Ai | Tool

  /** A chat message; `name` is the producer tag a worker puts on its result. */
  datatype Message = Message(role: Role, content: string, name: Option<string>)

  /** A retrieved document: its text and its metadata. */
  datatype Document = Document(pageContent: string, metadata: map<string, string>)

  /** The graph state. A key the graph has never written reads as None. */
  datatype State = State(
    messages: seq<Message>,
    next: Option<string>,
    question: Option<string>,
    documents: Option<seq<Document>>)

  /** The state a graph starts from when it is invoked with these messages. */
  function StartState(messages: seq<Message>): State
  {
    State(messages, None, None, None)
  }

  /** One key of an update: left alone or overwritten. */
  datatype Field<T> = Keep | Set(value: T)

  /** The `update` of a node's Command. New messages are appended to the
      conversation; every other key present in the update overwrites. */
  datatype Update = Update(
    messages: seq<Message>,
    next: Field<string>,
    question: Field<Option<string>>,
    documents: Field<Option<seq<Document>>>)

  function Overwrite<T>(old_: T, f: Field<T>): T
  {
    if f.Set? then f.value else old_
  }

  /** Applying an update: the conversation only grows, each other key keeps
      its value unless the update sets it. */
  function Apply(st: State, u: Update): (r: State)
    ensures r.messages == st.messages + u.messages
    ensures u.next.Keep? ==> r.next == st.next
    ensures u.next.Set? ==> r.next == Some(u.next.value)
    ensures u.question.Keep? ==> r.question == st.question
    ensures u.question.Set? ==> r.question == u.question.value
    ensures u.documents.Keep? ==> r.documents == st.documents
    ensures u.documents.Set? ==> r.documents == u.documents.value
  {
    State(
      st.messages + u.messages,
      if u.next.Set? then Some(u.next.value) else st.next,
      Overwrite(st.question, u.question),
      Overwrite(st.documents, u.documents))
  }

  /** A human message carrying a producer tag, as every worker emits. */
  function Tagged(content: string, name: string): Message
  {
    Message(Human, content, Some(name))
  }

  /** Why a node raised instead of returning an update: an index into an
      empty message list, iterating documents that were never set, the
      recursion limit of a run, or a route to a node the graph lacks. */
  datatype Fault = EmptyMessages | NoDocuments | RecursionLimit | UnknownNode(name: string)

  /** What a node call gives: a value, or the fault it raised. */
  datatype Result<T> = Ok(value: T) | Raised(fault: Fault)

  /** The page contents of some documents, each separated by a blank line. */
  function DocsText(docs: seq<Document>): string
  {
    Join("\n\n", seq(|docs|, i requires 0 <= i < |docs| => docs[i].pageContent))
  }
}
