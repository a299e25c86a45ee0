/** The adaptive RAG step functions: retrieve, grade, rewrite, generate, and
    the two decision functions. The retriever and every grader, rewriter and
    generator are language-model or vector-store calls, passed in as
    functions; a grader's answer is its binary score string. */
module Nodes {
  import opened Common
  import opened Conversation

  /** The documents and question a RAG step hands back to the graph. */
  datatype RagUpdate = RagUpdate(documents: Option<seq<Document>>, question: Option<string>)

  /** What generate hands back: its inputs and the generated answer. */
  datatype Generation = Generation(documents: seq<Document>, question: Option<string>, generation: string)

  /** retrieve: the question is the content of the FIRST message, and the
      documents are exactly the retriever's answer to it. */
  function Retrieve(st: State, retriever: string -> seq<Document>): (r: Result<RagUpdate>)
    ensures r.Raised? <==> st.messages == []
    ensures r.Raised? ==> r.fault == EmptyMessages
    ensures r.Ok? ==> r.value.question == Some(st.messages[0].content)
    ensures r.Ok? ==> r.value.documents == Some(retriever(st.messages[0].content))
  {
    if st.messages == [] then Raised(EmptyMessages)
    else
      var question := st.messages[0].content;
      Ok(RagUpdate(Some(retriever(question)), Some(question)))
  }

  /** Retrieval looks only at the first message: later messages, and the
      question and documents already in the state, change nothing. */
  lemma RetrieveUsesFirstMessageOnly(st: State, st': State, retriever: string -> seq<Document>)
    requires st.messages != [] && st'.messages != []
    requires st.messages[0].content == st'.messages[0].content
    ensures Retrieve(st, retriever) == Retrieve(st', retriever)
  {
  }

  /** The documents a grader scores "yes" for the question, in their order. */
  function Relevant(docs: seq<Document>, question: Option<string>,
                    grader: (Option<string>, string) -> string): seq<Document>
  {
    if docs == [] then []
    else (if grader(question, docs[0].pageContent) == "yes" then [docs[0]] else [])
         + Relevant(docs[1..], question, grader)
  }

  lemma {:induction false} RelevantAppend(docs: seq<Document>, d: Document, question: Option<string>,
                                          grader: (Option<string>, string) -> string)
    ensures Relevant(docs + [d], question, grader) ==
      Relevant(docs, question, grader) + (if grader(question, d.pageContent) == "yes" then [d] else [])
  {
    if docs != [] {
      assert (docs + [d])[1..] == docs[1..] + [d];
      RelevantAppend(docs[1..], d, question, grader);
    }
  }

  /** The graded list is a subsequence of the input: nothing is added, and
      the documents kept stay in their original relative order. */
  lemma {:induction false} RelevantIsSubsequence(docs: seq<Document>, question: Option<string>,
                                                 grader: (Option<string>, string) -> string)
    ensures IsSubsequence(Relevant(docs, question, grader), docs)
    ensures |Relevant(docs, question, grader)| <= |docs|
  {
    if docs != [] {
      RelevantIsSubsequence(docs[1..], question, grader);
      var rest := Relevant(docs[1..], question, grader);
      if grader(question, docs[0].pageContent) == "yes" {
        assert Relevant(docs, question, grader) == [docs[0]] + rest;
        assert ([docs[0]] + rest)[1..] == rest;
      } else {
        assert Relevant(docs, question, grader) == rest;
        if rest != [] {
          assert IsSubsequence(rest, docs[1..]);
        }
      }
      SubsequenceBounds(Relevant(docs, question, grader), docs);
    }
  }

  /** A document is kept exactly when it is among the inputs and is graded "yes". */
  lemma {:induction false} RelevantMembers(docs: seq<Document>, question: Option<string>,
                                           grader: (Option<string>, string) -> string, d: Document)
    ensures d in Relevant(docs, question, grader) <==> d in docs && grader(question, d.pageContent) == "yes"
  {
    if docs != [] {
      RelevantMembers(docs[1..], question, grader, d);
      assert d in docs <==> d == docs[0] || d in docs[1..];
    }
  }

  /** Grading keeps the whole list exactly when every document is graded "yes". */
  lemma {:induction false} RelevantKeepsAllIff(docs: seq<Document>, question: Option<string>,
                                               grader: (Option<string>, string) -> string)
    ensures Relevant(docs, question, grader) == docs <==>
            forall i :: 0 <= i < |docs| ==> grader(question, docs[i].pageContent) == "yes"
  {
    if docs != [] {
      RelevantKeepsAllIff(docs[1..], question, grader);
      RelevantIsSubsequence(docs[1..], question, grader);
      var rest := Relevant(docs[1..], question, grader);
      if grader(question, docs[0].pageContent) != "yes" {
        assert |Relevant(docs, question, grader)| < |docs|;
      } else {
        assert Relevant(docs, question, grader) == [docs[0]] + rest;
        assert rest == docs[1..] <==> [docs[0]] + rest == docs;
        assert (forall i :: 0 <= i < |docs| ==> grader(question, docs[i].pageContent) == "yes") <==>
               (forall i :: 0 <= i < |docs[1..]| ==> grader(question, docs[1..][i].pageContent) == "yes") by {
          forall i | 0 < i < |docs| ensures docs[i] == docs[1..][i - 1] { }
        }
      }
    }
  }

  /** What grade_documents computes: iterating documents that were never
      set raises; otherwise the documents scored "yes", in order, and the
      question passed on unchanged. */
  function DocumentsGraded(st: State, grader: (Option<string>, string) -> string): (r: Result<RagUpdate>)
    ensures r.Raised? <==> st.documents.None?
    ensures r.Raised? ==> r.fault == NoDocuments
    ensures r.Ok? ==> r.value.question == st.question
    ensures r.Ok? ==> r.value.documents == Some(Relevant(st.documents.value, st.question, grader))
    ensures r.Ok? ==> IsSubsequence(r.value.documents.value, st.documents.value)
    ensures r.Ok? ==> forall d :: d in r.value.documents.value <==>
                       d in st.documents.value && grader(st.question, d.pageContent) == "yes"
  {
    if st.documents.None? then Raised(NoDocuments)
    else
      var docs := st.documents.value;
      RelevantIsSubsequence(docs, st.question, grader);
      forall d ensures d in Relevant(docs, st.question, grader) <==> d in docs && grader(st.question, d.pageContent) == "yes" {
        RelevantMembers(docs, st.question, grader, d);
      }
      Ok(RagUpdate(Some(Relevant(docs, st.question, grader)), st.question))
  }

  /** grade_documents: each document is scored on its own and the ones
      scored "yes" are collected in a loop. */
  method GradeDocuments(st: State, grader: (Option<string>, string) -> string) returns (r: Result<RagUpdate>)
    ensures r == DocumentsGraded(st, grader)
  {
    if st.documents.None? {
      return Raised(NoDocuments);
    }
    var question := st.question;
    var documents := st.documents.value;
    var filtered: seq<Document> := [];
    for i := 0 to |documents|
      invariant filtered == Relevant(documents[..i], question, grader)
    {
      RelevantAppend(documents[..i], documents[i], question, grader);
      assert documents[..i + 1] == documents[..i] + [documents[i]];
      if grader(question, documents[i].pageContent) == "yes" {
        filtered := filtered + [documents[i]];
      }
    }
    assert documents[..|documents|] == documents;
    return Ok(RagUpdate(Some(filtered), question));
  }

  /** transform_query: the documents stay as they are and the question is
      replaced by the rewriter's version of it; retrieval is not re-run. */
  function TransformQuery(st: State, rewriter: Option<string> -> string): (r: RagUpdate)
    ensures r.documents == st.documents
    ensures r.question == Some(rewriter(st.question))
  {
    RagUpdate(st.documents, Some(rewriter(st.question)))
  }

  /** generate: iterating documents that were never set raises; otherwise
      the answer is generated from the page contents joined by blank lines
      and the question, which both pass through. */
  function Generate(st: State, generator: (string, Option<string>) -> string): (r: Result<Generation>)
    ensures r.Raised? <==> st.documents.None?
    ensures r.Raised? ==> r.fault == NoDocuments
    ensures r.Ok? ==> r.value.documents == st.documents.value && r.value.question == st.question
    ensures r.Ok? ==> r.value.generation == generator(DocsText(st.documents.value), st.question)
  {
    if st.documents.None? then Raised(NoDocuments)
    else
      var docs := st.documents.value;
      Ok(Generation(docs, st.question, generator(DocsText(docs), st.question)))
  }

  /** decide_to_generate: rewrite the query when no document survived (or
      none was ever set), generate otherwise. */
  function DecideToGenerate(st: State): (r: string)
    ensures r == "transform_query" || r == "generate"
    ensures r == "transform_query" <==> (st.documents.None? || st.documents.value == [])
  {
    if st.documents.None? || st.documents.value == [] then "transform_query" else "generate"
  }

  /** grade_generation_v_documents_and_question: "useful" when the answer
      is grounded in the documents and addresses the question, "not useful"
      when grounded only, "not supported" when not grounded. */
  function GradeGeneration(question: Option<string>, documents: Option<seq<Document>>, generation: string,
                           hallucinationGrader: (Option<seq<Document>>, string) -> string,
                           answerGrader: (Option<string>, string) -> string): (r: string)
    ensures r in {"useful", "not useful", "not supported"}
    ensures r == "useful" <==>
      hallucinationGrader(documents, generation) == "yes" && answerGrader(question, generation) == "yes"
    ensures r == "not useful" <==>
      hallucinationGrader(documents, generation) == "yes" && answerGrader(question, generation) != "yes"
    ensures r == "not supported" <==> hallucinationGrader(documents, generation) != "yes"
  {
    if hallucinationGrader(documents, generation) == "yes" then
      if answerGrader(question, generation) == "yes" then "useful" else "not useful"
    else "not supported"
  }

  /** An answer that is not grounded is judged without consulting the answer
      grader: any two answer graders give the same verdict. */
  lemma UngroundedIgnoresAnswerGrader(question: Option<string>, documents: Option<seq<Document>>,
                                      generation: string,
                                      hallucinationGrader: (Option<seq<Document>>, string) -> string,
                                      answerGrader: (Option<string>, string) -> string,
                                      otherAnswerGrader: (Option<string>, string) -> string)
    requires hallucinationGrader(documents, generation) != "yes"
    ensures GradeGeneration(question, documents, generation, hallucinationGrader, answerGrader) ==
            GradeGeneration(question, documents, generation, hallucinationGrader, otherAnswerGrader) ==
            "not supported"
  {
  }
}
