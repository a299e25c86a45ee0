/** Supervised teams as graphs: a supervisor node and one node per member,
    every run starting at the supervisor. A member is either a single-step
    worker or a whole nested team, which is invoked on the parent's last
    message and reports back one tagged message. A run is bounded by a
    step budget (the recursion limit); running out of it is an abort of
    its own, distinct from finishing. */
module Teams {
  import opened Common
  import opened Conversation
  import opened Nodes
  import opened Agents

  /** What a member node does when it runs. */
  datatype Worker =
    | Agent(agent: State -> seq<Message>)   // a ReAct agent: the messages it ends with
    | RetrieveDocs
    | GradeDocs
    | Rewrite
    | GenerateAnswer
    | SubTeam(team: Team)                    // a nested team graph

  datatype Member = Member(name: string, worker: Worker)

  /** A team: the instruction its supervisor was built with and the
      members in the order they are offered to the classifier. */
  datatype Team = Team(instruction: string, members: seq<Member>)

  /** Everything a run calls out to, and the step budget every run gets. */
  datatype Env = Env(
    classify: Classifier,
    retriever: string -> seq<Document>,
    grader: (Option<string>, string) -> string,
    rewriter: Option<string> -> string,
    generator: (string, Option<string>) -> string,
    limit: nat)

  /** How a run ends, with the state at that point and the steps taken. An
      aborted run keeps the state from before the failing node. */
  datatype Outcome =
    | Finished(state: State, steps: nat)
    | Exhausted(state: State, steps: nat)
    | Aborted(state: State, steps: nat, fault: Fault)

  function Names(team: Team): (names: seq<string>)
    ensures |names| == |team.members|
    ensures forall i :: 0 <= i < |names| ==> names[i] == team.members[i].name
  {
    seq(|team.members|, i requires 0 <= i < |team.members| => team.members[i].name)
  }

  /** The node registered under a name: the first member carrying it. */
  function FindMember(members: seq<Member>, name: string): (r: Option<nat>)
    ensures r.Some? ==> r.value < |members| && members[r.value].name == name
    ensures r.None? <==> forall i :: 0 <= i < |members| ==> members[i].name != name
  {
    if members == [] then None
    else if members[0].name == name then Some(0)
    else
      match FindMember(members[1..], name)
      case None =>
        assert forall i :: 1 <= i < |members| ==> members[i] == members[1..][i - 1];
        None
      case Some(i) => Some(i + 1)
  }

  /** Some member of the team is registered under this name. */
  predicate IsMember(team: Team, name: string)
  {
    FindMember(team.members, name).Some?
  }

  /** A nested team's node, given how the nested run ended: a finished run
      reports the content of its last message under the member's name; a
      run that ran out of budget or raised makes the node raise. */
  function NestedReply(name: string, sub: Outcome): (r: Result<Command>)
    ensures r.Ok? <==> sub.Finished? && sub.state.messages != []
    ensures r.Ok? ==> r.value == Reply(name, Last(sub.state.messages).content, Keep, Keep)
    ensures sub.Exhausted? ==> r == Raised(RecursionLimit)
    ensures sub.Aborted? ==> r == Raised(sub.fault)
  {
    match sub
    case Finished(s, _) =>
      if s.messages == [] then Raised(EmptyMessages) else Ok(Reply(name, Last(s.messages).content, Keep, Keep))
    case Exhausted(_, _) => Raised(RecursionLimit)
    case Aborted(_, _, f) => Raised(f)
  }

  /** The node of member i. */
  function WorkerStep(team: Team, i: nat, env: Env, st: State): Result<Command>
    requires i < |team.members|
    decreases team, 0, 0
  {
    var m := team.members[i];
    match m.worker
    case Agent(agent) => AgentWorker(m.name, agent, st)
    case RetrieveDocs => RetrieveWorker(m.name, st, env.retriever)
    case GradeDocs => GradeWorker(m.name, st, env.grader)
    case Rewrite => Ok(TransformWorker(m.name, st, env.rewriter))
    case GenerateAnswer => GenerateWorker(m.name, st, env.generator)
    case SubTeam(sub) =>
      if st.messages == [] then Raised(EmptyMessages)
      else NestedReply(m.name, RunFrom(sub, env, StartState([Last(st.messages)]), Supervisor, env.limit, 0))
  }

  /** The node registered under `node`: the supervisor, a member, or none. */
  function NodeStep(team: Team, env: Env, st: State, node: string): Result<Command>
    decreases team, 0, 1
  {
    if node == Supervisor then SupervisorNode(Names(team), team.instruction, env.classify, st)
    else
      match FindMember(team.members, node)
      case None => Raised(UnknownNode(node))
      case Some(i) => WorkerStep(team, i, env, st)
  }

  /** A run of the team graph from `node` with `fuel` steps left, `taken`
      steps already done: run the node, apply its update, stop at the end
      node, otherwise go where its command says. With no steps left the run
      is exhausted before the pending node runs. */
  function RunFrom(team: Team, env: Env, st: State, node: string, fuel: nat, taken: nat): Outcome
    decreases team, fuel, 2
  {
    if fuel == 0 then Exhausted(st, taken)
    else
      match NodeStep(team, env, st, node)
      case Raised(f) => Aborted(st, taken, f)
      case Ok(cmd) =>
        var st' := Apply(st, cmd.update);
        if cmd.goto == End then Finished(st', taken + 1)
        else RunFrom(team, env, st', cmd.goto, fuel - 1, taken + 1)
  }

  /** Invoking a team graph: a run from its supervisor with the full budget. */
  method Run(team: Team, env: Env, input: State) returns (out: Outcome)
    ensures out == RunFrom(team, env, input, Supervisor, env.limit, 0)
    decreases team, 2, 0
  {
    var st := input;
    var node := Supervisor;
    var fuel := env.limit;
    var taken := 0;
    while true
      invariant RunFrom(team, env, input, Supervisor, env.limit, 0) == RunFrom(team, env, st, node, fuel, taken)
      decreases fuel
    {
      if fuel == 0 {
        return Exhausted(st, taken);
      }
      var r := ExecNode(team, env, st, node);
      if r.Raised? {
        return Aborted(st, taken, r.fault);
      }
      var cmd := r.value;
      st := Apply(st, cmd.update);
      taken := taken + 1;
      if cmd.goto == End {
        return Finished(st, taken);
      }
      node := cmd.goto;
      fuel := fuel - 1;
    }
  }

  method ExecNode(team: Team, env: Env, st: State, node: string) returns (r: Result<Command>)
    ensures r == NodeStep(team, env, st, node)
    decreases team, 1, 0
  {
    if node == Supervisor {
      return SupervisorNode(Names(team), team.instruction, env.classify, st);
    }
    var found := FindMember(team.members, node);
    if found.None? {
      return Raised(UnknownNode(node));
    }
    r := ExecWorker(team, found.value, env, st);
  }

  /** Running member i: grading goes through its loop, a nested team
      through its own run; the other workers are single calls. */
  method ExecWorker(team: Team, i: nat, env: Env, st: State) returns (r: Result<Command>)
    requires i < |team.members|
    ensures r == WorkerStep(team, i, env, st)
    decreases team, 0, 0
  {
    var m := team.members[i];
    match m.worker {
      case GradeDocs =>
        var graded := GradeDocuments(st, env.grader);
        r := GradeReply(m.name, graded);
      case SubTeam(sub) =>
        if st.messages == [] {
          r := Raised(EmptyMessages);
        } else {
          var o := Run(sub, env, StartState([Last(st.messages)]));
          r := NestedReply(m.name, o);
        }
      case _ =>
        r := WorkerStep(team, i, env, st);
    }
  }

  // ---------------------------------------------------------------------
  // Single steps.

  /** Every member replies with exactly one human message tagged with its
      own name, changes no routing directive, and returns to the supervisor. */
  lemma WorkerStepReplies(team: Team, i: nat, env: Env, st: State)
    requires i < |team.members|
    ensures var r := WorkerStep(team, i, env, st);
            r.Ok? ==>
              && r.value.goto == Supervisor
              && |r.value.update.messages| == 1
              && r.value.update.messages[0].role == Human
              && r.value.update.messages[0].name == Some(team.members[i].name)
              && r.value.update.next.Keep?
  {
  }

  /** What one node step can do to the conversation and the route: the
      supervisor appends nothing, records its route in `next` and (with a
      classifier that keeps to its options) routes to a member or the end;
      a member appends one human message tagged with a member name and
      returns to the supervisor. */
  lemma NodeStepShape(team: Team, env: Env, st: State, node: string)
    ensures var r := NodeStep(team, env, st, node);
            r.Ok? && node == Supervisor ==>
              && r.value.update.messages == []
              && r.value.update.next == Set(r.value.goto)
              && (RespectsOptions(env.classify) ==> IsMember(team, r.value.goto) || r.value.goto == End)
    ensures var r := NodeStep(team, env, st, node);
            r.Ok? && node != Supervisor ==>
              && r.value.goto == Supervisor
              && |r.value.update.messages| == 1
              && r.value.update.messages[0].role == Human
              && r.value.update.messages[0].name.Some?
              && IsMember(team, r.value.update.messages[0].name.value)
  {
    var r := NodeStep(team, env, st, node);
    if r.Ok? {
      if node == Supervisor {
        if RespectsOptions(env.classify) {
          SupervisorRoutesWithinOptions(Names(team), team.instruction, env.classify, st);
          if r.value.goto in Names(team) {
            var k :| 0 <= k < |Names(team)| && Names(team)[k] == r.value.goto;
            assert team.members[k].name == r.value.goto;
          }
        }
      } else {
        var i := FindMember(team.members, node).value;
        WorkerStepReplies(team, i, env, st);
      }
    }
  }

  /** A nested team sees only the parent's last message: two parent
      conversations ending in the same message give the same reply. */
  lemma NestedSeesLastMessageOnly(team: Team, i: nat, env: Env, st: State, st': State)
    requires i < |team.members| && team.members[i].worker.SubTeam?
    requires st.messages != [] && st'.messages != []
    requires Last(st.messages) == Last(st'.messages)
    ensures WorkerStep(team, i, env, st) == WorkerStep(team, i, env, st')
  {
  }

  /** However many steps the nested run takes, a finished nested run adds
      exactly one message to the parent: the content of the nested run's
      last message, tagged with the member's name. A nested run that runs
      out of budget surfaces as a RecursionLimit fault in the parent. */
  lemma NestedAddsOneMessage(team: Team, i: nat, env: Env, st: State)
    requires i < |team.members| && team.members[i].worker.SubTeam?
    requires st.messages != []
    ensures var sub := RunFrom(team.members[i].worker.team, env, StartState([Last(st.messages)]), Supervisor, env.limit, 0);
            var r := WorkerStep(team, i, env, st);
            && (sub.Finished? ==>
                  && r.Ok?
                  && Apply(st, r.value.update).messages ==
                     st.messages + [Tagged(Last(sub.state.messages).content, team.members[i].name)])
            && (sub.Exhausted? ==> r == Raised(RecursionLimit))
  {
    RunExtendsHistory(team.members[i].worker.team, env, StartState([Last(st.messages)]), Supervisor, env.limit, 0);
  }

  // ---------------------------------------------------------------------
  // Whole runs.

  /** The run took at most its budget, is exhausted only after taking all
      of it, and if finished, its routing directive is the end node. */
  predicate WithinBudget(o: Outcome, fuel: nat, taken: nat)
  {
    && taken <= o.steps <= taken + fuel
    && (o.Exhausted? ==> o.steps == taken + fuel)
    && (o.Finished? ==> o.state.next == Some(End))
  }

  /** Every run keeps to its budget (WithinBudget). */
  lemma {:induction false} RunWithinBudget(team: Team, env: Env, st: State, node: string, fuel: nat, taken: nat)
    ensures WithinBudget(RunFrom(team, env, st, node, fuel, taken), fuel, taken)
    decreases fuel
  {
    var o := RunFrom(team, env, st, node, fuel, taken);
    if fuel > 0 {
      var r := NodeStep(team, env, st, node);
      if r.Ok? {
        NodeStepShape(team, env, st, node);
        var st' := Apply(st, r.value.update);
        if r.value.goto == End {
          assert node == Supervisor;
          assert st'.next == Some(End);
          assert o == Finished(st', taken + 1);
        } else {
          var o' := RunFrom(team, env, st', r.value.goto, fuel - 1, taken + 1);
          assert o == o';
          RunWithinBudget(team, env, st', r.value.goto, fuel - 1, taken + 1);
          assert WithinBudget(o', fuel - 1, taken + 1);
        }
      } else {
        assert o == Aborted(st, taken, r.fault);
      }
    } else {
      assert o == Exhausted(st, taken);
    }
    assert WithinBudget(o, fuel, taken);
  }

  /** Every message a run appends is a human message tagged with the name
      of one of the team's members. */
  ghost predicate TaggedByMembers(team: Team, added: seq<Message>)
  {
    forall k :: 0 <= k < |added| ==>
      added[k].role == Human && added[k].name.Some? && IsMember(team, added[k].name.value)
  }

  /** `final` is `before` followed by messages tagged by the team's members. */
  ghost predicate ExtendsHistory(team: Team, before: seq<Message>, final: seq<Message>)
  {
    && |before| <= |final|
    && final[..|before|] == before
    && TaggedByMembers(team, final[|before|..])
  }

  /** Appending tagged messages extends a history; appending none too. */
  lemma AppendExtends(team: Team, before: seq<Message>, added: seq<Message>)
    requires TaggedByMembers(team, added)
    ensures ExtendsHistory(team, before, before + added)
  {
    assert (before + added)[..|before|] == before;
    assert (before + added)[|before|..] == added;
  }

  /** Extending a history in two stages extends it in one. */
  lemma ExtendsTransitive(team: Team, before: seq<Message>, mid: seq<Message>, final: seq<Message>)
    requires ExtendsHistory(team, before, mid) && ExtendsHistory(team, mid, final)
    ensures ExtendsHistory(team, before, final)
  {
    assert final[..|before|] == mid[..|before|];
    var first := mid[|before|..];
    var rest := final[|before|..];
    forall k | 0 <= k < |rest|
      ensures rest[k].role == Human && rest[k].name.Some? && IsMember(team, rest[k].name.value)
    {
      if k < |first| {
        assert rest[k] == mid[|before| + k] == first[k];
      } else {
        assert rest[k] == final[|mid|..][k - |first|];
      }
    }
  }

  /** A run only ever appends to the conversation, and only messages tagged
      by the team's members (the supervisor adds none). */
  lemma {:induction false} RunExtendsHistory(team: Team, env: Env, st: State, node: string, fuel: nat, taken: nat)
    ensures ExtendsHistory(team, st.messages, RunFrom(team, env, st, node, fuel, taken).state.messages)
    decreases fuel
  {
    var o := RunFrom(team, env, st, node, fuel, taken);
    if fuel > 0 && NodeStep(team, env, st, node).Ok? {
      var r := NodeStep(team, env, st, node);
      NodeStepShape(team, env, st, node);
      var st' := Apply(st, r.value.update);
      AppendExtends(team, st.messages, r.value.update.messages);
      if r.value.goto == End {
        assert o.state == st';
      } else {
        assert o == RunFrom(team, env, st', r.value.goto, fuel - 1, taken + 1);
        RunExtendsHistory(team, env, st', r.value.goto, fuel - 1, taken + 1);
        ExtendsTransitive(team, st.messages, st'.messages, o.state.messages);
      }
    } else {
      assert o.state == st;
      AppendExtends(team, st.messages, []);
      assert st.messages + [] == st.messages;
    }
  }

  /** How the steps of a run and the messages it appended relate when
      supervisor and member steps alternate: a run from the supervisor
      takes two steps per appended message, plus the final supervisor step
      when it finishes; a run from a member takes one step fewer. */
  predicate Alternates(o: Outcome, before: nat, taken: nat, fromSupervisor: bool)
  {
    var added := |o.state.messages| - before;
    var steps := o.steps - taken;
    if fromSupervisor then 2 * added <= steps <= 2 * added + 1 && (o.Finished? ==> steps == 2 * added + 1)
    else 2 * added - 1 <= steps <= 2 * added && (o.Finished? ==> steps == 2 * added)
  }

  /** A supervisor step keeps the conversation's length and, in a team
      with no member under the supervisor's name, never routes back to the
      supervisor. */
  lemma SupervisorStepKeepsLength(team: Team, env: Env, st: State)
    requires RespectsOptions(env.classify)
    requires !IsMember(team, Supervisor)
    ensures NodeStep(team, env, st, Supervisor).Ok? ==>
              && |Apply(st, NodeStep(team, env, st, Supervisor).value.update).messages| == |st.messages|
              && NodeStep(team, env, st, Supervisor).value.goto != Supervisor
  {
    NodeStepShape(team, env, st, Supervisor);
  }

  /** A member step adds one message and returns to the supervisor. */
  lemma MemberStepAddsOne(team: Team, env: Env, st: State, node: string)
    requires node != Supervisor
    ensures NodeStep(team, env, st, node).Ok? ==>
              && |Apply(st, NodeStep(team, env, st, node).value.update).messages| == |st.messages| + 1
              && NodeStep(team, env, st, node).value.goto == Supervisor
  {
    NodeStepShape(team, env, st, node);
  }

  /** Message accounting from the supervisor. */
  lemma {:induction false} AccountingAtSupervisor(team: Team, env: Env, st: State, fuel: nat, taken: nat)
    requires RespectsOptions(env.classify)
    requires !IsMember(team, Supervisor)
    ensures Alternates(RunFrom(team, env, st, Supervisor, fuel, taken), |st.messages|, taken, true)
    decreases fuel, 1
  {
    var o := RunFrom(team, env, st, Supervisor, fuel, taken);
    if fuel > 0 && NodeStep(team, env, st, Supervisor).Ok? {
      var r := NodeStep(team, env, st, Supervisor);
      SupervisorStepKeepsLength(team, env, st);
      var st' := Apply(st, r.value.update);
      if r.value.goto != End {
        var o' := RunFrom(team, env, st', r.value.goto, fuel - 1, taken + 1);
        AccountingAtMember(team, env, st', r.value.goto, fuel - 1, taken + 1);
        assert o == o';
      } else {
        assert o == Finished(st', taken + 1);
      }
    } else {
      assert o.state == st && o.steps == taken && !o.Finished?;
    }
  }

  /** Message accounting from a member node. */
  lemma {:induction false} AccountingAtMember(team: Team, env: Env, st: State, node: string, fuel: nat, taken: nat)
    requires RespectsOptions(env.classify)
    requires !IsMember(team, Supervisor)
    requires node != Supervisor
    ensures Alternates(RunFrom(team, env, st, node, fuel, taken), |st.messages|, taken, false)
    decreases fuel, 0
  {
    var o := RunFrom(team, env, st, node, fuel, taken);
    if fuel > 0 && NodeStep(team, env, st, node).Ok? {
      var r := NodeStep(team, env, st, node);
      MemberStepAddsOne(team, env, st, node);
      var st' := Apply(st, r.value.update);
      var o' := RunFrom(team, env, st', Supervisor, fuel - 1, taken + 1);
      AccountingAtSupervisor(team, env, st', fuel - 1, taken + 1);
      assert o == o';
    } else {
      assert o.state == st && o.steps == taken && !o.Finished?;
    }
  }

  /** A classifier that answers FINISH at once ends the run after the one
      supervisor step: no member runs, the conversation is unchanged and
      the routing directive is the end node. */
  lemma FinishAtOnce(team: Team, env: Env, st: State, fuel: nat, taken: nat)
    requires st.messages != [] && fuel >= 1
    requires env.classify(Options(Names(team)), RouterContext(team.instruction, st.messages)) == Some(Finish)
    ensures RunFrom(team, env, st, Supervisor, fuel, taken) == Finished(st.(next := Some(End)), taken + 1)
  {
    SupervisorFirstAnswerDecides(Names(team), team.instruction, env.classify, env.classify, st, Finish);
  }

  /** Every member is an agent that always ends with some message. */
  ghost predicate AgentsOnly(team: Team)
  {
    forall i :: 0 <= i < |team.members| ==>
      team.members[i].worker.Agent? && forall s :: team.members[i].worker.agent(s) != []
  }

  /** The classifier always names one of the team's members, never FINISH
      and never the end node. */
  ghost predicate NeverFinishes(team: Team, classify: Classifier)
  {
    forall context :: classify(Options(Names(team)), context).Some? &&
      IsMember(team, classify(Options(Names(team)), context).value) &&
      classify(Options(Names(team)), context).value != Finish &&
      classify(Options(Names(team)), context).value != End &&
      classify(Options(Names(team)), context).value != Supervisor
  }

  /** Every member step on a non-empty conversation succeeds: whatever the
      member is (agent, RAG step or nested team), it does not raise. */
  ghost predicate MembersReply(team: Team, env: Env)
  {
    forall st: State, node: string ::
      st.messages != [] && IsMember(team, node) && node != Supervisor ==> NodeStep(team, env, st, node).Ok?
  }

  /** A team of agents that always answer is a team whose members reply. */
  lemma AgentsOnlyMembersReply(team: Team, env: Env)
    requires AgentsOnly(team)
    ensures MembersReply(team, env)
  {
    forall st: State, node: string | st.messages != [] && IsMember(team, node) && node != Supervisor
      ensures NodeStep(team, env, st, node).Ok?
    {
      AgentMemberReplies(team, env, st, node);
    }
  }

  /** A classifier that never finishes, over members that never fail, keeps
      the run cycling until the budget is spent: from the supervisor, the
      run is exhausted after exactly its budget of steps, never reported as
      finished. */
  lemma {:induction false} NeverFinishingRunIsExhausted(team: Team, env: Env, st: State, fuel: nat, taken: nat)
    requires MembersReply(team, env) && NeverFinishes(team, env.classify)
    requires st.messages != []
    ensures RunFrom(team, env, st, Supervisor, fuel, taken).Exhausted?
    ensures RunFrom(team, env, st, Supervisor, fuel, taken).steps == taken + fuel
    decreases fuel, 1
  {
    var o := RunFrom(team, env, st, Supervisor, fuel, taken);
    if fuel > 0 {
      var context := RouterContext(team.instruction, st.messages);
      var choice := env.classify(Options(Names(team)), context);
      assert choice.Some? && IsMember(team, choice.value);
      assert choice.value != Finish && choice.value != End && choice.value != Supervisor;
      var cmd := Command(choice.value, Update([], Set(choice.value), Keep, Keep));
      assert NodeStep(team, env, st, Supervisor) == Ok(cmd);
      var o' := RunFrom(team, env, Apply(st, cmd.update), choice.value, fuel - 1, taken + 1);
      assert o == o';
      NeverFinishingMember(team, env, Apply(st, cmd.update), choice.value, fuel - 1, taken + 1);
      assert o'.Exhausted? && o'.steps == taken + fuel;
    } else {
      assert o == Exhausted(st, taken);
    }
    assert o.Exhausted? && o.steps == taken + fuel;
  }

  /** A member of an agents-only team always replies and hands back to
      the supervisor with a non-empty conversation. */
  lemma AgentMemberReplies(team: Team, env: Env, st: State, node: string)
    requires AgentsOnly(team)
    requires IsMember(team, node) && node != Supervisor
    ensures NodeStep(team, env, st, node).Ok?
    ensures NodeStep(team, env, st, node).value.goto == Supervisor
    ensures Apply(st, NodeStep(team, env, st, node).value.update).messages != []
  {
    var i := FindMember(team.members, node).value;
    assert team.members[i].worker.Agent?;
    var agent := team.members[i].worker.agent;
    assert agent(st) != [];
    var cmd := Reply(node, Last(agent(st)).content, Keep, Keep);
    assert AgentWorker(node, agent, st) == Ok(cmd);
    assert WorkerStep(team, i, env, st) == Ok(cmd);
    assert NodeStep(team, env, st, node) == Ok(cmd);
  }

  /** The same, from one of the members; an agents-only team replies even
      from an empty conversation. */
  lemma {:induction false} NeverFinishingMember(team: Team, env: Env, st: State, node: string, fuel: nat, taken: nat)
    requires MembersReply(team, env) && NeverFinishes(team, env.classify)
    requires IsMember(team, node) && node != Supervisor
    requires st.messages != [] || AgentsOnly(team)
    ensures RunFrom(team, env, st, node, fuel, taken).Exhausted?
    ensures RunFrom(team, env, st, node, fuel, taken).steps == taken + fuel
    decreases fuel, 0
  {
    if fuel > 0 {
      if st.messages == [] {
        AgentMemberReplies(team, env, st, node);
      }
      assert NodeStep(team, env, st, node).Ok?;
      MemberStepAddsOne(team, env, st, node);
      var r := NodeStep(team, env, st, node);
      var st' := Apply(st, r.value.update);
      NeverFinishingRunIsExhausted(team, env, st', fuel - 1, taken + 1);
      assert RunFrom(team, env, st, node, fuel, taken) == RunFrom(team, env, st', Supervisor, fuel - 1, taken + 1);
    }
  }

  // ---------------------------------------------------------------------
  // The teams the application builds.

  const ResearchNames := ["search", "web_scraper"]
  const DocNames := ["doc_writer", "outline_taker", "chart_generator"]
  const RagNames := ["retrieve", "grade_documents", "transform_query", "generate"]
  const RootNames := ["research_team", "writing_team", "adaptive_rag_team"]

  /** The research team's members: a search agent and a web-scraping agent. */
  function ResearchRoster(search: State -> seq<Message>, scraper: State -> seq<Message>): seq<Member>
  {
    [Member("search", Agent(search)), Member("web_scraper", Agent(scraper))]
  }

  /** The research team, under the default instruction. */
  function ResearchTeam(search: State -> seq<Message>, scraper: State -> seq<Message>): Team
  {
    Team(PromptFor(ResearchNames, None), ResearchRoster(search, scraper))
  }

  /** The document-writing team's members: writer, outliner and chart
      generator agents. */
  function DocRoster(writer: State -> seq<Message>, outliner: State -> seq<Message>,
                     charts: State -> seq<Message>): seq<Member>
  {
    [Member("doc_writer", Agent(writer)), Member("outline_taker", Agent(outliner)),
     Member("chart_generator", Agent(charts))]
  }

  /** The document-writing team, under the default instruction. */
  function DocTeam(writer: State -> seq<Message>, outliner: State -> seq<Message>, charts: State -> seq<Message>): Team
  {
    Team(PromptFor(DocNames, None), DocRoster(writer, outliner, charts))
  }

  /** The adaptive RAG team's members: its four step nodes. */
  const RagRoster := [Member("retrieve", RetrieveDocs), Member("grade_documents", GradeDocs),
                      Member("transform_query", Rewrite), Member("generate", GenerateAnswer)]

  /** The adaptive RAG team. Its instruction is its prompt template filled
      in with the member names joined by ", ". */
  function RagTeam(template: string -> string): Team
  {
    Team(PromptFor(RagNames, Some(template(Join(", ", RagNames)))), RagRoster)
  }

  /** The root graph's members: the three teams as nested graphs. */
  function RootRoster(research: Team, writing: Team, rag: Team): seq<Member>
  {
    [Member("research_team", SubTeam(research)), Member("writing_team", SubTeam(writing)),
     Member("adaptive_rag_team", SubTeam(rag))]
  }

  /** The root graph, under the root prompt template filled in with the
      team names. */
  function Hierarchy(template: string -> string, research: Team, writing: Team, rag: Team): Team
  {
    Team(PromptFor(RootNames, Some(template(Join(", ", RootNames)))), RootRoster(research, writing, rag))
  }

  /** Member names are distinct and none of them is the supervisor's node
      name, the end node or FINISH. */
  predicate DistinctNames(team: Team)
  {
    && (forall i, j :: 0 <= i < j < |team.members| ==> team.members[i].name != team.members[j].name)
    && (forall i :: 0 <= i < |team.members| ==>
          team.members[i].name != Supervisor && team.members[i].name != End && team.members[i].name != Finish)
  }

  /** A team whose names satisfy DistinctNames has no member registered
      under the supervisor's node name, so the accounting lemmas apply. */
  lemma DistinctNamesExcludeSupervisor(team: Team)
    requires DistinctNames(team)
    ensures !IsMember(team, Supervisor)
  {
    assert FindMember(team.members, Supervisor).None?;
  }

  /** The research team offers search and web_scraper, in that order,
      whatever instruction its supervisor carries. */
  lemma ResearchTeamBuilt(instruction: string, search: State -> seq<Message>, scraper: State -> seq<Message>)
    ensures var team := Team(instruction, ResearchRoster(search, scraper));
            Names(team) == ResearchNames && DistinctNames(team) && !IsMember(team, Supervisor)
  {
    var team := Team(instruction, ResearchRoster(search, scraper));
    assert Names(team) == ResearchNames;
    DistinctNamesExcludeSupervisor(team);
  }

  /** The writing team offers doc_writer, outline_taker and chart_generator. */
  lemma DocTeamBuilt(instruction: string, writer: State -> seq<Message>, outliner: State -> seq<Message>,
                     charts: State -> seq<Message>)
    ensures var team := Team(instruction, DocRoster(writer, outliner, charts));
            Names(team) == DocNames && DistinctNames(team) && !IsMember(team, Supervisor)
  {
    var team := Team(instruction, DocRoster(writer, outliner, charts));
    assert Names(team) == DocNames;
    DistinctNamesExcludeSupervisor(team);
  }

  /** The adaptive RAG team offers its four step nodes in graph order. */
  lemma RagTeamBuilt(instruction: string)
    ensures var team := Team(instruction, RagRoster);
            Names(team) == RagNames && DistinctNames(team) && !IsMember(team, Supervisor)
  {
    var team := Team(instruction, RagRoster);
    assert Names(team) == RagNames;
    DistinctNamesExcludeSupervisor(team);
  }

  /** The root graph offers the three teams. */
  lemma HierarchyBuilt(instruction: string, research: Team, writing: Team, rag: Team)
    ensures var team := Team(instruction, RootRoster(research, writing, rag));
            Names(team) == RootNames && DistinctNames(team) && !IsMember(team, Supervisor)
  {
    var team := Team(instruction, RootRoster(research, writing, rag));
    assert Names(team) == RootNames;
    DistinctNamesExcludeSupervisor(team);
  }

  /** The budget the application gives a run. */
  const CallerLimit: nat := 50

  /** The state the application starts the root graph from: the user's
      prompt as the only (human) message. */
  function UserRequest(prompt: string): State
  {
    StartState([Message(Human, prompt, None)])
  }

  /** The three teams the application builds offer exactly their own
      members, and the root graph offers the three teams. */
  lemma ApplicationTeamsBuilt(rootTemplate: string -> string, ragTemplate: string -> string,
                              search: State -> seq<Message>, scraper: State -> seq<Message>,
                              writer: State -> seq<Message>, outliner: State -> seq<Message>,
                              charts: State -> seq<Message>)
    ensures Names(ResearchTeam(search, scraper)) == ResearchNames
    ensures Names(DocTeam(writer, outliner, charts)) == DocNames
    ensures Names(RagTeam(ragTemplate)) == RagNames
    ensures var root := Hierarchy(rootTemplate, ResearchTeam(search, scraper), DocTeam(writer, outliner, charts),
                                  RagTeam(ragTemplate));
            Names(root) == RootNames && !IsMember(root, Supervisor)
  {
    var research := ResearchTeam(search, scraper);
    var writing := DocTeam(writer, outliner, charts);
    var rag := RagTeam(ragTemplate);
    ResearchTeamBuilt(research.instruction, search, scraper);
    DocTeamBuilt(writing.instruction, writer, outliner, charts);
    RagTeamBuilt(rag.instruction);
    HierarchyBuilt(Hierarchy(rootTemplate, research, writing, rag).instruction, research, writing, rag);
  }

  /** A run of any team from a user request with the caller's budget
      keeps to the budget and only appends member replies to the request. */
  lemma RequestRun(root: Team, env: Env, prompt: string)
    ensures ServesRequest(root, env, prompt)
  {
    var st := UserRequest(prompt);
    RunWithinBudget(root, env, st, Supervisor, CallerLimit, 0);
    RunExtendsHistory(root, env, st, Supervisor, CallerLimit, 0);
  }

  /** What the application promises of a run of its root graph from the
      user's request: it keeps to the caller's budget, and the request stays
      the first message with every later message from a member. */
  ghost predicate ServesRequest(root: Team, env: Env, prompt: string)
  {
    var o := RunFrom(root, env, UserRequest(prompt), Supervisor, CallerLimit, 0);
    && WithinBudget(o, CallerLimit, 0)
    && ExtendsHistory(root, [Message(Human, prompt, None)], o.state.messages)
  }

  /** The run the application starts, over the root graph of the three
      teams it builds, serves the request (ServesRequest). */
  lemma ApplicationRun(rootTemplate: string -> string, ragTemplate: string -> string,
                       search: State -> seq<Message>, scraper: State -> seq<Message>,
                       writer: State -> seq<Message>, outliner: State -> seq<Message>,
                       charts: State -> seq<Message>, env: Env, prompt: string)
    ensures ServesRequest(Hierarchy(rootTemplate, ResearchTeam(search, scraper), DocTeam(writer, outliner, charts),
                                    RagTeam(ragTemplate)), env, prompt)
  {
    var root := Hierarchy(rootTemplate, ResearchTeam(search, scraper), DocTeam(writer, outliner, charts),
                          RagTeam(ragTemplate));
    RequestRun(root, env, prompt);
  }

  /** With a classifier kept to its options, the application's run takes
      two steps per team reply, plus the final supervisor step when it
      finishes. */
  lemma ApplicationAccounting(rootTemplate: string -> string, ragTemplate: string -> string,
                              search: State -> seq<Message>, scraper: State -> seq<Message>,
                              writer: State -> seq<Message>, outliner: State -> seq<Message>,
                              charts: State -> seq<Message>, env: Env, prompt: string)
    requires RespectsOptions(env.classify)
    ensures Alternates(RunFrom(Hierarchy(rootTemplate, ResearchTeam(search, scraper), DocTeam(writer, outliner, charts),
                                         RagTeam(ragTemplate)), env, UserRequest(prompt), Supervisor, CallerLimit, 0),
                       1, 0, true)
  {
    var root := Hierarchy(rootTemplate, ResearchTeam(search, scraper), DocTeam(writer, outliner, charts),
                          RagTeam(ragTemplate));
    ApplicationTeamsBuilt(rootTemplate, ragTemplate, search, scraper, writer, outliner, charts);
    RequestAccounting(root, env, prompt);
  }

  /** The same for any team with no member under the supervisor's name. */
  lemma RequestAccounting(root: Team, env: Env, prompt: string)
    requires RespectsOptions(env.classify) && !IsMember(root, Supervisor)
    ensures Alternates(RunFrom(root, env, UserRequest(prompt), Supervisor, CallerLimit, 0), 1, 0, true)
  {
    AccountingAtSupervisor(root, env, UserRequest(prompt), CallerLimit, 0);
  }
}
