/** The chat assistant panel: a keyword classifier that picks a canned reply
    and, for some keywords, a scheduling-constraint proposal; the row saved
    for a proposal; and the message list the panel keeps. */
module Chat {
  import opened Values
  import opened Text

  /* ------------------------------------------------------------ replies */

  /** The canned reply texts, by topic (their prose is not modelled). */
  datatype ReplyKind =
    | Greeting
    | ConstraintTypesOverview
    | EmployeeAvailabilityAdded
    | MachineCapacityAdded
    | PriorityOrderingAdded
    | OptimizationGoals
    | GeneralHelp

  /** The `constraints` object a reply may carry: `type`, `description` and
      optional `parameters`. */
  datatype ConstraintProposal = ConstraintProposal(kind: string, description: string, parameters: Option<map<string, Json>>)

  /** What `simulateAIResponse` resolves to. */
  datatype Reply = Reply(content: ReplyKind, constraints: Option<ConstraintProposal>)

  const GeneralInfo := ConstraintProposal("general_info", "Constraint types overview", None)

  const EmployeeAvailability := ConstraintProposal(
    "employee_availability", "Match employee assignments with their availability",
    Some(map["enforce_availability" := JBool(true), "check_shift_times" := JBool(true)]))

  const MachineCapacity := ConstraintProposal(
    "machine_capacity", "Limit concurrent jobs per machine based on capacity",
    Some(map["respect_capacity" := JBool(true), "allow_queue" := JBool(true)]))

  const PriorityOrdering := ConstraintProposal(
    "priority_ordering", "Schedule high priority jobs first",
    Some(map["priority_weight" := JNum(0.8), "strict_ordering" := JBool(false)]))

  /** `simulateAIResponse`: the first test that matches the lower-cased input
      decides the reply. */
  function SimulateAiResponse(userInput: string): Reply {
    var input := ToLower(userInput);
    if Contains(input, "constraint") || Contains(input, "rule") then
      Reply(ConstraintTypesOverview, Some(GeneralInfo))
    else if Contains(input, "employee") || Contains(input, "worker") then
      Reply(EmployeeAvailabilityAdded, Some(EmployeeAvailability))
    else if Contains(input, "machine") || Contains(input, "resource") then
      Reply(MachineCapacityAdded, Some(MachineCapacity))
    else if Contains(input, "priority") || Contains(input, "urgent") then
      Reply(PriorityOrderingAdded, Some(PriorityOrdering))
    else if Contains(input, "optimize") || Contains(input, "schedule") then
      Reply(OptimizationGoals, None)
    else
      Reply(GeneralHelp, None)
  }

  /* ------------------------------------ the rule chain as a table, for reference */

  /** A rule of the chain: if `first` or `second` occurs, answer `reply`. */
  datatype Rule = Rule(first: string, second: string, reply: Reply)

  /** The rules of the chain, in the order they are tried. */
  const Rules: seq<Rule> := [
    Rule("constraint", "rule", Reply(ConstraintTypesOverview, Some(GeneralInfo))),
    Rule("employee", "worker", Reply(EmployeeAvailabilityAdded, Some(EmployeeAvailability))),
    Rule("machine", "resource", Reply(MachineCapacityAdded, Some(MachineCapacity))),
    Rule("priority", "urgent", Reply(PriorityOrderingAdded, Some(PriorityOrdering))),
    Rule("optimize", "schedule", Reply(OptimizationGoals, None))
  ]

  /** The reply when no rule matches. */
  const Fallback := Reply(GeneralHelp, None)

  predicate Matches(input: string, rule: Rule) {
    Contains(input, rule.first) || Contains(input, rule.second)
  }

  /** The index of the first rule at or after `from` that matches `input`. */
  function FirstMatch(rules: seq<Rule>, input: string, from: nat): (r: Option<nat>)
    ensures r.Some? ==> from <= r.value < |rules| && Matches(input, rules[r.value])
    ensures r.Some? ==> forall j :: from <= j < r.value ==> !Matches(input, rules[j])
    ensures r.None? ==> forall j :: from <= j < |rules| ==> !Matches(input, rules[j])
    decreases |rules| - from
  {
    if from >= |rules| then None
    else if Matches(input, rules[from]) then Some(from)
    else FirstMatch(rules, input, from + 1)
  }

  /** The reply a first-match-wins table gives. */
  function TableReply(rules: seq<Rule>, input: string): Reply {
    match FirstMatch(rules, input, 0)
    case Some(i) => rules[i].reply
    case None => Fallback
  }

  /** The if-chain answers exactly as the first matching rule of the table,
      tried in order, on the lower-cased input. */
  lemma SimulateFollowsRuleTable(userInput: string)
    ensures SimulateAiResponse(userInput) == TableReply(Rules, ToLower(userInput))
  {
    var t := ToLower(userInput);
    var r := SimulateAiResponse(userInput);
    if Matches(t, Rules[0]) {
      assert FirstMatch(Rules, t, 0) == Some(0);
    } else if Matches(t, Rules[1]) {
      assert FirstMatch(Rules, t, 0) == FirstMatch(Rules, t, 1) == Some(1);
    } else if Matches(t, Rules[2]) {
      assert FirstMatch(Rules, t, 0) == FirstMatch(Rules, t, 2) == Some(2);
    } else if Matches(t, Rules[3]) {
      assert FirstMatch(Rules, t, 0) == FirstMatch(Rules, t, 3) == Some(3);
    } else if Matches(t, Rules[4]) {
      assert FirstMatch(Rules, t, 0) == FirstMatch(Rules, t, 4) == Some(4);
    } else {
      assert FirstMatch(Rules, t, 0).None?;
    }
  }

  /** Matching ignores case: an input and its lower-cased form get the same reply. */
  lemma CaseInsensitive(userInput: string)
    ensures SimulateAiResponse(ToLower(userInput)) == SimulateAiResponse(userInput)
  {
    ToLowerIdempotent(userInput);
  }

  /** A constraint is proposed exactly when one of the first four rules
      matches; "optimize"/"schedule" alone, or no keyword, proposes none. */
  lemma ProposalIffConstraintKeyword(userInput: string)
    ensures SimulateAiResponse(userInput).constraints.Some? <==>
      exists j :: 0 <= j < 4 && Matches(ToLower(userInput), Rules[j])
  {
    var t := ToLower(userInput);
    if SimulateAiResponse(userInput).constraints.Some? {
      if Matches(t, Rules[0]) {
      } else if Matches(t, Rules[1]) {
      } else if Matches(t, Rules[2]) {
      } else {
        assert Matches(t, Rules[3]);
      }
    }
  }

  /** Each proposal kind carries its fixed parameters: machine capacity
      respects capacity and allows a queue, priority ordering weighs 0.8 and is
      not strict, employee availability enforces availability and shift times,
      the overview carries none. */
  lemma ProposalParameters(userInput: string)
    ensures var c := SimulateAiResponse(userInput).constraints;
      c.Some? ==>
        && (c.value.kind == "general_info" ==> c.value.parameters.None?)
        && (c.value.kind == "employee_availability" ==>
              c.value.parameters == Some(map["enforce_availability" := JBool(true), "check_shift_times" := JBool(true)]))
        && (c.value.kind == "machine_capacity" ==>
              c.value.parameters == Some(map["respect_capacity" := JBool(true), "allow_queue" := JBool(true)]))
        && (c.value.kind == "priority_ordering" ==>
              c.value.parameters == Some(map["priority_weight" := JNum(0.8), "strict_ordering" := JBool(false)]))
  {
    var c := SimulateAiResponse(userInput).constraints;
    if c.Some? {
      assert c.value in {GeneralInfo, EmployeeAvailability, MachineCapacity, PriorityOrdering};
    }
  }

  /* ------------------------------------------------------ the saved row */

  /** A row of the `constraints` table as `saveConstraints` inserts it. */
  datatype ConstraintRow = ConstraintRow(
    constraintType: string,
    description: string,
    parameters: map<string, Json>,
    priority: int,
    active: bool)

  /** `saveConstraints`: type and description copied, `parameters || {}`,
      priority 1, active. */
  function SavedRow(c: ConstraintProposal): (row: ConstraintRow)
    ensures row.constraintType == c.kind && row.description == c.description
    ensures c.parameters.Some? ==> row.parameters == c.parameters.value
    ensures c.parameters.None? ==> row.parameters == map[]
    ensures row.priority == 1 && row.active
  {
    ConstraintRow(c.kind, c.description, c.parameters.GetOr(map[]), 1, true)
  }

  /* ---------------------------------------------------------- the panel */

  datatype Sender = UserSender | AiSender

  /** A message body: what the user typed, or a canned reply. */
  datatype MessageText = Typed(text: string) | Canned(kind: ReplyKind)

  /** A chat message; ids and timestamps are not modelled. */
  datatype Message = Message(text: MessageText, sender: Sender, constraints: Option<ConstraintProposal>)

  function UserMessage(input: string): Message {
    Message(Typed(input), UserSender, None)
  }

  function AiMessage(r: Reply): Message {
    Message(Canned(r.content), AiSender, r.constraints)
  }

  /** The row `handleSendMessage` hands to `saveConstraints`, if any. */
  function RowToSave(r: Reply): (row: Option<ConstraintRow>)
    ensures row.Some? <==> r.constraints.Some?
    ensures row.Some? ==> row.value == SavedRow(r.constraints.value)
  {
    match r.constraints
    case Some(c) => Some(SavedRow(c))
    case None => None
  }

  class ChatWindow {
    var messages: seq<Message>
    var inputMessage: string
    var isLoading: bool

    /** The panel opens with the assistant's greeting, an empty input and no
        request in flight. */
    constructor()
      ensures messages == [Message(Canned(Greeting), AiSender, None)]
      ensures inputMessage == "" && !isLoading
    {
      messages := [Message(Canned(Greeting), AiSender, None)];
      inputMessage := "";
      isLoading := false;
    }

    /** The input box's `onChange`. */
    method SetInput(text: string)
      modifies this
      ensures inputMessage == text
      ensures messages == old(messages) && isLoading == old(isLoading)
    {
      inputMessage := text;
    }

    /** `handleSendMessage`: blank input is ignored; otherwise the user's
        message and then the assistant's reply are appended, the input is
        cleared and loading ends. Returns the row to save, if the reply
        proposed a constraint. */
    method HandleSendMessage() returns (saved: Option<ConstraintRow>)
      modifies this
      ensures IsBlank(old(inputMessage)) ==>
        messages == old(messages) && inputMessage == old(inputMessage) && isLoading == old(isLoading) && saved.None?
      ensures !IsBlank(old(inputMessage)) ==>
        && messages == old(messages) + [UserMessage(old(inputMessage)), AiMessage(SimulateAiResponse(old(inputMessage)))]
        && inputMessage == "" && !isLoading
        && saved == RowToSave(SimulateAiResponse(old(inputMessage)))
    {
      var blank := TrimmedIsEmpty(inputMessage);
      if blank {
        return None;
      }
      var sent := inputMessage;
      messages := messages + [UserMessage(sent)];
      inputMessage := "";
      isLoading := true;
      var reply := SimulateAiResponse(sent);
      messages := messages + [AiMessage(reply)];
      saved := None;
      if reply.constraints.Some? {
        saved := Some(SavedRow(reply.constraints.value));
      }
      isLoading := false;
    }

    /** `handleKeyPress`: Enter without Shift sends, which a blank input
        ignores; any other key changes nothing. Either way the messages only
        ever grow at the end. */
    method HandleKeyPress(key: string, shiftKey: bool) returns (saved: Option<ConstraintRow>)
      modifies this
      ensures !(key == "Enter" && !shiftKey) ==>
        messages == old(messages) && inputMessage == old(inputMessage) && isLoading == old(isLoading) && saved.None?
      ensures key == "Enter" && !shiftKey && IsBlank(old(inputMessage)) ==>
        messages == old(messages) && inputMessage == old(inputMessage) && isLoading == old(isLoading) && saved.None?
      ensures key == "Enter" && !shiftKey && !IsBlank(old(inputMessage)) ==>
        && messages == old(messages) + [UserMessage(old(inputMessage)), AiMessage(SimulateAiResponse(old(inputMessage)))]
        && inputMessage == "" && !isLoading
        && saved == RowToSave(SimulateAiResponse(old(inputMessage)))
      ensures old(messages) <= messages
    {
      saved := None;
      if key == "Enter" && !shiftKey {
        saved := HandleSendMessage();
      }
    }
  }

  /** `isLoading || !inputMessage.trim()`: the send button is disabled while
      loading or while the input is blank. */
  function SendDisabled(isLoading: bool, inputMessage: string): (b: bool)
    ensures b <==> isLoading || IsBlank(inputMessage)
  {
    TrimEmptyIffBlank(inputMessage);
    isLoading || Trim(inputMessage) == ""
  }
}
