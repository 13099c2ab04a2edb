/** Post-processing of the language model's answer in the browser's
    `optimizeSchedule` service: the constraint flags read off the answer, the
    first fenced Python block, and the dispatch to exactly one of the two
    optimisation backends. The model call and the two HTTP calls are
    parameters. */
module LlmResponse {
  import opened Values
  import opened Text

  /* ------------------------------------------------------ constraint flags */

  /** The four flag keys `extractConstraints` may set. */
  const FlagKeys: set<string> := {"employee_availability", "resource_capacity", "priority_ordering", "deadline_constraints"}

  /** `extractConstraints`: each flag is set, to true, when its phrase occurs
      in the answer (case-sensitively); nothing else is ever set. */
  method ExtractConstraints(content: string) returns (flags: map<string, bool>)
    ensures "employee_availability" in flags <==> Contains(content, "employee availability")
    ensures "resource_capacity" in flags <==> Contains(content, "resource capacity")
    ensures "priority_ordering" in flags <==> Contains(content, "priority")
    ensures "deadline_constraints" in flags <==> Contains(content, "deadline")
    ensures forall k :: k in flags ==> k in FlagKeys && flags[k]
    ensures flags == map[] <==>
      !Contains(content, "employee availability") && !Contains(content, "resource capacity")
      && !Contains(content, "priority") && !Contains(content, "deadline")
  {
    flags := map[];
    if Contains(content, "employee availability") {
      flags := flags["employee_availability" := true];
    }
    if Contains(content, "resource capacity") {
      flags := flags["resource_capacity" := true];
    }
    if Contains(content, "priority") {
      flags := flags["priority_ordering" := true];
    }
    if Contains(content, "deadline") {
      flags := flags["deadline_constraints" := true];
    }
  }

  /* ------------------------------------------------- the fenced python block */

  const Open := "```python\n"
  const Close := "\n```"

  /** `content.match(/```python\n([\s\S]*?)\n```/)?.[1]`: the leftmost opening
      fence, then the nearest closing fence after it. When the first opening
      fence has no closing fence after it, no later one has either, so there is
      no match at all. */
  function ExtractPythonScript(s: string): (r: Option<string>)
    ensures r.Some? ==> |r.value| <= |s|
  {
    match IndexOf(s, Open, 0)
    case None => None
    case Some(i) =>
      match IndexOf(s, Close, i + |Open|)
      case None => None
      case Some(j) => Some(s[i + |Open|..j])
  }

  /** A match is the first block: it follows the first opening fence, runs up
      to a closing fence, and holds no closing fence itself. */
  lemma ExtractIsFirstBlock(s: string) returns (i: nat)
    requires ExtractPythonScript(s).Some?
    ensures var b := ExtractPythonScript(s).value;
      && OccursAt(s, Open, i) && (forall k :: 0 <= k < i ==> !OccursAt(s, Open, k))
      && i + |Open| + |b| <= |s| && s[i + |Open|..i + |Open| + |b|] == b
      && OccursAt(s, Close, i + |Open| + |b|)
      && (forall k :: i + |Open| <= k < i + |Open| + |b| ==> !OccursAt(s, Close, k))
  {
    i := IndexOf(s, Open, 0).value;
    var j := IndexOf(s, Close, i + |Open|).value;
    assert ExtractPythonScript(s).value == s[i + |Open|..j];
  }

  /** No match means there is no opening fence followed, anywhere later, by a
      closing fence. */
  lemma ExtractNoneMeansNoBlock(s: string)
    requires ExtractPythonScript(s).None?
    ensures forall i, k :: OccursAt(s, Open, i) && i + |Open| <= k ==> !OccursAt(s, Close, k)
  {
    match IndexOf(s, Open, 0)
    case None =>
    case Some(i0) =>
      forall i, k | OccursAt(s, Open, i) && i + |Open| <= k
        ensures !OccursAt(s, Close, k)
      {
        assert i0 <= i;
      }
  }

  /** In a wrapped body, a closing fence starting inside the body and ending
      before the wrapper's own would be a closing fence of the body. */
  lemma CloseInsideBody(body: string, k: int)
    requires !Contains(body, Close)
    requires |Open| <= k && k + |Close| <= |Open| + |body|
    ensures !OccursAt(Open + body + Close, Close, k)
  {
    var s := Open + body + Close;
    var i := k - |Open|;
    assert s[k..k + |Close|] == body[i..i + |Close|];
    assert !OccursAt(body, Close, i);
  }

  /** A closing fence cannot start in the last three characters of a wrapped
      body: the wrapper's newline would have to be one of its back-ticks. */
  lemma CloseStraddlingEnd(body: string, k: int)
    requires |Open| <= k < |Open| + |body| < k + |Close|
    ensures !OccursAt(Open + body + Close, Close, k)
  {
    var s := Open + body + Close;
    var m := |Open| + |body| - k;
    assert s[k..k + |Close|][m] == '\n';
    assert Close[m] == '`';
  }

  /** Round trip: a body without a closing fence, wrapped in fences, is
      extracted unchanged. */
  lemma ExtractRoundTrip(body: string)
    requires !Contains(body, Close)
    ensures ExtractPythonScript(Open + body + Close) == Some(body)
  {
    var s := Open + body + Close;
    var n := |Open|;
    var e := n + |body|;
    assert s[0..n] == Open;
    IndexOfFirst(s, Open, 0, 0);
    assert s[e..e + |Close|] == Close;
    forall k | n <= k < e
      ensures !OccursAt(s, Close, k)
    {
      if k + |Close| <= e {
        CloseInsideBody(body, k);
      } else {
        CloseStraddlingEnd(body, k);
      }
    }
    IndexOfFirst(s, Close, n, e);
    assert s[n..e] == body;
  }

  /* ------------------------------------------------------------ dispatch */

  /** The first block of the model's answer. */
  datatype ContentBlock = TextBlock(text: string) | OtherBlock

  /** The model call either answers or throws (network, quota, a reply with
      no content block, ...). */
  datatype LlmReply = Answered(first: ContentBlock) | CallFailed(message: string)

  /** The data the system prompt embeds for one entity list. */
  datatype Excerpt = Excerpt(shown: seq<Json>, total: nat)

  /** `JSON.stringify(list.slice(0, 3))` and `list.length`. */
  function ExcerptOf(list: seq<Json>): (x: Excerpt)
    ensures |x.shown| == if |list| < 3 then |list| else 3
    ensures x.shown == list[..|x.shown|]
    ensures x.total == |list|
  {
    Excerpt(if |list| < 3 then list else list[..3], |list|)
  }

  datatype OptimizationRequest = OptimizationRequest(
    userPrompt: string,
    csvData: seq<Json>,
    constraints: seq<Json>,
    employees: seq<Json>,
    products: seq<Json>,
    materials: seq<Json>,
    resources: seq<Json>)

  /** What the system prompt is built from. */
  datatype PromptData = PromptData(
    employees: Excerpt, products: Excerpt, materials: Excerpt, resources: Excerpt, constraints: seq<Json>)

  function PromptDataOf(req: OptimizationRequest): PromptData {
    PromptData(ExcerptOf(req.employees), ExcerptOf(req.products), ExcerptOf(req.materials),
               ExcerptOf(req.resources), req.constraints)
  }

  /** The JSON a backend answers with, reduced to the fields read here. */
  datatype BackendResult = BackendResult(success: bool, result: Option<Json>, schedule: Option<Json>)

  /** A backend call either resolves or rejects. */
  datatype CallOutcome = Resolved(value: BackendResult) | Rejected

  /** One HTTP call to the Python backend. */
  datatype BackendCall =
    | ExecuteScript(script: string, scriptData: ScriptData)
    | OptimizeDirect(directData: DirectData)

  datatype ScriptData = ScriptData(
    employees: seq<Json>, products: seq<Json>, materials: seq<Json>, resources: seq<Json>, constraints: seq<Json>)

  datatype DirectData = DirectData(
    employees: seq<Json>, products: seq<Json>, resources: seq<Json>, constraints: seq<Json>)

  datatype OptimizationResponse = OptimizationResponse(
    content: string,
    pythonScript: Option<string>,
    constraints: map<string, bool>,
    schedule: Option<Json>,
    executionResult: Option<BackendResult>)

  datatype Outcome = Responded(response: OptimizationResponse) | Threw(message: string)

  /** The backend call the dispatch makes for an answer: the script executor
      when a non-empty script was extracted, the direct optimiser otherwise. */
  function ChosenCall(req: OptimizationRequest, script: Option<string>): BackendCall {
    if script.Some? && script.value != "" then
      ExecuteScript(script.value, ScriptData(req.employees, req.products, req.materials, req.resources, req.constraints))
    else
      OptimizeDirect(DirectData(req.employees, req.products, req.resources, req.constraints))
  }

  /** The text of the answer's first block; any other block gives "". */
  function AnswerText(first: ContentBlock): string {
    match first
    case TextBlock(t) => t
    case OtherBlock => ""
  }

  /** The backend half of `optimizeSchedule`: the one call it makes for the
      extracted script, and what it keeps of the answer. `schedule` is set
      only when that backend reports success (on the script path, with a
      truthy result); a failing or rejecting backend leaves it null. The
      script path keeps any answer as `executionResult`, the direct path only
      a successful one. */
  method CallBackend(req: OptimizationRequest, pythonScript: Option<string>, backend: BackendCall -> CallOutcome)
    returns (call: BackendCall, schedule: Option<Json>, executionResult: Option<BackendResult>)
    ensures call == ChosenCall(req, pythonScript)
    ensures schedule.Some? ==> backend(call).Resolved? && backend(call).value.success
    ensures schedule.Some? && call.ExecuteScript? ==>
      TruthyOpt(backend(call).value.result) && schedule == backend(call).value.result
    ensures schedule.Some? && call.OptimizeDirect? ==> schedule == backend(call).value.schedule
    ensures (call.ExecuteScript? && backend(call).Resolved? && backend(call).value.success &&
             TruthyOpt(backend(call).value.result)) ==> schedule.Some?
    ensures call.OptimizeDirect? && backend(call).Resolved? && backend(call).value.success ==>
      schedule == backend(call).value.schedule
    ensures call.ExecuteScript? ==>
      executionResult == (if backend(call).Resolved? then Some(backend(call).value) else None)
    ensures call.OptimizeDirect? ==>
      executionResult == (if backend(call).Resolved? && backend(call).value.success then Some(backend(call).value) else None)
  {
    executionResult := None;
    schedule := None;
    if pythonScript.Some? && pythonScript.value != "" {
      call := ExecuteScript(pythonScript.value,
        ScriptData(req.employees, req.products, req.materials, req.resources, req.constraints));
      var res := backend(call);
      if res.Resolved? {
        executionResult := Some(res.value);
        if res.value.success && TruthyOpt(res.value.result) {
          schedule := res.value.result;
        }
      }
    } else {
      call := OptimizeDirect(DirectData(req.employees, req.products, req.resources, req.constraints));
      var res := backend(call);
      if res.Resolved? && res.value.success {
        schedule := res.value.schedule;
        executionResult := Some(res.value);
      }
    }
  }

  /** `optimizeSchedule`. A failed model call is rethrown with a prefix and
      no backend is called; otherwise exactly one backend is called, as
      `CallBackend` says, and the flags are read off the answer. */
  method OptimizeSchedule(req: OptimizationRequest,
                          llm: (PromptData, string, seq<Json>) -> LlmReply,
                          backend: BackendCall -> CallOutcome)
    returns (outcome: Outcome, calls: seq<BackendCall>)
    ensures var reply := llm(PromptDataOf(req), req.userPrompt, req.csvData);
      && (reply.CallFailed? ==> outcome == Threw("Failed to optimize schedule: " + reply.message) && calls == [])
      && (reply.Answered? ==> outcome.Responded? && outcome.response.content == AnswerText(reply.first))
    ensures outcome.Responded? ==>
      var r := outcome.response;
      && r.pythonScript == ExtractPythonScript(r.content)
      && calls == [ChosenCall(req, r.pythonScript)]
      && (r.schedule.Some? ==> backend(calls[0]).Resolved? && backend(calls[0]).value.success)
      && (r.schedule.Some? && calls[0].ExecuteScript? ==>
            TruthyOpt(backend(calls[0]).value.result) && r.schedule == backend(calls[0]).value.result)
      && (r.schedule.Some? && calls[0].OptimizeDirect? ==> r.schedule == backend(calls[0]).value.schedule)
      && ((calls[0].ExecuteScript? && backend(calls[0]).Resolved? && backend(calls[0]).value.success &&
           TruthyOpt(backend(calls[0]).value.result)) ==> r.schedule.Some?)
      && (calls[0].OptimizeDirect? && backend(calls[0]).Resolved? && backend(calls[0]).value.success
          ==> r.schedule == backend(calls[0]).value.schedule)
      && (calls[0].ExecuteScript? ==>
            r.executionResult == (if backend(calls[0]).Resolved? then Some(backend(calls[0]).value) else None))
      && (calls[0].OptimizeDirect? ==>
            r.executionResult == (if backend(calls[0]).Resolved? && backend(calls[0]).value.success
                                  then Some(backend(calls[0]).value) else None))
      && ("employee_availability" in r.constraints <==> Contains(r.content, "employee availability"))
      && ("resource_capacity" in r.constraints <==> Contains(r.content, "resource capacity"))
      && ("priority_ordering" in r.constraints <==> Contains(r.content, "priority"))
      && ("deadline_constraints" in r.constraints <==> Contains(r.content, "deadline"))
      && (forall k :: k in r.constraints ==> k in FlagKeys && r.constraints[k])
  {
    var reply := llm(PromptDataOf(req), req.userPrompt, req.csvData);
    if reply.CallFailed? {
      return Threw("Failed to optimize schedule: " + reply.message), [];
    }
    var responseContent := AnswerText(reply.first);
    var pythonScript := ExtractPythonScript(responseContent);
    var call, schedule, executionResult := CallBackend(req, pythonScript, backend);
    calls := [call];
    var flags := ExtractConstraints(responseContent);
    outcome := Responded(OptimizationResponse(responseContent, pythonScript, flags, schedule, executionResult));
  }
}
