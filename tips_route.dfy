/** The assistant endpoint: key and task validation, the choice between
    free-form tips and a step breakdown, and the validation of a breakdown
    that falls back to one fixed step. The completion service's answer and the
    parsing of its text are inputs. */
module TipsRoute {
  import opened Common
  import opened Json

  datatype Action = TipsAction | BreakdownAction

  /** How the awaited completion call ended: a thrown API error (its HTTP
      status may be absent) or `choices[0].message.content`, which may be null. */
  datatype Completion = Threw(status: Option<int>, message: string) | Completed(content: Option<string>)

  /** The success bodies: `{tips}` or `{subtasks}`. */
  datatype Answer = Tips(tips: Option<string>) | Subtasks(subtasks: seq<Json>)

  /** What the handler decides before any upstream call. */
  datatype Plan = Reject(status: int, error: string) | Call(action: Action, task: Json)

  const KeyMissing := "OpenAI API key is not configured"
  const TaskRequired := "Task is required"
  const DefaultFailure := "Failed to process request"

  const FallbackStep: Json := JObj(map[
    "step" := JNum(1),
    "title" := JStr("Error breaking down task"),
    "details" := JStr("The AI had trouble breaking down this task. Please try again with more specific details.")])

  /** `process.env.OPENAI_API_KEY` is truthy. */
  predicate KeyConfigured(key: Option<string>)
  {
    key.Some? && key.value != ""
  }

  /** `error.status || 500`. */
  function ErrorStatus(status: Option<int>): (s: int)
    ensures s != 0
    ensures status.Some? && status.value != 0 ==> s == status.value
    ensures status.None? || status.value == 0 ==> s == 500
  {
    if status.Some? && status.value != 0 then status.value else 500
  }

  /** `error.message || 'Failed to process request'`. */
  function ErrorMessage(message: string): (m: string)
    ensures m != ""
    ensures message != "" ==> m == message
    ensures message == "" ==> m == DefaultFailure
  {
    if message != "" then message else DefaultFailure
  }

  /** `action = 'tips'` in the destructuring, then `action === 'breakdown'`:
      only the exact string selects a breakdown. */
  function ActionOf(v: Json): (a: Action)
    ensures a == BreakdownAction <==> Member(v, "action") == Some(JStr("breakdown"))
    ensures Member(v, "action").None? ==> a == TipsAction
  {
    if Member(v, "action") == Some(JStr("breakdown")) then BreakdownAction else TipsAction
  }

  /** The key check, reading the body, and the task check. */
  function Validate(key: Option<string>, body: Body): (p: Plan)
    ensures !KeyConfigured(key) ==> p == Reject(500, KeyMissing)
    ensures KeyConfigured(key) && !Destructurable(body) ==> p.Reject? && p.status == 500
    ensures KeyConfigured(key) && Destructurable(body) ==>
              (p.Reject? <==> !Truthy(Member(body.value, "task")))
    ensures KeyConfigured(key) && Destructurable(body) ==>
              (p == Reject(400, TaskRequired) <==> !Truthy(Member(body.value, "task")))
    ensures p.Reject? ==> p.status == 500 || p == Reject(400, TaskRequired)
    ensures p.Call? ==> KeyConfigured(key) && body.Parsed? && Truthy(Some(p.task))
                        && Member(body.value, "task") == Some(p.task)
                        && (p.action == BreakdownAction <==> Member(body.value, "action") == Some(JStr("breakdown")))
  {
    if !KeyConfigured(key) then Reject(500, KeyMissing)
    else match body
      case Unparsable(message) => Reject(500, ErrorMessage(message))
      case Parsed(v) =>
        if v == JNull then Reject(500, ErrorMessage(NullBodyMessage))
        else
          var task := Member(v, "task");
          if !Truthy(task) then Reject(400, TaskRequired)
          else Call(ActionOf(v), task.value)
  }

  /** `JSON.parse(content || '{}')`, with `parse` standing for `JSON.parse`
      on non-empty text (`None` when it throws). */
  function ParseContent(content: Option<string>, parse: string -> Option<Json>): (r: Option<Json>)
    ensures content.None? || content.value == "" ==> r == Some(JObj(map[]))
    ensures content.Some? && content.value != "" ==> r == parse(content.value)
  {
    if content.None? || content.value == "" then Some(JObj(map[])) else parse(content.value)
  }

  /** `parsed.subtasks` when it is a non-empty array; property access on a
      parsed `null` throws, which the inner handler also catches. */
  function ValidSubtasks(parsed: Option<Json>): (r: Option<seq<Json>>)
    ensures r.Some? <==> parsed.Some? && parsed.value.JObj? && "subtasks" in parsed.value.fields
                         && parsed.value.fields["subtasks"].JArr? && |parsed.value.fields["subtasks"].items| > 0
    ensures r.Some? ==> r.value == parsed.value.fields["subtasks"].items
  {
    match parsed
    case None => None
    case Some(v) =>
      match Member(v, "subtasks")
      case Some(JArr(items)) => if |items| == 0 then None else Some(items)
      case _ => None
  }

  /** The breakdown body: the parsed steps unchanged, or the single fallback. */
  function Breakdown(content: Option<string>, parse: string -> Option<Json>): (steps: seq<Json>)
    ensures |steps| >= 1
    ensures steps == [FallbackStep] || ValidSubtasks(ParseContent(content, parse)) == Some(steps)
  {
    match ValidSubtasks(ParseContent(content, parse))
    case Some(items) => items
    case None => [FallbackStep]
  }

  /** The handler, after validation. */
  function Respond(action: Action, completion: Completion, parse: string -> Option<Json>): (r: Reply<Answer>)
    ensures completion.Threw? <==> r.Fail?
    ensures r.Fail? ==> r == Fail(ErrorStatus(completion.status), ErrorMessage(completion.message))
    ensures r.Ok? ==> (r.body.Subtasks? <==> action == BreakdownAction)
  {
    match completion
    case Threw(status, message) => Fail(ErrorStatus(status), ErrorMessage(message))
    case Completed(content) =>
      if action == BreakdownAction then Ok(Subtasks(Breakdown(content, parse)))
      else Ok(Tips(content))
  }

  /** `POST /api/tips`. */
  function Post(key: Option<string>, body: Body, completion: Completion, parse: string -> Option<Json>): (r: Reply<Answer>)
    ensures !KeyConfigured(key) ==> r == Fail(500, KeyMissing)
    ensures Validate(key, body).Reject? ==> r == Fail(Validate(key, body).status, Validate(key, body).error)
    ensures Validate(key, body).Call? && completion.Completed? ==> r.Ok?
    ensures r.Ok? && r.body.Tips? ==> completion == Completed(r.body.tips)
  {
    match Validate(key, body)
    case Reject(status, error) => Fail(status, error)
    case Call(action, _) => Respond(action, completion, parse)
  }

  // ---- properties ----

  /** Without a key and without a task the answer does not depend on the
      completion: no upstream call is made. */
  lemma RejectionMakesNoUpstreamCall(key: Option<string>, body: Body, c1: Completion, c2: Completion,
                                     p1: string -> Option<Json>, p2: string -> Option<Json>)
    requires Validate(key, body).Reject?
    ensures Post(key, body, c1, p1) == Post(key, body, c2, p2)
  {
  }

  /** A request without an `action` field, or with any action other than the
      string "breakdown", gets tips. */
  lemma ActionDefaultsToTips(key: Option<string>, fields: map<string, Json>, content: Option<string>,
                             parse: string -> Option<Json>)
    requires KeyConfigured(key)
    requires "task" in fields && Truthy(Some(fields["task"]))
    requires "action" !in fields || fields["action"] != JStr("breakdown")
    ensures Post(key, Parsed(JObj(fields)), Completed(content), parse) == Ok(Tips(content))
  {
  }

  /** A breakdown with a reply never fails, and it returns the parsed
      `subtasks` exactly when they are a non-empty array. */
  lemma BreakdownPassesValidSteps(key: Option<string>, body: Body, content: Option<string>,
                                  parse: string -> Option<Json>)
    requires Validate(key, body).Call? && Validate(key, body).action == BreakdownAction
    ensures Post(key, body, Completed(content), parse).Ok?
    ensures var steps := ValidSubtasks(ParseContent(content, parse));
            Post(key, body, Completed(content), parse)
              == Ok(Subtasks(if steps.Some? then steps.value else [FallbackStep]))
  {
  }

  /** Null or empty content, text that does not parse, and any parsed value
      without a non-empty `subtasks` array all give the single fallback step. */
  lemma MalformedBreakdownFallsBack(content: Option<string>, parse: string -> Option<Json>)
    requires var p := ParseContent(content, parse);
             p.None? || !(p.value.JObj? && "subtasks" in p.value.fields
                          && p.value.fields["subtasks"].JArr? && |p.value.fields["subtasks"].items| > 0)
    ensures Breakdown(content, parse) == [FallbackStep]
  {
  }

  lemma NullContentFallsBack(parse: string -> Option<Json>)
    ensures Breakdown(None, parse) == [FallbackStep]
  {
  }

  /** The panel's two request bodies reach the intended branches. */
  lemma PanelRequestsSelectTheirAction(key: Option<string>, text: string)
    requires KeyConfigured(key) && text != ""
    ensures Validate(key, Parsed(JObj(map["task" := JStr(text)]))) == Call(TipsAction, JStr(text))
    ensures Validate(key, Parsed(JObj(map["task" := JStr(text), "action" := JStr("breakdown")])))
              == Call(BreakdownAction, JStr(text))
  {
  }
}
