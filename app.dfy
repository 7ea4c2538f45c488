/** The web handlers of `uplan/app.py` that hold logic: `generate_plan`, which
    groups the `answers.S.N` form keys into a two-level dict and asks for a
    plan, `update_plan_section`, which replaces one section of the stored plan,
    and `generate_todo`. Template rendering is the `Page` the handler returns. */
module App {
  import opened Wrappers
  import opened PyStr
  import opened Json
  import opened Forms
  import opened GuiProcess

  /** What a handler answers: a rendered template with its context, an
      `HTTPException`, or an exception the handler does not catch (which the
      web framework turns into a 500). */
  datatype Response = Page(template: string, context: Value) | HttpError(status: int, detail: string) | Crash(message: string)

  const DefaultModel := "gpt-3.5-turbo"
  const AnswersPrefix := "answers."
  const NotEnoughValues := "not enough values to unpack (expected 3, got 2)"

  /** `os.getenv(name, default)` */
  function GetEnv(value: Option<string>, default: string): string {
    match value case Some(v) => v case None => default
  }

  /** `form_data.get(key, default)` */
  function FormGet(form: seq<FormField>, key: string, default: string): string {
    if form == [] then default
    else if form[0].key == key then form[0].value
    else FormGet(form[1..], key, default)
  }

  /** One iteration of the answers loop: keys outside `answers.` are
      skipped; `_, section, name = key.split(".", 2)` keeps every dot after
      the second in the name, and raises ValueError when there is no second
      dot. */
  function AnswerSlot(key: string): Slot {
    if !StartsWith(key, AnswersPrefix) then Skip
    else match SplitOnce(key[|AnswersPrefix|..], '.')
      case None => Fail(NotEnoughValues)
      case Some((section, name)) => Place(section, name)
  }

  /** `answers.S.N` goes to `[S][N]` for a dotless `S`, whatever `N` holds. */
  lemma AnswerKeyPlaced(section: string, name: string)
    requires '.' !in section
    ensures AnswerSlot(AnswersPrefix + section + "." + name) == Place(section, name)
  {
    var key := AnswersPrefix + section + "." + name;
    assert key[..|AnswersPrefix|] == AnswersPrefix;
    assert key[|AnswersPrefix|..] == section + ['.'] + name;
    SplitOnceAt(section, '.', name);
  }

  /** `answers.S` without a second dot raises. */
  lemma AnswerKeyShort(section: string)
    requires '.' !in section
    ensures AnswerSlot(AnswersPrefix + section) == Fail(NotEnoughValues)
  {
    var key := AnswersPrefix + section;
    assert key[..|AnswersPrefix|] == AnswersPrefix;
    assert key[|AnswersPrefix|..] == section;
  }

  /** Keys outside `answers.` never contribute. */
  lemma OtherKeysSkipped(key: string)
    requires !StartsWith(key, AnswersPrefix)
    ensures AnswerSlot(key) == Skip
  {
  }

  /** The answers loop of `generate_plan`. */
  method CollectAnswers(form: seq<FormField>) returns (r: Result<seq<Entry>>)
    ensures r == Group(form, AnswerSlot)
  {
    var answers: seq<Entry> := [];
    var i := 0;
    while i < |form|
      invariant 0 <= i <= |form|
      invariant Group(form[..i], AnswerSlot) == Ok(answers)
    {
      GroupStep(form, AnswerSlot, i);
      GroupStores(form[..i], AnswerSlot);
      var key, value := form[i].key, form[i].value;
      if StartsWith(key, AnswersPrefix) {
        var parts := SplitOnce(key[|AnswersPrefix|..], '.');
        if parts.None? {
          GroupStopsAt(form, AnswerSlot, i + 1);
          return Err(NotEnoughValues);
        }
        var section, name := parts.value.0, parts.value.1;
        NestInPlace(answers, section, name, Str(value));
        if section !in Keys(answers) {
          answers := Assign(answers, section, Obj([]));
        }
        answers := Assign(answers, section, Obj(Assign(Lookup(answers, section).value.fields, name, Str(value))));
      }
      i := i + 1;
    }
    assert form[..i] == form;
    return Ok(answers);
  }

  /** The status check that closes `generate_plan` and `generate_todo`: a
      non-success status raises a 500 whose detail is `prefix` followed by the
      response's message (or `Unknown error`), otherwise the template is
      rendered with the response's data. */
  function Reported(prefix: string, template: string, reply: Value): Response
    requires reply.Obj?
  {
    if Lookup(reply.fields, "status") != Some(Str("success")) then
      HttpError(500, prefix + match Lookup(reply.fields, "message") case Some(m) => Show(m) case None => "Unknown error")
    else match Lookup(reply.fields, "data")
      case Some(data) => Page(template, data)
      case None => Crash("KeyError: 'data'")
  }

  /** An error response becomes a 500 carrying its message. */
  lemma ReportedError(prefix: string, template: string, message: string)
    ensures Reported(prefix, template, ErrorResponse(message)) == HttpError(500, prefix + message)
  {
    ErrorResponseFields(message);
  }

  /** A success response renders the template with its data. */
  lemma ReportedSuccess(prefix: string, template: string, data: Value, outputFile: string)
    ensures Reported(prefix, template, SuccessResponse(data, outputFile)) == Page(template, data)
  {
    RunNeverExits(data, outputFile);
    ReplaceData(data, data, outputFile);
  }

  /** `generate_plan(request)`: the output folder comes from
      `UPLAN_OUTPUT_FOLDER`, the model from the form's `model` field; a
      non-success status becomes a 500. */
  method GeneratePlan(form: seq<FormField>, outputEnv: Option<string>, render: Value -> string, outcome: nat -> Reply)
    returns (response: Response, requests: seq<Request>)
    ensures Group(form, AnswerSlot).Err? ==> response == Crash(Group(form, AnswerSlot).message) && requests == []
    ensures Group(form, AnswerSlot).Ok? ==>
      && (forall j :: 0 <= j < |requests| ==>
            requests[j] == Request(FormGet(form, "model", DefaultModel), render(Obj(Group(form, AnswerSlot).value)), "user", true))
      && |requests| == (if FirstAccepted(outcome, false, 3) < 3 then FirstAccepted(outcome, false, 3) + 1 else 3)
      && (FirstAccepted(outcome, false, 3) < 3 ==> response == Page("plan.html", outcome(FirstAccepted(outcome, false, 3)).block))
      && (FirstAccepted(outcome, false, 3) == 3 ==> response == HttpError(500, "Error generating plan: " + MaxRetriesExceeded))
  {
    var outputFolder := GetEnv(outputEnv, "output/dev_kr");
    var model := FormGet(form, "model", DefaultModel);
    var answers := CollectAnswers(form);
    if answers.Err? {
      return Crash(answers.message), [];
    }
    var plan;
    plan, requests := GetPlan(outputFolder, model, 3, Obj(answers.value), render, outcome);
    ghost var k := FirstAccepted(outcome, false, 3);
    if k == 3 {
      ReportedError("Error generating plan: ", "plan.html", MaxRetriesExceeded);
    } else {
      ReportedSuccess("Error generating plan: ", "plan.html", outcome(k).block, JoinPath(outputFolder, "plan.toml"));
    }
    response := Reported("Error generating plan: ", "plan.html", plan);
  }

  /** tomli_w's TypeError for a null anywhere in the document. */
  const NotTomlSerializable := "Object of type <class 'NoneType'> is not TOML serializable"

  /** The TypeError of writing bytes to a file opened in text mode. */
  const WriteBytesToText := "write() argument must be str, not bytes"

  /** The `try` body of `update_plan_section` up to the write: the stored plan
      (or `{}` when there is none) with `section` replaced by the decoded body;
      a plan that does not parse raises before the body is decoded. */
  method UpdatedPlan(planFile: TomlFile, section: string, body: Result<Value>) returns (r: Result<seq<Entry>>)
    ensures planFile.Unparsable? ==> r == Err(planFile.message)
    ensures !planFile.Unparsable? && body.Err? ==> r == Err(body.message)
    ensures !planFile.Unparsable? && body.Ok? ==>
      var current := if planFile.Parsed? then planFile.doc else [];
      && r == Ok(Assign(current, section, body.value))
      && Lookup(r.value, section) == Some(body.value)
      && (forall k :: k != section ==> Lookup(r.value, k) == Lookup(current, k))
      && Keys(r.value) == if section in Keys(current) then Keys(current) else Keys(current) + [section]
  {
    var current: seq<Entry> := [];
    match planFile {
      case Missing =>
      case Unparsable(m) => return Err(m);
      case Parsed(d) => current := d;
    }
    if body.Err? {
      return Err(body.message);
    }
    var plan := new Document(current);
    plan.Put(section, body.value);
    return Ok(plan.sections);
  }

  /** `update_plan_section(request, section)` with the plan file opened for
      binary writing, as `tomli_w.dump` needs: the updated plan is rendered
      unless it holds a null; any exception becomes a 500. */
  method UpdatePlanSection(planFile: TomlFile, section: string, body: Result<Value>) returns (response: Response)
    ensures planFile.Unparsable? ==> response == HttpError(500, "Error updating plan: " + planFile.message)
    ensures !planFile.Unparsable? && body.Err? ==> response == HttpError(500, "Error updating plan: " + body.message)
    ensures !planFile.Unparsable? && body.Ok? ==>
      var current := if planFile.Parsed? then planFile.doc else [];
      var updated := Assign(current, section, body.value);
      if TomlWritable(Obj(updated)) then
        && response == Page("plan.html", Obj(updated))
        && Lookup(response.context.fields, section) == Some(body.value)
        && (forall k :: k != section ==> Lookup(response.context.fields, k) == Lookup(current, k))
      else response == HttpError(500, "Error updating plan: " + NotTomlSerializable)
  {
    var updated := UpdatedPlan(planFile, section, body);
    if updated.Err? {
      return HttpError(500, "Error updating plan: " + updated.message);
    }
    if !TomlWritable(Obj(updated.value)) {
      return HttpError(500, "Error updating plan: " + NotTomlSerializable);
    }
    return Page("plan.html", Obj(updated.value));
  }

  /** `update_plan_section` as the source has it: the plan file is opened in
      text mode, so the first chunk `tomli_w.dump` writes raises TypeError and
      the handler never renders the plan. When the plan holds a null, tomli_w
      may meet it before its first write (`nullBeforeFirstWrite`; its chunk
      order is not part of this model) and raise its own TypeError instead. */
  method UpdatePlanSectionAsWritten(planFile: TomlFile, section: string, body: Result<Value>, nullBeforeFirstWrite: bool)
    returns (response: Response)
    ensures !response.Page?
    ensures planFile.Unparsable? ==> response == HttpError(500, "Error updating plan: " + planFile.message)
    ensures !planFile.Unparsable? && body.Err? ==> response == HttpError(500, "Error updating plan: " + body.message)
    ensures !planFile.Unparsable? && body.Ok? ==>
      var updated := Assign(if planFile.Parsed? then planFile.doc else [], section, body.value);
      response == HttpError(500, "Error updating plan: " +
        if !TomlWritable(Obj(updated)) && nullBeforeFirstWrite then NotTomlSerializable else WriteBytesToText)
  {
    var updated := UpdatedPlan(planFile, section, body);
    if updated.Err? {
      return HttpError(500, "Error updating plan: " + updated.message);
    }
    if !TomlWritable(Obj(updated.value)) && nullBeforeFirstWrite {
      return HttpError(500, "Error updating plan: " + NotTomlSerializable);
    }
    return HttpError(500, "Error updating plan: " + WriteBytesToText);
  }

  /** `generate_todo(request)`: folders from `UPLAN_INPUT_FOLDER` and
      `UPLAN_OUTPUT_FOLDER`, a fixed model and three attempts; a non-success
      status becomes a 500, and a failing `prepare_todo` escapes. */
  method GenerateTodo(inputEnv: Option<string>, outputEnv: Option<string>, todoFile: TomlFile, planFile: TomlFile,
                      render: Value -> string, outcome: nat -> Reply)
    returns (response: Response, files: seq<FileWrite>, requests: seq<Request>)
    ensures todoFile.Missing? ==>
      response == Crash("Failed to read required TOML files in " + GetEnv(inputEnv, "input/dev_kr")) && files == [] && requests == []
    ensures todoFile.Unparsable? ==> response == Crash(todoFile.message) && files == [] && requests == []
    ensures todoFile.Parsed? && planFile.Missing? ==>
      response == Crash("Failed to read required TOML files in " + GetEnv(inputEnv, "input/dev_kr")) && files == [] && requests == []
    ensures todoFile.Parsed? && planFile.Unparsable? ==> response == Crash(planFile.message) && files == [] && requests == []
    ensures todoFile.Parsed? && planFile.Parsed? ==>
      && (forall j :: 0 <= j < |requests| ==>
            requests[j] == Request(DefaultModel, render(Obj(Assign(todoFile.doc, "plan", Obj(planFile.doc)))), "user", true))
      && |requests| == (if FirstAccepted(outcome, true, 3) < 3 then FirstAccepted(outcome, true, 3) + 1 else 3)
    ensures todoFile.Parsed? && planFile.Parsed? && FirstAccepted(outcome, true, 3) == 3 ==>
      response == HttpError(500, "Error generating todos: " + MaxRetriesExceeded) && files == []
    ensures todoFile.Parsed? && planFile.Parsed? && FirstAccepted(outcome, true, 3) < 3 ==>
      var block := outcome(FirstAccepted(outcome, true, 3)).block;
      match Checklist.Markdown(block)
      case Err(m) => response == HttpError(500, "Error generating todos: " + m) && files == []
      case Ok(_) => block.Obj? && response == Page("todo.html", Obj(Checklist.CompleteSections(block.fields))) && |files| == 2
  {
    var inputFolder := GetEnv(inputEnv, "input/dev_kr");
    var outputFolder := GetEnv(outputEnv, "output/dev_kr");
    files, requests := [], [];
    var todo := PrepareTodo(inputFolder, todoFile, planFile);
    if todo.Err? {
      return Crash(todo.message), files, requests;
    }
    var reply;
    reply, files, requests := GetTodo(outputFolder, DefaultModel, 3, Obj(todo.value), render, outcome);
    ghost var k := FirstAccepted(outcome, true, 3);
    if k == 3 {
      ReportedError("Error generating todos: ", "todo.html", MaxRetriesExceeded);
    } else {
      var block := outcome(k).block;
      match Checklist.Markdown(block) {
        case Err(m) => ReportedError("Error generating todos: ", "todo.html", m);
        case Ok(_) =>
          ReportedSuccess("Error generating todos: ", "todo.html", Obj(Checklist.CompleteSections(block.fields)), JoinPath(outputFolder, "todo.toml"));
      }
    }
    response := Reported("Error generating todos: ", "todo.html", reply);
  }
}
