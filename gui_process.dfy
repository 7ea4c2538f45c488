/** The generation pipeline of `uplan/gui_process.py`: the retry loop of `run`
    over attempt outcomes the model does not compute (the completion call, the
    code-block extraction and `json.loads` are foreign), the status dicts of
    `get_plan` and `get_todo`, and the merge of `prepare_todo`. */
module GuiProcess {
  import opened Wrappers
  import opened PyStr
  import opened Json
  import opened Checklist
  import opened TodoSchema

  /** What one attempt's foreign calls come to: an exception with its
      message, or the decoded document. */
  datatype Reply = Raises(message: string) | Decoded(block: Value)

  /** The arguments of one `litellm.completion` call. */
  datatype Request = Request(model: string, content: string, role: string, stream: bool)

  /** How `run` ends: it returns a response dict or raises. */
  datatype RunResult = Returned(response: Value) | Raised(message: string)

  /** A file the pipeline writes, with the contents it writes. */
  datatype FileWrite = TextFile(path: string, text: string) | JsonFile(path: string, data: Value)

  /** A TOML file to read: absent, failing to parse, or parsed to a dict. */
  datatype TomlFile = Missing | Unparsable(message: string) | Parsed(doc: seq<Entry>)

  const MaxRetriesExceeded := "Max retries exceeded"

  /** The exception every attempt of the source raises: the attempt body reads
      a variable `text` that nothing defines. */
  const UndefinedText := "name 'text' is not defined"

  /** `{"status": "success", "data": data, "output_file": output_file}` */
  function SuccessResponse(data: Value, outputFile: string): Value {
    Obj([Entry("status", Str("success")), Entry("data", data), Entry("output_file", Str(outputFile))])
  }

  /** `{"status": "error", "message": message}` */
  function ErrorResponse(message: string): Value {
    Obj([Entry("status", Str("error")), Entry("message", Str(message))])
  }

  /** `response["status"]` */
  function Status(response: Value): Option<Value> {
    if response.Obj? then Lookup(response.fields, "status") else None
  }

  /** An attempt completes when its reply decodes, the document validates
      (when a validating model is given), and `tomli_w.dump` can write it: a
      dict holding no null. */
  predicate Accepted(reply: Reply, validate: bool) {
    reply.Decoded? && (!validate || IsTodoDocument(reply.block)) && reply.block.Obj? && TomlWritable(reply.block)
  }

  /** `range(1, max_retries + 1)` holds this many attempts. */
  function Budget(maxRetries: int): nat {
    if maxRetries <= 0 then 0 else maxRetries
  }

  /** The index of the first of `n` attempts that completes, or `n` when none
      does; `outcome(i)` is what attempt `i + 1` comes to. */
  function FirstAccepted(outcome: nat -> Reply, validate: bool, n: nat): (k: nat)
    ensures k <= n
    ensures forall j :: 0 <= j < k ==> !Accepted(outcome(j), validate)
    ensures k < n ==> Accepted(outcome(k), validate)
  {
    if n == 0 then 0
    else
      var k := FirstAccepted(outcome, validate, n - 1);
      if k < n - 1 then k else if Accepted(outcome(n - 1), validate) then n - 1 else n
  }

  /** The first completing attempt is unique: any attempt that completes after
      only failed ones is the one `FirstAccepted` names. */
  lemma FirstAcceptedUnique(outcome: nat -> Reply, validate: bool, n: nat, j: nat)
    requires j < n && Accepted(outcome(j), validate)
    requires forall i :: 0 <= i < j ==> !Accepted(outcome(i), validate)
    ensures FirstAccepted(outcome, validate, n) == j
  {
  }

  /** Raising the budget past the first completing attempt changes nothing. */
  lemma {:induction false} FirstAcceptedStable(outcome: nat -> Reply, validate: bool, n: nat, m: nat)
    requires n <= m && FirstAccepted(outcome, validate, n) < n
    ensures FirstAccepted(outcome, validate, m) == FirstAccepted(outcome, validate, n)
  {
    FirstAcceptedUnique(outcome, validate, m, FirstAccepted(outcome, validate, n));
  }

  /** `run(...)`: `render` stands for `dict_to_xml` followed by
      `optimize_for_prompt`; writing the TOML file, opening it and asking for
      a review happen on the path that returns, and the review answer is not
      used. */
  method Run(prompt: Value, render: Value -> string, outputFile: string, validate: bool, maxRetries: int,
             model: string, stream: bool, outcome: nat -> Reply)
    returns (r: RunResult, requests: seq<Request>)
    ensures forall j :: 0 <= j < |requests| ==> requests[j] == Request(model, render(prompt), "user", stream)
    ensures FirstAccepted(outcome, validate, Budget(maxRetries)) < Budget(maxRetries) ==>
      && r == Returned(SuccessResponse(outcome(FirstAccepted(outcome, validate, Budget(maxRetries))).block, outputFile))
      && |requests| == FirstAccepted(outcome, validate, Budget(maxRetries)) + 1
    ensures FirstAccepted(outcome, validate, Budget(maxRetries)) == Budget(maxRetries) ==>
      r == Raised(MaxRetriesExceeded) && |requests| == Budget(maxRetries)
  {
    var content := render(prompt);
    requests := [];
    var attempt := 1;
    while attempt <= maxRetries
      invariant 1 <= attempt <= Budget(maxRetries) + 1
      invariant |requests| == attempt - 1
      invariant forall j :: 0 <= j < |requests| ==> requests[j] == Request(model, content, "user", stream)
      invariant forall j :: 0 <= j < attempt - 1 ==> !Accepted(outcome(j), validate)
    {
      requests := requests + [Request(model, content, "user", stream)];
      var reply := outcome(attempt - 1);
      if reply.Decoded? && (!validate || IsTodoDocument(reply.block)) && reply.block.Obj? && TomlWritable(reply.block) {
        FirstAcceptedUnique(outcome, validate, Budget(maxRetries), attempt - 1);
        return Returned(SuccessResponse(reply.block, outputFile)), requests;
      }
      attempt := attempt + 1;
    }
    return Raised(MaxRetriesExceeded), requests;
  }

  /** `run` as the source has it: every attempt raises NameError before its
      reply is looked at, so every call spends its whole budget and raises. */
  method RunAsWritten(prompt: Value, render: Value -> string, outputFile: string, validate: bool, maxRetries: int,
                      model: string, stream: bool)
    returns (r: RunResult, requests: seq<Request>)
    ensures r == Raised(MaxRetriesExceeded)
    ensures |requests| == Budget(maxRetries)
  {
    var outcome: nat -> Reply := _ => Raises(UndefinedText);
    NeverAccepted(outcome, validate, Budget(maxRetries));
    r, requests := Run(prompt, render, outputFile, validate, maxRetries, model, stream, outcome);
  }

  lemma {:induction false} NeverAccepted(outcome: nat -> Reply, validate: bool, n: nat)
    requires forall i :: outcome(i) == Raises(UndefinedText)
    ensures FirstAccepted(outcome, validate, n) == n
  {
    if n > 0 {
      NeverAccepted(outcome, validate, n - 1);
    }
  }

  /** A response `run` returns always carries status `success`: no `exit`
      status exists. */
  lemma RunNeverExits(data: Value, outputFile: string)
    ensures Status(SuccessResponse(data, outputFile)) == Some(Str("success"))
    ensures Lookup(SuccessResponse(data, outputFile).fields, "status") == Some(Str("success"))
    ensures Lookup(SuccessResponse(data, outputFile).fields, "data") == Some(data)
  {
  }

  /** An error response carries status `error` and the exception's message. */
  lemma ErrorResponseFields(message: string)
    ensures Status(ErrorResponse(message)) == Some(Str("error"))
    ensures Lookup(ErrorResponse(message).fields, "status") == Some(Str("error"))
    ensures Lookup(ErrorResponse(message).fields, "message") == Some(Str(message))
  {
  }

  /** `get_plan(...)`: `run` without a validating model, its exception folded
      into an error response. */
  method GetPlan(outputFolder: string, model: string, retry: int, answers: Value, render: Value -> string,
                 outcome: nat -> Reply)
    returns (response: Value, requests: seq<Request>)
    ensures Status(response) == Some(Str("success")) || Status(response) == Some(Str("error"))
    ensures forall j :: 0 <= j < |requests| ==> requests[j] == Request(model, render(answers), "user", true)
    ensures |requests| == if FirstAccepted(outcome, false, Budget(retry)) < Budget(retry)
      then FirstAccepted(outcome, false, Budget(retry)) + 1 else Budget(retry)
    ensures FirstAccepted(outcome, false, Budget(retry)) < Budget(retry) ==>
      response == SuccessResponse(outcome(FirstAccepted(outcome, false, Budget(retry))).block,
                                  JoinPath(outputFolder, "plan.toml"))
    ensures FirstAccepted(outcome, false, Budget(retry)) == Budget(retry) ==>
      response == ErrorResponse(MaxRetriesExceeded)
  {
    var r;
    r, requests := Run(answers, render, JoinPath(outputFolder, "plan.toml"), false, retry, model, true, outcome);
    if r.Raised? {
      return ErrorResponse(r.message), requests;
    }
    return r.response, requests;
  }

  /** The three entries of a success response, its first key told apart
      from `data`. */
  lemma SuccessShape(data: Value, outputFile: string)
    ensures SuccessResponse(data, outputFile).fields ==
      [Entry("status", Str("success")), Entry("data", data)] + [Entry("output_file", Str(outputFile))]
    ensures "status" != "data"
  {
    assert "status"[0] != "data"[0];
  }

  /** Storing a dict in a success response's `data` slot. */
  lemma ReplaceData(data: Value, replacement: Value, outputFile: string)
    ensures Lookup(SuccessResponse(data, outputFile).fields, "data") == Some(data)
    ensures Obj(Assign(SuccessResponse(data, outputFile).fields, "data", replacement)) ==
      SuccessResponse(replacement, outputFile)
  {
    SuccessShape(data, outputFile);
    SuccessShape(replacement, outputFile);
    AssignSecond(Entry("status", Str("success")), "data", data, [Entry("output_file", Str(outputFile))], replacement);
  }

  /** `get_todo(...)`: `run` with the to-do model as validator, then the
      Markdown and JSON files. The response's data is the very dict
      `add_completed_status` rewrote, so it is returned rewritten. */
  method GetTodo(outputFolder: string, model: string, retry: int, todo: Value, render: Value -> string,
                 outcome: nat -> Reply)
    returns (response: Value, files: seq<FileWrite>, requests: seq<Request>)
    ensures Status(response) == Some(Str("success")) || Status(response) == Some(Str("error"))
    ensures forall j :: 0 <= j < |requests| ==> requests[j] == Request(model, render(todo), "user", true)
    ensures |requests| == if FirstAccepted(outcome, true, Budget(retry)) < Budget(retry)
      then FirstAccepted(outcome, true, Budget(retry)) + 1 else Budget(retry)
    ensures FirstAccepted(outcome, true, Budget(retry)) == Budget(retry) ==>
      response == ErrorResponse(MaxRetriesExceeded) && files == []
    ensures FirstAccepted(outcome, true, Budget(retry)) < Budget(retry) ==>
      var block := outcome(FirstAccepted(outcome, true, Budget(retry))).block;
      match Markdown(block)
      case Err(m) => response == ErrorResponse(m) && files == []
      case Ok(text) =>
        && block.Obj?
        && response == SuccessResponse(Obj(CompleteSections(block.fields)), JoinPath(outputFolder, "todo.toml"))
        && files == [TextFile(JoinPath(outputFolder, "todo.md"), text),
                     JsonFile(JoinPath(outputFolder, "todo.json"), Obj(CompleteSections(block.fields)))]
  {
    var r;
    files := [];
    var outputFile := JoinPath(outputFolder, "todo.toml");
    r, requests := Run(todo, render, outputFile, true, retry, model, true, outcome);
    if r.Raised? {
      return ErrorResponse(r.message), files, requests;
    }
    ghost var k := FirstAccepted(outcome, true, Budget(retry));
    ReplaceData(outcome(k).block, Obj(CompleteSections(outcome(k).block.fields)), outputFile);
    var block := Lookup(r.response.fields, "data").value;
    assert block == outcome(k).block;
    var completed;
    completed, files := WriteChecklists(outputFolder, block);
    if completed.Err? {
      return ErrorResponse(completed.message), files, requests;
    }
    response := Obj(Assign(r.response.fields, "data", completed.value));
  }

  /** The part of `get_todo` after `run` returned: `todo.md` from
      `toml_to_markdown`, then `add_completed_status` on the same dict and
      `todo.json` from it. The rewritten dict is what the response's `data`
      now refers to. */
  method WriteChecklists(outputFolder: string, block: Value) returns (r: Result<Value>, files: seq<FileWrite>)
    requires block.Obj?
    ensures match Markdown(block)
      case Err(m) => r == Err(m) && files == []
      case Ok(text) =>
        && r == Ok(Obj(CompleteSections(block.fields)))
        && files == [TextFile(JoinPath(outputFolder, "todo.md"), text),
                     JsonFile(JoinPath(outputFolder, "todo.json"), Obj(CompleteSections(block.fields)))]
  {
    files := [];
    var markdown := TomlToMarkdown(block);
    if markdown.Err? {
      return Err(markdown.message), files;
    }
    files := files + [TextFile(JoinPath(outputFolder, "todo.md"), markdown.value)];
    var data := new Document(block.fields);
    var completed := AddCompletedStatus(data);
    files := files + [JsonFile(JoinPath(outputFolder, "todo.json"), Obj(completed.sections))];
    r := Ok(Obj(data.sections));
  }

  /** `prepare_todo(...)`: the to-do template with key `plan` set to the plan
      document; RuntimeError when either file is missing, and a parse error of
      the first file read passes through. */
  method PrepareTodo(inputFolder: string, todoFile: TomlFile, planFile: TomlFile) returns (r: Result<seq<Entry>>)
    ensures todoFile.Missing? ==> r == Err("Failed to read required TOML files in " + inputFolder)
    ensures todoFile.Unparsable? ==> r == Err(todoFile.message)
    ensures todoFile.Parsed? && planFile.Missing? ==> r == Err("Failed to read required TOML files in " + inputFolder)
    ensures todoFile.Parsed? && planFile.Unparsable? ==> r == Err(planFile.message)
    ensures todoFile.Parsed? && planFile.Parsed? ==>
      && r == Ok(Assign(todoFile.doc, "plan", Obj(planFile.doc)))
      && Lookup(r.value, "plan") == Some(Obj(planFile.doc))
      && (forall k :: k != "plan" ==> Lookup(r.value, k) == Lookup(todoFile.doc, k))
      && Keys(r.value) == if "plan" in Keys(todoFile.doc) then Keys(todoFile.doc) else Keys(todoFile.doc) + ["plan"]
  {
    match todoFile
    case Missing => return Err("Failed to read required TOML files in " + inputFolder);
    case Unparsable(m) => return Err(m);
    case Parsed(t) =>
      match planFile
      case Missing => return Err("Failed to read required TOML files in " + inputFolder);
      case Unparsable(m) => return Err(m);
      case Parsed(p) =>
        var todo := new Document(t);
        todo.Put("plan", Obj(p));
        return Ok(todo.sections);
  }
}
