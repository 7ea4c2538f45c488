# uplan: the document transforms and request handlers, modelled in Dafny

uplan asks a user a questionnaire, sends the answers to a language model and
turns the reply into a development plan and a to-do checklist. This project
models the logic between those steps:

- the checklist transforms of `uplan/utils/data.py`:
  - `add_completed_status` rewrites every task list, in place, into records
    `{"task": t, "completed": False}`, both under `categories` and at section
    level;
  - `toml_to_markdown` renders a document as Markdown, using ATX headings and, for
    category tasks, the task-list items of section 5.3 of the GitHub Flavored
    Markdown specification;
- the to-do schema of `uplan/models/todo.py`, as a validity predicate, with
  lemmas connecting it to both transforms;
- the retry loop of `run` in `uplan/gui_process.py`, over an abstract outcome
  per attempt; the status dicts of `get_plan` and `get_todo`; and the merge of
  `prepare_todo`;
- the web handlers of `uplan/app.py` that hold logic: the `answers.S.N` grouping
  of `generate_plan`, the section replacement of `update_plan_section`, and the
  500 handling of `generate_plan` and `generate_todo`;
- the form logic of `uplan/gui.py`: one `section.field` key per template field, the
  grouping of the typed texts back into `template_data[section][field]`, and the
  typing effect of `stream_progress`.

Parsed TOML and JSON documents are the `Json.Value` datatype. Its objects are
association lists that keep insertion order, because Python's dict order
decides the order of every output here. Code that changes a dict or a GUI
object in place is a Dafny class with `modifies` clauses:

- `Json.Document` for a shared dict;
- `Gui.TemplateInterface` and `Gui.StreamArea` for the GUI state.

Each such method is proved against a pure function, and the properties are
proved about those functions. The files are:

- `wrappers.dfy`: Option and Result.
- `pystr.dfy`: the Python string operations used.
- `json.dfy`: documents and dict operations.
- `checklist.dfy`: `uplan/utils/data.py`.
- `todo_schema.dfy`: `uplan/models/todo.py`.
- `forms.dfy`: the two-level grouping loop shared by `uplan/app.py` and `uplan/gui.py`.
- `gui_process.dfy`, `app.dfy` and `gui.dfy`.

Three facts about `run` (uplan/gui_process.py:35-67) shape the model of it:

- it ignores the answer of the review prompt, so the only status it returns
  is `success`;
- it asks for review on every completing attempt, streaming or not;
- it accepts any `max_retries`, and when that is zero or less it makes no
  attempt and raises at once.

## Model

| member | source | states |
|---|---|---|
| Json.Lookup | uplan/app.py:54 | `key in d` holds exactly when the key is among the dict's keys, and then the entry found is in the dict |
| Json.Assign | uplan/app.py:96 | `d[key] = value`: an existing key keeps its place and a new key goes last; the key then holds the value; every other key keeps its value; distinct keys stay distinct |
| Json.AssignTwice | uplan/app.py:54-56 | a second assignment to a key overrides the first |
| Json.AssignNew | uplan/app.py:54-55 | assigning a key the dict lacks appends one entry |
| Json.UniqueCons | uplan/app.py:96 | helper for the dict invariant that `Assign` keeps: a dict with one more entry in front has distinct keys exactly when the rest does and the new key is not among them |
| Json.LookupAt | uplan/app.py:54 | in a dict with distinct keys, every entry is found by its key |
| Json.Document.constructor | uplan/gui_process.py:159 | the shared dict starts with the parsed entries |
| Json.Document.Put | uplan/gui_process.py:165 | `d[key] = value` and `d.update({key: value})`: the dict's new entries are `Assign` of the old ones |
| Json.Iterate | uplan/utils/data.py:76 | `for x in v`: a list yields its items, a dict its keys, a string its characters; any other value raises TypeError |
| Json.In | uplan/utils/data.py:29 | `key in v` raises TypeError on anything but a dict, list or string, and is key membership on a dict |
| PyStr.LowerAll | uplan/utils/data.py:71 | `s.lower()` keeps the length and lower-cases character by character |
| PyStr.Capitalize | uplan/utils/data.py:65 | `s.capitalize()` upper-cases the first character, lower-cases all the others, and keeps the length |
| PyStr.SplitOnce | uplan/app.py:53 | `s.split(sep, 1)` gives no split exactly when `sep` is not in `s`; otherwise the text before the first separator (which holds none) and the rest, which join back to `s` |
| PyStr.SplitOnceAt | uplan/app.py:53 | a separator-free prefix followed by the separator splits there, whatever the rest holds |
| PyStr.SplitAround | uplan/gui.py:161 | splitting around a separator splits each side on its own |
| PyStr.JoinSplit | uplan/utils/data.py:58 | `sep.join(s.split(sep)) == s` |
| Checklist.TaskRecords | uplan/utils/data.py:30-33 | one `{"task": t, "completed": False}` record per task, in order, of the same length |
| Checklist.WrapContainerCases | uplan/utils/data.py:28-35 | for one container: a non-dict is kept or raises; a dict without `tasks` is kept; a dict with `tasks` has exactly that key rewritten (same keys, same order, other keys unchanged), or raises when its tasks cannot be iterated |
| Checklist.FirstRaise | uplan/utils/data.py:28-35 | the index of the first container that raises: none before it raises, and it does |
| Checklist.UntilRaiseByFirstRaise | uplan/utils/data.py:26-35 | under one `try`, containers before the first raise are replaced by their rewrites and the rest are left as they were |
| Checklist.ReplaceUntilRaise | uplan/utils/data.py:28-35 | the container loop, rewriting items in place and stopping at the first exception, ends with exactly `UntilRaise` of the original list |
| Checklist.CompleteSections | uplan/utils/data.py:24-37 | the document keeps its keys and their order, and each section value is the result of both paths |
| Checklist.CompleteSectionValue | uplan/utils/data.py:25-35 | the categories path runs first, then the section path, each caught on its own |
| Checklist.AddCompletedStatus | uplan/utils/data.py:4-37 | the argument is rewritten in place and is itself returned; its new sections are `CompleteSections` of the old ones; nothing escapes |
| Checklist.CategoriesRewritten | uplan/utils/data.py:19-33 | a `categories` list is rewritten container by container, keeping its length and order; the second path does not touch it |
| Checklist.SectionTasksRewritten | uplan/utils/data.py:21-33 | a section dict with iterable `tasks` gets them wrapped through the second path |
| Checklist.OtherKeysKept | uplan/utils/data.py:29-33 | keys other than `tasks` and `categories` keep their values, and the key order is kept |
| Checklist.UntouchedSections | uplan/utils/data.py:24-35 | a section that is not a dict, or has neither `tasks` nor `categories`, comes through unchanged |
| Checklist.NoCategoriesSecondPathOnly | uplan/utils/data.py:20 | a section without `categories` is changed by the second path alone |
| Checklist.CapitalizeAll | uplan/utils/data.py:58 | every word is capitalised, and the count is kept |
| Checklist.TitleChars | uplan/utils/data.py:58 | read character by character, a heading maps each underscore to a space, upper-cases a character that starts a word and lower-cases every other |
| Checklist.TitleCharsIsSplitJoin | uplan/utils/data.py:58 | the character reading equals `" ".join(w.capitalize() for w in name.split("_"))` |
| Checklist.SectionTitleByChars | uplan/utils/data.py:58-59 | the section heading is the character-by-character title |
| Checklist.TitleMatches | uplan/utils/data.py:58 | any text with the title's characters is the section heading |
| Checklist.SectionTitleExample | uplan/utils/data.py:57-58 | `env_setup` becomes `Env Setup` |
| Checklist.ConcatErrSticks | uplan/utils/data.py:56-89 | once a block raises, the whole rendering raises that exception |
| Checklist.LineTexts | uplan/utils/data.py:81-82 | one `bullet + str(item)` line per item, in order |
| Checklist.LinesSplit | uplan/utils/data.py:76-82 | the item loops write exactly one line per item, in order, when no item spans several lines |
| Checklist.Markdown | uplan/utils/data.py:40-91 | raises AttributeError unless the document is a dict; the empty document renders as `""` |
| Checklist.AppendLines | uplan/utils/data.py:76-82 | the `for task in ...` and `for item in value` loops append `Lines` of the items |
| Checklist.RenderCategories | uplan/utils/data.py:72-78 | the category loop produces the categories' blocks in order, or the first TypeError |
| Checklist.RenderField | uplan/utils/data.py:63-86 | one key of a dict section yields `"### " + key.capitalize() + "\n\n"`, then a category list, a bullet list or the value's text, then `"\n"` |
| Checklist.RenderFields | uplan/utils/data.py:63-86 | the key loop concatenates the keys' blocks in dict order, or stops at the first exception |
| Checklist.RenderSection | uplan/utils/data.py:56-89 | one section yields `"## " + title + "\n\n"`, then its keys' blocks for a dict, nothing for None, or `str(content) + "\n\n"` |
| Checklist.TomlToMarkdown | uplan/utils/data.py:40-91 | the `markdown +=` loops build exactly `Markdown(data)` |
| TodoSchema.EmptyDocumentValid | uplan/models/todo.py:15-16 | the empty mapping is a valid document; a section holding an empty dict is not |
| TodoSchema.WrappedShape | uplan/models/todo.py:5-7 | a wrapped valid category keeps its keys, their order and its title, and has one record per task, in order |
| TodoSchema.ValidCategoriesWrapped | uplan/models/todo.py:10-12 | no category of a valid item makes the container loop raise, so all of them are wrapped and none is dropped |
| TodoSchema.ValidDocumentCompleted | uplan/utils/data.py:27-33 | on a valid document, every section's `categories` keeps its length and every category is wrapped |
| TodoSchema.ValidCategoryBlock | uplan/utils/data.py:72-78 | a valid category renders as `"\n#### " + title + "\n"`, one checkbox line per task, then `"\n"` |
| TodoSchema.Checkboxes | uplan/utils/data.py:76-77 | one `- [ ] task` line per task, in order |
| TodoSchema.BlockLines | uplan/utils/data.py:74-78 | read line by line, a category block is an empty line, the `#### title` line, exactly one checkbox line per task in order, and a blank line |
| TodoSchema.ValidCategoryLines | uplan/utils/data.py:71-78 | the same for a valid category whose title and tasks hold no newline: exactly `len(tasks)` checkbox lines |
| TodoSchema.CategoryListOk | uplan/utils/data.py:72-78 | a list of valid categories renders without raising |
| TodoSchema.FieldBlockOk | uplan/utils/data.py:63-86 | a key renders unless its value is a category list that raises |
| TodoSchema.ItemFieldsOk | uplan/models/todo.py:10-12 | every key of a valid item renders |
| TodoSchema.ValidMarkdownOk | uplan/models/todo.py:5-16 | `toml_to_markdown` does not raise on a valid document in which no item has a second key that lower-cases to `categories` |
| TodoSchema.AliasDocumentValid | uplan/models/todo.py:10-16 | a document whose item has an extra key `Categories` holding a category with numeric tasks is still valid, since the schema ignores extra keys |
| TodoSchema.AliasDocumentRaises | uplan/utils/data.py:71-77 | `toml_to_markdown` raises TypeError on that valid document, so the no-alias condition of `ValidMarkdownOk` is needed |
| TodoSchema.AliasCategoryRaises | uplan/utils/data.py:75-77 | a category whose tasks are a number raises TypeError once they are iterated |
| GuiProcess.FirstAccepted | uplan/gui_process.py:35-63 | the index of the first attempt whose body completes: every earlier attempt raises, and it completes; the budget when none does |
| GuiProcess.FirstAcceptedUnique | uplan/gui_process.py:35-63 | an attempt that completes after only failed ones is the one `run` returns on |
| GuiProcess.FirstAcceptedStable | uplan/gui_process.py:35 | once an attempt completes, a larger budget changes nothing |
| GuiProcess.Run | uplan/gui_process.py:20-67 | one identical completion request per attempt, all on the same prompt; on the first completing attempt it returns the success dict with that block, after exactly that many requests; when no attempt completes it raises `Max retries exceeded` after `max(max_retries, 0)` requests |
| GuiProcess.RunAsWritten | uplan/gui_process.py:44 | as written, every call spends its whole budget and raises `Max retries exceeded` |
| GuiProcess.NeverAccepted | uplan/gui_process.py:64-67 | when every attempt raises, no attempt completes |
| GuiProcess.RunNeverExits | uplan/gui_process.py:58-63 | the only dict `run` returns has status `success` and carries the block as `data` |
| GuiProcess.ErrorResponseFields | uplan/gui_process.py:102-104 | the error dict has status `error` and carries the exception's message |
| GuiProcess.GetPlan | uplan/gui_process.py:70-104 | status is always `success` or `error`; `run` is called without a validating model and with `plan.toml` in the output folder as its output file; one request per attempt up to and including the first completing one, or `max(retry, 0)` requests when none completes; an exhausted budget becomes an error dict instead of an exception |
| GuiProcess.GetTodo | uplan/gui_process.py:107-140 | `run` is called with the to-do schema as validator, making as many requests as it does in `get_plan`; on success, `todo.md` holds the Markdown and `todo.json` the completed document, and the returned data is the completed document, because it is the same dict; every exception becomes an error dict and writes nothing further |
| GuiProcess.WriteChecklists | uplan/gui_process.py:128-136 | Markdown first, and nothing is written when it raises; then `add_completed_status` on the same dict, written to `todo.json` |
| GuiProcess.PrepareTodo | uplan/gui_process.py:143-166 | both files are required: a missing one raises RuntimeError naming the input folder, and a parse error passes through; otherwise `plan` is set to the plan document, every other key is unchanged, and `plan` goes last when it is new |
| Forms.NestStores | uplan/app.py:54-56 | after the store, `[section][name]` holds the value, and every other name and every other section is as before |
| Forms.NestKeys | uplan/app.py:54-55 | a section map is created on first use and goes last, and the keys stay distinct |
| Forms.NestInPlace | uplan/gui.py:162-164 | the two statements of the loop body, run on nested dicts, are exactly one `Nest` |
| Forms.NestNewSection | uplan/app.py:54-56 | a store into a missing section appends it, holding the one name |
| Forms.FirstFail | uplan/app.py:51-56 | no key raises exactly when there is no first failing key, which raises and has none before it |
| Forms.GroupFails | uplan/app.py:51-56 | the grouping loop raises exactly when some key raises, and then with the first one's message |
| Forms.GroupStores | uplan/app.py:51-56 | a completed grouping is a dict of dicts with distinct keys, in which every `[section][name]` holds the value of the last field stored there |
| Forms.GroupSections | uplan/gui.py:157-164 | a completed grouping has a section for exactly the sections some field stores into |
| Forms.GroupStopsAt | uplan/gui.py:158-164 | once a key has raised, the fields after it change nothing |
| Forms.GroupAppend | uplan/gui.py:158 | grouping two runs of fields one after the other is grouping their concatenation |
| App.AnswerKeyPlaced | uplan/app.py:52-56 | `answers.S.N`, with `S` dotless, is stored at `[S][N]`, and `N` may hold further dots |
| App.AnswerKeyShort | uplan/app.py:53 | `answers.S` with no second dot raises the unpack ValueError |
| App.OtherKeysSkipped | uplan/app.py:51-52 | keys outside `answers.` never contribute |
| App.CollectAnswers | uplan/app.py:50-56 | the answers loop builds exactly `Group(form, AnswerSlot)` or raises its first error |
| App.ReportedError | uplan/app.py:65-69 | an error dict becomes an HTTP 500 whose detail is the prefix and the message |
| App.ReportedSuccess | uplan/app.py:71-73 | a success dict renders the template with its data |
| App.GeneratePlan | uplan/app.py:38-73 | the model comes from the form and defaults to `gpt-3.5-turbo`; at most three attempts, each a request on the grouped answers, and exactly as many as it takes to reach the first completing one; the plan page on success, and a 500 `Error generating plan: Max retries exceeded` otherwise; a malformed answer key escapes as an uncaught error before any request is made |
| App.UpdatedPlan | uplan/app.py:84-96 | the stored plan, or `{}` when there is none, with `section` replaced by the decoded body; every other section and the key order are unchanged; a plan that fails to parse raises before the body is decoded |
| App.UpdatePlanSection | uplan/app.py:76-109 | with binary writing: the updated plan is rendered, with only `section` changed, unless it holds a null; every exception becomes a 500 `Error updating plan: ...` |
| App.UpdatePlanSectionAsWritten | uplan/app.py:99-100 | as written, the handler never renders the plan: every path ends in a 500 |
| App.GenerateTodo | uplan/app.py:112-133 | `prepare_todo` failures escape uncaught; otherwise at most three attempts with the validating model, each a request on the to-do template merged with the plan, and exactly as many as it takes to reach the first completing one; a non-success status becomes a 500 `Error generating todos: ...`; on success the page shows the completed document and two files are written |
| Gui.InsertAllKeys | uplan/gui.py:101 | `form_elements[key] = ...` keeps each key once, keeps the keys already there, and keeps insertion order when all keys are new |
| Gui.InsertAllAppend | uplan/gui.py:84-101 | registering two runs of keys one after the other registers their concatenation |
| Gui.TemplateSlotCases | uplan/gui.py:159-161 | a dotless key is skipped; a key with one dot is stored under the text before and after it; a key with more dots raises |
| Gui.TemplateKeyPlaced | uplan/gui.py:159-164 | the key made for a dotless section and field is stored back under them |
| Gui.FieldKeyInjective | uplan/gui.py:90 | dotless sections make different keys for different section and field pairs, and only for them |
| Gui.StreamArea.constructor | uplan/gui.py:107-109 | a new stream area is empty and has shown nothing |
| Gui.StreamArea.Set | uplan/gui.py:198-200 | setting the value shows it once more |
| Gui.Prefixes | uplan/gui.py:199-200 | step `i` shows `text[:i+1]`, one step per character |
| Gui.TemplateInterface.constructor | uplan/gui.py:66-74 | the interface holds the loaded template, no form elements and no stream area |
| Gui.TemplateInterface.CreateQuestionTemplateArea | uplan/gui.py:76-101 | every field of every section, in template order, is registered under `f"{section_key}.{field}"`; nothing else changes |
| Gui.TemplateInterface.AddSectionKeys | uplan/gui.py:88-101 | the inner field loop registers one section's keys in order |
| Gui.TemplateInterface.CreateLlmStreamArea | uplan/gui.py:103-111 | a new, empty stream area; the template and form keys are unchanged |
| Gui.TemplateInterface.StreamProgress | uplan/gui.py:193-201 | without a stream area nothing happens; otherwise it shows `""` and then `text[:i+1]` for each `i`, and ends with `text` |
| Gui.TemplateInterface.ProcessForm | uplan/gui.py:146-191 | the typed texts are grouped by section and field and saved under `template`, then the progress message is typed; when a key raises, `Error: ...` is shown and nothing is saved |
| Gui.GroupTemplateData | uplan/gui.py:157-164 | the grouping loop builds exactly `Group(inputs, TemplateSlot)` or raises its first error |
| Gui.SectionGroup | uplan/gui.py:157-164 | grouping one dotless section's keys, after sections it is not among, appends that section with each field mapped to its text |
| Gui.TemplateRoundTrip | uplan/gui.py:88-164 | if no section or field name holds a dot, grouping the generated keys rebuilds every template section that has at least one field, in order, with its fields in order and their typed texts; a section without fields makes no keys and is absent |
| Gui.FieldKeysCover | uplan/gui.py:84-90 | every field of the template gets a key |
| Gui.FieldKeysDistinct | uplan/gui.py:84-90 | a template with dotless names makes one key per field, all different |
| Gui.CreatedFormRoundTrip | uplan/gui.py:76-164 | after the template area is built on a fresh interface, grouping the typed texts rebuilds every template section that has at least one field, with its fields in order |
| Gui.DottedKeyRaises | uplan/gui.py:161 | a key made from a dotted section or field name has two dots and raises |
| Gui.DottedTemplateRaises | uplan/gui.py:158-161 | once the template area is built on a fresh interface, a template with any dotted section or field name cannot be saved, because grouping the form's keys raises the unpack error |

## Left out

- Calls into code that is not part of this model are the `outcome` parameter of `GuiProcess.Run`:
  - `litellm.completion`;
  - `extract_code_block` and `json.loads` (uplan/gui_process.py:37-45).
  So is `dict_to_xml` followed by `optimize_for_prompt`, as the `render` parameter. uplan/utils/text.py is not part of this model.
- GuiProcess.Run: it treats `open_file` and `select_option` (uplan/gui_process.py:56-61) as calls that return. uplan/utils/file.py and uplan/question.py are not part of this model.
- GuiProcess.Run: the only `tomli_w` failure it models is a null. The directory creation and the write itself are not modelled.
- File reads and writes are given as data:
  - TOML parsing is the `TomlFile` parameter: missing, unparsable with its message, or parsed.
  - JSON body decoding is a `Result` parameter.
  - The files `get_todo` writes are returned as `FileWrite` values.
  - The TOML files written by `run`, `update_plan_section` and `process_form` are not recorded.
  - `App.UpdatePlanSectionAsWritten`: the text-mode `open` also empties the plan file before the write fails. That side effect is not modelled.
- `print` and the rich console output are not modelled: they have no effect on results.
- `get_all` (uplan/gui_process.py:197-218) is not modelled. It passes five positional arguments to the four-parameter `get_plan`, so every call raises TypeError.
- `complete_task` (uplan/app.py:136-141) is not modelled: it is a stub that answers 204.
- The CLI and file plumbing are not modelled:
  - `prepare_answers_cli`;
  - uplan/init.py;
  - uplan/main.py.
- The UI and transport layers are not modelled: NiceGUI layout and styling, FastAPI routing, Jinja rendering, and uvicorn. A rendered page is the `Page` value: the template's name and its context.
- `asyncio.sleep` in `stream_progress` is not modelled. Only the sequence of values shown is.
- Gui.TemplateInterface.ProcessForm: it does not model the result area's summary text (uplan/gui.py:178-187). Nor does it model reading the input and output path fields, which are assumed to exist.
- Gui.TemplateInterface.CreateQuestionTemplateArea: it does not model the labels, or the KeyError when a field's details lack `ask` (uplan/gui.py:93). Only the form keys are modelled.
- Gui.TemplateInterface.constructor: the template is given directly, not read by `load_template` (uplan/gui.py:50-60).
- App.UpdatePlanSection: the output folder is assumed to exist. When it is missing, `open` at uplan/app.py:99 raises FileNotFoundError and the handler answers 500 with that message, for both the corrected handler and `App.UpdatePlanSectionAsWritten`.
- App.CollectAnswers: the form is a sequence of fields with distinct keys. Starlette's handling of repeated keys is not modelled.
- PyStr.Upper: casing (`capitalize`, `lower`) is ASCII only, not Unicode.
- Json.Repr: `str()` of a string inside a list or dict is always wrapped in single quotes, with nothing escaped. Python escapes backslashes, newlines and other control characters, and switches to double quotes when the string holds a single quote.
- PyStr.JoinPath: `Path` joining is plain concatenation with `/`, without normalising separators.
- Json.Value has no floating-point numbers or dates. TOML values of those types are not modelled.
- TodoSchema.IsTodoDocument treats Pydantic validation as a pure shape check. Coercions between types are not modelled; for JSON input, strict and lax validation agree on these fields.
- Gui.TemplateSlot: the ValueError text is the CPython 3.11 and 3.12 wording. Newer versions add `got N`.

## Findings

| source | as written | input that shows it | evidently intended | confidence | as-written member | corrected member |
|---|---|---|---|---|---|---|
| uplan/gui_process.py:44 | `extract_code_block(text)` reads a name that nothing in `run` defines, so every attempt raises NameError after its completion request; the loop always ends with `Max retries exceeded` | any call of `run` with `max_retries >= 1`; for example `get_plan` with `retry=3` makes three requests and returns an error | extract the code block from the completion's reply text | high (not executed) | GuiProcess.RunAsWritten | GuiProcess.Run |
| uplan/app.py:99-100 | the plan file is opened in text mode (`"w"`), but `tomli_w.dump` writes bytes, so the write raises TypeError and the handler always answers 500 | `POST /update-plan/overview` with body `{"goal": "x"}` and no stored plan | open the file for binary writing (`"wb"`), as `run` does at uplan/gui_process.py:53 | high (not executed) | App.UpdatePlanSectionAsWritten | App.UpdatePlanSection |
