/** The checklist transforms of `uplan/utils/data.py`: `add_completed_status`,
    which rewrites task lists in place into records with a completion flag, and
    `toml_to_markdown`, which renders a document as Markdown with ATX headings
    and, for categories, task-list items (section 5.3 of the GitHub Flavored
    Markdown specification). */
module Checklist {
  import opened Wrappers
  import opened PyStr
  import opened Json

  // ---------------------------------------------------------------------------
  // add_completed_status

  /** `{"task": task, "completed": False}` */
  function TaskRecord(task: Value): Value {
    Obj([Entry("task", task), Entry("completed", Bool(false))])
  }

  /** The list comprehension over the tasks, in order. */
  function TaskRecords(tasks: seq<Value>): (r: seq<Value>)
    ensures |r| == |tasks|
    ensures forall k :: 0 <= k < |tasks| ==> r[k] == TaskRecord(tasks[k])
  {
    if tasks == [] then [] else [TaskRecord(tasks[0])] + TaskRecords(tasks[1..])
  }

  /** `after` is the dict `before` with its tasks replaced by records of `tasks`
      and every other key, and the key order, as they were. */
  ghost predicate TasksRewritten(before: seq<Entry>, after: seq<Entry>, tasks: seq<Value>) {
    && Keys(after) == Keys(before)
    && Lookup(after, "tasks") == Some(Arr(TaskRecords(tasks)))
    && forall k :: k != "tasks" ==> Lookup(after, k) == Lookup(before, k)
  }

  /** One container of the inner loop:
      `if "tasks" in container: container["tasks"] = [...]`.
      None when that statement raises KeyError or TypeError: `in` on a number,
      bool or None; `container["tasks"]` on a list or string that contains
      "tasks"; a tasks value that cannot be iterated. */
  function WrapContainer(c: Value): Option<Value> {
    match In("tasks", c)
    case None => None
    case Some(false) => Some(c)
    case Some(true) =>
      if c.Obj? then
        match Iterate(Lookup(c.fields, "tasks").value)
        case None => None
        case Some(ts) => Some(Obj(Assign(c.fields, "tasks", Arr(TaskRecords(ts)))))
      else None
  }

  /** A value that is not a dict is kept or raises; a dict without tasks is
      kept; a dict with tasks gets them rewritten, or raises when they cannot
      be iterated. */
  lemma WrapContainerCases(c: Value)
    ensures !c.Obj? ==> WrapContainer(c) == None || WrapContainer(c) == Some(c)
    ensures c.Obj? && "tasks" !in Keys(c.fields) ==> WrapContainer(c) == Some(c)
    ensures c.Obj? && "tasks" in Keys(c.fields) ==>
      match Iterate(Lookup(c.fields, "tasks").value)
      case None => WrapContainer(c) == None
      case Some(ts) =>
        WrapContainer(c).Some? && WrapContainer(c).value.Obj? && TasksRewritten(c.fields, WrapContainer(c).value.fields, ts)
  {
  }

  /** Index of the first item whose step raises, or the length when none does. */
  function FirstRaise<T>(xs: seq<T>, step: T -> Option<T>): (k: nat)
    ensures k <= |xs|
    ensures forall j :: 0 <= j < k ==> step(xs[j]).Some?
    ensures k < |xs| ==> step(xs[k]).None?
  {
    if xs == [] || step(xs[0]).None? then 0 else 1 + FirstRaise(xs[1..], step)
  }

  /** `for x in xs: step(x)` inside one `try`: the items before the first one
      whose step raises are replaced by their results, that one and all after
      it are left as they are, and nothing escapes. */
  function UntilRaise<T>(xs: seq<T>, step: T -> Option<T>): (r: seq<T>)
    ensures |r| == |xs|
  {
    if xs == [] then []
    else match step(xs[0])
      case None => xs
      case Some(x) => [x] + UntilRaise(xs[1..], step)
  }

  /** The items before the first raise are replaced, the rest kept. */
  lemma {:induction false} UntilRaiseByFirstRaise<T>(xs: seq<T>, step: T -> Option<T>)
    ensures forall k :: 0 <= k < FirstRaise(xs, step) ==> UntilRaise(xs, step)[k] == step(xs[k]).value
    ensures forall k :: FirstRaise(xs, step) <= k < |xs| ==> UntilRaise(xs, step)[k] == xs[k]
  {
    if xs != [] && step(xs[0]).Some? {
      UntilRaiseByFirstRaise(xs[1..], step);
      var r := UntilRaise(xs, step);
      assert r == [step(xs[0]).value] + UntilRaise(xs[1..], step);
      forall k | 0 < k < |xs| ensures r[k] == UntilRaise(xs[1..], step)[k - 1] && xs[k] == xs[1..][k - 1] {
      }
    }
  }

  /** The loop `for container in containers` of `add_completed_status`. */
  function WrapContainers(cs: seq<Value>): seq<Value> {
    UntilRaise(cs, WrapContainer)
  }

  /** The first path, `d[section]["categories"]`. Only a list of categories can
      change: a missing key or a non-dict section raises before the loop, and
      iterating a dict or a string yields fresh strings, never a stored dict. */
  function CategoriesPath(v: Value): Value {
    if v.Obj? && "categories" in Keys(v.fields) && Lookup(v.fields, "categories").value.Arr? then
      Obj(Assign(v.fields, "categories", Arr(WrapContainers(Lookup(v.fields, "categories").value.items))))
    else v
  }

  /** The second path, `[d[section]]`: the section itself is the one container. */
  function SectionPath(v: Value): Value {
    match WrapContainer(v)
    case None => v
    case Some(w) => w
  }

  /** One section after both paths, in the order the source runs them. */
  function CompleteSection(v: Value): Value {
    SectionPath(CategoriesPath(v))
  }

  /** The whole document after `add_completed_status`: same keys, same order. */
  function CompleteSections(sections: seq<Entry>): (r: seq<Entry>)
    ensures |r| == |sections|
    ensures forall i :: 0 <= i < |sections| ==> r[i] == Entry(sections[i].key, CompleteSection(sections[i].value))
  {
    if sections == [] then []
    else [Entry(sections[0].key, CompleteSection(sections[0].value))] + CompleteSections(sections[1..])
  }

  /** The inner `for container in containers` loop, with its step as a
      parameter: each item is replaced in place by its step's result, and the
      loop stops at the first step that raises. */
  method ReplaceUntilRaise<T>(original: seq<T>, step: T -> Option<T>) returns (xs: seq<T>)
    ensures xs == UntilRaise(original, step)
  {
    xs := original;
    var j := 0;
    UntilRaiseByFirstRaise(original, step);
    while j < |xs|
      invariant 0 <= j <= |xs| == |original|
      invariant j <= FirstRaise(original, step)
      invariant forall k :: 0 <= k < j ==> xs[k] == step(original[k]).value
      invariant forall k :: j <= k < |xs| ==> xs[k] == original[k]
    {
      var w := step(xs[j]);
      if w.None? {
        assert xs == UntilRaise(original, step);
        return;
      }
      xs := xs[j := w.value];
      j := j + 1;
    }
    assert xs == UntilRaise(original, step);
  }

  /** Both paths for one section value. */
  method CompleteSectionValue(value: Value) returns (r: Value)
    ensures r == CompleteSection(value)
  {
    r := value;
    if r.Obj? && "categories" in Keys(r.fields) && Lookup(r.fields, "categories").value.Arr? {
      var containers := ReplaceUntilRaise(Lookup(r.fields, "categories").value.items, WrapContainer);
      r := Obj(Assign(r.fields, "categories", Arr(containers)));
    }
    var w := WrapContainer(r);
    if w.Some? {
      r := w.value;
    }
  }

  /** `add_completed_status(data)`: rewrites `data` in place and returns it. */
  method AddCompletedStatus(data: Document) returns (r: Document)
    modifies data
    ensures r == data
    ensures data.sections == CompleteSections(old(data.sections))
  {
    var i := 0;
    while i < |data.sections|
      invariant 0 <= i <= |data.sections| == |old(data.sections)|
      invariant forall k :: 0 <= k < i ==>
        data.sections[k] == Entry(old(data.sections)[k].key, CompleteSection(old(data.sections)[k].value))
      invariant forall k :: i <= k < |data.sections| ==> data.sections[k] == old(data.sections)[k]
    {
      var section := data.sections[i];
      var value := CompleteSectionValue(section.value);
      data.sections := data.sections[i := Entry(section.key, value)];
      i := i + 1;
    }
    return data;
  }

  /** A section's category list is rewritten container by container, in order
      and with its length kept; the second path never touches it. */
  lemma CategoriesRewritten(v: Value, cs: seq<Value>)
    requires v.Obj? && Lookup(v.fields, "categories") == Some(Arr(cs))
    ensures CompleteSection(v).Obj?
    ensures Lookup(CompleteSection(v).fields, "categories") == Some(Arr(WrapContainers(cs)))
  {
    var v1 := CategoriesPath(v);
    assert v1 == Obj(Assign(v.fields, "categories", Arr(WrapContainers(cs))));
    assert Lookup(v1.fields, "categories") == Some(Arr(WrapContainers(cs)));
    if "tasks" in Keys(v1.fields) {
      match Iterate(Lookup(v1.fields, "tasks").value)
      case None =>
      case Some(ts) =>
        assert TasksRewritten(v1.fields, CompleteSection(v).fields, ts);
    }
  }

  /** A section dict with its own tasks gets them rewritten by the second path. */
  lemma SectionTasksRewritten(v: Value, ts: seq<Value>)
    requires v.Obj? && "tasks" in Keys(v.fields) && Iterate(Lookup(v.fields, "tasks").value) == Some(ts)
    ensures CompleteSection(v).Obj?
    ensures Lookup(CompleteSection(v).fields, "tasks") == Some(Arr(TaskRecords(ts)))
  {
    var v1 := CategoriesPath(v);
    assert Lookup(v1.fields, "tasks") == Lookup(v.fields, "tasks");
  }

  /** Keys other than tasks and categories, and the key order, survive. */
  lemma OtherKeysKept(v: Value, k: string)
    requires v.Obj? && k != "tasks" && k != "categories"
    ensures CompleteSection(v).Obj?
    ensures Keys(CompleteSection(v).fields) == Keys(v.fields)
    ensures Lookup(CompleteSection(v).fields, k) == Lookup(v.fields, k)
  {
    var v1 := CategoriesPath(v);
    assert v1.Obj? && Keys(v1.fields) == Keys(v.fields);
    assert Lookup(v1.fields, k) == Lookup(v.fields, k);
  }

  /** A dict with neither tasks nor categories, and any value that is not a
      dict, come through unchanged. */
  lemma UntouchedSections(v: Value)
    requires !v.Obj? || ("tasks" !in Keys(v.fields) && "categories" !in Keys(v.fields))
    ensures CompleteSection(v) == v
  {
  }

  /** A section without categories is handled by the second path alone. */
  lemma NoCategoriesSecondPathOnly(v: Value)
    requires !v.Obj? || "categories" !in Keys(v.fields)
    ensures CompleteSection(v) == SectionPath(v)
  {
  }

  // ---------------------------------------------------------------------------
  // toml_to_markdown

  function CapitalizeAll(words: seq<string>): (r: seq<string>)
    ensures |r| == |words|
    ensures forall k :: 0 <= k < |words| ==> r[k] == Capitalize(words[k])
  {
    if words == [] then [] else [Capitalize(words[0])] + CapitalizeAll(words[1..])
  }

  /** `" ".join(word.capitalize() for word in section.split("_"))` */
  function SectionTitle(name: string): string {
    Join(CapitalizeAll(Split(name, '_')), " ")
  }

  /** The heading read one character at a time: each underscore becomes a space,
      a character that starts a word is upper-cased, any other is lower-cased. */
  function TitleChars(name: string, wordStart: bool): (r: string)
    ensures |r| == |name|
    ensures forall i :: 0 <= i < |name| && name[i] == '_' ==> r[i] == ' '
    ensures forall i {:trigger r[i]} :: 0 <= i < |name| && name[i] != '_' ==>
      r[i] == if (if i == 0 then wordStart else name[i - 1] == '_') then Upper(name[i]) else Lower(name[i])
  {
    if name == [] then ""
    else if name[0] == '_' then " " + TitleChars(name[1..], true)
    else [if wordStart then Upper(name[0]) else Lower(name[0])] + TitleChars(name[1..], false)
  }

  lemma {:induction false} TitleCharsIsSplitJoin(name: string)
    ensures TitleChars(name, true) == Join(CapitalizeAll(Split(name, '_')), " ")
    ensures TitleChars(name, false) ==
      Join([LowerAll(Split(name, '_')[0])] + CapitalizeAll(Split(name, '_')[1..]), " ")
    decreases |name|
  {
    if name != [] {
      TitleCharsIsSplitJoin(name[1..]);
      if name[0] == '_' {
        TitleUnderscoreStep(name);
      } else {
        TitleLetterStep(name);
      }
    }
  }

  /** An underscore ends the current word with a space. */
  lemma TitleUnderscoreStep(name: string)
    requires |name| > 0 && name[0] == '_'
    requires TitleChars(name[1..], true) == Join(CapitalizeAll(Split(name[1..], '_')), " ")
    ensures TitleChars(name, true) == Join(CapitalizeAll(Split(name, '_')), " ")
    ensures TitleChars(name, false) ==
      Join([LowerAll(Split(name, '_')[0])] + CapitalizeAll(Split(name, '_')[1..]), " ")
  {
    var rest := Split(name[1..], '_');
    var words := CapitalizeAll(rest);
    assert Split(name, '_') == [""] + rest;
    assert CapitalizeAll([""] + rest) == [""] + words;
    assert ([""] + rest)[1..] == rest;
    JoinCons("", words, " ");
    assert "" + " " + Join(words, " ") == " " + Join(words, " ");
  }

  /** Any other character joins the current word, in its case. */
  lemma TitleLetterStep(name: string)
    requires |name| > 0 && name[0] != '_'
    requires TitleChars(name[1..], false) ==
      Join([LowerAll(Split(name[1..], '_')[0])] + CapitalizeAll(Split(name[1..], '_')[1..]), " ")
    ensures TitleChars(name, true) == Join(CapitalizeAll(Split(name, '_')), " ")
    ensures TitleChars(name, false) ==
      Join([LowerAll(Split(name, '_')[0])] + CapitalizeAll(Split(name, '_')[1..]), " ")
  {
    var c, rest := name[0], Split(name[1..], '_');
    var tail := CapitalizeAll(rest[1..]);
    var parts := [[c] + rest[0]] + rest[1..];
    assert Split(name, '_') == parts;
    assert parts[0] == [c] + rest[0] && parts[1..] == rest[1..];
    assert CapitalizeAll(parts) == [Capitalize([c] + rest[0])] + tail;
    assert Capitalize([c] + rest[0]) == [Upper(c)] + LowerAll(rest[0]);
    assert LowerAll([c] + rest[0]) == [Lower(c)] + LowerAll(rest[0]);
    JoinFirstPrefix([Upper(c)], LowerAll(rest[0]), tail, " ");
    JoinFirstPrefix([Lower(c)], LowerAll(rest[0]), tail, " ");
  }

  /** Section headings: underscores become single spaces and every word is
      capitalised, character by character (`environment_setup` becomes
      `Environment Setup`). */
  lemma SectionTitleByChars(name: string)
    ensures SectionTitle(name) == TitleChars(name, true)
  {
    TitleCharsIsSplitJoin(name);
  }

  /** A heading read off one character at a time. */
  lemma TitleMatches(name: string, t: string)
    requires |name| == |t|
    requires forall i :: 0 <= i < |name| && name[i] == '_' ==> t[i] == ' '
    requires forall i :: 0 <= i < |name| && name[i] != '_' ==>
      t[i] == if i == 0 || name[i - 1] == '_' then Upper(name[i]) else Lower(name[i])
    ensures SectionTitle(name) == t
  {
    SectionTitleByChars(name);
  }

  /** `env_setup` becomes `Env Setup`. */
  lemma SectionTitleExample()
    ensures SectionTitle("env_setup") == "Env Setup"
  {
    var name, t := "env_setup", "Env Setup";
    assert t[0] == Upper(name[0]) && t[4] == Upper(name[4]);
    assert forall i :: 0 <= i < |name| && i != 0 && i != 4 && i != 3 ==> t[i] == name[i] == Lower(name[i]);
    TitleMatches(name, t);
  }

  /** String concatenation where either side may have raised; the first
      exception wins, as in straight-line Python. */
  function Cat(a: Result<string>, b: Result<string>): Result<string> {
    if a.Err? then a else if b.Err? then b else Ok(a.value + b.value)
  }

  /** The renderings of `xs`, in order, appended to one string. */
  function Concat<T>(xs: seq<T>, render: T -> Result<string>): Result<string> {
    if xs == [] then Ok("") else Cat(Concat(xs[..|xs| - 1], render), render(xs[|xs| - 1]))
  }

  /** One more item appends its rendering. */
  lemma ConcatStep<T>(xs: seq<T>, render: T -> Result<string>, k: nat)
    requires k < |xs|
    ensures Concat(xs[..k + 1], render) == Cat(Concat(xs[..k], render), render(xs[k]))
  {
    assert xs[..k + 1][..k] == xs[..k];
  }

  /** Once a prefix has raised, so has every longer prefix, with the same error. */
  lemma {:induction false} ConcatErrSticks<T>(xs: seq<T>, render: T -> Result<string>, i: nat)
    requires i <= |xs| && Concat(xs[..i], render).Err?
    ensures Concat(xs, render) == Concat(xs[..i], render)
    decreases |xs| - i
  {
    if i < |xs| {
      assert xs[..i + 1][..i] == xs[..i];
      ConcatErrSticks(xs, render, i + 1);
    } else {
      assert xs[..i] == xs;
    }
  }

  /** One line per item: `bullet + str(item) + "\n"`. */
  function Lines(bullet: string, items: seq<Value>): string {
    if items == [] then "" else Lines(bullet, items[..|items| - 1]) + bullet + Show(items[|items| - 1]) + "\n"
  }

  /** The text of each line `Lines` writes, without its newline. */
  function LineTexts(bullet: string, items: seq<Value>): (r: seq<string>)
    ensures |r| == |items|
    ensures forall k :: 0 <= k < |items| ==> r[k] == bullet + Show(items[k])
  {
    if items == [] then [] else LineTexts(bullet, items[..|items| - 1]) + [bullet + Show(items[|items| - 1])]
  }

  /** `Lines` writes exactly one line per item, in order, when no item spans
      several lines. */
  lemma {:induction false} LinesSplit(bullet: string, items: seq<Value>, tail: string)
    requires '\n' !in bullet
    requires forall k :: 0 <= k < |items| ==> '\n' !in Show(items[k])
    ensures Split(Lines(bullet, items) + tail, '\n') == LineTexts(bullet, items) + Split(tail, '\n')
  {
    if items != [] {
      var n := |items| - 1;
      var prefix := items[..n];
      var line := bullet + Show(items[n]);
      var front := Lines(bullet, prefix);
      assert Lines(bullet, items) == front + line + "\n";
      assert LineTexts(bullet, items) == LineTexts(bullet, prefix) + [line];
      assert forall k :: 0 <= k < n ==> prefix[k] == items[k];
      LinesSplit(bullet, prefix, line + "\n" + tail);
      assert '\n' !in line;
      SplitLastLine('\n', front, line, tail, LineTexts(bullet, prefix));
    } else {
      assert Lines(bullet, items) + tail == tail;
    }
  }

  /** A line without the separator, written after text whose lines are
      known, is split off before the tail. */
  lemma SplitLastLine(sep: char, front: string, line: string, tail: string, lines: seq<string>)
    requires sep !in line
    requires Split(front + (line + [sep] + tail), sep) == lines + Split(line + [sep] + tail, sep)
    ensures Split(front + line + [sep] + tail, sep) == lines + [line] + Split(tail, sep)
  {
    SplitLine(line, sep, tail);
    assert front + line + [sep] + tail == front + (line + [sep] + tail);
    assert lines + ([line] + Split(tail, sep)) == lines + [line] + Split(tail, sep);
  }

  /** One category: a level-4 heading with the title, a `- [ ] ` item per task,
      a blank line; nothing for a category that is not a dict with a title. */
  function CategoryBlock(category: Value): Result<string> {
    if category.Obj? && "title" in Keys(category.fields) then
      var head := "\n#### " + Show(Lookup(category.fields, "title").value) + "\n";
      if "tasks" in Keys(category.fields) then
        var tasks := Lookup(category.fields, "tasks").value;
        match Iterate(tasks)
        case None => Err(NotIterable(tasks))
        case Some(ts) => Ok(head + Lines("- [ ] ", ts) + "\n")
      else Ok(head + "\n")
    else Ok("")
  }

  /** One key of a dict section: a level-3 heading, then the value. */
  function FieldBlock(field: Entry): Result<string> {
    var body :=
      if field.value.Arr? then
        if LowerAll(field.key) == "categories" then Concat(field.value.items, CategoryBlock)
        else Ok(Lines("- ", field.value.items))
      else Ok(Show(field.value) + "\n");
    Cat(Cat(Ok("### " + Capitalize(field.key) + "\n\n"), body), Ok("\n"))
  }

  /** One section: a level-2 heading, then its keys, or its text, or nothing. */
  function SectionBlock(section: Entry): Result<string> {
    var head := "## " + SectionTitle(section.key) + "\n\n";
    match section.value
    case Obj(fields) => Cat(Ok(head), Concat(fields, FieldBlock))
    case Null => Ok(head)
    case _ => Ok(head + Show(section.value) + "\n\n")
  }

  /** `toml_to_markdown(data)`: the sections in dict order; AttributeError when
      `data` has no `items`, i.e. is not a dict. */
  function Markdown(data: Value): (r: Result<string>)
    ensures r.Ok? ==> data.Obj?
    ensures data == Obj([]) ==> r == Ok("")
  {
    if data.Obj? then Concat(data.fields, SectionBlock)
    else Err("'" + TypeName(data) + "' object has no attribute 'items'")
  }

  /** The `for task in category["tasks"]` and `for item in value` loops. */
  method AppendLines(markdown: string, bullet: string, items: seq<Value>) returns (out: string)
    ensures out == markdown + Lines(bullet, items)
  {
    out := markdown;
    var t := 0;
    while t < |items|
      invariant 0 <= t <= |items|
      invariant out == markdown + Lines(bullet, items[..t])
    {
      assert items[..t + 1][..t] == items[..t];
      out := out + bullet + Show(items[t]) + "\n";
      t := t + 1;
    }
    assert items[..t] == items;
  }

  /** The `for category in value` loop. */
  method RenderCategories(categories: seq<Value>) returns (r: Result<string>)
    ensures r == Concat(categories, CategoryBlock)
  {
    var out := "";
    var j := 0;
    while j < |categories|
      invariant 0 <= j <= |categories|
      invariant Concat(categories[..j], CategoryBlock) == Ok(out)
    {
      var category := categories[j];
      ConcatStep(categories, CategoryBlock, j);
      var piece := "";
      if category.Obj? && "title" in Keys(category.fields) {
        piece := "\n#### " + Show(Lookup(category.fields, "title").value) + "\n";
        if "tasks" in Keys(category.fields) {
          var tasks := Lookup(category.fields, "tasks").value;
          var items := Iterate(tasks);
          if items.None? {
            ConcatErrSticks(categories, CategoryBlock, j + 1);
            return Err(NotIterable(tasks));
          }
          piece := AppendLines(piece, "- [ ] ", items.value);
        }
        piece := piece + "\n";
      }
      assert CategoryBlock(category) == Ok(piece);
      out := out + piece;
      j := j + 1;
    }
    assert categories[..j] == categories;
    return Ok(out);
  }

  /** One pass of the `for key, value in content.items()` loop. */
  method RenderField(field: Entry) returns (r: Result<string>)
    ensures r == FieldBlock(field)
  {
    var key, value := field.key, field.value;
    var piece := "### " + Capitalize(key) + "\n\n";
    if value.Arr? {
      if LowerAll(key) == "categories" {
        var cats := RenderCategories(value.items);
        if cats.Err? {
          return cats;
        }
        piece := piece + cats.value;
      } else {
        piece := AppendLines(piece, "- ", value.items);
      }
    } else {
      piece := piece + (Show(value) + "\n");
    }
    return Ok(piece + "\n");
  }

  /** The `for key, value in content.items()` loop of a dict section. */
  method RenderFields(fields: seq<Entry>) returns (r: Result<string>)
    ensures r == Concat(fields, FieldBlock)
  {
    var out := "";
    var k := 0;
    while k < |fields|
      invariant 0 <= k <= |fields|
      invariant Concat(fields[..k], FieldBlock) == Ok(out)
    {
      ConcatStep(fields, FieldBlock, k);
      var piece := RenderField(fields[k]);
      if piece.Err? {
        ConcatErrSticks(fields, FieldBlock, k + 1);
        return piece;
      }
      out := out + piece.value;
      k := k + 1;
    }
    assert fields[..k] == fields;
    return Ok(out);
  }

  /** One pass of the `for section, content in data.items()` loop. */
  method RenderSection(section: Entry) returns (r: Result<string>)
    ensures r == SectionBlock(section)
  {
    var piece := "## " + SectionTitle(section.key) + "\n\n";
    var content := section.value;
    if content.Obj? {
      var body := RenderFields(content.fields);
      if body.Err? {
        return body;
      }
      piece := piece + body.value;
    } else if !content.Null? {
      piece := piece + Show(content) + "\n\n";
    }
    return Ok(piece);
  }

  /** `toml_to_markdown(data)`, building the text with `markdown +=`. */
  method TomlToMarkdown(data: Value) returns (r: Result<string>)
    ensures r == Markdown(data)
  {
    if !data.Obj? {
      return Err("'" + TypeName(data) + "' object has no attribute 'items'");
    }
    var sections := data.fields;
    var markdown := "";
    var i := 0;
    while i < |sections|
      invariant 0 <= i <= |sections|
      invariant Concat(sections[..i], SectionBlock) == Ok(markdown)
    {
      ConcatStep(sections, SectionBlock, i);
      var piece := RenderSection(sections[i]);
      if piece.Err? {
        ConcatErrSticks(sections, SectionBlock, i + 1);
        return piece;
      }
      markdown := markdown + piece.value;
      i := i + 1;
    }
    assert sections[..i] == sections;
    return Ok(markdown);
  }
}
