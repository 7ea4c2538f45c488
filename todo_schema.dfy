/** The to-do document shape of `uplan/models/todo.py` as a validity
    predicate, and what the checklist transforms do to a valid document.
    Validation ignores keys the shape does not name, so a valid dict may carry
    extra keys; every dict of a parsed document has distinct keys. */
module TodoSchema {
  import opened Wrappers
  import opened PyStr
  import opened Json
  import opened Checklist

  /** `List[str]` */
  predicate IsStrList(v: Value) {
    v.Arr? && forall k :: 0 <= k < |v.items| ==> v.items[k].Str?
  }

  /** `Category`: a string `title` and a list of string `tasks`. */
  predicate IsCategory(v: Value) {
    && v.Obj? && UniqueKeys(v.fields)
    && "title" in Keys(v.fields) && Lookup(v.fields, "title").value.Str?
    && "tasks" in Keys(v.fields) && IsStrList(Lookup(v.fields, "tasks").value)
  }

  /** `TodoItem`: a list of string `frameworks` and a list of categories. */
  predicate IsTodoItem(v: Value) {
    && v.Obj? && UniqueKeys(v.fields)
    && "frameworks" in Keys(v.fields) && IsStrList(Lookup(v.fields, "frameworks").value)
    && "categories" in Keys(v.fields) && Lookup(v.fields, "categories").value.Arr?
    && forall k :: 0 <= k < |Lookup(v.fields, "categories").value.items| ==>
         IsCategory(Lookup(v.fields, "categories").value.items[k])
  }

  /** `TodoModel`: a dict from section names to items. */
  predicate IsTodoDocument(v: Value) {
    v.Obj? && UniqueKeys(v.fields) && forall i :: 0 <= i < |v.fields| ==> IsTodoItem(v.fields[i].value)
  }

  /** The tasks of a valid category. */
  function Tasks(c: Value): seq<Value>
    requires IsCategory(c)
  {
    Lookup(c.fields, "tasks").value.items
  }

  /** The categories of a valid item. */
  function Categories(item: Value): seq<Value>
    requires IsTodoItem(item)
  {
    Lookup(item.fields, "categories").value.items
  }

  /** A category after `add_completed_status`. */
  function Wrapped(c: Value): Value
    requires IsCategory(c)
  {
    Obj(Assign(c.fields, "tasks", Arr(TaskRecords(Tasks(c)))))
  }

  /** An empty mapping is a valid document. */
  lemma EmptyDocumentValid()
    ensures IsTodoDocument(Obj([]))
    ensures !IsTodoDocument(Obj([Entry("backend", Obj([]))]))
  {
    var d := Obj([Entry("backend", Obj([]))]);
    assert d.fields[0].value == Obj([]) && !IsTodoItem(Obj([]));
  }

  /** A wrapped category keeps its title and key order, and has one record
      `{"task": t, "completed": False}` per task, in order. */
  lemma WrappedShape(c: Value)
    requires IsCategory(c)
    ensures Wrapped(c).Obj? && Keys(Wrapped(c).fields) == Keys(c.fields)
    ensures Lookup(Wrapped(c).fields, "title") == Lookup(c.fields, "title")
    ensures Lookup(Wrapped(c).fields, "tasks") == Some(Arr(TaskRecords(Tasks(c))))
    ensures |TaskRecords(Tasks(c))| == |Tasks(c)|
    ensures forall k :: 0 <= k < |Tasks(c)| ==>
      TaskRecords(Tasks(c))[k] == Obj([Entry("task", Tasks(c)[k]), Entry("completed", Bool(false))])
  {
  }

  /** No category of a valid item makes the inner loop raise, so every
      category is wrapped. */
  lemma {:induction false} ValidCategoriesWrapped(cs: seq<Value>)
    requires forall k :: 0 <= k < |cs| ==> IsCategory(cs[k])
    ensures FirstRaise(cs, WrapContainer) == |cs|
    ensures |WrapContainers(cs)| == |cs|
    ensures forall k :: 0 <= k < |cs| ==> WrapContainers(cs)[k] == Wrapped(cs[k])
  {
    forall k | 0 <= k < |cs| ensures WrapContainer(cs[k]) == Some(Wrapped(cs[k])) {
      var c := cs[k];
      assert In("tasks", c) == Some(true);
      assert Iterate(Lookup(c.fields, "tasks").value) == Some(Tasks(c));
    }
    UntilRaiseByFirstRaise(cs, WrapContainer);
  }

  /** `add_completed_status` on a valid document: in every section, the
      categories list keeps its length and every category is wrapped. */
  lemma ValidDocumentCompleted(doc: Value, i: nat)
    requires IsTodoDocument(doc) && i < |doc.fields|
    ensures CompleteSections(doc.fields)[i].key == doc.fields[i].key
    ensures CompleteSections(doc.fields)[i].value.Obj?
    ensures Lookup(CompleteSections(doc.fields)[i].value.fields, "categories") ==
      Some(Arr(WrapContainers(Categories(doc.fields[i].value))))
    ensures |WrapContainers(Categories(doc.fields[i].value))| == |Categories(doc.fields[i].value)|
    ensures forall k :: 0 <= k < |Categories(doc.fields[i].value)| ==>
      WrapContainers(Categories(doc.fields[i].value))[k] == Wrapped(Categories(doc.fields[i].value)[k])
  {
    var item := doc.fields[i].value;
    assert IsTodoItem(item);
    CategoriesRewritten(item, Categories(item));
    ValidCategoriesWrapped(Categories(item));
  }

  /** No key of an item, other than `categories` itself, is `categories` in
      another letter case. */
  predicate NoCategoriesAliasIn(item: Value)
    requires item.Obj?
  {
    forall j :: 0 <= j < |item.fields| ==>
      item.fields[j].key == "categories" || LowerAll(item.fields[j].key) != "categories"
  }

  predicate NoCategoriesAlias(doc: Value)
    requires doc.Obj?
  {
    forall i :: 0 <= i < |doc.fields| && doc.fields[i].value.Obj? ==> NoCategoriesAliasIn(doc.fields[i].value)
  }

  /** A valid category renders as its heading, one checkbox per task, and a
      blank line. */
  lemma ValidCategoryBlock(c: Value)
    requires IsCategory(c)
    ensures CategoryBlock(c) ==
      Ok("\n#### " + Lookup(c.fields, "title").value.s + "\n" + Lines("- [ ] ", Tasks(c)) + "\n")
  {
  }

  /** The task texts of a category as checkbox lines. */
  function Checkboxes(tasks: seq<Value>): (r: seq<string>)
    ensures |r| == |tasks|
    ensures forall k :: 0 <= k < |tasks| ==> r[k] == "- [ ] " + Show(tasks[k])
  {
    LineTexts("- [ ] ", tasks)
  }

  /** The item lines of a block, then its closing blank line. */
  lemma BodyLines(bullet: string, ts: seq<Value>)
    requires '\n' !in bullet
    requires forall k :: 0 <= k < |ts| ==> '\n' !in Show(ts[k])
    ensures Split(Lines(bullet, ts) + "\n", '\n') == LineTexts(bullet, ts) + ["", ""]
  {
    LinesSplit(bullet, ts, "\n");
    SplitSepAlone('\n');
  }

  /** Read line by line, a category block is an empty line, the `#### title`
      line, exactly one `- [ ] task` line per task in order, and the blank
      line, when no title or task spans several lines. */
  lemma BlockLines(title: string, ts: seq<Value>)
    requires '\n' !in title
    requires forall k :: 0 <= k < |ts| ==> '\n' !in Show(ts[k])
    ensures Split("\n#### " + title + "\n" + Lines("- [ ] ", ts) + "\n", '\n') ==
      ["", "#### " + title] + Checkboxes(ts) + ["", ""]
  {
    var body := Lines("- [ ] ", ts);
    var heading := "#### " + title;
    var boxes := Checkboxes(ts);
    BlockRegroup(title, body);
    BodyLines("- [ ] ", ts);
    assert '\n' !in heading;
    HeadedLines('\n', heading, body + "\n", boxes + ["", ""]);
    assert ["", heading] + (boxes + ["", ""]) == ["", heading] + boxes + ["", ""];
  }

  /** A separator, a heading line and a body split into `lines`. */
  lemma HeadedLines(sep: char, heading: string, body: string, lines: seq<string>)
    requires sep !in heading
    requires Split(body, sep) == lines
    ensures Split([sep] + heading + [sep] + body, sep) == ["", heading] + lines
  {
    SplitLine(heading, sep, body);
    assert [sep] + heading + [sep] + body == [] + [sep] + (heading + [sep] + body);
    SplitLine([], sep, heading + [sep] + body);
  }

  /** Read line by line, a valid category's block is an empty line, the
      `#### title` line, exactly one `- [ ] task` line per task in order, and
      the blank line, when no title or task spans several lines. */
  lemma ValidCategoryLines(c: Value)
    requires IsCategory(c)
    requires '\n' !in Lookup(c.fields, "title").value.s
    requires forall k :: 0 <= k < |Tasks(c)| ==> '\n' !in Tasks(c)[k].s
    ensures Split(CategoryBlock(c).value, '\n') ==
      ["", "#### " + Lookup(c.fields, "title").value.s] + Checkboxes(Tasks(c)) + ["", ""]
  {
    ValidCategoryBlock(c);
    BlockLines(Lookup(c.fields, "title").value.s, Tasks(c));
  }

  lemma BlockRegroup(title: string, body: string)
    ensures "\n#### " + title + "\n" + body + "\n" == ['\n'] + ("#### " + title) + ['\n'] + (body + "\n")
  {
    assert "\n#### " + title == "\n" + ("#### " + title);
  }

  lemma {:induction false} ConcatOk<T>(xs: seq<T>, render: T -> Result<string>)
    requires forall k :: 0 <= k < |xs| ==> render(xs[k]).Ok?
    ensures Concat(xs, render).Ok?
  {
    if xs != [] {
      var n := |xs| - 1;
      assert forall k :: 0 <= k < n ==> xs[..n][k] == xs[k];
      ConcatOk(xs[..n], render);
    }
  }

  /** Every category of a valid item renders. */
  lemma CategoryListOk(cs: seq<Value>)
    requires forall k :: 0 <= k < |cs| ==> IsCategory(cs[k])
    ensures Concat(cs, CategoryBlock).Ok?
  {
    forall k | 0 <= k < |cs| ensures CategoryBlock(cs[k]).Ok? {
      ValidCategoryBlock(cs[k]);
    }
    ConcatOk(cs, CategoryBlock);
  }

  /** A key renders unless it is a category list that raises. */
  lemma FieldBlockOk(field: Entry)
    requires field.value.Arr? && LowerAll(field.key) == "categories" ==> Concat(field.value.items, CategoryBlock).Ok?
    ensures FieldBlock(field).Ok?
  {
  }

  /** The categories of a valid item all render. */
  lemma ItemCategoriesOk(item: Value)
    requires IsTodoItem(item)
    ensures Concat(Categories(item), CategoryBlock).Ok?
  {
    CategoryListOk(Categories(item));
  }

  /** Each key of a valid item renders. */
  lemma FieldOk(item: Value, j: nat)
    requires IsTodoItem(item) && NoCategoriesAliasIn(item) && j < |item.fields|
    ensures FieldBlock(item.fields[j]).Ok?
  {
    var f := item.fields[j];
    if f.value.Arr? && LowerAll(f.key) == "categories" {
      assert f.key == "categories";
      LookupAt(item.fields, j);
      assert f.value.items == Categories(item);
      ItemCategoriesOk(item);
    }
    FieldBlockOk(f);
  }

  /** Every key of a valid item renders. */
  lemma ItemFieldsOk(item: Value)
    requires IsTodoItem(item) && NoCategoriesAliasIn(item)
    ensures Concat(item.fields, FieldBlock).Ok?
  {
    forall j | 0 <= j < |item.fields| ensures FieldBlock(item.fields[j]).Ok? {
      FieldOk(item, j);
    }
    ConcatOk(item.fields, FieldBlock);
  }

  /** `toml_to_markdown` never raises on a valid document unless an item has
      a second key that lower-cases to `categories`. */
  lemma ValidMarkdownOk(doc: Value)
    requires IsTodoDocument(doc) && NoCategoriesAlias(doc)
    ensures Markdown(doc).Ok?
  {
    forall i | 0 <= i < |doc.fields| ensures SectionBlock(doc.fields[i]).Ok? {
      ItemFieldsOk(doc.fields[i].value);
    }
    ConcatOk(doc.fields, SectionBlock);
  }

  /** A category whose tasks are a number. */
  function AliasCategory(): Value {
    Obj([Entry("title", Str("Setup")), Entry("tasks", Int(5))])
  }

  /** A valid item with an extra key `Categories` holding that category. */
  function AliasItem(): Value {
    Obj([Entry("Categories", Arr([AliasCategory()])), Entry("frameworks", Arr([])), Entry("categories", Arr([]))])
  }

  /** The keys of the example are pairwise distinct. */
  lemma AliasKeysDistinct()
    ensures "Categories" != "frameworks" && "Categories" != "categories" && "frameworks" != "categories"
    ensures "title" != "tasks"
  {
    assert "Categories"[0] != "frameworks"[0];
    assert "Categories"[0] != "categories"[0];
    assert "frameworks"[0] != "categories"[0];
    assert "title"[1] != "tasks"[1];
  }

  lemma CapitalisedCategories()
    ensures LowerAll("Categories") == "categories"
  {
    var s, t := "Categories", "categories";
    assert Lower(s[0]) == t[0];
    assert forall i :: 1 <= i < |s| ==> s[i] == t[i] && !('A' <= s[i] <= 'Z');
    LowerMatches(s, t);
  }

  lemma AliasItemValid()
    ensures IsTodoItem(AliasItem())
  {
    var fields := AliasItem().fields;
    AliasKeysDistinct();
    TripleLookups(fields[0], fields[1], fields[2]);
  }

  /** The example category raises TypeError once its tasks are iterated. */
  lemma AliasCategoryRaises()
    ensures CategoryBlock(AliasCategory()) == Err(NotIterable(Int(5)))
  {
    var fields := AliasCategory().fields;
    AliasKeysDistinct();
    PairLookups(fields[0], fields[1]);
  }

  lemma AliasItemRaises()
    ensures Concat(AliasItem().fields, FieldBlock) == Err(NotIterable(Int(5)))
  {
    AliasFirstKeyRaises();
    ConcatFirstRaises(AliasItem().fields, FieldBlock);
  }

  /** The `Categories` key of the example raises. */
  lemma AliasFirstKeyRaises()
    ensures FieldBlock(AliasItem().fields[0]) == Err(NotIterable(Int(5)))
  {
    var field := AliasItem().fields[0];
    assert field.value.items == [AliasCategory()];
    AliasCategoryRaises();
    ConcatFirstRaises(field.value.items, CategoryBlock);
    CapitalisedCategories();
    FieldBlockRaises(field);
  }

  /** A list whose first item raises raises that item's error. */
  lemma ConcatFirstRaises<T>(xs: seq<T>, render: T -> Result<string>)
    requires |xs| > 0 && render(xs[0]).Err?
    ensures Concat(xs, render) == render(xs[0])
  {
    assert xs[..1] == [xs[0]];
    ConcatSingle(xs[0], render);
    ConcatErrSticks(xs, render, 1);
  }

  /** A one-item list renders as that item. */
  lemma ConcatSingle<T>(x: T, render: T -> Result<string>)
    ensures Concat([x], render) == Cat(Ok(""), render(x))
  {
    assert [x][..0] == [] && [x][0] == x;
  }

  /** A category list that raises makes its key raise the same error. */
  lemma FieldBlockRaises(field: Entry)
    requires field.value.Arr? && LowerAll(field.key) == "categories"
    requires Concat(field.value.items, CategoryBlock).Err?
    ensures FieldBlock(field) == Concat(field.value.items, CategoryBlock)
  {
  }

  /** Without that condition the guarantee fails: a document with one
      section holding that item is valid, yet `toml_to_markdown` raises
      TypeError on it. */
  lemma AliasDocumentValid(section: string)
    ensures IsTodoDocument(Obj([Entry(section, AliasItem())]))
    ensures !NoCategoriesAlias(Obj([Entry(section, AliasItem())]))
  {
    var doc := Obj([Entry(section, AliasItem())]);
    assert IsTodoDocument(doc) by {
      AliasItemValid();
      OneSectionDocument(Entry(section, AliasItem()));
    }
    assert !NoCategoriesAlias(doc) by {
      AliasItemAliased();
      assert doc.fields[0].value == AliasItem();
    }
  }

  /** The example item has a second key that lower-cases to `categories`. */
  lemma AliasItemAliased()
    ensures !NoCategoriesAliasIn(AliasItem())
  {
    CapitalisedCategories();
    AliasKeysDistinct();
    assert AliasItem().fields[0].key == "Categories";
  }

  /** A one-section document is valid when its section is a valid item. */
  lemma OneSectionDocument(e: Entry)
    requires IsTodoItem(e.value)
    ensures IsTodoDocument(Obj([e]))
  {
  }

  /** A one-section document renders as that section. */
  lemma OneSectionMarkdown(e: Entry)
    ensures Markdown(Obj([e])) == SectionBlock(e)
  {
    ConcatSingle(e, SectionBlock);
    if SectionBlock(e).Ok? {
      assert "" + SectionBlock(e).value == SectionBlock(e).value;
    }
  }

  /** A dict section whose keys raise raises the same error. */
  lemma SectionBlockRaises(e: Entry)
    requires e.value.Obj? && Concat(e.value.fields, FieldBlock).Err?
    ensures SectionBlock(e) == Concat(e.value.fields, FieldBlock)
  {
  }

  lemma AliasDocumentRaises(section: string)
    ensures Markdown(Obj([Entry(section, AliasItem())])) == Err(NotIterable(Int(5)))
  {
    OneSectionMarkdown(Entry(section, AliasItem()));
    AliasItemRaises();
    SectionBlockRaises(Entry(section, AliasItem()));
  }
}
