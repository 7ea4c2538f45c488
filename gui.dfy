/** The form logic of the NiceGUI front end, `uplan/gui.py`: every field of the
    loaded template gets a text area under the key `section.field`; on submit
    the typed texts are grouped back into `template_data[section][field]`
    (keys without a dot are skipped, keys with more than one dot raise) and
    saved, and the progress message is typed into the stream area one
    character at a time. */
module Gui {
  import opened Wrappers
  import opened PyStr
  import opened Json
  import opened Forms

  /** One section of the loaded template: its key and the keys of its fields,
      in the template's order. */
  datatype TemplateSection = TemplateSection(key: string, fields: seq<string>)

  /** The ValueError text of `section, field = key.split(".")` when the key
      has more than one dot. */
  const TooManyValues := "too many values to unpack (expected 2)"

  /** `f"{section_key}.{field}"` */
  function FieldKey(section: string, field: string): string {
    section + "." + field
  }

  /** The keys made for one section's fields. */
  function SectionKeys(section: string, fields: seq<string>): seq<string> {
    seq(|fields|, j requires 0 <= j < |fields| => FieldKey(section, fields[j]))
  }

  /** The keys made for all fields of all sections, section by section. */
  function FieldKeys(sections: seq<TemplateSection>): seq<string> {
    if sections == [] then []
    else
      var last := sections[|sections| - 1];
      FieldKeys(sections[..|sections| - 1]) + SectionKeys(last.key, last.fields)
  }

  /** `form_elements[key] = ...` on a dict: a new key goes last, an existing
      key keeps its place. */
  function InsertKey(keys: seq<string>, key: string): seq<string> {
    if key in keys then keys else keys + [key]
  }

  function InsertAll(keys: seq<string>, added: seq<string>): seq<string> {
    if added == [] then keys else InsertKey(InsertAll(keys, added[..|added| - 1]), added[|added| - 1])
  }

  /** One more section appends its keys. */
  lemma FieldKeysSnoc(sections: seq<TemplateSection>, i: nat)
    requires i < |sections|
    ensures FieldKeys(sections[..i + 1]) == FieldKeys(sections[..i]) + SectionKeys(sections[i].key, sections[i].fields)
  {
    assert sections[..i + 1][..i] == sections[..i];
  }

  /** One more key is inserted after all the others. */
  lemma InsertAllSnoc(keys: seq<string>, added: seq<string>, key: string)
    ensures InsertAll(keys, added + [key]) == InsertKey(InsertAll(keys, added), key)
  {
    assert (added + [key])[..|added|] == added;
  }

  /** Inserting two runs of keys inserts them one after the other. */
  lemma {:induction false} InsertAllAppend(keys: seq<string>, a: seq<string>, b: seq<string>)
    ensures InsertAll(InsertAll(keys, a), b) == InsertAll(keys, a + b)
    decreases |b|
  {
    if b != [] {
      var n := |b| - 1;
      InsertAllAppend(keys, a, b[..n]);
      assert (a + b)[..|a + b| - 1] == a + b[..n];
      assert (a + b)[|a + b| - 1] == b[n];
    } else {
      assert a + b == a;
    }
  }

  predicate Distinct(xs: seq<string>) {
    forall i, j :: 0 <= i < j < |xs| ==> xs[i] != xs[j]
  }

  /** The dict keeps each inserted key once, and keeps them in insertion
      order when they are all new. */
  lemma {:induction false} InsertAllKeys(keys: seq<string>, added: seq<string>)
    ensures forall k :: k in InsertAll(keys, added) <==> k in keys || k in added
    ensures Distinct(keys) ==> Distinct(InsertAll(keys, added))
    ensures Distinct(keys + added) ==> InsertAll(keys, added) == keys + added
  {
    if added != [] {
      var n := |added| - 1;
      var front := added[..n];
      InsertAllKeys(keys, front);
      assert added == front + [added[n]];
      if Distinct(keys + added) {
        assert keys + added == (keys + front) + [added[n]];
        assert Distinct(keys + front) by {
          forall i, j | 0 <= i < j < |keys + front| ensures (keys + front)[i] != (keys + front)[j] {
            assert (keys + front)[i] == (keys + added)[i] && (keys + front)[j] == (keys + added)[j];
          }
        }
        assert added[n] !in keys + front by {
          forall i | 0 <= i < |keys + front| ensures (keys + front)[i] != added[n] {
            assert (keys + front)[i] == (keys + added)[i];
            assert (keys + added)[|keys + added| - 1] == added[n];
          }
        }
      }
    }
  }

  /** The typed text of each form element: `{key: element.value for ...}`. */
  function Inputs(keys: seq<string>, typed: string -> string): seq<FormField> {
    seq(|keys|, i requires 0 <= i < |keys| => FormField(keys[i], typed(keys[i])))
  }

  lemma InputsAppend(a: seq<string>, b: seq<string>, typed: string -> string)
    ensures Inputs(a + b, typed) == Inputs(a, typed) + Inputs(b, typed)
  {
    var lhs, rhs := Inputs(a + b, typed), Inputs(a, typed) + Inputs(b, typed);
    assert |lhs| == |rhs|;
    forall i | 0 <= i < |lhs| ensures lhs[i] == rhs[i] {
      if i < |a| {
        assert (a + b)[i] == a[i];
      } else {
        assert (a + b)[i] == b[i - |a|];
      }
    }
  }

  /** One iteration of the grouping loop of `process_form`: a key without a
      dot is skipped, `section, field = key.split(".")` needs exactly one. */
  function TemplateSlot(key: string): Slot {
    if '.' !in key then Skip
    else
      var parts := Split(key, '.');
      if |parts| == 2 then Place(parts[0], parts[1]) else Fail(TooManyValues)
  }

  /** A key with a dot is stored under the text before its first dot and the
      rest when the rest has no dot, and raises when it has one. */
  lemma TemplateSlotCases(key: string)
    ensures '.' !in key ==> TemplateSlot(key) == Skip
    ensures '.' in key ==>
      var (section, field) := SplitOnce(key, '.').value;
      TemplateSlot(key) == if '.' in field then Fail(TooManyValues) else Place(section, field)
  {
    if '.' in key {
      var (section, field) := SplitOnce(key, '.').value;
      SplitAround(section, '.', field);
      SplitWithoutSep(section, '.');
      if '.' in field {
        var (a, b) := SplitOnce(field, '.').value;
        SplitAround(a, '.', b);
      } else {
        SplitWithoutSep(field, '.');
      }
    }
  }

  /** The key made for a dotless section and field is stored back under them. */
  lemma TemplateKeyPlaced(section: string, field: string)
    requires '.' !in section && '.' !in field
    ensures TemplateSlot(FieldKey(section, field)) == Place(section, field)
  {
    SplitAround(section, '.', field);
    SplitWithoutSep(section, '.');
    SplitWithoutSep(field, '.');
    assert FieldKey(section, field)[|section|] == '.';
  }

  /** Dotless sections make different keys for different fields. */
  lemma FieldKeyInjective(a: string, b: string, c: string, d: string)
    requires '.' !in a && '.' !in c
    ensures FieldKey(a, b) == FieldKey(c, d) <==> a == c && b == d
  {
    SplitOnceAt(a, '.', b);
    SplitOnceAt(c, '.', d);
  }

  /** The GUI's text area into which progress is typed; `shown` is every
      value it has been given, in order. */
  class StreamArea {
    var value: string
    ghost var shown: seq<string>

    constructor ()
      ensures value == "" && shown == []
    {
      value := "";
      shown := [];
    }

    method Set(text: string)
      modifies this
      ensures value == text && shown == old(shown) + [text]
    {
      value := text;
      shown := shown + [text];
    }
  }

  /** `text[:1]`, `text[:2]`, ..., `text`. */
  function Prefixes(text: string): (r: seq<string>)
    ensures |r| == |text|
    ensures forall i :: 0 <= i < |text| ==> r[i] == text[..i + 1]
  {
    if text == [] then []
    else
      var front := text[..|text| - 1];
      var shorter := Prefixes(front);
      assert forall i :: 0 <= i < |front| ==> shorter[i] == text[..i + 1];
      shorter + [text]
  }

  /** The message typed into the stream area once the form is saved. */
  function Progress(model: string, inputFolder: string): string {
    "Processing with " + model + "...\nSaved form data to " + JoinPath(inputFolder, "plan.toml")
  }

  /** `{"template": template_data}`, the document `process_form` saves. */
  function Saved(templateData: seq<Entry>): Value {
    Obj([Entry("template", Obj(templateData))])
  }

  /** The GUI state the form logic works on. The template is the loaded
      `template` table; `formKeys` are the keys of `form_elements`, in dict
      order; `llmStream` is the stream area once it has been created. */
  class TemplateInterface {
    var template: seq<TemplateSection>
    var formKeys: seq<string>
    var llmStream: StreamArea?

    constructor (template: seq<TemplateSection>)
      ensures this.template == template && formKeys == [] && llmStream == null
    {
      this.template := template;
      formKeys := [];
      llmStream := null;
    }

    /** `create_question_template_area()`: one text area per field of every
        section, registered under the field's key. */
    method CreateQuestionTemplateArea()
      modifies this
      ensures formKeys == InsertAll(old(formKeys), FieldKeys(template))
      ensures template == old(template) && llmStream == old(llmStream)
    {
      var i := 0;
      while i < |template|
        invariant 0 <= i <= |template|
        invariant template == old(template) && llmStream == old(llmStream)
        invariant formKeys == InsertAll(old(formKeys), FieldKeys(template[..i]))
      {
        FieldKeysSnoc(template, i);
        AddSectionKeys(template[i]);
        InsertAllAppend(old(formKeys), FieldKeys(template[..i]), SectionKeys(template[i].key, template[i].fields));
        i := i + 1;
      }
      assert template[..i] == template;
    }

    /** The inner `for field in fields` loop for one section. */
    method AddSectionKeys(section: TemplateSection)
      modifies this
      ensures formKeys == InsertAll(old(formKeys), SectionKeys(section.key, section.fields))
      ensures template == old(template) && llmStream == old(llmStream)
    {
      ghost var keys := SectionKeys(section.key, section.fields);
      var j := 0;
      assert keys[..0] == [];
      while j < |section.fields|
        invariant 0 <= j <= |section.fields|
        invariant template == old(template) && llmStream == old(llmStream)
        invariant formKeys == InsertAll(old(formKeys), keys[..j])
      {
        var key := FieldKey(section.key, section.fields[j]);
        assert keys[..j + 1] == keys[..j] + [key];
        InsertAllSnoc(old(formKeys), keys[..j], key);
        if key !in formKeys {
          formKeys := formKeys + [key];
        }
        j := j + 1;
      }
      assert keys[..j] == keys;
    }

    /** `create_llm_stream_area()`: a new, empty stream area. */
    method CreateLlmStreamArea()
      modifies this
      ensures llmStream != null && fresh(llmStream) && llmStream.value == "" && llmStream.shown == []
      ensures template == old(template) && formKeys == old(formKeys)
    {
      llmStream := new StreamArea();
    }

    /** `stream_progress(text)`: clear the stream area, then show `text` one
        more character at a time; nothing happens without a stream area. */
    method StreamProgress(text: string)
      modifies llmStream
      ensures llmStream != null ==>
        && llmStream.value == text
        && llmStream.shown == old(llmStream.shown) + [""] + Prefixes(text)
    {
      if llmStream == null {
        return;
      }
      llmStream.Set("");
      var i := 0;
      while i < |text|
        invariant 0 <= i <= |text|
        invariant llmStream.value == text[..i]
        invariant llmStream.shown == old(llmStream.shown) + [""] + Prefixes(text[..i])
      {
        assert text[..i + 1][..i] == text[..i];
        llmStream.Set(text[..i + 1]);
        i := i + 1;
      }
      assert text[..i] == text;
    }

    /** `process_form()`: group the typed texts by section and field, save
        them under `template` and report progress; when a key raises, the
        error is shown in the stream area and nothing is saved. */
    method ProcessForm(typed: string -> string, model: string, inputFolder: string) returns (saved: Option<Value>)
      modifies llmStream
      ensures var groups := Group(Inputs(formKeys, typed), TemplateSlot);
        && (groups.Err? ==>
              && saved == None
              && (llmStream != null ==>
                    llmStream.value == "Error: " + groups.message && llmStream.shown == old(llmStream.shown) + [llmStream.value]))
        && (groups.Ok? ==>
              && saved == Some(Saved(groups.value))
              && (llmStream != null ==>
                    && llmStream.value == Progress(model, inputFolder)
                    && llmStream.shown == old(llmStream.shown) + [""] + Prefixes(Progress(model, inputFolder))))
    {
      var inputs := Inputs(formKeys, typed);
      var templateData := GroupTemplateData(inputs);
      if templateData.Err? {
        if llmStream != null {
          llmStream.Set("Error: " + templateData.message);
        }
        return None;
      }
      saved := Some(Saved(templateData.value));
      StreamProgress(Progress(model, inputFolder));
    }
  }

  /** The grouping loop of `process_form`. */
  method GroupTemplateData(inputs: seq<FormField>) returns (r: Result<seq<Entry>>)
    ensures r == Group(inputs, TemplateSlot)
  {
    var templateData: seq<Entry> := [];
    var i := 0;
    while i < |inputs|
      invariant 0 <= i <= |inputs|
      invariant Group(inputs[..i], TemplateSlot) == Ok(templateData)
    {
      GroupStep(inputs, TemplateSlot, i);
      GroupStores(inputs[..i], TemplateSlot);
      var key, value := inputs[i].key, inputs[i].value;
      if '.' in key {
        var parts := Split(key, '.');
        if |parts| != 2 {
          GroupStopsAt(inputs, TemplateSlot, i + 1);
          return Err(TooManyValues);
        }
        var section, field := parts[0], parts[1];
        NestInPlace(templateData, section, field, Str(value));
        if section !in Keys(templateData) {
          templateData := Assign(templateData, section, Obj([]));
        }
        templateData := Assign(templateData, section, Obj(Assign(Lookup(templateData, section).value.fields, field, Str(value))));
      }
      i := i + 1;
    }
    assert inputs[..i] == inputs;
    return Ok(templateData);
  }

  /** The template is a dict of dicts: its section keys are distinct, and so
      are the field keys of each section. */
  predicate WellKeyed(sections: seq<TemplateSection>) {
    && (forall i, j :: 0 <= i < j < |sections| ==> sections[i].key != sections[j].key)
    && (forall i :: 0 <= i < |sections| ==> Distinct(sections[i].fields))
  }

  /** No section or field key contains a dot. */
  predicate Dotless(sections: seq<TemplateSection>) {
    forall i :: 0 <= i < |sections| ==>
      '.' !in sections[i].key && forall j :: 0 <= j < |sections[i].fields| ==> '.' !in sections[i].fields[j]
  }

  /** The fields of one section with what was typed into each. */
  function FieldValues(section: string, fields: seq<string>, typed: string -> string): seq<Entry> {
    seq(|fields|, j requires 0 <= j < |fields| => Entry(fields[j], Str(typed(FieldKey(section, fields[j])))))
  }

  lemma FieldValuesSnoc(section: string, fields: seq<string>, typed: string -> string)
    requires fields != []
    ensures var n := |fields| - 1;
      FieldValues(section, fields, typed) ==
        FieldValues(section, fields[..n], typed) + [Entry(fields[n], Str(typed(FieldKey(section, fields[n]))))]
    ensures Keys(FieldValues(section, fields, typed)) == fields
  {
    var n := |fields| - 1;
    var lhs := FieldValues(section, fields, typed);
    var rhs := FieldValues(section, fields[..n], typed) + [Entry(fields[n], Str(typed(FieldKey(section, fields[n]))))];
    forall j | 0 <= j < |lhs| ensures lhs[j] == rhs[j] {
      if j < n {
        assert fields[..n][j] == fields[j];
      }
    }
  }

  /** The template rebuilt from the typed texts: every section that has
      fields, in order, mapping each field to its text. */
  function Expected(sections: seq<TemplateSection>, typed: string -> string): seq<Entry> {
    if sections == [] then []
    else
      var last := sections[|sections| - 1];
      Expected(sections[..|sections| - 1], typed)
        + (if last.fields == [] then [] else [Entry(last.key, Obj(FieldValues(last.key, last.fields, typed)))])
  }

  lemma {:induction false} ExpectedKeys(sections: seq<TemplateSection>, typed: string -> string)
    ensures forall k :: k in Keys(Expected(sections, typed)) ==> exists i :: 0 <= i < |sections| && sections[i].key == k
  {
    if sections != [] {
      var n := |sections| - 1;
      var front := sections[..n];
      var last := sections[n];
      ExpectedKeys(front, typed);
      var tail := if last.fields == [] then [] else [Entry(last.key, Obj(FieldValues(last.key, last.fields, typed)))];
      KeysAppend(Expected(front, typed), tail);
      forall k | k in Keys(Expected(sections, typed)) ensures exists i :: 0 <= i < |sections| && sections[i].key == k {
        if k in Keys(Expected(front, typed)) {
          var i :| 0 <= i < |front| && front[i].key == k;
          assert sections[i] == front[i];
        } else {
          assert sections[n].key == k;
        }
      }
    }
  }

  /** Grouping the keys of one dotless section, after sections it is not
      among, appends that section with its fields (or nothing, when it has
      none). */
  lemma SectionGroup(groups: seq<Entry>, section: string, fields: seq<string>, typed: string -> string)
    requires '.' !in section && section !in Keys(groups)
    requires Distinct(fields) && forall j :: 0 <= j < |fields| ==> '.' !in fields[j]
    ensures GroupFrom(groups, Inputs(SectionKeys(section, fields), typed), TemplateSlot) ==
      Ok(if fields == [] then groups else groups + [Entry(section, Obj(FieldValues(section, fields, typed)))])
  {
    forall j | 0 <= j < |fields| ensures TemplateSlot(FieldKey(section, fields[j])) == Place(section, fields[j]) {
      TemplateKeyPlaced(section, fields[j]);
    }
    SectionGroupBy(groups, section, fields, typed, TemplateSlot);
  }

  /** The same for any classification that places every key of the section. */
  lemma {:induction false} SectionGroupBy(groups: seq<Entry>, section: string, fields: seq<string>, typed: string -> string,
                                          slot: string -> Slot)
    requires section !in Keys(groups) && Distinct(fields)
    requires forall j :: 0 <= j < |fields| ==> slot(FieldKey(section, fields[j])) == Place(section, fields[j])
    ensures GroupFrom(groups, Inputs(SectionKeys(section, fields), typed), slot) ==
      Ok(if fields == [] then groups else groups + [Entry(section, Obj(FieldValues(section, fields, typed)))])
  {
    if fields != [] {
      var front := fields[..|fields| - 1];
      DistinctFront(fields);
      PlacedFront(section, fields, slot);
      SectionGroupBy(groups, section, front, typed, slot);
      DistinctLast(fields);
      SectionGroupLast(groups, section, fields, typed, slot);
    }
  }

  /** The keys of all fields but the last are placed as well. */
  lemma PlacedFront(section: string, fields: seq<string>, slot: string -> Slot)
    requires fields != []
    requires forall j :: 0 <= j < |fields| ==> slot(FieldKey(section, fields[j])) == Place(section, fields[j])
    ensures var front := fields[..|fields| - 1];
      forall j :: 0 <= j < |front| ==> slot(FieldKey(section, front[j])) == Place(section, front[j])
  {
    var front := fields[..|fields| - 1];
    forall j | 0 <= j < |front| ensures slot(FieldKey(section, front[j])) == Place(section, front[j]) {
      assert front[j] == fields[j];
    }
  }

  /** Grouping the last field of a section after the others. */
  lemma SectionGroupLast(groups: seq<Entry>, section: string, fields: seq<string>, typed: string -> string,
                         slot: string -> Slot)
    requires fields != [] && section !in Keys(groups)
    requires slot(FieldKey(section, fields[|fields| - 1])) == Place(section, fields[|fields| - 1])
    requires fields[|fields| - 1] !in fields[..|fields| - 1]
    requires var front := fields[..|fields| - 1];
      GroupFrom(groups, Inputs(SectionKeys(section, front), typed), slot) ==
        Ok(if front == [] then groups else groups + [Entry(section, Obj(FieldValues(section, front, typed)))])
    ensures GroupFrom(groups, Inputs(SectionKeys(section, fields), typed), slot) ==
      Ok(groups + [Entry(section, Obj(FieldValues(section, fields, typed)))])
  {
    var front := fields[..|fields| - 1];
    var before := if front == [] then groups else groups + [Entry(section, Obj(FieldValues(section, front, typed)))];
    SectionGroupPlaces(groups, section, fields, typed, slot, before);
    SectionNestAppends(groups, section, fields, typed, before);
  }

  /** All keys but the last are distinct too. */
  lemma DistinctFront(xs: seq<string>)
    requires xs != [] && Distinct(xs)
    ensures Distinct(xs[..|xs| - 1])
  {
    var front := xs[..|xs| - 1];
    forall i, j | 0 <= i < j < |front| ensures front[i] != front[j] {
      assert front[i] == xs[i] && front[j] == xs[j];
    }
  }

  /** The last of distinct keys is not among the others. */
  lemma DistinctLast(xs: seq<string>)
    requires xs != [] && Distinct(xs)
    ensures xs[|xs| - 1] !in xs[..|xs| - 1]
  {
    var n := |xs| - 1;
    forall i | 0 <= i < n ensures xs[..n][i] != xs[n] {
      assert xs[..n][i] == xs[i];
    }
  }

  /** The last field's key comes last. */
  lemma SectionKeysSnoc(section: string, fields: seq<string>)
    requires fields != []
    ensures SectionKeys(section, fields) ==
      SectionKeys(section, fields[..|fields| - 1]) + [FieldKey(section, fields[|fields| - 1])]
  {
  }

  /** One more key adds its input at the end. */
  lemma InputsSnoc(keys: seq<string>, key: string, typed: string -> string)
    ensures Inputs(keys + [key], typed) == Inputs(keys, typed) + [FormField(key, typed(key))]
  {
  }

  /** The key of the last field is placed under its section. */
  lemma SectionGroupPlaces(groups: seq<Entry>, section: string, fields: seq<string>, typed: string -> string,
                           slot: string -> Slot, before: seq<Entry>)
    requires fields != [] && slot(FieldKey(section, fields[|fields| - 1])) == Place(section, fields[|fields| - 1])
    requires GroupFrom(groups, Inputs(SectionKeys(section, fields[..|fields| - 1]), typed), slot) == Ok(before)
    ensures var field := fields[|fields| - 1];
      GroupFrom(groups, Inputs(SectionKeys(section, fields), typed), slot) ==
        Ok(Nest(before, section, field, Str(typed(FieldKey(section, field)))))
  {
    var field := fields[|fields| - 1];
    var key := FieldKey(section, field);
    var keys := SectionKeys(section, fields[..|fields| - 1]);
    SectionKeysSnoc(section, fields);
    InputsSnoc(keys, key, typed);
    var inputs := Inputs(keys, typed) + [FormField(key, typed(key))];
    assert inputs[..|inputs| - 1] == Inputs(keys, typed);
    GroupPlacesLast(groups, inputs, slot, before, section, field);
  }

  /** Nesting the last field appends it to its section, which is new or last. */
  lemma SectionNestAppends(groups: seq<Entry>, section: string, fields: seq<string>, typed: string -> string, before: seq<Entry>)
    requires section !in Keys(groups) && fields != [] && fields[|fields| - 1] !in fields[..|fields| - 1]
    requires var front := fields[..|fields| - 1];
      before == if front == [] then groups else groups + [Entry(section, Obj(FieldValues(section, front, typed)))]
    ensures var field := fields[|fields| - 1];
      Nest(before, section, field, Str(typed(FieldKey(section, field)))) ==
        groups + [Entry(section, Obj(FieldValues(section, fields, typed)))]
  {
    var n := |fields| - 1;
    var front, field := fields[..n], fields[n];
    var value := Str(typed(FieldKey(section, field)));
    FieldValuesSnoc(section, fields, typed);
    if front == [] {
      assert FieldValues(section, front, typed) == [];
      assert FieldValues(section, fields, typed) == [Entry(field, value)];
      NestNewSection(groups, section, field, value);
    } else {
      FieldValuesSnoc(section, front, typed);
      assert FieldValues(section, fields, typed) == FieldValues(section, front, typed) + [Entry(field, value)];
      NestLastSection(groups, section, FieldValues(section, front, typed), field, value);
    }
  }

  /** Round trip: grouping the typed texts of a template with dotless keys
      rebuilds the template's sections and fields. */
  lemma {:induction false} TemplateRoundTrip(sections: seq<TemplateSection>, typed: string -> string)
    requires WellKeyed(sections) && Dotless(sections)
    ensures Group(Inputs(FieldKeys(sections), typed), TemplateSlot) == Ok(Expected(sections, typed))
  {
    if sections != [] {
      var n := |sections| - 1;
      var front := sections[..n];
      var last := sections[n];
      var a, b := Inputs(FieldKeys(front), typed), Inputs(SectionKeys(last.key, last.fields), typed);
      var tail := if last.fields == [] then [] else [Entry(last.key, Obj(FieldValues(last.key, last.fields, typed)))];
      assert Group(a, TemplateSlot) == Ok(Expected(front, typed)) by {
        assert forall i :: 0 <= i < |front| ==> front[i] == sections[i];
        TemplateRoundTrip(front, typed);
      }
      assert last.key !in Keys(Expected(front, typed)) by {
        ExpectedKeys(front, typed);
        assert forall i :: 0 <= i < |front| ==> front[i].key == sections[i].key != sections[n].key;
      }
      assert GroupFrom(Expected(front, typed), b, TemplateSlot) == Ok(Expected(front, typed) + tail) by {
        assert forall j :: 0 <= j < |last.fields| ==> '.' !in last.fields[j];
        SectionGroup(Expected(front, typed), last.key, last.fields, typed);
        if last.fields == [] {
          assert Expected(front, typed) + tail == Expected(front, typed);
        }
      }
      assert Inputs(FieldKeys(sections), typed) == a + b by {
        InputsAppend(FieldKeys(front), SectionKeys(last.key, last.fields), typed);
      }
      GroupAppend([], a, b, TemplateSlot);
      assert Expected(sections, typed) == Expected(front, typed) + tail;
    }
  }

  /** Every key made for the template is some section's key, a dot and one
      of its field keys. */
  lemma {:induction false} FieldKeysFrom(sections: seq<TemplateSection>, p: nat)
    requires p < |FieldKeys(sections)|
    ensures exists i, j ::
      (0 <= i < |sections| && 0 <= j < |sections[i].fields| && FieldKeys(sections)[p] == FieldKey(sections[i].key, sections[i].fields[j]))
  {
    var n := |sections| - 1;
    var front := sections[..n];
    var last := sections[n];
    if p < |FieldKeys(front)| {
      FieldKeysFrom(front, p);
      var i, j :| 0 <= i < |front| && 0 <= j < |front[i].fields| && FieldKeys(front)[p] == FieldKey(front[i].key, front[i].fields[j]);
      assert sections[i] == front[i];
    } else {
      var j := p - |FieldKeys(front)|;
      assert FieldKeys(sections)[p] == FieldKey(last.key, last.fields[j]);
    }
  }

  /** Every field of the template gets a key. */
  lemma {:induction false} FieldKeysCover(sections: seq<TemplateSection>, i: nat, j: nat)
    requires i < |sections| && j < |sections[i].fields|
    ensures FieldKey(sections[i].key, sections[i].fields[j]) in FieldKeys(sections)
  {
    var n := |sections| - 1;
    var front := sections[..n];
    var last := sections[n];
    if i < n {
      assert front[i] == sections[i];
      FieldKeysCover(front, i, j);
    } else {
      assert SectionKeys(last.key, last.fields)[j] == FieldKey(last.key, last.fields[j]);
    }
  }

  /** A template with dotless keys makes one key per field, all different. */
  lemma {:induction false} FieldKeysDistinct(sections: seq<TemplateSection>)
    requires WellKeyed(sections) && Dotless(sections)
    ensures Distinct(FieldKeys(sections))
  {
    if sections != [] {
      var n := |sections| - 1;
      var front := sections[..n];
      var last := sections[n];
      assert forall i :: 0 <= i < |front| ==> front[i] == sections[i];
      FieldKeysDistinct(front);
      var a, b := FieldKeys(front), SectionKeys(last.key, last.fields);
      forall p, q | 0 <= p < q < |a + b| ensures (a + b)[p] != (a + b)[q] {
        if q < |a| {
          assert (a + b)[p] == a[p] && (a + b)[q] == a[q];
        } else if p >= |a| {
          assert (a + b)[p] == b[p - |a|] && (a + b)[q] == b[q - |a|];
          FieldKeyInjective(last.key, last.fields[p - |a|], last.key, last.fields[q - |a|]);
        } else {
          assert (a + b)[p] == a[p] && (a + b)[q] == b[q - |a|];
          FieldKeysFrom(front, p);
          var i, j :| 0 <= i < |front| && 0 <= j < |front[i].fields| && a[p] == FieldKey(front[i].key, front[i].fields[j]);
          assert front[i] == sections[i] && sections[i].key != sections[n].key;
          FieldKeyInjective(front[i].key, front[i].fields[j], last.key, last.fields[q - |a|]);
        }
      }
    }
  }

  /** Round trip through the GUI: after the template area is built on a
      fresh interface, grouping the typed texts rebuilds the template. */
  lemma CreatedFormRoundTrip(sections: seq<TemplateSection>, typed: string -> string)
    requires WellKeyed(sections) && Dotless(sections)
    ensures Group(Inputs(InsertAll([], FieldKeys(sections)), typed), TemplateSlot) == Ok(Expected(sections, typed))
  {
    FieldKeysDistinct(sections);
    InsertAllKeys([], FieldKeys(sections));
    assert [] + FieldKeys(sections) == FieldKeys(sections);
    TemplateRoundTrip(sections, typed);
  }

  /** A key made from a dotted section or field key has two dots and raises. */
  lemma DottedKeyRaises(section: string, field: string)
    requires '.' in section || '.' in field
    ensures TemplateSlot(FieldKey(section, field)) == Fail(TooManyValues)
  {
    var key := FieldKey(section, field);
    assert key[|section|] == '.';
    TemplateSlotCases(key);
    var (a, b) := SplitOnce(key, '.').value;
    assert key == a + "." + b;
    if '.' in section {
      var p :| 0 <= p < |section| && section[p] == '.';
      assert key[p] == '.';
      assert forall q :: 0 <= q < |a| ==> key[q] == a[q] && a[q] != '.';
      assert |a| <= p;
      assert b[|section| - |a| - 1] == key[|section|];
    } else {
      SplitOnceAt(section, '.', field);
    }
  }

  /** A template with a dotted section or field key cannot be saved: once
      the template area is built on a fresh interface, grouping the form's
      keys raises the unpack error. */
  lemma DottedTemplateRaises(sections: seq<TemplateSection>, typed: string -> string, i: nat, j: nat)
    requires i < |sections| && j < |sections[i].fields|
    requires '.' in sections[i].key || '.' in sections[i].fields[j]
    ensures Group(Inputs(InsertAll([], FieldKeys(sections)), typed), TemplateSlot) == Err(TooManyValues)
  {
    var keys := InsertAll([], FieldKeys(sections));
    var inputs := Inputs(keys, typed);
    FieldKeysCover(sections, i, j);
    InsertAllKeys([], FieldKeys(sections));
    DottedKeyRaises(sections[i].key, sections[i].fields[j]);
    var p :| 0 <= p < |keys| && keys[p] == FieldKey(sections[i].key, sections[i].fields[j]);
    assert TemplateSlot(inputs[p].key).Fail?;
    GroupFails(inputs, TemplateSlot);
    var q :| 0 <= q < |inputs| && TemplateSlot(inputs[q].key) == Fail(FirstFail(inputs, TemplateSlot).value);
  }
}
