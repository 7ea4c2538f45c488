/** Turning flat form keys into a two-level dict, the loop shape shared by the
    answer grouping of `uplan/app.py` and the template grouping of
    `uplan/gui.py`: each key is split into a section and a name and its value
    is stored at `groups[section][name]`, creating the section's dict on first
    use; a key whose split raises stops the loop with that exception. */
module Forms {
  import opened Wrappers
  import opened Json

  /** One submitted input: its key and the text typed into it. */
  datatype FormField = FormField(key: string, value: string)

  /** What one loop iteration does with a key: nothing (`continue`), a store
      at `[section][name]`, or an exception. */
  datatype Slot = Skip | Place(section: string, name: string) | Fail(message: string)

  /** The entries of `groups[section]`, or none when it is missing or not a
      dict. */
  function SectionFields(groups: seq<Entry>, section: string): seq<Entry> {
    var v := Lookup(groups, section);
    if v.Some? && v.value.Obj? then v.value.fields else []
  }

  /** `groups[section][name]`, when both levels exist. */
  function Lookup2(groups: seq<Entry>, section: string, name: string): Option<Value> {
    Lookup(SectionFields(groups, section), name)
  }

  /** Every section of the groups is a dict. */
  predicate Nested(groups: seq<Entry>) {
    forall i :: 0 <= i < |groups| ==> groups[i].value.Obj?
  }

  /** `if section not in groups: groups[section] = {}` and then
      `groups[section][name] = value`. The section dict is fresh when missing;
      on nested groups it is the one already stored. */
  function Nest(groups: seq<Entry>, section: string, name: string, value: Value): seq<Entry> {
    Assign(groups, section, Obj(Assign(SectionFields(groups, section), name, value)))
  }

  /** After the store, `[section][name]` holds the value; every other name of
      the section and every other section is as before. */
  lemma NestStores(groups: seq<Entry>, section: string, name: string, value: Value)
    ensures Lookup2(Nest(groups, section, name, value), section, name) == Some(value)
    ensures forall n :: n != name ==> Lookup2(Nest(groups, section, name, value), section, n) == Lookup2(groups, section, n)
    ensures forall s :: s != section ==> Lookup(Nest(groups, section, name, value), s) == Lookup(groups, s)
  {
    NestHolds(groups, section, name, value);
    NestKeepsNames(groups, section, name, value);
    NestKeepsSections(groups, section, name, value);
  }

  /** After the store the section holds the dict with the name assigned. */
  lemma NestHolds(groups: seq<Entry>, section: string, name: string, value: Value)
    ensures SectionFields(Nest(groups, section, name, value), section) == Assign(SectionFields(groups, section), name, value)
  {
    var stored := Assign(SectionFields(groups, section), name, value);
    assert Lookup(Assign(groups, section, Obj(stored)), section) == Some(Obj(stored));
  }

  lemma NestKeepsNames(groups: seq<Entry>, section: string, name: string, value: Value)
    ensures Lookup2(Nest(groups, section, name, value), section, name) == Some(value)
    ensures forall n :: n != name ==> Lookup2(Nest(groups, section, name, value), section, n) == Lookup2(groups, section, n)
  {
    NestHolds(groups, section, name, value);
  }

  lemma NestKeepsSections(groups: seq<Entry>, section: string, name: string, value: Value)
    ensures forall s :: s != section ==> Lookup(Nest(groups, section, name, value), s) == Lookup(groups, s)
  {
  }

  /** The store adds the section last when it is new, and keeps the keys
      distinct. */
  lemma NestKeys(groups: seq<Entry>, section: string, name: string, value: Value)
    ensures Keys(Nest(groups, section, name, value)) ==
      if section in Keys(groups) then Keys(groups) else Keys(groups) + [section]
    ensures UniqueKeys(groups) ==> UniqueKeys(Nest(groups, section, name, value))
  {
  }

  lemma {:induction false} NestKeepsNested(groups: seq<Entry>, section: string, name: string, value: Value)
    requires Nested(groups)
    ensures Nested(Nest(groups, section, name, value))
  {
    AssignKeepsObjects(groups, section, Obj(Assign(SectionFields(groups, section), name, value)));
  }

  lemma {:induction false} AssignKeepsObjects(entries: seq<Entry>, key: string, value: Value)
    requires Nested(entries) && value.Obj?
    ensures Nested(Assign(entries, key, value))
  {
    if entries != [] && entries[0].key != key {
      AssignKeepsObjects(entries[1..], key, value);
    }
  }

  /** The two statements of the loop body, run on nested groups, are `Nest`:
      first the section's dict is created when missing, then the name is
      stored in the section's dict. */
  lemma NestInPlace(groups: seq<Entry>, section: string, name: string, value: Value)
    requires Nested(groups)
    ensures var g1 := if section in Keys(groups) then groups else Assign(groups, section, Obj([]));
      && Lookup(g1, section).Some? && Lookup(g1, section).value.Obj?
      && Assign(g1, section, Obj(Assign(Lookup(g1, section).value.fields, name, value))) == Nest(groups, section, name, value)
  {
    if section in Keys(groups) {
      var i :| 0 <= i < |groups| && groups[i] == Entry(section, Lookup(groups, section).value);
      assert groups[i].value.Obj?;
      var fs := Lookup(groups, section).value.fields;
      assert Nest(groups, section, name, value) == Assign(groups, section, Obj(Assign(fs, name, value)));
    } else {
      var g1 := Assign(groups, section, Obj([]));
      assert Lookup(g1, section) == Some(Obj([]));
      assert Nest(groups, section, name, value) == Assign(groups, section, Obj(Assign([], name, value)));
      AssignTwice(groups, section, Obj([]), Obj(Assign([], name, value)));
    }
  }

  /** Storing into a section that is not there yet appends it, holding the
      one name. */
  lemma NestNewSection(groups: seq<Entry>, section: string, name: string, value: Value)
    requires section !in Keys(groups)
    ensures Nest(groups, section, name, value) == groups + [Entry(section, Obj([Entry(name, value)]))]
  {
    assert Assign([], name, value) == [Entry(name, value)];
    AssignNew(groups, section, Obj([Entry(name, value)]));
  }

  /** Storing a new name into the section stored last appends the name to
      that section. */
  lemma NestLastSection(groups: seq<Entry>, section: string, inner: seq<Entry>, name: string, value: Value)
    requires section !in Keys(groups) && name !in Keys(inner)
    ensures Nest(groups + [Entry(section, Obj(inner))], section, name, value) ==
      groups + [Entry(section, Obj(inner + [Entry(name, value)]))]
  {
    LookupLast(groups, section, Obj(inner));
    AssignNew(inner, name, value);
    AssignLast(groups, section, Obj(inner), Obj(inner + [Entry(name, value)]));
  }

  /** One iteration of the loop, after the earlier ones. */
  function Step(acc: Result<seq<Entry>>, field: FormField, classify: string -> Slot): Result<seq<Entry>> {
    match acc
    case Err(m) => Err(m)
    case Ok(g) =>
      match classify(field.key)
      case Skip => Ok(g)
      case Fail(m) => Err(m)
      case Place(s, n) => Ok(Nest(g, s, n, Str(field.value)))
  }

  /** The loop over `fields`, starting from the groups `init`. */
  function GroupFrom(init: seq<Entry>, fields: seq<FormField>, classify: string -> Slot): Result<seq<Entry>> {
    if fields == [] then Ok(init)
    else Step(GroupFrom(init, fields[..|fields| - 1], classify), fields[|fields| - 1], classify)
  }

  /** The loop over `fields`, starting from `{}`. */
  function Group(fields: seq<FormField>, classify: string -> Slot): Result<seq<Entry>> {
    GroupFrom([], fields, classify)
  }

  /** The value of the last field stored at `[section][name]`. */
  function LastPlaced(fields: seq<FormField>, classify: string -> Slot, section: string, name: string): Option<Value> {
    if fields == [] then None
    else if classify(fields[|fields| - 1].key) == Place(section, name) then Some(Str(fields[|fields| - 1].value))
    else LastPlaced(fields[..|fields| - 1], classify, section, name)
  }

  /** Some field stores into `section`. */
  predicate SectionUsed(fields: seq<FormField>, classify: string -> Slot, section: string) {
    && fields != []
    && ((classify(fields[|fields| - 1].key).Place? && classify(fields[|fields| - 1].key).section == section)
        || SectionUsed(fields[..|fields| - 1], classify, section))
  }

  /** The message of the first field whose key raises. */
  function FirstFail(fields: seq<FormField>, classify: string -> Slot): (r: Option<string>)
    ensures r.None? <==> forall i :: 0 <= i < |fields| ==> !classify(fields[i].key).Fail?
    ensures r.Some? ==>
      exists i :: 0 <= i < |fields| && classify(fields[i].key) == Fail(r.value) && (forall j :: 0 <= j < i ==> !classify(fields[j].key).Fail?)
  {
    if fields == [] then None
    else
      var front := fields[..|fields| - 1];
      var r := FirstFail(front, classify);
      assert forall i :: 0 <= i < |front| ==> front[i] == fields[i];
      if r.Some? then r
      else match classify(fields[|fields| - 1].key)
        case Fail(m) => Some(m)
        case _ => None
  }

  /** The loop raises exactly when some key raises, and then with the first
      such key's exception. */
  lemma {:induction false} GroupFails(fields: seq<FormField>, classify: string -> Slot)
    ensures Group(fields, classify).Err? <==> FirstFail(fields, classify).Some?
    ensures Group(fields, classify).Err? ==> Group(fields, classify).message == FirstFail(fields, classify).value
  {
    if fields != [] {
      var front := fields[..|fields| - 1];
      GroupFails(front, classify);
    }
  }

  /** When the loop completes, every `[section][name]` holds the value of the
      last field stored there, and the groups are dicts of dicts with
      distinct keys. */
  lemma {:induction false} GroupStores(fields: seq<FormField>, classify: string -> Slot)
    requires Group(fields, classify).Ok?
    ensures UniqueKeys(Group(fields, classify).value) && Nested(Group(fields, classify).value)
    ensures forall s, n :: Lookup2(Group(fields, classify).value, s, n) == LastPlaced(fields, classify, s, n)
  {
    if fields != [] {
      var n := |fields| - 1;
      var front := fields[..n];
      var last := fields[n];
      var acc := Group(front, classify);
      assert Group(fields, classify) == Step(acc, last, classify);
      GroupStores(front, classify);
      var g := acc.value;
      if classify(last.key).Place? {
        var sec, nm := classify(last.key).section, classify(last.key).name;
        var g' := Nest(g, sec, nm, Str(last.value));
        assert Group(fields, classify) == Ok(g');
        NestKeepsNested(g, sec, nm, Str(last.value));
        NestKeys(g, sec, nm, Str(last.value));
        forall s, k ensures Lookup2(g', s, k) == LastPlaced(fields, classify, s, k) {
          PlacedLast(fields, classify, g, sec, nm, s, k);
        }
      } else {
        assert Group(fields, classify) == Ok(g);
        assert forall s, k :: LastPlaced(fields, classify, s, k) == LastPlaced(front, classify, s, k);
      }
    }
  }

  /** A placed last field overrides its own slot and leaves every other slot
      as the fields before it made it. */
  lemma PlacedLast(fields: seq<FormField>, classify: string -> Slot, g: seq<Entry>, sec: string, nm: string, s: string, k: string)
    requires fields != [] && classify(fields[|fields| - 1].key) == Place(sec, nm)
    requires Lookup2(g, s, k) == LastPlaced(fields[..|fields| - 1], classify, s, k)
    ensures Lookup2(Nest(g, sec, nm, Str(fields[|fields| - 1].value)), s, k) == LastPlaced(fields, classify, s, k)
  {
    var v := Str(fields[|fields| - 1].value);
    LastPlacedStep(fields, classify, s, k);
    if s != sec {
      NestOtherSection(g, sec, nm, v, s);
    } else {
      NestKeepsNames(g, sec, nm, v);
    }
  }

  /** The store leaves every other section as it was. */
  lemma NestOtherSection(groups: seq<Entry>, section: string, name: string, value: Value, s: string)
    requires s != section
    ensures SectionFields(Nest(groups, section, name, value), s) == SectionFields(groups, s)
  {
    NestKeepsSections(groups, section, name, value);
  }

  /** The last field decides a slot it is placed at; otherwise the fields
      before it do. */
  lemma LastPlacedStep(fields: seq<FormField>, classify: string -> Slot, s: string, k: string)
    requires fields != []
    ensures var last := fields[|fields| - 1];
      LastPlaced(fields, classify, s, k) ==
        if classify(last.key) == Place(s, k) then Some(Str(last.value)) else LastPlaced(fields[..|fields| - 1], classify, s, k)
  {
  }

  /** When the loop completes, it holds a section for exactly the sections
      some field stores into. */
  lemma {:induction false} GroupSections(fields: seq<FormField>, classify: string -> Slot)
    requires Group(fields, classify).Ok?
    ensures forall s :: s in Keys(Group(fields, classify).value) <==> SectionUsed(fields, classify, s)
  {
    if fields != [] {
      var n := |fields| - 1;
      var front := fields[..n];
      var last := fields[n];
      var acc := Group(front, classify);
      assert Group(fields, classify) == Step(acc, last, classify);
      GroupSections(front, classify);
      var slot := classify(last.key);
      if slot.Place? {
        var g := acc.value;
        var v := Str(last.value);
        var ks := Keys(Nest(g, slot.section, slot.name, v));
        NestKeys(g, slot.section, slot.name, v);
        assert ks == if slot.section in Keys(g) then Keys(g) else Keys(g) + [slot.section];
        assert forall s :: s in ks <==> s in Keys(g) || s == slot.section;
      }
    }
  }

  /** One more field runs one more step. */
  lemma GroupStep(fields: seq<FormField>, classify: string -> Slot, i: nat)
    requires i < |fields|
    ensures Group(fields[..i + 1], classify) == Step(Group(fields[..i], classify), fields[i], classify)
  {
    assert fields[..i + 1][..i] == fields[..i];
  }

  /** A last field that is placed nests its value into the groups before it. */
  lemma GroupPlacesLast(init: seq<Entry>, fields: seq<FormField>, classify: string -> Slot,
                        before: seq<Entry>, section: string, name: string)
    requires fields != [] && GroupFrom(init, fields[..|fields| - 1], classify) == Ok(before)
    requires classify(fields[|fields| - 1].key) == Place(section, name)
    ensures GroupFrom(init, fields, classify) == Ok(Nest(before, section, name, Str(fields[|fields| - 1].value)))
  {
  }

  /** Once the loop has raised, the rest of the fields are not looked at. */
  lemma {:induction false} GroupStopsAt(fields: seq<FormField>, classify: string -> Slot, i: nat)
    requires i <= |fields| && Group(fields[..i], classify).Err?
    ensures Group(fields, classify) == Group(fields[..i], classify)
    decreases |fields| - i
  {
    if i < |fields| {
      GroupStep(fields, classify, i);
      GroupStopsAt(fields, classify, i + 1);
    } else {
      assert fields[..i] == fields;
    }
  }

  /** Running the loop over two lists one after the other is running it over
      their concatenation. */
  lemma {:induction false} GroupAppend(init: seq<Entry>, a: seq<FormField>, b: seq<FormField>, classify: string -> Slot)
    ensures GroupFrom(init, a + b, classify) ==
      match GroupFrom(init, a, classify)
      case Err(m) => Err(m)
      case Ok(g) => GroupFrom(g, b, classify)
  {
    if b == [] {
      assert a + b == a;
    } else {
      var n := |b| - 1;
      GroupAppend(init, a, b[..n], classify);
      assert (a + b)[..|a + b| - 1] == a + b[..n];
      assert (a + b)[|a + b| - 1] == b[n];
      if GroupFrom(init, a, classify).Err? {
        assert GroupFrom(init, a + b[..n], classify).Err?;
      }
    }
  }
}
