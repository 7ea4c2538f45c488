/** Parsed TOML/JSON documents as Python holds them: objects are dicts, which
    keep their keys in insertion order, so an object here is an association
    list. Floating-point numbers and dates are not part of this model. */
module Json {
  import opened Wrappers
  import opened PyStr

  datatype Value =
    | Null
    | Bool(b: bool)
    | Int(i: int)
    | Str(s: string)
    | Arr(items: seq<Value>)
    | Obj(fields: seq<Entry>)

  datatype Entry = Entry(key: string, value: Value)

  /** The keys of an object, in order. */
  function Keys(entries: seq<Entry>): (ks: seq<string>)
    ensures |ks| == |entries|
    ensures forall i :: 0 <= i < |entries| ==> ks[i] == entries[i].key
  {
    if entries == [] then [] else [entries[0].key] + Keys(entries[1..])
  }

  /** A Python dict never holds a key twice. */
  predicate UniqueKeys(entries: seq<Entry>) {
    forall i, j :: 0 <= i < j < |entries| ==> entries[i].key != entries[j].key
  }

  /** `d.get(key)` */
  function Lookup(entries: seq<Entry>, key: string): (r: Option<Value>)
    ensures r.Some? <==> key in Keys(entries)
    ensures r.Some? ==> Entry(key, r.value) in entries
  {
    if entries == [] then None
    else if entries[0].key == key then Some(entries[0].value)
    else Lookup(entries[1..], key)
  }

  /** `d[key] = value`: a key already present keeps its place and gets the new
      value; a new key goes last. Every other key keeps its value. */
  function Assign(entries: seq<Entry>, key: string, value: Value): (r: seq<Entry>)
    ensures Keys(r) == if key in Keys(entries) then Keys(entries) else Keys(entries) + [key]
    ensures Lookup(r, key) == Some(value)
    ensures forall k :: k != key ==> Lookup(r, k) == Lookup(entries, k)
    ensures UniqueKeys(entries) ==> UniqueKeys(r)
  {
    if entries == [] then [Entry(key, value)]
    else
      var first, tail := entries[0], entries[1..];
      assert entries == [first] + tail;
      if first.key == key then
        AssignHere(first, tail, value);
        [Entry(key, value)] + tail
      else
        var rest := Assign(tail, key, value);
        AssignPastKeys(first, tail, key, rest);
        AssignPastLookup(first, tail, key, value, rest);
        AssignPastUnique(first, tail, key, rest);
        [first] + rest
  }

  /** The first entry holds the key: it gets the new value in place. */
  lemma AssignHere(first: Entry, tail: seq<Entry>, value: Value)
    ensures var r := [Entry(first.key, value)] + tail;
      && Keys(r) == Keys([first] + tail) && first.key in Keys([first] + tail)
      && Lookup(r, first.key) == Some(value)
      && (forall k :: k != first.key ==> Lookup(r, k) == Lookup([first] + tail, k))
      && (UniqueKeys([first] + tail) ==> UniqueKeys(r))
  {
    var r := [Entry(first.key, value)] + tail;
    assert r[1..] == tail && ([first] + tail)[1..] == tail;
    UniqueCons(first, tail);
    UniqueCons(Entry(first.key, value), tail);
  }

  /** The first entry holds another key: the keys after the assignment. */
  lemma AssignPastKeys(first: Entry, tail: seq<Entry>, key: string, rest: seq<Entry>)
    requires first.key != key
    requires Keys(rest) == if key in Keys(tail) then Keys(tail) else Keys(tail) + [key]
    ensures var entries := [first] + tail;
      Keys([first] + rest) == if key in Keys(entries) then Keys(entries) else Keys(entries) + [key]
  {
    var entries := [first] + tail;
    assert Keys(entries) == [first.key] + Keys(tail);
    assert Keys([first] + rest) == [first.key] + Keys(rest);
    assert (key in Keys(entries)) == (key in Keys(tail));
    ConsSnoc(first.key, Keys(tail), key);
  }

  /** The first entry holds another key: lookups after the assignment. */
  lemma AssignPastLookup(first: Entry, tail: seq<Entry>, key: string, value: Value, rest: seq<Entry>)
    requires first.key != key
    requires Lookup(rest, key) == Some(value)
    requires forall k :: k != key ==> Lookup(rest, k) == Lookup(tail, k)
    ensures Lookup([first] + rest, key) == Some(value)
    ensures forall k :: k != key ==> Lookup([first] + rest, k) == Lookup([first] + tail, k)
  {
    assert ([first] + rest)[1..] == rest && ([first] + tail)[1..] == tail;
  }

  /** The first entry holds another key: distinct keys stay distinct. */
  lemma AssignPastUnique(first: Entry, tail: seq<Entry>, key: string, rest: seq<Entry>)
    requires first.key != key
    requires Keys(rest) == if key in Keys(tail) then Keys(tail) else Keys(tail) + [key]
    requires UniqueKeys(tail) ==> UniqueKeys(rest)
    ensures UniqueKeys([first] + tail) ==> UniqueKeys([first] + rest)
  {
    UniqueCons(first, tail);
    UniqueCons(first, rest);
    assert first.key in Keys(rest) ==> first.key in Keys(tail);
  }

  lemma ConsSnoc<T>(a: T, b: seq<T>, c: T)
    ensures [a] + (b + [c]) == ([a] + b) + [c]
  {
  }

  lemma ConsAppend<T>(a: T, b: seq<T>, c: seq<T>)
    ensures [a] + (b + c) == ([a] + b) + c
  {
  }

  /** A dict with one more entry in front keeps distinct keys exactly when
      the new key is not among the others. */
  lemma UniqueCons(e: Entry, rest: seq<Entry>)
    ensures UniqueKeys([e] + rest) <==> UniqueKeys(rest) && e.key !in Keys(rest)
  {
    if UniqueKeys([e] + rest) {
      UniqueConsSplit(e, rest);
    }
    if UniqueKeys(rest) && e.key !in Keys(rest) {
      UniqueConsJoin(e, rest);
    }
  }

  lemma UniqueConsSplit(e: Entry, rest: seq<Entry>)
    requires UniqueKeys([e] + rest)
    ensures UniqueKeys(rest) && e.key !in Keys(rest)
  {
    UniqueTail(e, rest);
    UniqueHead(e, rest);
  }

  lemma UniqueTail(e: Entry, rest: seq<Entry>)
    requires UniqueKeys([e] + rest)
    ensures UniqueKeys(rest)
  {
    var full := [e] + rest;
    forall i, j | 0 <= i < j < |rest| ensures rest[i].key != rest[j].key {
      assert full[i + 1] == rest[i] && full[j + 1] == rest[j];
    }
  }

  lemma UniqueHead(e: Entry, rest: seq<Entry>)
    requires UniqueKeys([e] + rest)
    ensures e.key !in Keys(rest)
  {
    var full := [e] + rest;
    var ks := Keys(rest);
    forall i | 0 <= i < |ks| ensures ks[i] != e.key {
      assert full[0] == e && full[i + 1] == rest[i];
    }
  }

  lemma UniqueConsJoin(e: Entry, rest: seq<Entry>)
    requires UniqueKeys(rest) && e.key !in Keys(rest)
    ensures UniqueKeys([e] + rest)
  {
    var full := [e] + rest;
    forall i, j | 0 <= i < j < |full| ensures full[i].key != full[j].key {
      assert full[j] == rest[j - 1];
      if i > 0 {
        assert full[i] == rest[i - 1];
      } else {
        assert Keys(rest)[j - 1] == rest[j - 1].key;
      }
    }
  }

  /** Lookup finds the entry at any position of a dict. */
  lemma {:induction false} LookupAt(entries: seq<Entry>, i: nat)
    requires UniqueKeys(entries) && i < |entries|
    ensures Lookup(entries, entries[i].key) == Some(entries[i].value)
  {
    if i > 0 {
      LookupAt(entries[1..], i - 1);
    }
  }

  /** A key in the second slot of a dict is found there, and assigning it
      replaces that entry alone. */
  lemma AssignSecond(first: Entry, key: string, old_: Value, rest: seq<Entry>, value: Value)
    requires first.key != key
    ensures Lookup([first, Entry(key, old_)] + rest, key) == Some(old_)
    ensures Assign([first, Entry(key, old_)] + rest, key, value) == [first, Entry(key, value)] + rest
  {
    var second := [Entry(key, old_)] + rest;
    assert [first, Entry(key, old_)] + rest == [first] + second;
    assert [first, Entry(key, value)] + rest == [first] + ([Entry(key, value)] + rest);
    AssignHead(Entry(key, old_), rest, value);
    AssignPast(first, second, key, value);
  }

  /** Assigning the first key of a dict replaces that first entry. */
  lemma AssignHead(e: Entry, tail: seq<Entry>, value: Value)
    ensures Lookup([e] + tail, e.key) == Some(e.value)
    ensures Assign([e] + tail, e.key, value) == [Entry(e.key, value)] + tail
  {
    assert ([e] + tail)[0] == e && ([e] + tail)[1..] == tail;
  }

  /** Past a first entry that holds another key, lookup and assignment go on
      in the rest of the dict. */
  lemma AssignPast(first: Entry, tail: seq<Entry>, key: string, value: Value)
    requires first.key != key
    ensures Lookup([first] + tail, key) == Lookup(tail, key)
    ensures Assign([first] + tail, key, value) == [first] + Assign(tail, key, value)
  {
    assert ([first] + tail)[0] == first && ([first] + tail)[1..] == tail;
  }

  /** A dict of two entries with distinct keys. */
  lemma PairLookups(a: Entry, b: Entry)
    requires a.key != b.key
    ensures UniqueKeys([a, b])
    ensures Lookup([a, b], a.key) == Some(a.value) && Lookup([a, b], b.key) == Some(b.value)
  {
    assert [a, b][1..] == [b];
  }

  /** A dict of three entries with distinct keys. */
  lemma TripleLookups(a: Entry, b: Entry, c: Entry)
    requires a.key != b.key && a.key != c.key && b.key != c.key
    ensures UniqueKeys([a, b, c])
    ensures Lookup([a, b, c], a.key) == Some(a.value)
    ensures Lookup([a, b, c], b.key) == Some(b.value)
    ensures Lookup([a, b, c], c.key) == Some(c.value)
  {
    assert [a, b, c][1..] == [b, c];
    PairLookups(b, c);
  }

  /** Assigning the last key of a dict replaces that last entry. */
  lemma {:induction false} AssignLast(entries: seq<Entry>, key: string, old_: Value, value: Value)
    requires key !in Keys(entries)
    ensures Assign(entries + [Entry(key, old_)], key, value) == entries + [Entry(key, value)]
  {
    var full := entries + [Entry(key, old_)];
    if entries == [] {
      assert full == [Entry(key, old_)];
    } else {
      var first, tail := entries[0], entries[1..];
      assert entries == [first] + tail;
      assert Keys(entries) == [first.key] + Keys(tail);
      ConsAppend(first, tail, [Entry(key, old_)]);
      AssignPast(first, tail + [Entry(key, old_)], key, value);
      AssignLast(tail, key, old_, value);
      ConsAppend(first, tail, [Entry(key, value)]);
    }
  }

  lemma {:induction false} KeysAppend(a: seq<Entry>, b: seq<Entry>)
    ensures Keys(a + b) == Keys(a) + Keys(b)
  {
    var ks := Keys(a + b);
    assert |ks| == |Keys(a) + Keys(b)|;
    forall i | 0 <= i < |ks| ensures ks[i] == (Keys(a) + Keys(b))[i] {
      if i >= |a| { assert (a + b)[i] == b[i - |a|]; }
    }
  }

  /** Looking up the key of an entry appended to a dict that lacked it. */
  lemma {:induction false} LookupLast(entries: seq<Entry>, key: string, value: Value)
    requires key !in Keys(entries)
    ensures Lookup(entries + [Entry(key, value)], key) == Some(value)
  {
    var full := entries + [Entry(key, value)];
    if entries != [] {
      assert Keys(entries)[0] == entries[0].key;
      assert Keys(entries)[1..] == Keys(entries[1..]);
      assert full[1..] == entries[1..] + [Entry(key, value)];
      LookupLast(entries[1..], key, value);
    } else {
      assert full == [Entry(key, value)];
    }
  }

  /** Assigning a new key appends one entry. */
  lemma {:induction false} AssignNew(entries: seq<Entry>, key: string, value: Value)
    requires key !in Keys(entries)
    ensures Assign(entries, key, value) == entries + [Entry(key, value)]
  {
    if entries != [] {
      var first, tail := entries[0], entries[1..];
      assert entries == [first] + tail;
      assert Keys(entries) == [first.key] + Keys(tail);
      AssignNew(tail, key, value);
      ConsAppend(first, tail, [Entry(key, value)]);
    }
  }

  /** A second assignment to the same key overrides the first. */
  lemma {:induction false} AssignTwice(entries: seq<Entry>, key: string, first: Value, second: Value)
    ensures Assign(Assign(entries, key, first), key, second) == Assign(entries, key, second)
  {
    if entries != [] && entries[0].key != key {
      AssignTwice(entries[1..], key, first, second);
    }
  }

  /** A dict shared by reference: whoever holds it sees an update in place.
      Values inside it are held by value. */
  class Document {
    var sections: seq<Entry>

    constructor (sections: seq<Entry>)
      ensures this.sections == sections
    {
      this.sections := sections;
    }

    /** `d[key] = value`, also `d.update({key: value})`. */
    method Put(key: string, value: Value)
      modifies this
      ensures sections == Assign(old(sections), key, value)
    {
      sections := Assign(sections, key, value);
    }
  }

  /** What `tomli_w` can write: anything but the JSON null, anywhere inside. */
  predicate TomlWritable(v: Value)
    decreases v
  {
    match v
    case Null => false
    case Arr(xs) => forall k :: 0 <= k < |xs| ==> TomlWritable(xs[k])
    case Obj(fs) => forall k :: 0 <= k < |fs| ==> TomlWritable(fs[k].value)
    case _ => true
  }

  /** Python's type names, as they appear in TypeError messages. */
  function TypeName(v: Value): string {
    match v
    case Null => "NoneType"
    case Bool(_) => "bool"
    case Int(_) => "int"
    case Str(_) => "str"
    case Arr(_) => "list"
    case Obj(_) => "dict"
  }

  /** `str(v)`. Strings inside containers are quoted with `'` and not escaped,
      a simplification of Python's `repr`. */
  function Show(v: Value): string {
    match v
    case Str(s) => s
    case _ => Repr(v)
  }

  function Repr(v: Value): string
    decreases v
  {
    match v
    case Null => "None"
    case Bool(b) => if b then "True" else "False"
    case Int(i) => IntToString(i)
    case Str(s) => "'" + s + "'"
    case Arr(xs) => "[" + Join(seq(|xs|, k requires 0 <= k < |xs| => Repr(xs[k])), ", ") + "]"
    case Obj(fs) =>
      "{" + Join(seq(|fs|, k requires 0 <= k < |fs| => "'" + fs[k].key + "': " + Repr(fs[k].value)), ", ") + "}"
  }

  /** What `for x in v` yields: a list's items, a dict's keys, a string's
      characters; None when iterating raises TypeError. */
  function Iterate(v: Value): (r: Option<seq<Value>>)
    ensures r.None? <==> !(v.Arr? || v.Obj? || v.Str?)
    ensures v.Arr? ==> r == Some(v.items)
    ensures v.Obj? ==> |r.value| == |v.fields| && forall k :: 0 <= k < |v.fields| ==> r.value[k] == Str(v.fields[k].key)
    ensures v.Str? ==> |r.value| == |v.s| && forall k :: 0 <= k < |v.s| ==> r.value[k] == Str([v.s[k]])
  {
    match v
    case Arr(xs) => Some(xs)
    case Obj(fs) => Some(seq(|fs|, k requires 0 <= k < |fs| => Str(fs[k].key)))
    case Str(s) => Some(seq(|s|, k requires 0 <= k < |s| => Str([s[k]])))
    case _ => None
  }

  /** The message of the TypeError that `for x in v` raises. */
  function NotIterable(v: Value): string {
    "'" + TypeName(v) + "' object is not iterable"
  }

  /** `needle in v`: key membership for a dict, element equality for a list,
      a substring test for a string; None when it raises TypeError. */
  function In(needle: string, v: Value): (r: Option<bool>)
    ensures r.None? <==> !(v.Arr? || v.Obj? || v.Str?)
    ensures v.Obj? ==> r == Some(needle in Keys(v.fields))
  {
    match v
    case Obj(fs) => Some(needle in Keys(fs))
    case Arr(xs) => Some(Str(needle) in xs)
    case Str(s) => Some(Occurs(needle, s))
    case _ => None
  }
}
