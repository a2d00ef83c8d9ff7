/**
 * The column codec shared by both backends: renaming of column labels
 * that are empty or all digits, and derivation of the `[type, role]` pair
 * written for every column, from the caller's `rm_metadata` annotation
 * or, failing that, from the column's storage kind.
 */
module Connector {
  import opened Wrappers
  import opened Text

  /**
   * The Python values that occur as column labels and as annotations:
   * strings, None, numbers and booleans (`Atom`, kept as the text `str`
   * gives them), dictionaries (`Dict`, kept as their text), lists,
   * tuples, and objects whose `__str__` and `__repr__` both raise
   * (`Unprintable`).
   */
  datatype Value =
    | Str(s: string)
    | Null
    | Atom(text: string)
    | Dict(text: string)
    | List(items: seq<Value>)
    | Tuple(items: seq<Value>)
    | Unprintable

  /** Python `repr(v)`, or None where it raises; string quoting is simplified to single quotes. */
  function Repr(v: Value): Option<string>
    decreases v, 1
  {
    match v
    case Str(s) => Some("'" + s + "'")
    case Null => Some("None")
    case Atom(t) => Some(t)
    case Dict(t) => Some(t)
    case List(items) =>
      var r := ReprItems(v, items);
      if r.Some? then Some("[" + r.value + "]") else None
    case Tuple(items) =>
      var r := ReprItems(v, items);
      if r.Some? then Some("(" + r.value + (if |items| == 1 then ",)" else ")")) else None
    case Unprintable => None
  }

  /** The comma-separated reprs of the elements of a list or tuple `parent`. */
  function ReprItems(ghost parent: Value, items: seq<Value>): Option<string>
    requires forall x :: x in items ==> x < parent
    decreases parent, 0, |items|
  {
    if items == [] then Some("")
    else
      assert items[0] in items;
      assert forall x :: x in items[1..] ==> x in items;
      var h := Repr(items[0]);
      var t := ReprItems(parent, items[1..]);
      if h.Some? && t.Some? then Some(h.value + (if |items| > 1 then ", " else "") + t.value) else None
  }

  /** Python `str(v)`, or None where it raises. */
  function PyStr(v: Value): Option<string> {
    if v.Str? then Some(v.s) else Repr(v)
  }

  /** `_can_convert_to_str`: whether `str(v)` returns rather than raises. */
  predicate CanConvertToStr(v: Value) {
    PyStr(v).Some?
  }

  /** Whether an object whose `__str__` and `__repr__` raise occurs anywhere inside `v`. */
  predicate HasUnprintable(v: Value)
    decreases v
  {
    match v
    case Unprintable => true
    case List(items) => exists i :: 0 <= i < |items| && HasUnprintable(items[i])
    case Tuple(items) => exists i :: 0 <= i < |items| && HasUnprintable(items[i])
    case _ => false
  }

  lemma {:induction false} ReprItemsDefined(parent: Value, items: seq<Value>)
    requires forall x :: x in items ==> x < parent
    ensures ReprItems(parent, items).Some? <==> forall i :: 0 <= i < |items| ==> !HasUnprintable(items[i])
    decreases parent, 0, |items|
  {
    if items != [] {
      assert items[0] in items;
      assert forall x :: x in items[1..] ==> x in items;
      ReprDefined(items[0]);
      ReprItemsDefined(parent, items[1..]);
      assert forall i :: 1 <= i < |items| ==> items[i] == items[1..][i - 1];
    }
  }

  lemma {:induction false} ReprDefined(v: Value)
    ensures Repr(v).Some? <==> !HasUnprintable(v)
    decreases v, 1
  {
    match v
    case List(items) => ReprItemsDefined(v, items);
    case Tuple(items) => ReprItemsDefined(v, items);
    case _ =>
  }

  /** `str()` fails exactly on values that contain an object whose `__str__` and `__repr__` raise. */
  lemma ConvertibleUnlessUnprintable(v: Value)
    ensures CanConvertToStr(v) <==> !HasUnprintable(v)
  {
    ReprDefined(v);
  }

  // ---------------------------------------------------------------------
  // Column renaming (`_rename_invalid_columns`)
  // ---------------------------------------------------------------------

  /** A label whose text is empty or consists of digits only. */
  predicate IsInvalidName(v: Value) {
    PyStr(v).Some? && (PyStr(v).value == [] || IsDigitString(PyStr(v).value))
  }

  /** The new label of one column once renaming takes place. */
  function RenamedLabel(v: Value): Value
    requires CanConvertToStr(v)
  {
    if IsInvalidName(v) then Str("att" + PyStr(v).value) else Str(PyStr(v).value)
  }

  /**
   * `_rename_invalid_columns`: when some label is invalid, every label is
   * replaced by its text, with `att` put before the invalid ones; this
   * raises if some label cannot be converted to text. When no label is
   * invalid, the labels come back as they are.
   */
  function RenameInvalidColumns(columns: seq<Value>): (r: Result<seq<Value>>)
    ensures r.Ok? ==> |r.value| == |columns|
    ensures r.Err? <==>
      (exists i :: 0 <= i < |columns| && IsInvalidName(columns[i])) &&
      (exists i :: 0 <= i < |columns| && !CanConvertToStr(columns[i]))
    ensures (forall i :: 0 <= i < |columns| ==> !IsInvalidName(columns[i])) ==> r == Ok(columns)
    ensures r.Ok? ==> forall i :: 0 <= i < |r.value| ==> !IsInvalidName(r.value[i])
  {
    if exists i :: 0 <= i < |columns| && IsInvalidName(columns[i]) then
      if exists i :: 0 <= i < |columns| && !CanConvertToStr(columns[i]) then
        Err("str() raised on a column label")
      else
        var renamed := seq(|columns|, i requires 0 <= i < |columns| => RenamedLabel(columns[i]));
        assert forall i :: 0 <= i < |renamed| ==> !IsInvalidName(renamed[i]) by {
          forall i | 0 <= i < |renamed| ensures !IsInvalidName(renamed[i]) {
            var t := PyStr(renamed[i]).value;
            assert t != [];
            if IsInvalidName(columns[i]) {
              assert t[0] == 'a';
            }
          }
        }
        Ok(renamed)
    else Ok(columns)
  }

  /**
   * Each position of a renamed list depends only on the label at that
   * position: an invalid label `x` becomes `"att" + str(x)`, any other
   * label becomes `str(x)`.
   */
  lemma RenamePointwise(columns: seq<Value>, i: int)
    requires RenameInvalidColumns(columns).Ok?
    requires exists j :: 0 <= j < |columns| && IsInvalidName(columns[j])
    requires 0 <= i < |columns|
    ensures CanConvertToStr(columns[i])
    ensures RenameInvalidColumns(columns).value[i] ==
      Str((if IsInvalidName(columns[i]) then "att" else "") + PyStr(columns[i]).value)
  {
  }

  /** Renaming twice is renaming once. */
  lemma RenameIdempotent(columns: seq<Value>)
    requires RenameInvalidColumns(columns).Ok?
    ensures RenameInvalidColumns(RenameInvalidColumns(columns).value) == RenameInvalidColumns(columns)
  {
  }

  // ---------------------------------------------------------------------
  // Data frames and the `rm_metadata` annotation
  // ---------------------------------------------------------------------

  /**
   * The `rm_metadata` attribute of a frame: not set at all, set to
   * something that is not a dictionary (`NotDict(Null)` is `None`), or a
   * dictionary from column label to annotation. A dictionary is always
   * `Annotations`: `NotDict(Dict(_))`, which would raise on every label,
   * does not occur.
   */
  datatype RmMetadata = Unset | NotDict(v: Value) | Annotations(entries: map<Value, Value>)

  /**
   * A pandas DataFrame, reduced to what the codec looks at: the column
   * labels, each column's dtype kind character, and `rm_metadata`.
   */
  class DataFrame {
    var labels: seq<Value>
    var kinds: seq<char>
    var rmMetadata: RmMetadata

    predicate Valid()
      reads this
    {
      |labels| == |kinds|
    }

    constructor (labels: seq<Value>, kinds: seq<char>, rmMetadata: RmMetadata)
      requires |labels| == |kinds|
      ensures Valid()
      ensures this.labels == labels && this.kinds == kinds && this.rmMetadata == rmMetadata
    {
      this.labels := labels;
      this.kinds := kinds;
      this.rmMetadata := rmMetadata;
    }
  }

  /** `_copy_dataframe`: a new frame with the same columns that keeps `rm_metadata`. */
  method CopyDataFrame(df: DataFrame) returns (copy: DataFrame)
    requires df.Valid()
    ensures fresh(copy) && copy.Valid()
    ensures copy.labels == df.labels && copy.kinds == df.kinds && copy.rmMetadata == df.rmMetadata
  {
    copy := new DataFrame(df.labels, df.kinds, df.rmMetadata);
  }

  // ---------------------------------------------------------------------
  // Metadata derivation (`_write_metadata`)
  // ---------------------------------------------------------------------

  /** The `[type, role]` pair written for one column. */
  datatype ColumnMeta = ColumnMeta(typ: Value, role: Value)

  /** The type `str(meta)` gives, or None where `str` raises. */
  function TextOf(meta: Value): Value {
    var t := PyStr(meta);
    if t.Some? then Str(t.value) else Null
  }

  /**
   * The partial `(type, role)` read from an annotation that is not a
   * tuple of two: the first and second element of a tuple or list where
   * they exist, `str(meta)` as the type of anything else. Indexing a
   * tuple that is too short raises, which discards both.
   */
  function Fallback(meta: Value): (Value, Value) {
    if meta.Tuple? then
      if |meta.items| >= 2 then (meta.items[0], meta.items[1]) else (Null, Null)
    else if meta.List? then
      (if |meta.items| > 0 then meta.items[0] else TextOf(meta),
       if |meta.items| > 1 then meta.items[1] else Null)
    else (TextOf(meta), Null)
  }

  /**
   * The integer Python takes a label for when it subscripts a sequence:
   * an integer label (kept as the text `str` gives it) or a boolean;
   * None for any other label.
   */
  function IntegerLabel(name: Value): (r: Option<int>)
    ensures r.Some? <==>
      (name.Atom? && (name.text == "True" || name.text == "False" ||
        (ParseInt(name.text).Some? && IntText(ParseInt(name.text).value) == name.text)))
    ensures name == Atom("True") ==> r == Some(1)
    ensures name == Atom("False") ==> r == Some(0)
  {
    if !name.Atom? then None
    else if name.text == "True" then Some(1)
    else if name.text == "False" then Some(0)
    else
      var p := ParseInt(name.text);
      if p.Some? && IntText(p.value) == name.text then p else None
  }

  /**
   * Python's `v[name]` on an `rm_metadata` that is not a dictionary: a
   * list or tuple, subscripted by an integer label, gives its element,
   * counting from the end for a negative label; a string gives its
   * character. Every other subscript raises.
   */
  function Subscript(v: Value, name: Value): (r: Option<Value>)
    ensures r.Some? <==>
      (IntegerLabel(name).Some? && (v.List? || v.Tuple? || v.Str?) &&
       -(Length(v) as int) <= IntegerLabel(name).value < Length(v))
    ensures (v.List? || v.Tuple?) && IntegerLabel(name).Some? && 0 <= IntegerLabel(name).value < |v.items| ==>
      r == Some(v.items[IntegerLabel(name).value])
    ensures (v.List? || v.Tuple?) && IntegerLabel(name).Some? && -|v.items| <= IntegerLabel(name).value < 0 ==>
      r == Some(v.items[|v.items| + IntegerLabel(name).value])
  {
    var k := IntegerLabel(name);
    if k.None? || !(v.List? || v.Tuple? || v.Str?) || !(-(Length(v) as int) <= k.value < Length(v)) then None
    else
      var j := if k.value < 0 then Length(v) + k.value else k.value;
      if v.Str? then Some(Str([v.s[j]])) else Some(v.items[j])
  }

  /** An integer label subscripts a sequence at the integer `str` wrote for it. */
  lemma IntegerLabelOfInt(i: int)
    ensures IntegerLabel(Atom(IntText(i))) == Some(i)
  {
    ParseIntText(i, "");
    assert IntText(i) + "" == IntText(i);
  }

  /** The length of a list, tuple or string. */
  function Length(v: Value): nat
    requires v.List? || v.Tuple? || v.Str?
  {
    if v.Str? then |v.s| else |v.items|
  }

  /**
   * The `(meta_type, meta_role)` pair the annotation ladder yields for
   * the column `name`, with `Null` for Python's None. A dictionary is
   * looked up by key: a tuple of two is used as it stands; any other
   * value goes through the fallback, except that a value that is not
   * None under a label that is not a string makes the warning text
   * raise. Anything else that is not a dictionary is subscripted by the
   * label and its value always goes through the fallback, with no
   * warning. Every exception inside the ladder (no `rm_metadata`, a
   * missing key, a subscript that raises, a short tuple, the warning
   * text) yields `(Null, Null)`.
   */
  function Annotation(rm: RmMetadata, name: Value): (Value, Value) {
    match rm
    case Annotations(m) =>
      if name !in m then (Null, Null)
      else
        var meta := m[name];
        if meta.Tuple? && |meta.items| == 2 then (meta.items[0], meta.items[1])
        else if meta != Null && !name.Str? then (Null, Null)
        else Fallback(meta)
    case NotDict(v) =>
      var meta := Subscript(v, name);
      if meta.Some? then Fallback(meta.value) else (Null, Null)
    case Unset => (Null, Null)
  }

  /** The type inferred from a numpy dtype kind character. */
  function InferType(kind: char): string {
    if kind == 'i' || kind == 'u' then "integer"
    else if kind == 'f' then "real"
    else if kind == 'M' then "date_time"
    else if kind == 'b' then "binominal"
    else "polynomial"
  }

  /** The entry written for column `name` of storage kind `kind`. */
  function ColumnEntry(rm: RmMetadata, name: Value, kind: char): ColumnMeta {
    var (t, r) := Annotation(rm, name);
    ColumnMeta(if t == Null then Str(InferType(kind)) else t,
               if r == Null then Str("attribute") else r)
  }

  /** The type of a column is read from its annotation rather than inferred. */
  predicate Annotated(rm: RmMetadata, name: Value) {
    Annotation(rm, name).0 != Null
  }

  /** The number of columns labelled `x`. */
  function Occurrences(labels: seq<Value>, x: Value): nat {
    if labels == [] then 0
    else (if labels[0] == x then 1 else 0) + Occurrences(labels[1..], x)
  }

  lemma {:induction false} OccurrencesPositive(labels: seq<Value>, i: int)
    requires 0 <= i < |labels|
    ensures Occurrences(labels, labels[i]) >= 1
  {
    if i > 0 {
      OccurrencesPositive(labels[1..], i - 1);
    }
  }

  lemma {:induction false} OccurrencesTwo(labels: seq<Value>, i: int, j: int)
    requires 0 <= i < j < |labels| && labels[i] == labels[j]
    ensures Occurrences(labels, labels[i]) >= 2
  {
    if i > 0 {
      OccurrencesTwo(labels[1..], i - 1, j - 1);
    } else {
      OccurrencesPositive(labels[1..], j - 1);
    }
  }

  /**
   * `_write_metadata` fails (outside its own exception handler) when a
   * column whose type must be inferred shares its label with another
   * column: pandas then returns several dtypes for that label.
   */
  predicate MetadataFails(labels: seq<Value>, rm: RmMetadata) {
    !KindsResolvable(labels, rm, |labels|)
  }

  /** Every one of the first `n` columns is annotated or has a label of its own. */
  predicate KindsResolvable(labels: seq<Value>, rm: RmMetadata, n: int)
    requires 0 <= n <= |labels|
  {
    forall j :: 0 <= j < n ==> Annotated(rm, labels[j]) || Occurrences(labels, labels[j]) == 1
  }

  lemma FailsAt(labels: seq<Value>, rm: RmMetadata, i: int)
    requires 0 <= i < |labels|
    requires !Annotated(rm, labels[i]) && Occurrences(labels, labels[i]) != 1
    ensures MetadataFails(labels, rm)
  {
  }

  lemma {:induction false} KindsResolvableStep(labels: seq<Value>, rm: RmMetadata, n: int)
    requires 0 <= n < |labels|
    ensures KindsResolvable(labels, rm, n + 1) <==>
      KindsResolvable(labels, rm, n) && (Annotated(rm, labels[n]) || Occurrences(labels, labels[n]) == 1)
  {
  }

  /**
   * `_write_metadata`: one `[type, role]` entry per column label, each
   * the result of the annotation ladder for that column.
   */
  method WriteMetadata(df: DataFrame) returns (r: Result<map<Value, ColumnMeta>>)
    requires df.Valid()
    ensures r.Err? <==> MetadataFails(df.labels, df.rmMetadata)
    ensures r.Ok? ==> forall l :: l in r.value <==> l in df.labels
    ensures r.Ok? ==> forall i :: 0 <= i < |df.labels| ==>
      r.value[df.labels[i]] == ColumnEntry(df.rmMetadata, df.labels[i], df.kinds[i])
  {
    var labels, kinds, rm := df.labels, df.kinds, df.rmMetadata;
    var metadata: map<Value, ColumnMeta> := map[];
    var i := 0;
    while i < |labels|
      invariant 0 <= i <= |labels|
      invariant forall l :: l in metadata <==> l in labels[..i]
      invariant forall j :: 0 <= j < i ==> metadata[labels[j]] == ColumnEntry(rm, labels[j], kinds[j])
      invariant KindsResolvable(labels, rm, i)
    {
      var name := labels[i];
      KindsResolvableStep(labels, rm, i);
      if !Annotated(rm, name) && Occurrences(labels, name) != 1 {
        FailsAt(labels, rm, i);
        return Err("the dtype of a duplicated column label has no kind");
      }
      MetadataStep(labels, kinds, rm, metadata, i);
      metadata := metadata[name := ColumnEntry(rm, name, kinds[i])];
      i := i + 1;
    }
    assert labels[..i] == labels;
    r := Ok(metadata);
  }

  /** Entering column `i` keeps the entries of the columns before it. */
  lemma MetadataStep(labels: seq<Value>, kinds: seq<char>, rm: RmMetadata, metadata: map<Value, ColumnMeta>, i: int)
    requires |labels| == |kinds| && 0 <= i < |labels|
    requires KindsResolvable(labels, rm, i + 1)
    requires forall l :: l in metadata <==> l in labels[..i]
    requires forall j :: 0 <= j < i ==> metadata[labels[j]] == ColumnEntry(rm, labels[j], kinds[j])
    ensures var next := metadata[labels[i] := ColumnEntry(rm, labels[i], kinds[i])];
      && (forall l :: l in next <==> l in labels[..i + 1])
      && (forall j :: 0 <= j < i + 1 ==> next[labels[j]] == ColumnEntry(rm, labels[j], kinds[j]))
  {
    SameLabelSameEntry(labels, kinds, rm, i);
    assert labels[..i + 1] == labels[..i] + [labels[i]];
  }

  /**
   * Two columns with the same label get the same entry unless the type of
   * that label must be inferred, in which case the label is unique.
   */
  lemma SameLabelSameEntry(labels: seq<Value>, kinds: seq<char>, rm: RmMetadata, i: int)
    requires |labels| == |kinds| && 0 <= i < |labels|
    requires KindsResolvable(labels, rm, i + 1)
    ensures forall j :: 0 <= j < i && labels[j] == labels[i] ==>
      ColumnEntry(rm, labels[j], kinds[j]) == ColumnEntry(rm, labels[i], kinds[i])
  {
    forall j | 0 <= j < i && labels[j] == labels[i]
      ensures ColumnEntry(rm, labels[j], kinds[j]) == ColumnEntry(rm, labels[i], kinds[i])
    {
      OccurrencesTwo(labels, j, i);
    }
  }

  // ---------------------------------------------------------------------
  // Properties of the annotation ladder
  // ---------------------------------------------------------------------

  /** Neither the type nor the role written for a column is ever None. */
  lemma EntryNeverNone(rm: RmMetadata, name: Value, kind: char)
    ensures ColumnEntry(rm, name, kind).typ != Null
    ensures ColumnEntry(rm, name, kind).role != Null
    ensures Annotation(rm, name).1 == Null ==> ColumnEntry(rm, name, kind).role == Str("attribute")
  {
  }

  /** A tuple of two is used as `(type, role)` as it stands. */
  lemma EntryVerbatim(m: map<Value, Value>, name: Value, t: Value, role: Value, kind: char)
    requires name in m && m[name] == Tuple([t, role]) && t != Null && role != Null
    ensures ColumnEntry(Annotations(m), name, kind) == ColumnMeta(t, role)
  {
  }

  /** A list of one element supplies the type only; the role is `attribute`. */
  lemma EntryOneElementList(m: map<Value, Value>, name: Value, t: Value, kind: char)
    requires name.Str? && name in m && m[name] == List([t]) && t != Null
    ensures ColumnEntry(Annotations(m), name, kind) == ColumnMeta(t, Str("attribute"))
  {
  }

  /**
   * No `rm_metadata`, a subscript of a non-dictionary that raises, a
   * missing key, or a tuple shorter than two: the type is inferred and
   * the role is `attribute`.
   */
  lemma EntryInferred(rm: RmMetadata, name: Value, kind: char)
    requires || rm.Unset?
             || (rm.NotDict? && Subscript(rm.v, name).None?)
             || (rm.Annotations? && name !in rm.entries)
             || (rm.Annotations? && name in rm.entries && rm.entries[name].Tuple? && |rm.entries[name].items| < 2)
    ensures ColumnEntry(rm, name, kind) == ColumnMeta(Str(InferType(kind)), Str("attribute"))
  {
  }

  /**
   * An `rm_metadata` that is a list or tuple, subscripted by an integer
   * label `i` within its bounds, annotates the column with its element
   * `i` (counted from the end when `i` is negative): a tuple of two gives
   * the type and the role, whatever the label's type.
   */
  lemma EntryIndexed(items: seq<Value>, asTuple: bool, i: int, t: Value, role: Value, kind: char)
    requires -|items| <= i < |items|
    requires items[if i < 0 then |items| + i else i] == Tuple([t, role]) && t != Null && role != Null
    ensures var rm := NotDict(if asTuple then Tuple(items) else List(items));
      ColumnEntry(rm, Atom(IntText(i)), kind) == ColumnMeta(t, role)
  {
    IntegerLabelOfInt(i);
  }

  /**
   * Two columns labelled `-1` with `rm_metadata = [("real", "id")]`: the
   * list is subscripted by the label, both columns are annotated, and
   * no dtype lookup takes place, so the duplicate label does no harm.
   */
  lemma IndexedDuplicateLabels()
    ensures var rm := NotDict(List([Tuple([Str("real"), Str("id")])]));
      && !MetadataFails([Atom("-1"), Atom("-1")], rm)
      && ColumnEntry(rm, Atom("-1"), 'f') == ColumnMeta(Str("real"), Str("id"))
  {
    IntegerLabelOfInt(-1);
    assert IntText(-1) == "-1";
  }

  /** A value that is neither tuple nor list gives `str(value)` as the type; so None gives "None". */
  lemma EntryScalar(m: map<Value, Value>, name: Value, kind: char)
    requires name.Str? && name in m
    requires !m[name].Tuple? && !m[name].List? && CanConvertToStr(m[name])
    ensures ColumnEntry(Annotations(m), name, kind) == ColumnMeta(Str(PyStr(m[name]).value), Str("attribute"))
    ensures m[name] == Null ==> ColumnEntry(Annotations(m), name, kind).typ == Str("None")
  {
  }

  /** The type inferred from each dtype kind. */
  lemma InferredTypes()
    ensures InferType('i') == "integer" && InferType('u') == "integer"
    ensures InferType('f') == "real"
    ensures InferType('M') == "date_time"
    ensures InferType('b') == "binominal"
    ensures forall k :: k !in "iufMb" ==> InferType(k) == "polynomial"
  {
  }
}
