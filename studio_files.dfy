/**
 * How the local backend exchanges objects with the batch launcher
 * through files: what an object is written as (chosen by probing its
 * capabilities), how a result file is read back (chosen by its
 * extension), and how the `.pmd` metadata beside a CSV file is decoded.
 */
module StudioFiles {
  import opened Wrappers
  import opened Text
  import opened Paths
  import opened Connector

  const CSV_SUFFIX := ".csv"
  const MD_SUFFIX := ".pmd"
  const FILE_OBJECT_SUFFIX := ".fo"
  const PICKLE_SUFFIX := ".bin"

  // ---------------------------------------------------------------------
  // Writing (`__serialize_to_file`)
  // ---------------------------------------------------------------------

  /**
   * An object handed to the backend: a data frame, or anything else,
   * described by whether it has an `encoding` and a `read` attribute and
   * whether writing it in the form those choose gets through: copying a
   * stream raises on a failing read, pickling raises on an object that
   * cannot be pickled.
   */
  datatype Payload = Frame(df: DataFrame) | Object(hasEncoding: bool, hasRead: bool, writable: bool)

  /** The four forms an object is written in. */
  datatype Written = CsvWithMetadata | TextStream | ByteStream | Pickled

  /**
   * The form the capability probe arrives at: a frame is written as CSV;
   * copying into a text file needs both `encoding` and `read`, copying
   * into a binary file needs `read`; the rest is pickled.
   */
  function WrittenAs(p: Payload): (w: Written)
    ensures p.Frame? <==> w == CsvWithMetadata
    ensures w == TextStream <==> p.Object? && p.hasEncoding && p.hasRead
    ensures w == ByteStream <==> p.Object? && !p.hasEncoding && p.hasRead
    ensures w == Pickled <==> p.Object? && !p.hasRead
  {
    match p
    case Frame(_) => CsvWithMetadata
    case Object(enc, read, _) => if read && enc then TextStream else if read then ByteStream else Pickled
  }

  function SuffixOf(w: Written): (x: string)
    ensures IsSuffix(x)
  {
    match w
    case CsvWithMetadata => CSV_SUFFIX
    case TextStream => FILE_OBJECT_SUFFIX
    case ByteStream => FILE_OBJECT_SUFFIX
    case Pickled => PICKLE_SUFFIX
  }

  /** What `__serialize_dataframe` writes: the CSV header (the renamed labels) and the `.pmd` entries. */
  datatype Serialized = Serialized(header: seq<Value>, metadata: map<Value, ColumnMeta>)

  /** Whether writing the frame gets through: renaming does not raise, and neither does the metadata derivation. */
  predicate FrameWritable(df: DataFrame)
    reads df
  {
    var renamed := RenameInvalidColumns(df.labels);
    renamed.Ok? && !MetadataFails(renamed.value, df.rmMetadata)
  }

  /**
   * `__serialize_dataframe`: the labels are renamed on a copy which
   * keeps `rm_metadata`, so the caller's frame is left as it was (the
   * method may modify no existing object); the metadata is derived from
   * the renamed copy.
   */
  method SerializeDataFrame(df: DataFrame) returns (r: Result<Serialized>)
    requires df.Valid()
    ensures r.Ok? <==> FrameWritable(df)
    ensures r.Ok? ==> r.value.header == RenameInvalidColumns(df.labels).value
    ensures r.Ok? ==> forall l :: l in r.value.metadata <==> l in r.value.header
    ensures r.Ok? ==> forall i :: 0 <= i < |r.value.header| ==>
      r.value.metadata[r.value.header[i]] == ColumnEntry(df.rmMetadata, r.value.header[i], df.kinds[i])
  {
    var copy := CopyDataFrame(df);
    var renamed := RenameInvalidColumns(copy.labels);
    if renamed.Err? {
      return Err(renamed.msg);
    }
    copy.labels := renamed.value;
    var md := WriteMetadata(copy);
    if md.Err? {
      return Err(md.msg);
    }
    r := Ok(Serialized(renamed.value, md.value));
  }

  /** A label that had to be renamed is looked up in `rm_metadata` under its new name. */
  lemma RenamedLabelLosesAnnotation(df: DataFrame, i: int)
    requires df.Valid() && 0 <= i < |df.labels| && FrameWritable(df)
    requires IsInvalidName(df.labels[i])
    requires df.rmMetadata.Annotations? && RenameInvalidColumns(df.labels).value[i] !in df.rmMetadata.entries
    ensures ColumnEntry(df.rmMetadata, RenameInvalidColumns(df.labels).value[i], df.kinds[i])
      == ColumnMeta(Str(InferType(df.kinds[i])), Str("attribute"))
  {
  }

  /** Whether writing the object gets through: a frame as `FrameWritable` says, anything else as its flag says. */
  predicate Writable(p: Payload)
    reads if p.Frame? then {p.df} else {}
  {
    if p.Frame? then FrameWritable(p.df) else p.writable
  }

  /**
   * `__serialize_to_file`: the path of the file written, the base name
   * with the suffix of the form chosen; the call raises when the frame
   * cannot be written, or when copying or pickling another object raises.
   */
  method SerializeToFile(p: Payload, basename: string) returns (r: Result<string>)
    requires p.Frame? ==> p.df.Valid()
    ensures r.Ok? ==> r.value == basename + SuffixOf(WrittenAs(p))
    ensures r.Err? <==> (p.Frame? && !FrameWritable(p.df)) || (p.Object? && !p.writable)
  {
    match p
    case Frame(df) =>
      var s := SerializeDataFrame(df);
      if s.Err? {
        return Err(s.msg);
      }
      r := Ok(basename + CSV_SUFFIX);
    case Object(_, _, writable) =>
      if !writable {
        return Err(if p.hasRead then "copying the stream raised" else "pickle.dump raised");
      }
      r := Ok(basename + SuffixOf(WrittenAs(p)));
  }

  // ---------------------------------------------------------------------
  // Reading (`__deserialize_from_file`)
  // ---------------------------------------------------------------------

  /**
   * How a result file is read: a CSV file together with its metadata
   * file, an unpickled object, or the file's bytes in memory.
   */
  datatype Reader = ReadFrame(csv: string, pmd: string) | Unpickle(path: string) | ReadBytes(path: string)

  /** `__deserialize_from_file`: the reader chosen by the extension `splitext` finds. */
  function DeserializeFromFile(filename: string): (r: Result<Reader>)
    ensures var (root, ext) := SplitExt(filename);
      && (ext == CSV_SUFFIX <==> r == Ok(ReadFrame(filename, root + MD_SUFFIX)))
      && (ext == PICKLE_SUFFIX <==> r == Ok(Unpickle(filename)))
      && (ext == FILE_OBJECT_SUFFIX <==> r == Ok(ReadBytes(filename)))
      && (r.Err? ==> r.msg == "Cannot handle files with '" + ext + "' extension.")
  {
    var (root, ext) := SplitExt(filename);
    if ext == CSV_SUFFIX then Ok(ReadFrame(filename, root + MD_SUFFIX))
    else if ext == PICKLE_SUFFIX then Ok(Unpickle(filename))
    else if ext == FILE_OBJECT_SUFFIX then Ok(ReadBytes(filename))
    else Err("Cannot handle files with '" + ext + "' extension.")
  }

  /**
   * What was written under a base name is read back by the matching
   * reader: a frame from the CSV file and the metadata file beside it, a
   * pickle by unpickling, and a file-like object, text or binary, as bytes.
   */
  lemma DeserializeSerialized(p: Payload, basename: string)
    requires |basename| > 0 && basename[|basename| - 1] != '/' && basename[|basename| - 1] != '.'
    ensures var r := DeserializeFromFile(basename + SuffixOf(WrittenAs(p)));
      && (p.Frame? ==> r == Ok(ReadFrame(basename + CSV_SUFFIX, basename + MD_SUFFIX)))
      && (WrittenAs(p) == Pickled ==> r == Ok(Unpickle(basename + PICKLE_SUFFIX)))
      && (WrittenAs(p) in {TextStream, ByteStream} ==> r == Ok(ReadBytes(basename + FILE_OBJECT_SUFFIX)))
  {
    SplitExtOfSuffixed(basename, SuffixOf(WrittenAs(p)));
  }

  /** A file without an extension is refused. */
  lemma DeserializeNoExtension(filename: string)
    requires SplitExt(filename).1 == ""
    ensures DeserializeFromFile(filename) == Err("Cannot handle files with '' extension.")
  {
  }

  // ---------------------------------------------------------------------
  // Metadata decoding (`__deserialize_dataframe_from_file`)
  // ---------------------------------------------------------------------

  /** Python's `v[k]` on a parsed JSON value, for a literal index `k`: an element of a list, a character of a string; anything else raises. */
  function Index(v: Value, k: nat): (r: Option<Value>)
    ensures (v.List? || v.Tuple?) && k < |v.items| ==> r == Some(v.items[k])
    ensures r.None? <==> !((v.List? || v.Tuple?) && k < |v.items|) && !(v.Str? && k < |v.s|)
  {
    if (v.List? || v.Tuple?) && k < |v.items| then Some(v.items[k])
    else if v.Str? && k < |v.s| then Some(Str([v.s[k]]))
    else None
  }

  /** Whether `v in date_set` can be evaluated: lists and dictionaries are unhashable. */
  predicate Hashable(v: Value) {
    !v.List? && !v.Dict?
  }

  predicate IsDateType(v: Value) {
    v == Str("date") || v == Str("time") || v == Str("date_time")
  }

  /**
   * The `(type, role)` tuple stored for one `.pmd` entry, with a role of
   * `"attribute"` turned into None; None when indexing the entry or the
   * date-type test raises.
   */
  function DecodeEntry(v: Value): (r: Option<Value>)
    ensures r.Some? <==> Index(v, 0).Some? && Index(v, 1).Some? && Hashable(Index(v, 0).value)
    ensures r.Some? ==> r.value.Tuple? && |r.value.items| == 2 && r.value.items[0] == Index(v, 0).value
    ensures r.Some? ==> r.value.items[1] == if Index(v, 1).value == Str("attribute") then Null else Index(v, 1).value
  {
    var v0, v1 := Index(v, 0), Index(v, 1);
    if v0.None? || v1.None? || !Hashable(v0.value) then None
    else Some(Tuple([v0.value, if v1.value == Str("attribute") then Null else v1.value]))
  }

  /** The decoded `.pmd` map so far and the date columns collected so far. */
  datatype Decoded = Decoded(metaDict: map<Value, Value>, dateColumns: seq<string>)

  /** The result of decoding the given `.pmd` entries in order, or None when one of them raises. */
  function DecodeEntries(items: seq<(string, Value)>): Option<Decoded>
    decreases |items|
  {
    if items == [] then Some(Decoded(map[], []))
    else
      var prev := DecodeEntries(items[..|items| - 1]);
      var (key, value) := items[|items| - 1];
      var e := DecodeEntry(value);
      if prev.None? || e.None? then None
      else Some(Decoded(prev.value.metaDict[Str(key) := e.value],
                        prev.value.dateColumns + (if IsDateType(e.value.items[0]) then [key] else [])))
  }

  /** A data frame as read from a CSV file: the columns parsed as dates, and the `rm_metadata` set on it. */
  datatype FrameRead = FrameRead(parseDates: seq<string>, rmMetadata: RmMetadata)

  /**
   * The outcome of reading a frame: with decodable metadata and a dated
   * read that succeeds, the decoded map and its date columns; any failure
   * before that falls back to a plain read with `rm_metadata` None, which
   * itself may fail.
   */
  function FrameOutcome(pmd: Option<seq<(string, Value)>>, datedReadOk: bool, plainReadOk: bool): Result<FrameRead> {
    var d := if pmd.Some? then DecodeEntries(pmd.value) else None;
    if d.Some? && datedReadOk then Ok(FrameRead(d.value.dateColumns, Annotations(d.value.metaDict)))
    else if plainReadOk then Ok(FrameRead([], NotDict(Null)))
    else Err("the CSV file could not be read")
  }

  /**
   * `__deserialize_dataframe_from_file`. `pmd` is the parsed metadata
   * file as key/value pairs in file order, None when it is missing, not
   * JSON or not an object; `datedReadOk` says whether reading the CSV
   * with the date columns succeeds (with or without
   * `infer_datetime_format`), `plainReadOk` whether the plain fallback
   * read does.
   */
  method DeserializeDataFrame(pmd: Option<seq<(string, Value)>>, datedReadOk: bool, plainReadOk: bool)
    returns (r: Result<FrameRead>)
    ensures r == FrameOutcome(pmd, datedReadOk, plainReadOk)
  {
    var decoded := false;
    var metaDict: map<Value, Value> := map[];
    var dateColumns: seq<string> := [];
    if pmd.Some? {
      var items := pmd.value;
      var i := 0;
      decoded := true;
      while i < |items|
        invariant 0 <= i <= |items|
        invariant DecodeEntries(items[..i]) == Some(Decoded(metaDict, dateColumns))
      {
        var key, value := items[i].0, items[i].1;
        var e := DecodeEntry(value);
        if e.None? {
          decoded := false;
          break;
        }
        DecodeStep(items, i);
        metaDict := metaDict[Str(key) := e.value];
        if IsDateType(e.value.items[0]) {
          dateColumns := dateColumns + [key];
        } else {
          assert dateColumns + [] == dateColumns;
        }
        i := i + 1;
      }
      if decoded {
        assert items[..i] == items;
      } else {
        DecodeFailsOnward(items, i);
      }
    }
    if decoded && datedReadOk {
      r := Ok(FrameRead(dateColumns, Annotations(metaDict)));
    } else if plainReadOk {
      r := Ok(FrameRead([], NotDict(Null)));
    } else {
      r := Err("the CSV file could not be read");
    }
  }

  /** Decoding one more entry extends the map and the date columns decoded so far. */
  lemma DecodeStep(items: seq<(string, Value)>, i: int)
    requires 0 <= i < |items|
    ensures var prev := DecodeEntries(items[..i]);
      var e := DecodeEntry(items[i].1);
      DecodeEntries(items[..i + 1]) ==
        if prev.None? || e.None? then None
        else Some(Decoded(prev.value.metaDict[Str(items[i].0) := e.value],
                          prev.value.dateColumns + (if IsDateType(e.value.items[0]) then [items[i].0] else [])))
  {
    assert items[..i + 1][..i] == items[..i] && items[..i + 1][i] == items[i];
  }

  /** Once an entry cannot be decoded, no longer prefix decodes. */
  lemma {:induction false} DecodeFailsOnward(items: seq<(string, Value)>, i: int)
    requires 0 <= i < |items| && DecodeEntry(items[i].1).None?
    ensures DecodeEntries(items).None?
    decreases |items|
  {
    if i < |items| - 1 {
      assert items[..|items| - 1][i] == items[i];
      DecodeFailsOnward(items[..|items| - 1], i);
    }
  }

  /** The date columns are exactly the keys whose stored type is a date type. */
  lemma {:induction false} DecodedDates(items: seq<(string, Value)>, k: string)
    requires DecodeEntries(items).Some?
    ensures k in DecodeEntries(items).value.dateColumns <==>
      exists i :: 0 <= i < |items| && items[i].0 == k && Index(items[i].1, 0).Some? && IsDateType(Index(items[i].1, 0).value)
    decreases |items|
  {
    if items != [] {
      var init := items[..|items| - 1];
      DecodedDates(init, k);
      assert forall i :: 0 <= i < |init| ==> init[i] == items[i];
      if exists i :: 0 <= i < |items| && items[i].0 == k && Index(items[i].1, 0).Some? && IsDateType(Index(items[i].1, 0).value) {
        var i :| 0 <= i < |items| && items[i].0 == k && Index(items[i].1, 0).Some? && IsDateType(Index(items[i].1, 0).value);
        if i < |init| {
          assert init[i] == items[i];
        }
      }
    }
  }

  /** Every decoded key is stored as a `(type, role)` pair whose role is never `"attribute"`. */
  lemma {:induction false} DecodedPairs(items: seq<(string, Value)>)
    requires DecodeEntries(items).Some?
    ensures var m := DecodeEntries(items).value.metaDict;
      forall key :: key in m ==> m[key].Tuple? && |m[key].items| == 2 && m[key].items[1] != Str("attribute")
    ensures forall i :: 0 <= i < |items| ==> Str(items[i].0) in DecodeEntries(items).value.metaDict
    decreases |items|
  {
    if items != [] {
      var init := items[..|items| - 1];
      DecodedPairs(init);
      assert forall i :: 0 <= i < |init| ==> init[i] == items[i];
    }
  }

  // ---------------------------------------------------------------------
  // The metadata round trip
  // ---------------------------------------------------------------------

  /**
   * The `.pmd` entries for a header and its derived metadata, as
   * `json.dump` writes the metadata map: the label as key and
   * `[type, role]` as a list.
   */
  function EncodePmd(header: seq<Value>, md: map<Value, ColumnMeta>): (pmd: seq<(string, Value)>)
    requires forall i :: 0 <= i < |header| ==> header[i].Str? && header[i] in md
    ensures |pmd| == |header|
    ensures forall i :: 0 <= i < |header| ==>
      pmd[i] == (header[i].s, List([md[header[i]].typ, md[header[i]].role]))
  {
    seq(|header|, i requires 0 <= i < |header| => (header[i].s, List([md[header[i]].typ, md[header[i]].role])))
  }

  /** The condition for the round trip: string labels, each with string type and role. */
  predicate TextualMetadata(header: seq<Value>, md: map<Value, ColumnMeta>) {
    forall i :: 0 <= i < |header| ==>
      header[i].Str? && header[i] in md && md[header[i]].typ.Str? && md[header[i]].role.Str?
  }

  lemma {:induction false} DecodeEncoded(header: seq<Value>, md: map<Value, ColumnMeta>)
    requires TextualMetadata(header, md)
    ensures DecodeEntries(EncodePmd(header, md)).Some?
    ensures var m := DecodeEntries(EncodePmd(header, md)).value.metaDict;
      forall i :: 0 <= i < |header| ==>
        (header[i] in m &&
         m[header[i]] == Tuple([md[header[i]].typ, if md[header[i]].role == Str("attribute") then Null else md[header[i]].role]))
    decreases |header|
  {
    if header != [] {
      var init := header[..|header| - 1];
      var pmd := EncodePmd(header, md);
      assert EncodePmd(init, md) == pmd[..|pmd| - 1];
      DecodeEncoded(init, md);
    }
  }

  /**
   * Metadata that is written with a frame and read back with it yields,
   * when written again, the same `[type, role]` entry for every column,
   * whatever the column's storage kind.
   */
  lemma MetadataRoundTrip(header: seq<Value>, md: map<Value, ColumnMeta>, kinds: seq<char>)
    requires TextualMetadata(header, md) && |kinds| == |header|
    ensures var d := DecodeEntries(EncodePmd(header, md));
      && d.Some?
      && forall i :: 0 <= i < |header| ==>
           ColumnEntry(Annotations(d.value.metaDict), header[i], kinds[i]) == md[header[i]]
  {
    DecodeEncoded(header, md);
  }

  // ---------------------------------------------------------------------
  // Choosing result files
  // ---------------------------------------------------------------------

  /** The files that are not metadata files, in their order. */
  function WithoutMetadataFiles(files: seq<string>): seq<string>
  {
    if files == [] then []
    else
      var rest := WithoutMetadataFiles(files[1..]);
      if EndsWith(files[0], MD_SUFFIX) then rest else [files[0]] + rest
  }

  /** Exactly the files that do not end in `.pmd` are kept, and none is added. */
  lemma {:induction false} WithoutMetadataFilesMembers(files: seq<string>)
    ensures forall x :: x in WithoutMetadataFiles(files) <==> x in files && !EndsWith(x, MD_SUFFIX)
    ensures |WithoutMetadataFiles(files)| <= |files|
  {
    if files != [] {
      WithoutMetadataFilesMembers(files[1..]);
      assert files == [files[0]] + files[1..];
    }
  }

  /** Leaving out the metadata files keeps a sorted listing sorted. */
  lemma {:induction false} WithoutMetadataFilesSorted(files: seq<string>)
    requires Sorted(files)
    ensures Sorted(WithoutMetadataFiles(files))
    ensures |WithoutMetadataFiles(files)| > 0 ==> LexLeq(files[0], WithoutMetadataFiles(files)[0])
    decreases |files|
  {
    if files != [] {
      var rest := WithoutMetadataFiles(files[1..]);
      assert Sorted(files[1..]);
      WithoutMetadataFilesSorted(files[1..]);
      if |rest| > 0 {
        assert LexLeq(files[0], files[1]);
        LexTrans(files[0], files[1], rest[0]);
      }
      LexRefl(files[0]);
    }
  }

  /** The files ending in `.csv`. */
  function CsvFiles(listing: seq<string>): (r: seq<string>)
    ensures forall x :: x in r <==> x in listing && EndsWith(x, CSV_SUFFIX)
  {
    if listing == [] then []
    else (if EndsWith(listing[0], CSV_SUFFIX) then [listing[0]] else []) + CsvFiles(listing[1..])
  }

  /**
   * The file `read_resource` takes from an output directory: its only CSV
   * file, otherwise the first file listed; an empty directory raises.
   */
  function PickOutputFile(listing: seq<string>): (r: Result<string>)
    ensures r.Err? <==> listing == []
    ensures r.Ok? ==> r.value in listing
    ensures |CsvFiles(listing)| == 1 ==> r == Ok(CsvFiles(listing)[0])
    ensures |CsvFiles(listing)| != 1 && listing != [] ==> r == Ok(listing[0])
  {
    var csv := CsvFiles(listing);
    if |csv| == 1 then
      assert csv[0] in csv;
      Ok(csv[0])
    else if listing != [] then Ok(listing[0])
    else Err("list index out of range")
  }

  /** Leaving out metadata files distributes over concatenation. */
  lemma {:induction false} WithoutMetadataFilesAppend(a: seq<string>, b: seq<string>)
    ensures WithoutMetadataFiles(a + b) == WithoutMetadataFiles(a) + WithoutMetadataFiles(b)
    decreases |a|
  {
    if a == [] {
      assert a + b == b;
    } else {
      assert (a + b)[1..] == a[1..] + b;
      assert (a + b)[0] == a[0];
      WithoutMetadataFilesAppend(a[1..], b);
    }
  }

  /** Reading the given files in order; the first one whose extension has no reader decides the error. */
  function ReadAll(files: seq<string>): Result<seq<Reader>>
    decreases |files|
  {
    if files == [] then Ok([])
    else
      var prev := ReadAll(files[..|files| - 1]);
      var last := DeserializeFromFile(files[|files| - 1]);
      if prev.Err? then prev
      else if last.Err? then Err(last.msg)
      else Ok(prev.value + [last.value])
  }

  /** Reading succeeds exactly when every file has an extension a reader is chosen for. */
  lemma {:induction false} ReadAllOk(files: seq<string>)
    ensures ReadAll(files).Ok? <==> forall k :: 0 <= k < |files| ==> DeserializeFromFile(files[k]).Ok?
    decreases |files|
  {
    if files != [] {
      var init := files[..|files| - 1];
      ReadAllOk(init);
      assert forall k :: 0 <= k < |init| ==> init[k] == files[k];
    }
  }

  /** A successful reading yields one reader per file, in order. */
  lemma {:induction false} ReadAllValues(files: seq<string>)
    requires ReadAll(files).Ok?
    ensures |ReadAll(files).value| == |files|
    ensures forall k :: 0 <= k < |files| ==> Ok(ReadAll(files).value[k]) == DeserializeFromFile(files[k])
    decreases |files|
  {
    if files != [] {
      var init := files[..|files| - 1];
      ReadAllValues(init);
      var prev := ReadAll(init).value;
      var d := DeserializeFromFile(files[|files| - 1]);
      assert ReadAll(files).value == prev + [d.value];
      forall k | 0 <= k < |files| ensures Ok(ReadAll(files).value[k]) == DeserializeFromFile(files[k]) {
        if k < |init| {
          assert init[k] == files[k];
          assert (prev + [d.value])[k] == prev[k];
        }
      }
    }
  }

  /** The file taken from each output directory; the first empty directory decides the error. */
  function PickAll(listings: seq<seq<string>>): Result<seq<string>>
    decreases |listings|
  {
    if listings == [] then Ok([])
    else
      var prev := PickAll(listings[..|listings| - 1]);
      var last := PickOutputFile(listings[|listings| - 1]);
      if prev.Err? then prev
      else if last.Err? then Err(last.msg)
      else Ok(prev.value + [last.value])
  }

  /** Picking more directories succeeds exactly when picking the earlier ones does and the last is not empty. */
  lemma PickAllStep(listings: seq<seq<string>>)
    requires listings != []
    ensures PickAll(listings).Ok? <==> PickAll(listings[..|listings| - 1]).Ok? && listings[|listings| - 1] != []
  {
  }

  /** Picking succeeds exactly when no output directory is empty. */
  lemma {:induction false} PickAllOk(listings: seq<seq<string>>)
    ensures PickAll(listings).Ok? <==> forall k :: 0 <= k < |listings| ==> listings[k] != []
    decreases |listings|
  {
    if listings != [] {
      var init, last := listings[..|listings| - 1], listings[|listings| - 1];
      PickAllOk(init);
      PickAllStep(listings);
      if PickAll(init).Err? {
        var k :| 0 <= k < |init| && init[k] == [];
        assert listings[k] == [];
      } else if last == [] {
        assert listings[|listings| - 1] == [];
      } else {
        forall k | 0 <= k < |listings| ensures listings[k] != [] {
          if k < |init| {
            assert listings[k] == init[k];
          }
        }
      }
    }
  }

  /** A successful picking takes one file from each output directory, in order. */
  lemma {:induction false} PickAllValues(listings: seq<seq<string>>)
    requires PickAll(listings).Ok?
    ensures |PickAll(listings).value| == |listings|
    ensures forall k :: 0 <= k < |listings| ==> Ok(PickAll(listings).value[k]) == PickOutputFile(listings[k])
    decreases |listings|
  {
    if listings != [] {
      var init := listings[..|listings| - 1];
      PickAllValues(init);
      var prev := PickAll(init).value;
      var p := PickOutputFile(listings[|listings| - 1]);
      assert PickAll(listings).value == prev + [p.value];
      forall k | 0 <= k < |listings| ensures Ok(PickAll(listings).value[k]) == PickOutputFile(listings[k]) {
        if k < |init| {
          assert init[k] == listings[k];
          assert (prev + [p.value])[k] == prev[k];
        }
      }
    }
  }

  /** Picking succeeds exactly when no output directory is empty, and then takes one file from each, in order. */
  lemma PickAllMeaning(listings: seq<seq<string>>)
    ensures PickAll(listings).Ok? <==> forall k :: 0 <= k < |listings| ==> listings[k] != []
    ensures PickAll(listings).Ok? ==> |PickAll(listings).value| == |listings|
    ensures PickAll(listings).Ok? ==> forall k :: 0 <= k < |listings| ==> PickAll(listings).value[k] == PickOutputFile(listings[k]).value
  {
    PickAllOk(listings);
    if PickAll(listings).Ok? {
      PickAllValues(listings);
    }
  }

  /** The base name under which `run_process` writes its `k`-th input. */
  function StagedBase(dir: string, k: nat): (b: string)
    ensures |b| > 0 && IsDigit(b[|b| - 1])
  {
    var b := Join(dir, "input" + Decimal(k));
    assert b[|b| - 1] == Decimal(k)[|Decimal(k)| - 1];
    b
  }

  /** Distinct inputs are written under distinct base names, so no input overwrites another. */
  lemma StagedBasesDistinct(dir: string, j: nat, k: nat)
    requires j != k
    ensures StagedBase(dir, j) != StagedBase(dir, k)
  {
    var n := if dir == [] || EndsWith(dir, "/") then |dir| + 5 else |dir| + 6;
    assert StagedBase(dir, j)[n..] == Decimal(j);
    assert StagedBase(dir, k)[n..] == Decimal(k);
    DecimalValue(j);
    DecimalValue(k);
  }

  /** Once reading fails, reading more files does not change the error. */
  lemma {:induction false} ReadAllErrPrefix(a: seq<string>, b: seq<string>)
    requires ReadAll(a).Err?
    ensures ReadAll(a + b) == ReadAll(a)
    decreases |b|
  {
    if b == [] {
      assert a + b == a;
    } else {
      var init := b[..|b| - 1];
      ReadAllErrPrefix(a, init);
      assert (a + b)[..|a + b| - 1] == a + init;
    }
  }

  /** Once picking fails, more directories do not change the error. */
  lemma {:induction false} PickAllErrPrefix(a: seq<seq<string>>, b: seq<seq<string>>)
    requires PickAll(a).Err?
    ensures PickAll(a + b) == PickAll(a)
    decreases |b|
  {
    if b == [] {
      assert a + b == a;
    } else {
      var init := b[..|b| - 1];
      PickAllErrPrefix(a, init);
      assert (a + b)[..|a + b| - 1] == a + init;
    }
  }
}
