# RapidMiner Python connectors — a verified model

This project models the core of the RapidMiner Python package, which lets
Python code exchange data frames with RapidMiner.

The package has two backends. `Studio` drives a local RapidMiner Studio
installation: it starts the batch launcher once per operation, reads the
lines the launcher prints, and exchanges objects with it through files in
temporary directories. `Server` talks to a RapidMiner Server: it stores and
loads data through a web service, submits processes as jobs, polls the job
until it ends, and deletes the temporary repository objects afterwards.
Both share the column codec of the `Connector` base class. This codec
renames unusable column labels and derives a `[type, role]` pair for every
column.

The modules follow the source:

- `Wrappers` (`wrappers.dfy`): `Option`, `Result` and `Outcome`.
- `Text` (`text.dfy`): prefix, suffix and substring tests. Also Python's
  `str` of an integer and Python's `int()` of a text, over ASCII digits and
  whitespace.
- `Paths` (`paths.dfy`): POSIX `os.path.join` and `os.path.splitext`, and
  `list.sort()` on strings, with sortedness and permutation proved.
- `Connector` (`connector.dfy`): Python values used as labels and
  annotations. Also `_can_convert_to_str`, `_rename_invalid_columns`, the
  `DataFrame` class, `_copy_dataframe`, and the `_write_metadata` loop with
  its annotation ladder and dtype inference.
- `StudioLog` (`studio_log.dfy`): the line protocol of the launcher. It
  covers prefix classification and the per-thread exit-code and error-text
  slots. It also covers the decision whether a launch failed.
- `StudioArgs` (`studio_args.dfy`): the launcher command line, covering
  quoting, the order of the flags, and where inputs and outputs sit.
- `StudioFiles` (`studio_files.dfy`):
  - writing objects by capability probing;
  - reading result files by extension;
  - decoding the `.pmd` metadata file;
  - choosing result files.
- `Studio` (`studio.dfy`): the `Studio` class, with its per-thread maps and
  its logger and stream records. It also models `read_resource`,
  `write_resource` and `run_process` with their temporary directories.
- `Server` (`server.dfy`): the `Server` class. Its repository is a set of
  paths, the requests it makes are a sequence of events, and the printed
  lines are a console. It models:
  - temp-folder normalisation;
  - `write_resource`, `read_resource` and `__delete_resource`;
  - `__wait_for_job` and `__format_job_error`;
  - `run_process` with its staging, context, submission, polling, result
    loading and `finally` cleanup.

The Server's answers enter as parameters: HTTP statuses, response contents,
the verdict of `check_for_error`, and the observed job states. So do the
lines the launcher prints, directory listings, fresh temporary names, and
the platform. Each method states its result and its new state as a
function of those parameters. Lemmas about those functions state what the
source promises.

## Model

| member | source | states |
|---|---|---|
| Text.DecimalValue | rapidminer/core/server.py:180 | The digits `str` writes for a natural number denote that number. |
| Text.ParseIntText | rapidminer/core/studio.py:222 | `int()` of the text `str` gives for an integer, followed by any whitespace, returns that integer. |
| Paths.Join | rapidminer/core/studio.py:179 | `os.path.join(a, b)` is `a` followed by `b`, with at most one `/` inserted between them. |
| Paths.SplitExtParts | rapidminer/core/studio.py:441-443 | Root and extension put back together give the path. The extension is empty, or a dot followed by neither a dot nor a slash. |
| Paths.SplitExtOfSuffixed | rapidminer/core/studio.py:441-443 | A base name followed by a suffix such as `.csv`, `.pmd`, `.fo` or `.bin` splits into exactly that base name and that suffix. |
| Paths.Sort | rapidminer/core/studio.py:331 | `list.sort()` yields a sorted permutation of its input. |
| Connector.ConvertibleUnlessUnprintable | rapidminer/core/connector.py:111-124 | `str(value)` succeeds exactly when no object whose `__str__` and `__repr__` both raise occurs anywhere inside the value. |
| Connector.RenameInvalidColumns | rapidminer/core/connector.py:126-138 | Covers success and failure: (1) The result has as many labels as the input. (2) It raises exactly when some label is empty or all digits and some label cannot be converted to text. (3) With no invalid label, the columns come back unchanged. (4) No renamed label is invalid. |
| Connector.RenamePointwise | rapidminer/core/connector.py:136 | When renaming takes place, position `i` holds `"att" + str(x)` for an invalid label `x` and `str(x)` for any other label. |
| Connector.RenameIdempotent | rapidminer/core/connector.py:135-138 | Renaming an already renamed list changes nothing. |
| Connector.CopyDataFrame | rapidminer/core/connector.py:213-223 | The copy is a new frame with the same labels, kinds and `rm_metadata`. |
| Connector.WriteMetadata | rapidminer/core/connector.py:141-203 | Covers success and failure: (1) It fails exactly when a column whose type must be inferred shares its label with another column. (2) Otherwise there is exactly one entry per column label. (3) Each entry is the annotation ladder's `[type, role]` for that column. The ladder looks a label up in a dictionary `rm_metadata` and subscripts any other `rm_metadata` by it. |
| Connector.EntryNeverNone | rapidminer/core/connector.py:188-203 | Neither the type nor the role of an entry is ever None. A missing role becomes `attribute`. |
| Connector.EntryVerbatim | rapidminer/core/connector.py:167-169 | An annotation that is a tuple of two is used as `(type, role)` verbatim. |
| Connector.EntryOneElementList | rapidminer/core/connector.py:173-183 | A one-element list annotation gives the type only, with role `attribute`. |
| Connector.EntryInferred | rapidminer/core/connector.py:184-202 | Any of these gives the inferred type and role `attribute`: no `rm_metadata`, a subscript of a non-dictionary `rm_metadata` that raises, a missing key, or a tuple shorter than two. |
| Connector.Subscript | rapidminer/core/connector.py:167 | `rm_metadata[name]` on a list, tuple or string succeeds exactly when the label is an integer or a boolean within the bounds, counting from the end for a negative label. It gives the element at that position. Any other subscript raises. |
| Connector.EntryIndexed | rapidminer/core/connector.py:167-181 | A list or tuple `rm_metadata` subscripted by an integer label within its bounds annotates the column with that element. A tuple of two there gives the type and the role. |
| Connector.IndexedDuplicateLabels | rapidminer/core/connector.py:167-203 | With two columns labelled `-1` and `rm_metadata = [("real", "id")]`, both columns get `["real", "id"]`, and writing does not fail on the duplicate label. |
| Connector.EntryScalar | rapidminer/core/connector.py:175-179 | A scalar annotation gives `str(value)` as the type, so None gives `"None"`. |
| Connector.InferredTypes | rapidminer/core/connector.py:191-202 | The dtype kinds map as follows: `i` and `u` to `integer`, `f` to `real`, `M` to `date_time`, `b` to `binominal`, and any other kind to `polynomial`. |
| StudioLog.PrefixesExclusive | rapidminer/core/studio.py:191-219 | No line starts with two of the classified prefixes, so the order in which they are tried decides nothing. |
| StudioLog.ScanPrefixed | rapidminer/core/studio.py:191-218 | A prefixed line loses its prefix and gets that prefix's level. Only a first-line error line records its remaining text as error text. |
| StudioLog.ScanExitCode | rapidminer/core/studio.py:219-222 | An `EXIT_CODE=` line keeps its text, gets level -1, and records the integer written after the prefix. |
| StudioLog.ScanExitCodeGarbage | rapidminer/core/studio.py:223-224 | An `EXIT_CODE=` line whose rest does not parse as an integer records exit code 0. |
| StudioLog.ScanUnprefixed | rapidminer/core/studio.py:225-227 | A line with no known prefix is returned unchanged at INFO and records nothing. |
| StudioLog.LastExitCode | rapidminer/core/studio.py:219-224 | The slot holds the code of the last exit-code line. It is empty exactly when no line carries one. |
| StudioLog.LastErrorText | rapidminer/core/studio.py:212-215 | The slot holds the text of the last first-line error line. It is empty exactly when there is none. |
| StudioLog.Decision | rapidminer/core/studio.py:317-321 | Failure exactly when a nonzero exit code was recorded. The message names the recorded error text, or else reports an unknown error. |
| StudioLog.LaunchFailsIff | rapidminer/core/studio.py:307-321 | A launch fails exactly when the last exit-code line it printed carries a code other than 0. |
| StudioArgs.AsResource | rapidminer/core/studio.py:280-290 | A bare path is taken as a repository location, and a resource as itself. |
| StudioArgs.QuoteRoundTrip | rapidminer/core/studio.py:248-252 | A quoted argument gives back its value and its flag letter on either platform. |
| StudioArgs.AnyNeedsTempDir | rapidminer/core/studio.py:260-269 | True exactly when some input, written as text, ends with `.fo`. |
| StudioArgs.ArgsFlags | rapidminer/core/studio.py:276-306 | After the script, the flags are `C`, then `P` if there is a process, one `I` per input and one `O` per output. `D`, `N` and `X` follow if set, then one `M` per macro. Last come `T` if some input needs a temp dir and `B` if a binary is overridden. |
| StudioArgs.UnquoteEach | rapidminer/core/studio.py:283-290 | Every quoted argument of a run of values gives back its value. |
| StudioArgs.ArgsCarryInputs | rapidminer/core/studio.py:283-286 | The arguments right after `-C` and the optional `-P` are the inputs, in order, each quoted with `-I`. |
| StudioArgs.ArgsCarryOutputs | rapidminer/core/studio.py:287-290 | The arguments right after the inputs are the outputs, in order, each quoted with `-O`. |
| StudioFiles.WrittenAs | rapidminer/core/studio.py:372-389 | A frame is written as CSV with metadata. An object with `encoding` and `read` is written as a text stream, and one with `read` only as a byte stream. Anything else is pickled. |
| StudioFiles.SerializeDataFrame | rapidminer/core/studio.py:338-349 | It succeeds exactly when the frame is writable. The header is the renamed labels. The metadata has one entry per header label, derived from the renamed copy, which keeps `rm_metadata`. |
| StudioFiles.RenamedLabelLosesAnnotation | rapidminer/core/studio.py:346-349 | A renamed column is annotated under its new label. Without an entry for that label, its type is inferred. |
| StudioFiles.SerializeToFile | rapidminer/core/studio.py:351-389 | The path written is the base name plus the suffix of the chosen form. It fails exactly for a frame that cannot be written, or for another object whose copying or pickling raises. |
| StudioFiles.DeserializeFromFile | rapidminer/core/studio.py:434-455 | `.csv` is read together with `splitext(base) + ".pmd"`, and `.bin` is unpickled. `.fo` is read as bytes. Any other extension raises with the extension in the message. |
| StudioFiles.DeserializeSerialized | rapidminer/core/studio.py:364-389 | What was written under a base name is read back by the matching reader. |
| StudioFiles.DeserializeNoExtension | rapidminer/core/studio.py:454-455 | A file without extension cannot be read. |
| StudioFiles.DecodeEntry | rapidminer/core/studio.py:413 | An entry decodes to `(type, role)` with role `attribute` turned into None. It fails when the value cannot be indexed twice or the type is unhashable. |
| StudioFiles.DeserializeDataFrame | rapidminer/core/studio.py:400-432 | The metadata loop yields the decoded map and the date columns. Any failure falls back to a plain read with metadata None. |
| StudioFiles.DecodeFailsOnward | rapidminer/core/studio.py:411-416 | One undecodable entry makes the whole metadata unusable. |
| StudioFiles.DecodedDates | rapidminer/core/studio.py:403-416 | A key is a date column exactly when some entry of that key has type `date`, `time` or `date_time`. |
| StudioFiles.DecodedPairs | rapidminer/core/studio.py:411-413 | Every key of the metadata file is in the decoded map. Each decoded value is a `(type, role)` pair whose role is never `attribute`. |
| StudioFiles.MetadataRoundTrip | rapidminer/core/studio.py:411-413 | Metadata written by `_write_metadata` with textual types and roles decodes into a map from which the ladder derives the same entries, whatever the column kinds. |
| StudioFiles.WithoutMetadataFilesMembers | rapidminer/core/studio.py:333-335 | The kept files are exactly the listed files that do not end with `.pmd`. |
| StudioFiles.WithoutMetadataFilesSorted | rapidminer/core/studio.py:330-335 | Skipping metadata files keeps a sorted listing sorted. |
| StudioFiles.PickOutputFile | rapidminer/core/studio.py:113-117 | The only CSV file of a directory is taken, or else the first listed file. An empty directory fails. |
| StudioFiles.ReadAllOk | rapidminer/core/studio.py:118 | Reading all files succeeds exactly when every file has a supported extension (`.csv`, `.bin` or `.fo`). |
| StudioFiles.ReadAllValues | rapidminer/core/studio.py:118 | There is one reader per file, in order. |
| StudioFiles.PickAllMeaning | rapidminer/core/studio.py:112-117 | Picking succeeds exactly when no directory is empty, and then gives one file per directory, in order. |
| StudioFiles.StagedBasesDistinct | rapidminer/core/studio.py:178-179 | Different inputs are written under different base names. |
| Studio.HomeDirectory | rapidminer/core/studio.py:72-79 | The directory is chosen as follows: the argument, else a non-empty `RAPIDMINER_HOME`, else the working directory. It always ends with the platform separator, which is appended only if missing. |
| Studio.ReadOutputs | rapidminer/core/studio.py:332-336 | The loop chooses a reader for exactly the non-metadata files, in order, or stops at the first file whose extension is not supported. |
| Studio.PickOutputs | rapidminer/core/studio.py:111-117 | The loop matches the specification of picking one file per directory. |
| Studio.WriteInputs | rapidminer/core/studio.py:143 | It succeeds exactly when every object can be written, giving each object's file under its base name. |
| Studio.Studio.constructor | rapidminer/core/studio.py:59-90 | Sets the normalised home, the stream and password options, and the Python binary only when overridden. Both per-thread maps start empty. |
| Studio.Studio.ExtractLogLevel | rapidminer/core/studio.py:189-227 | Returns the classified text and level. It updates only thread `tid`'s slots, and only with what the line carries. |
| Studio.Studio.LogLine | rapidminer/core/studio.py:236-237 | Logs the stripped text under source `studio` and advances the thread's slots. |
| Studio.Studio.PrintToConsole | rapidminer/core/studio.py:229-241 | With a caller's stream, the lines are forwarded unchanged and nothing is logged. Otherwise every line is classified and logged, and the thread's slots replay the lines. Other threads are untouched. |
| Studio.Studio.BuildParams | rapidminer/core/studio.py:276-306 | The loops build exactly the specified command line. |
| Studio.Studio.RunRapidMiner | rapidminer/core/studio.py:272-326 | Launches the specified command line. It clears the thread's slots first, so they end as the replay of this launch alone. The result is that launch's decision, and the temp dir is removed. Other threads' slots are untouched. |
| Studio.Studio.RunProcessWithOutputDir | rapidminer/core/studio.py:328-336 | With the process, inputs and output dir it launches, then either returns the launch error or reads the sorted non-metadata outputs. The thread's slots end as this launch's replay, the lines are logged or forwarded, and other threads' slots are untouched. |
| Studio.Studio.ReadResource | rapidminer/core/studio.py:96-125 | One output dir per input is passed as a file output. It then gives either the launch error, the picking error, or the readers of the picked files. All dirs are removed. The thread's slots end as this launch's replay, the lines are logged or forwarded, and other threads' slots are untouched. |
| Studio.Studio.WriteResource | rapidminer/core/studio.py:127-147 | A count mismatch raises before any dir is made or anything launched. An object that cannot be written stops before the launch. Otherwise it launches with each object as `input0` in its own dir. No temp dir remains. A launch leaves the thread's slots as its replay and other threads' slots untouched. Without a launch, no slot, log record or forwarded line changes. |
| Studio.Studio.StageInputs | rapidminer/core/studio.py:174-179 | The input dir is created whenever `inputs` is given, even when the list is empty. The objects are written as `input0`, `input1`, ... into it. |
| Studio.Studio.RunProcess | rapidminer/core/studio.py:149-183 | Inputs that cannot be written stop before the launch. Otherwise it launches with the staged inputs and output dir and returns the process result. Both dirs are removed. A launch leaves the thread's slots as its replay and other threads' slots untouched. When staging fails, no slot, log record or forwarded line changes. |
| Server.TempFolder | rapidminer/core/server.py:114-118 | Always ends with `/`. The default is `/home/<user>/tmp/`. A given folder is kept as a prefix and grows by at most one character, and stays the same when it already ends with `/`. |
| Server.TempFolderAppendsOne | rapidminer/core/server.py:116 | A folder without trailing `/` gets exactly one appended. |
| Server.TempFolderIdempotent | rapidminer/core/server.py:114-118 | Normalising a normalised folder changes nothing. |
| Server.WriteFailsIff | rapidminer/core/server.py:175-186 | Writing raises exactly when some save is rejected before any save ends the writing early. |
| Server.WriteAllAccepted | rapidminer/core/server.py:175-186 | When every save is accepted without complaint, every object is saved and the call succeeds. |
| Server.FormatJobError | rapidminer/core/server.py:355-357 | `Unknown error` exactly when the response has no error. Otherwise the text starts with the type and ends with the message, each set off by `: `. |
| Server.Verdict | rapidminer/core/server.py:347-353 | A poll keeps the waiting going exactly when it is answered with 200 and its state is neither an error state nor a substring of `FINISHED`. |
| Server.FinishedIff | rapidminer/core/server.py:342-353 | The job finishes exactly when the first terminal poll has status 200 and a state that is not an error state but occurs in `FINISHED`. |
| Server.StillPollingIff | rapidminer/core/server.py:342-353 | Waiting goes on exactly while no observed poll is terminal, and then every observed poll was made. |
| Server.LaterPollsIgnored | rapidminer/core/server.py:343-353 | Polls after the first terminal one change neither the outcome nor the number of polls. |
| Server.SubstringStatesFinish | rapidminer/core/server.py:340-352 | Because the success test is a substring test, the states `FINISH` and the empty state count as success. |
| Server.FirstDelFailureMeaning | rapidminer/core/server.py:361-364 | Deleting stops at the least index whose status is not 200. |
| Server.LoadResultMeaning | rapidminer/core/server.py:147-155 | Loading succeeds exactly when no load fails, and then gives one dataset per path, in order. |
| Server.ResultWiresMembers | rapidminer/core/server.py:230-232 | The result wires are exactly the wires whose `to_port` starts with `result `. |
| Server.TempResourcesLayout | rapidminer/core/server.py:222-235 | Once staging succeeds, the temporary resources are one per input followed by one per result wire, all in the temp folder under fresh names. |
| Server.JobContextOmitsEmpty | rapidminer/core/server.py:226-241 | The context has input locations exactly when there are inputs, and output locations exactly when some wire feeds a result port. It has the macros exactly as given. |
| Server.DoneHasOneDatasetPerResult | rapidminer/core/server.py:248-251 | A completed run returns a list with one dataset per result wire, in order, even for one or none. |
| Server.CleanupLeavesNoTemp | rapidminer/core/server.py:252-262 | A cleanup that deletes every temporary resource leaves the repository as it was before staging, minus those paths. |
| Server.Server.constructor | rapidminer/core/server.py:97-118 | Keeps the user name and the normalised temp folder. Nothing has been requested or printed yet. |
| Server.Server.WriteResource | rapidminer/core/server.py:161-186 | A count mismatch raises before any request. Otherwise the saves are made in order until one is rejected or ends the writing early, and the repository gains exactly the saved paths. |
| Server.Server.WaitForJob | rapidminer/core/server.py:342-353 | Each round sleeps 6 seconds and then asks for the job. There are as many rounds as polls up to the first terminal one, and the outcome is that of the first terminal poll. |
| Server.Server.ReadResource | rapidminer/core/server.py:135-159 | Loads are made in order up to the first failing one. The result is that failure's error or all the datasets. |
| Server.Server.DeleteResource | rapidminer/core/server.py:359-364 | Paths are deleted in order up to the first failed delete, which raises. Only the paths before it leave the repository. |
| Server.Server.Collect | rapidminer/core/server.py:242-251 | Submits the job. If it is accepted, prints the job id, waits, and once the job has finished loads the outputs. |
| Server.Server.StageRun | rapidminer/core/server.py:222-227 | Writes the inputs, if any, to fresh locations in the temp folder. Staging fails exactly when that write raises. |
| Server.Server.TryRun | rapidminer/core/server.py:221-251 | The try block: its requests, stored objects, printed lines, temporary resources and outcome. |
| Server.Server.Cleanup | rapidminer/core/server.py:252-262 | Deletes the temporary resources. A failure is printed together with every temp path when ignored, and replaces the outcome otherwise. |
| Server.Server.RunProcess | rapidminer/core/server.py:188-262 | A process that cannot be read raises before any other request. A job still being polled has not reached cleanup. Otherwise the result is the try block's outcome after the `finally` cleanup, and the repository loses the deleted temporary paths. |

## Left out

- HTTP, authentication and web-service installation are not modelled: `__connect`, `__test_and_install`, `__install_webservice`, `__postProcess`, `__postService` and `getQueues`. Each response is a parameter: status, content, and the verdict of `check_for_error`.
- `utilities.check_for_error` and `resources.py` are not part of this model. The first enters as an optional error text per response. How a resource is written on the command line is the `render` parameter.
- `rapidminer/core/scoring.py` is not part of this model. It is a thin HTTP wrapper.
- `subprocess`, the printer thread and line decoding are not modelled. The lines the launcher prints are a parameter, and the thread id is passed explicitly. The race between the printer thread and `p.wait()` is not modelled.
- The `UnicodeEncodeError` branch of `__print_to_console` is not modelled, because decoding is not modelled.
- The instance counter under `threading.Lock`, logger setup and `_suppress_pandas_warning` are concurrency and logging plumbing. A logged record is kept as text, level and source.
- pandas, JSON, CSV and pickle contents are opaque. A frame is its labels, its dtype kind characters and its `rm_metadata`. Whether `read_csv` succeeds is a parameter of `StudioFiles.DeserializeDataFrame`.
- StudioFiles.DeserializeFromFile: the result is the reader chosen by the extension, not the object that reader produces. A `.bin` file whose `pickle.load` fails, and a `.csv` file whose fallback `read_csv` fails, raise in the source. In the model they do not stop `Studio.ReadOutputs`, `Studio.Studio.RunProcessWithOutputDir` or `Studio.Studio.ReadResource`. Those stop only at a file whose extension is not supported.
- Connector.Subscript: a non-dictionary `rm_metadata` can be subscripted only as a list, a tuple or a string. Any other indexable object, such as a pandas Series, is treated as raising on every label.
- StudioFiles.SerializeToFile: whether copying or pickling an object raises is the object's `writable` flag. The exception itself is not modelled, only that the call raises.
- StudioFiles.DecodedDates: the `.pmd` map is the sequence of the loaded dictionary's items, and the keys are not required to differ. For a file that repeats a key, `json.load` keeps only the last value. The model decodes every occurrence, so a repeated key can there fail the decode or add a date column that the source would not.
- The JSON encoding failure that `_write_metadata` catches and only logs is not modelled.
- Server data frames and datasets are opaque strings. `pd.read_json` and `to_json` are not modelled.
- Unicode is simplified. `str.isdigit` is modelled on ASCII digits. The whitespace `int()` skips is ASCII whitespace plus `\x1c`-`\x1f`. `repr` quotes every string with single quotes.
- Connector.ConvertibleUnlessUnprintable: an object whose `__str__` raises but whose `__repr__` succeeds is not represented. Such an object fails `str()` on its own, but not inside a list or tuple, where `repr` is used. The model's `Unprintable` raises in both.
- Python dictionary key equality across types, such as `1 == 1.0` and `True == 1`, is not modelled. Labels are compared as model values.
- `os.path` is modelled in its POSIX flavour also when `isWindows` is set. Only the separator follows the platform, in two places: the one appended to the home directory, and the one in the path of the batch script under `scripts` (`StudioArgs.ScriptPath`, as at studio.py:276).
- Single-input unwrapping is not modelled. Wrapping one object into a list, and returning `result[0]` for a single input, are left out. Every operation takes and returns sequences.
- Exception classes are not modelled: only the message of a raised error is. The status-concatenation errors at server.py lines 314, 319 and 348 raise Python's `TypeError`, modelled by the message `STATUS_CONCAT_ERROR`.
- `tempfile.mkdtemp` and `tempfile._get_candidate_names` are oracles, and their fresh names are parameters. For the Studio directories made by `mkdtemp`, the requires clauses keep the names distinct from existing temporary directories. The Server's candidate names carry no such requirement, as the source gives no such guarantee.
- `glob` results are parameters, so the order of the "first file" fallback of `read_resource` is as listed. The `rmtree` of a `.fo` path before pickling is not modelled.
- XML parsing of the process is not modelled: the `to_port`s of the process's `connect` wires are a parameter. The base64 encoding of the submitted process is not modelled: a submission records the queue, the location and the context.
- `sleep` is modelled as a `Sleep(6)` request event.
- Server.Server.WaitForJob: the unbounded `while True` loop is modelled over a finite sequence of observed polls. When none of them is terminal the outcome is `StillPolling`, and `run_process` then ends in `Running` without reaching its cleanup.
- Server.Server.WriteResource: the repository counts a save as stored when the Server answered it with 200. Whether a save that `check_for_error` then rejects really stored the object is not known from the source.
- Connector.RenamePointwise: the concrete example `["", "3", "ok"]` becoming `["att", "att3", "ok"]` is not stated as a separate lemma. It is an instance of this pointwise lemma.
- Helper methods split some source loops and branches, such as the staging, collection and cleanup parts of `Server.run_process`. Each helper states its part against the same specification functions.
