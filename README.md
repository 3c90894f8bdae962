# pikeman golint driver and configuration discovery, in Dafny

This project models two parts of the pikeman linter, a fork of golint:

- **Configuration discovery** (`config.go`).
  - The configuration record is two glob lists plus 19 rule toggles.
  - The toggles embedded in `defaultConfig`.
  - The upward search for `.pikeman.yml` from the working directory, which falls back to the embedded default at `/`.
  - Reading a named configuration file.
- **The command driver** (`golint/golint.go`).
  - Choosing the formatter.
  - Loading the configuration.
  - Sorting each command-line argument into a recursive directory pattern, a directory, a file or a package path.
  - The rule that only one target family may occur in a run.
  - Linting each unit (`lintDir`, `lintPackage`, `lintImportedPackage`, `lintFiles`).
  - Counting the problems that reach the confidence threshold.
  - The text and JSON formatters.
  - The exit status, including `writeError`.

Files:

| file | module | contents |
|---|---|---|
| `wrappers.dfy` | `Wrappers` | `Result`, `Option`, bytes |
| `os.dfy` | `Os` | the filesystem as three oracle functions (`stat`, `open`, `readFile`) |
| `config.dfy` | `Config` | the rule schema, decoding, the search and its lemmas (pure functions, as in the source) |
| `golint_format.dfy` | `GolintFormat` | problems, JSON records, `%v` of a position, formatter selection and output |
| `golint_targets.dfy` | `GolintTargets` | argument classification, target resolution and the family flags, with the argument loop as a method |
| `golint.dfy` | `Golint` | the environment, the specification functions of a run, and the `Driver` class |
| `golint_properties.dfy` | `GolintProperties` | properties of whole runs, stated over the specification functions |

### How the model works

**Paths.** A directory is a sequence of path components, and `/` is the empty sequence. The step of the search is `filepath.Dir(filepath.Join(wd, ".."))`, written out as dropping two components, stopping at the root (`Config.Up`). Its rendering as a string feeds the filesystem oracle.

**Decoding.** YAML decoding is an oracle `parse: Bytes -> Result<Document>`. A `Document` says which lists and which toggles the file mentions. `DecodeInto` overwrites exactly those fields of a zero `Config`, as `Decode(&config)` does. The embedded default text is given as the `DefaultDocument` it denotes.

**The driver.** The process-wide globals `suggestions`, `formatter` and `config` are fields of the class `Golint.Driver`. So are standard output, standard error and the exit code.
- Standard output holds one `Output` per write: a text line, or a JSON array of records.
- Standard error holds one `Diagnostic` per message.
- The exit code is `Some(code)` once the process has exited. `os.Exit` becomes "record the code and return".

Each method's postcondition ties the new `Snapshot()` of these fields to a pure function of the old one:
- `LintFilesSpec`, `LintImportedSpec`, `LintUnitsSpec`, `Dispatch` and `RunSpec` are those functions.
- The loops of the source stay loops: reading files, counting, filling the JSON array by index, joining member paths in an array in place, and the argument loop.

The properties of runs are lemmas about the specification functions, in `GolintProperties`.

**Behaviour worth knowing:**
- Each step of the search in `config.go`, `filepath.Dir(filepath.Join(wd, ".."))`, goes to the grandparent, or to `/` when `wd` is one level below the root. At depth two or more the immediate parent is never inspected (`Config.ParentNeverInspected`).
- When `.pikeman.yml` is absent from `/` as well, the search returns the embedded default. It never fails with "not found".
- The embedded default enables all 19 rules, includes `./**/*.go`, and excludes `./vendor/**` and `./pkg/**`.
- `formatter.Write` runs once per `lintFiles` call whose engine run succeeds; after an engine error nothing is written. A JSON run over several directories prints several arrays (`GolintProperties.JsonArrayPerLintedUnit`).
- The family check in `main` follows the whole argument loop, so `/...` patterns are already expanded when mixed targets are rejected. No unit is linted in that case.
- `writeError` exits with status 1 whatever its `code` argument.

## Model

| member | source | states |
|---|---|---|
| Config.Rule.IsEnabled | config.go:86 | reads the toggle's one field; with `DecodeIntoToggle` and `DecodedFromZero` it answers true iff the document set `Enabled: true` |
| Config.DecodeInto | config.go:195-196 | `Decode(&config)` over a record; `DecodeIntoToggle` proves that the named toggles take the document's values, present lists replace the old ones, and everything else is kept |
| Config.DecodeIntoToggle | config.go:146-169 | decoding sets each toggle the document names to the value given and leaves every other toggle as it was; a list the document has replaces the old one, and a list it lacks is kept |
| Config.DecodedFromZero | config.go:82-86 | after decoding from the zero record, `IsEnabled` of a toggle is true iff the document sets its `Enabled` to true; a toggle not mentioned is off; absent lists are empty |
| Config.DefaultDocumentSetsAll | config.go:20-75 | the embedded text sets `Enabled: true` for every one of the 19 rules |
| Config.DefaultEnablesEverything | config.go:12-76 | the embedded default enables all 19 rules, includes `./**/*.go` and excludes `./vendor/**` and `./pkg/**` |
| Config.DecodeConfig | config.go:194-201 | the embedded reader yields the default record; a decoder error is returned as it is; otherwise the record is the document decoded over the zero value |
| Config.ReadConfig | config.go:185-192 | an open failure is returned as it is; otherwise the opened bytes are decoded |
| Config.ConfigPathIn | config.go:204 | the path of `.pikeman.yml` in a directory: the directory's string form followed by `/.pikeman.yml` |
| Config.IsRootIff | config.go:208 | the string test `wd == "/"` holds exactly for the root path |
| Config.Up | config.go:211 | the ancestor two levels up, a prefix of `wd` two components shorter, or the root when `wd` has fewer than two components |
| Config.UpDropsTwo | config.go:210-212 | the step drops two trailing components, stops at the root, and makes every path below the root strictly shorter, which is what makes the search terminate |
| Config.ChainShape | config.go:203-218 | the directories the search may visit are `wd` with 0, 2, 4, … components dropped; there are (depth+1)/2+1 of them, at most depth+1, and the last is the root |
| Config.ParentNeverInspected | config.go:211 | for a directory at depth two or more, its immediate parent is never inspected |
| Config.Backtrack | config.go:203-218 | `backtrackConfig`; its contract: the default reader comes only when `.pikeman.yml` is absent from `wd` and from `/`; `BacktrackIsFirstStop` and `DefaultIffAbsentEverywhere` characterise the result completely |
| Config.BacktrackStep | config.go:205-216 | one step of the search: an existing file or another stat error decides it, never for the default; an absent file at the root gives the default; an absent file elsewhere passes the search two levels up |
| Config.BacktrackIsFirstStop | config.go:203-218 | the result is decided by the first directory of the chain whose stat of `.pikeman.yml` is not "does not exist" (or by the root if there is none): an existing file is opened, another stat error is returned as it is, and no later directory is inspected |
| Config.DefaultIffAbsentEverywhere | config.go:207-212 | the embedded default is returned iff `.pikeman.yml` is absent from every directory of the chain, the root included; it is never an error |
| Config.ReadConfigFromWorkingDir | config.go:171-183 | a `Getwd` failure and a search failure are returned as they are; otherwise the result is the decoding of what the search found |
| Config.WorkingDirConfigFromSearch | config.go:171-218 | conversely, no `.pikeman.yml` anywhere on the chain gives the embedded default, and a file found, opened and decoded at the first stop of the chain gives its decoding |
| Config.WorkingDirConfigOrigin | config.go:171-218 | a configuration read from the working directory is either the default (no file anywhere on the chain) or the decoding of the file in the first directory of the chain that has one, all earlier directories lacking it |
| GolintFormat.ToJson | golint/golint.go:149-158 | the record for one problem; `JsonRoundTrip` and `JsonRecordIdentifies` prove it keeps every field but the byte offset |
| GolintFormat.JsonRoundTrip | golint/golint.go:134-159 | a JSON record holds every field of its problem except the byte offset: read back with that offset it gives the problem |
| GolintFormat.JsonRecordIdentifies | golint/golint.go:148-158 | two problems give the same record iff they differ at most in the byte offset |
| GolintFormat.DecimalRoundTrip | golint/golint.go:124 | the decimal digits printed for a line or column read back to the number |
| GolintFormat.PositionString | golint/golint.go:124 | the `%v` of a position is never empty and starts with the file name when there is one |
| GolintFormat.TextLines | golint/golint.go:122-126 | what `textFormatter.Write` prints; `Driver.WriteText` is proved to append it and `TextLinesSnoc` and `GolintProperties.TextLinePerProblem` state it is one line per problem in order |
| GolintFormat.Rendered | golint/golint.go:120-163 | what one `formatter.Write` appends for the selected formatter; `Driver.Write` is proved to append it, and `JsonArrayPerLintedUnit` and `TextLinePerProblem` state its shape over a run |
| GolintFormat.SelectFormatter | golint/golint.go:48-53 | the JSON formatter is chosen iff the `-format` value is exactly `json`; anything else gives text |
| GolintFormat.TextLine | golint/golint.go:124 | the text line for one problem; `TextLineIsOneLine` proves it is the position, `: `, the text and one newline |
| GolintFormat.TextLineIsOneLine | golint/golint.go:124 | a problem whose file name and text hold no newline prints as exactly one line: the position, `: `, the text, then the newline |
| GolintFormat.JsonRecords | golint/golint.go:145-159 | one record per problem, in order, record i carrying all eight fields of problem i |
| GolintTargets.Classify | golint/golint.go:75-89 | the four branches of the argument loop in order; `ClassifyByExistence` states when an argument is a file or a package path |
| GolintTargets.IsDir | golint/golint.go:165-168 | `isDir`: the stat succeeds and names a directory; used by `Classify`, about which `ClassifyByExistence` is stated |
| GolintTargets.Exists | golint/golint.go:170-173 | `exists`: the stat succeeds; `ClassifyByExistence` proves an argument is a file iff it exists, is no directory and no directory pattern |
| GolintTargets.Resolved | golint/golint.go:72-90 | the `args` list the loop builds; `ResolveTargets` is proved to return it and `ResolvedAppend` and `ResolvedSingle` state its order and contents |
| GolintTargets.Families | golint/golint.go:72-90 | the families whose flags the loop raises; `ResolveTargets` is proved to set exactly their flags and `FamiliesMembers` states its members |
| GolintTargets.ClassifyByExistence | golint/golint.go:75-89 | an argument is a package path iff nothing by that name exists and it is not a `/...` pattern over a directory; it is a file iff it exists, is not a directory and is not such a pattern |
| GolintTargets.ResolvedAppend | golint/golint.go:74-90 | target resolution follows argument order: it distributes over concatenation of argument lists |
| GolintTargets.ResolvedSingle | golint/golint.go:75-89 | a `/...` pattern over a directory contributes the directories found below it; any other argument contributes itself |
| GolintTargets.FamiliesMembers | golint/golint.go:74-90 | a family is present iff some argument is classified into it |
| GolintTargets.ExactlyOneFamily | golint/golint.go:72-95 | since each flag is set to 1 and never incremented, the sum of the three flags is 1 iff exactly one family occurs |
| GolintTargets.AddArgument | golint/golint.go:75-89 | one turn of the argument loop appends exactly the argument's targets and raises exactly the flag of its family |
| GolintTargets.ResolveTargets | golint/golint.go:72-90 | the argument loop builds exactly the resolved targets, and each flag is 1 iff its family occurs |
| Golint.SourceFiles | golint/golint.go:176-184 | the file map of `lintFiles`; `SourceFilesExact` proves it holds exactly the readable names with their contents |
| Golint.ReadFailures | golint/golint.go:178-182 | the reports of `lintFiles` for unreadable files; `ReadFailuresExact` characterises them completely |
| Golint.ReadFailuresExact | golint/golint.go:177-184 | there are exactly as many reports as unreadable names, and the report of each unreadable `names[i]` carries its read error and follows those of the unreadable names before it, so every unreadable file is reported once, in order |
| Golint.Suggestions | golint/golint.go:193-197 | the counter increment; `SuggestionsCountsQualifying`, `SuggestionsAppend` and `SuggestionsAntitone` state what it counts |
| Golint.LintFilesSpec | golint/golint.go:175-200 | what `lintFiles` does to a transcript; `Driver.LintFiles` is proved equal to it and `LintFilesEffect` states its effect |
| Golint.LintImportedSpec | golint/golint.go:212-234 | what `lintImportedPackage` does to a transcript; `Driver.LintImportedPackage` is proved equal to it |
| Golint.LoadConfig | golint/golint.go:56-60 | `-config_path` when given, otherwise the working-directory search; `LoadConfigSource` states which |
| Golint.LoadConfigSource | golint/golint.go:56-60 | with `-config_path` the file is read as it is and the working directory is never consulted; without it, a chain with no `.pikeman.yml` yields the embedded default |
| Golint.LintUnitsSpec | golint/golint.go:97-106 | `lintDir` or `lintPackage` of each unit in order; `Driver.LintDirs` and `Driver.LintPackages` are proved equal to it and `GolintProperties.UnitsAccumulate` states how output and counter accumulate |
| Golint.RunSpec | golint/golint.go:44-113 | a whole `main`; `Driver.Run` is proved equal to it and `ExitStatus`, `RenderingIgnoresThreshold`, `ShortCircuitsLintNothing` and `SingleProblemRun` are stated about it |
| Golint.Dispatch | golint/golint.go:66-108 | the body of `main` after loading; `Driver.LintTargets` is proved equal to it and `DispatchExit`, `MixedIffTwoFamilies` and `NoArgumentsLintCurrentDirectory` state its behaviour |
| Golint.Finish | golint/golint.go:110-112 | the exit decision; `ExitStatus` proves exit 1 iff `-set_exit_status` is on and the counter is positive (in a run that got this far), 0 otherwise |
| Golint.SourceFilesExact | golint/golint.go:176-184 | the file map holds exactly the readable names, each mapped to its contents |
| Golint.MemberFiles | golint/golint.go:222-230 | the files `lintImportedPackage` passes on; `Driver.MemberFileList` is proved to compute it and `MemberFilesOrder` states their order and qualification |
| Golint.MemberFilesOrder | golint/golint.go:222-230 | member files are the Go files, then cgo files, then test files, each joined with the package directory unless it is `.` |
| Golint.Driver.constructor | golint/golint.go:23-31 | a fresh process: counter zero, nothing written, not exited |
| Golint.Driver.WriteError | golint/golint.go:115-118 | the message is written to standard error and the exit status is 1, whatever `code` is |
| Golint.Driver.WriteText | golint/golint.go:122-126 | standard output gains exactly the text lines of the problems |
| Golint.Driver.WriteJson | golint/golint.go:145-163 | the record array is filled by index and written as one JSON array, one record per problem |
| Golint.Driver.Write | golint/golint.go:128-130 | the selected formatter's output is appended |
| Golint.Driver.LintFiles | golint/golint.go:175-200 | unreadable files are reported and skipped; an engine error is reported and changes nothing else; otherwise the counter grows by the number of qualifying problems and every problem is written |
| Golint.Driver.LintImportedPackage | golint/golint.go:212-234 | a `NoGoError` is ignored; another import error is reported and nothing is linted; otherwise the member files, with their directories joined in place, are linted |
| Golint.Driver.MemberFileList | golint/golint.go:222-230 | the three file lists are appended in order and, unless the directory is `.`, each entry is rewritten in place as joined with it |
| Golint.Driver.LintDir | golint/golint.go:202-205 | `build.ImportDir` of the name, then `lintImportedPackage` |
| Golint.Driver.LintPackage | golint/golint.go:207-210 | `build.Import` of the name, then `lintImportedPackage` |
| Golint.Driver.LintDirs | golint/golint.go:97-100 | each directory target is linted in order |
| Golint.Driver.LintPackages | golint/golint.go:103-106 | each import path is linted in order |
| Golint.Driver.LintTargets | golint/golint.go:66-108 | no arguments lints `.`; mixed families write the usage text and exit 2; otherwise directories, files or packages are dispatched |
| Golint.Driver.Run | golint/golint.go:44-113 | a whole run: formatter selection, configuration loading (exit 1 on failure), dispatch, and the exit decision |
| GolintProperties.SuggestionsAppend | golint/golint.go:193-197 | counting is additive over consecutive problem lists |
| GolintProperties.SuggestionsCountsQualifying | golint/golint.go:193-197 | the count is at most the number of problems; it is zero iff every problem is below the threshold, and all of them iff every problem reaches it |
| GolintProperties.SuggestionsAntitone | golint/golint.go:194 | raising the threshold never raises the count |
| GolintProperties.LintFilesEffect | golint/golint.go:186-199 | after an engine error the counter and standard output are unchanged; otherwise the counter grows by at most the number of problems and every problem is written, unfiltered |
| GolintProperties.UnitsIgnoreThreshold | golint/golint.go:193-199 | linting a sequence of units writes the same output, diagnostics and exit state at any threshold |
| GolintProperties.DispatchIgnoresThreshold | golint/golint.go:66-108 | the dispatch writes the same output, diagnostics and exit state at any threshold |
| GolintProperties.RenderingIgnoresThreshold | golint/golint.go:193-199 | two runs that differ only in `-min_confidence` print the same standard output |
| GolintProperties.UnitsAccumulate | golint/golint.go:97-106 | over several units, standard output gains each linted unit's rendering in order, the counter grows by each unit's count, and the exit state is untouched |
| GolintProperties.JsonArrayPerLintedUnit | golint/golint.go:145-163 | in JSON mode each linted unit writes exactly one array, holding a record of every problem of that unit |
| GolintProperties.TextLinePerProblem | golint/golint.go:122-126 | in text mode the output over several units is one line per problem, unit after unit |
| GolintProperties.SuggestionsAllIsTotal | golint/golint.go:195 | the counter over several units is the count over all their problems |
| GolintProperties.MixedIffTwoFamilies | golint/golint.go:92-95 | a non-empty argument list is rejected iff two of its arguments belong to different families |
| GolintProperties.DispatchExit | golint/golint.go:92-95 | only the family check sets an exit code before the end of `main`, and it sets 2 |
| GolintProperties.ExitStatus | golint/golint.go:62-118 | every run exits: 2 iff the targets are mixed, 1 iff the configuration is unreadable or `-set_exit_status` is on and some problem reached the threshold, 0 otherwise, even when problems were printed |
| GolintProperties.ShortCircuitsLintNothing | golint/golint.go:62-95 | an unreadable configuration, or mixed targets, ends the run with nothing printed, nothing counted and exactly one diagnostic |
| GolintProperties.NoArgumentsLintCurrentDirectory | golint/golint.go:66-67 | without arguments exactly one unit, the directory `.`, is linted |
| GolintProperties.SingleProblemRun | golint/golint.go:101-112 | on one file with one problem in JSON mode with `-set_exit_status`, the output is one array that holds that problem's record whatever its confidence; the problem is counted and the run exits 1 iff its confidence reaches the threshold, and otherwise the run exits 0 |

## Left out

- `lib/pikeman.rb` and `test/pikeman_test.rb`: a Ruby wrapper that runs the binary as a subprocess, and its integration test. These are process plumbing, not part of this model.
- Flag parsing, the text of `usage()` and the version string. The flags arrive already parsed as a `Flags` value, and the usage text is the single diagnostic `Usage`.
- YAML decoding is an oracle from bytes to a `Document`. `json.Marshal` is not modelled: a JSON write is the sequence of records it encodes.
- `os.Stat`, `os.Open`, `ioutil.ReadFile`, `os.Getwd`, `build.ImportDir`, `build.Import`, `allPackagesInFS`, `importPaths`, `filepath.Join` (for member files) and `lint.Linter.LintFiles` are oracle fields of `Env` and `FileSystem`. Their own behaviour, including path cleaning by `filepath.Join`, is not part of this model.
- `Config.Backtrack`: the working directory is a clean absolute path, as `os.Getwd` returns it; the `Component` type excludes empty names, slashes, `.` and `..`. `filepath.Join` and `filepath.Dir` on such a path are modelled as list operations.
- The bytes of the embedded default are not decoded. The model uses the `DefaultDocument` they denote.
- `writeError` formats its message with `Fprintf(os.Stderr, format, args)`, passing the slice as a single value. The bytes this prints are not modelled: a diagnostic records only which message and which value were meant.
- The output of `fmt.Fprintln(os.Stderr, err)` is modelled as a diagnostic carrying the error, not as bytes.
- `Golint.Driver.LintFiles`: the counter is an unbounded `nat`. Overflow of Go's `int` is not modelled.
- Confidence and the threshold are `real`. Only the `>=` comparison matters; float64 rounding is not modelled.
- `GolintFormat.PositionString`: the `%v` of a `token.Position` is modelled by its documented rules (file, line, optional column, `-` when invalid). The contract states only that the result is non-empty and starts with the file name.
- `json.Marshal` can fail, for example on a NaN or infinite confidence, and `jsonFormatter.Write` then discards the error and writes nothing (golint/golint.go:161). Confidence is a `real` here, so the model cannot reach that case.
- The byte offset of a position is not carried in JSON records, because `jsonProblem` has no such field. The round trip is therefore stated relative to that offset.
- `lint.Problem` is modelled with the fields golint/golint.go reads: position, text, link, confidence, line text and category. Its other fields are not part of this model.
- Problems are written in the order the engine returns them. The engine's own ordering is not part of this model.
