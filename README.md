# Lambda layer maker: a Dafny model

`code.py` is an AWS Lambda handler that maintains Lambda layers. An
invocation event names a layer, an S3 bucket, a list of Python libraries and
an action. The handler first validates the event and probes access to the
bucket and to the Lambda service. It then dispatches on the action:

- `create_new` builds a new layer from the libraries, unless a layer of that
  name already exists;
- `update` downloads the first listed version of the layer, installs the
  libraries on top of it, and publishes the result as a new version;
- `read_only` downloads that version and reports its installed packages as
  a name-to-version dictionary.

Before zipping, the create and update paths measure the staging folder with
`du -sh`. They cut the first token of its output at `M` (the create path
also at `K`), read what is left with `int()`, and refuse the layer when that
number is 250 or more. So `250M` is refused, `300K` is refused on the create
path, and a fractional or gigabyte size such as `1.5M` or `1.2G` makes
`int()` raise ValueError. A size that passes is zipped, uploaded to the
bucket, and published as a layer version.

The model has seven modules:

- `Py`: the Python notions the handler needs. These are the exceptions it
  can raise, a `Result` type, JSON event values with Python truthiness and
  `len`, dictionary lookup and iteration.
- `PyText`: `str.split()` with no separator, `s.split(c)[0]`, `str.strip()`
  and `int(s)` on a string.
- `Validator`: `validate_field` and the handler's guard on its result.
- `PackageListing`: the `pip list` pairing loop of `read_only`.
- `SizeGuard`: the size check of both paths, including the extra `K` cut
  on the create path.
- `Archive`: the entry names `zip_directory` gives the walked files.
- `Handler`: `lambda_handler`, `create_new`, `update` and `read_only`.

Each is a method returning an effect trace and an outcome. The trace lists
every collaborator call in order, and the outcome is either what the
function returns or the exception it raises. What the collaborators answer
is an input, a `World`. It holds:

- whether the two probes succeed;
- the listed layer versions;
- what `du` and `pip list` print;
- what walking the staging folder yields;
- whether the upload raises;
- the ARN publishing returns.

The proved properties of the handler include:

- the steps come in the order of the code, and the traces of the three
  actions are given exactly, so each step happens as often as the code
  runs it (the packaging steps at most once each);
- the existence check comes before any install;
- the size check comes before zip and upload, and a refused size stops both;
- a failed upload stops publishing;
- the version fetched is always the first one listed;
- the libraries installed are exactly the event's, in order, and a library
  that is not a string raises TypeError before anything is measured;
- the archive holds one entry per walked file;
- each action's own result is wrapped under its key, and the trace after
  the probes is that action's own trace, so the handler's contract says
  what `create_new`, `update` and `read_only` did; an event without an
  `action` key raises KeyError, and an unknown action gets `None`;
- as written, the validation guard never holds, so an invalid event goes on
  to the probes. With the corrected guard the event gets the diagnostic
  back.

## Model

| member | source | states |
|---|---|---|
| Py.Len | code.py:231 | for a value that has a length, `len(v)` is 0 exactly when the value is falsy |
| Py.Keys | code.py:229 | the keys of an event, one per item, in insertion order |
| Py.Lookup | code.py:14 | `event[k]` raises KeyError(k) exactly when `k` is not a key; otherwise it gives a value stored under `k` |
| Py.LookupDistinct | code.py:14 | in an event with distinct keys, `event[k]` gives the value stored under `k` |
| Py.Iterate | code.py:75 | iterating a value raises TypeError exactly when it has no length; otherwise it yields `len(v)` items |
| PyText.Split | code.py:79 | every token `str.split()` yields is a non-empty run of non-whitespace |
| PyText.SplitJoin | code.py:137 | splitting tokens joined by blanks gives the tokens back |
| PyText.SplitHead | code.py:79 | a token followed by whitespace or nothing is the first result of `split()` |
| PyText.BeforeFirst | code.py:80 | `s.split(c)[0]` is the longest prefix of `s` without `c`; it ends at the first `c` or at the end |
| PyText.BeforeFirstAt | code.py:182-183 | cutting at `c` keeps exactly what precedes its first occurrence |
| PyText.ParseInt | code.py:81 | `int(s)` strips only the whitespace `int()` strips (ASCII `\t`..`\r` and space, and whitespace beyond ASCII) and fails only with a ValueError |
| PyText.ParseDecimal | code.py:184 | `int(str(n)) == n` for every natural number |
| PyText.ParseRejects | code.py:184 | `int(s)` raises ValueError when `s` holds a character that is not a digit, underscore, sign or whitespace `int()` strips |
| PyText.SeparatorNotStripped | code.py:184 | the separator `\x1c` is whitespace to `split()` but `int("\x1c5")` raises ValueError |
| PyText.DecimalValue | code.py:184 | the digits of `str(n)` spell `n` |
| Validator.Repr | code.py:235 | `str(list)` is bracketed |
| Validator.MissingKeys | code.py:229 | exactly the required names that are not keys of the event |
| Validator.MissingKeysAppend | code.py:229 | the missing names keep the order of the required list |
| Validator.IsEmptyValue | code.py:231 | `not val or len(val) <= 0` raises exactly for a truthy value without a length, and is otherwise Python falsiness |
| Validator.MissingValues | code.py:231 | the comprehension raises TypeError exactly when some truthy value of the event has no length (`not val` short-circuits for `None`, `False` and `0`); otherwise it lists exactly the keys with falsy values |
| Validator.ValidateField | code.py:209-238 | validation raises exactly when some truthy value has no length, and then with TypeError |
| Validator.ValidateFieldEmptyIff | code.py:233-238 | the validator returns `""` if and only if every required name is a key and no value of the event is empty |
| Validator.ValidateFieldClauses | code.py:234-237 | the result is exactly `Missing Keys: [...]` when only keys are missing, that clause directly followed by `*** Missing values: [...]` when values are empty too, the values clause alone when no key is missing, and `""` when nothing is |
| Validator.GuardAsWritten | code.py:21 | the guard as written can only hold of an empty result, so it never returns a diagnostic |
| Validator.GuardAsWrittenNeverHolds | code.py:21-22 | the guard as written holds for no string |
| Validator.BucketOnlyMissingKeys | code.py:229 | an event naming only the bucket misses `layer_name`, `libraries` and `action`, in that order |
| Validator.NoValueMissing | code.py:231 | a single item whose value is non-empty and has a length gives no empty value and no TypeError |
| Validator.InvalidEventPassesGuard | code.py:20-22 | an event naming only the bucket gets the diagnostic `Missing Keys: ['layer_name', 'libraries', 'action']`, and the guard as written lets it through |
| Validator.RejectsEvent | code.py:21-22 | the corrected guard: a non-empty validation result ends the request; which events that is, `RejectsExactlyInvalid` states |
| Validator.RejectsExactlyInvalid | code.py:21-22 | with the corrected guard, an event is turned away exactly when a required key is missing or some value is empty |
| PackageListing.Assign | code.py:142 | `d[name] = version` on the key list and the map; what it keeps and changes, `AssignFacts` states |
| PackageListing.AssignFacts | code.py:142 | `d[name] = version` maps `name` to `version`, keeps every other entry and puts a new key last |
| PackageListing.AfterHeader | code.py:137 | `tokens[4:]`: nothing for at most four tokens, otherwise exactly what follows the first four |
| PackageListing.PairUp | code.py:140-143 | the dictionary built by assigning the pairs in order; `PairUpValid`, `PairUpKeys` and `PairUpLatest` state its keys and values |
| PackageListing.PairTokens | code.py:137-143 | the pairing raises, and then with IndexError, exactly when an odd number of tokens follows the header |
| PackageListing.ListingOf | code.py:134-145 | the read-only action's parse of a `pip list` text raises, and then with IndexError, exactly when an odd number of tokens follows the header |
| PackageListing.ReadListing | code.py:137-145 | the pairing loop computes `ListingOf` of the `pip list` output: the dictionary or the IndexError |
| PackageListing.PairUpValid | code.py:142 | the dictionary built has each key once, and its keys are exactly the keys of its map |
| PackageListing.PairUpKeys | code.py:140-143 | a name is a key exactly when it is the first token of some pair after the header |
| PackageListing.PairUpLatest | code.py:142 | a name maps to the version of its last pair |
| PackageListing.HeaderOnly | code.py:137 | output of at most four tokens gives an empty dictionary |
| PackageListing.PairTokensFails | code.py:140-142 | the loop raises IndexError exactly when an odd number of tokens follows the header |
| PackageListing.ListingOfExample | code.py:134-145 | `Package Version ---- ---- foo 1.0 bar 2.3` gives `{"foo": "1.0", "bar": "2.3"}` |
| SizeGuard.SizeField | code.py:182-183 | the part of the token given to `int()` is a prefix of it without `M` (on the create path without `K` either), ending at its first `M` (or `K`) or at its end; the update path cuts at `M` alone (code.py:80) |
| SizeGuard.CheckToken | code.py:180-187 | the guard succeeds exactly when `int()` accepts the cut token; it fails with ValueError; it refuses exactly the sizes of 250 or more |
| SizeGuard.CheckSize | code.py:78-84 | output without a token raises IndexError, otherwise the first token decides |
| SizeGuard.DuLineToken | code.py:79 | the first token of a `du` line is the size with its unit |
| SizeGuard.MegabyteToken | code.py:80-81 | a size in megabytes is read as printed, on both paths |
| SizeGuard.MegabytesDecide | code.py:78-84 | a `du` line in megabytes is refused exactly when its size is at least 250, on both paths |
| SizeGuard.KilobyteTokenCreate | code.py:182-184 | on the create path a size in kilobytes is read unscaled |
| SizeGuard.KilobyteTokenUpdate | code.py:80-81 | on the update path a size in kilobytes raises ValueError |
| SizeGuard.KilobytesUnscaled | code.py:180-184 | a `du` line in kilobytes is compared with 250 unscaled on the create path and raises ValueError on the update path |
| SizeGuard.Boundary | code.py:81 | `250M` is refused and `249M` passes |
| SizeGuard.KilobyteExample | code.py:183-184 | `300K` on the create path is read as 300 and refused |
| SizeGuard.FractionalTokensFail | code.py:81 | `1.5M` and `1.2G` make `int()` raise |
| SizeGuard.FractionalSizesFail | code.py:79-81 | `du` lines of `1.5M` and `1.2G` make the guard raise ValueError |
| Archive.PathJoin | code.py:256 | `os.path.join(root, name)` is `name` when it is absolute; otherwise it starts with `root`, ends with `name`, and has a `/` just before `name` when `root` is not empty |
| Archive.WalkedPaths | code.py:254-256 | the paths of every walked file in walk order; `WalkedPathsCount`, `WalkedPathsSnoc` and `WalkedPathsFrom` state them |
| Archive.WalkedPathsFrom | code.py:254-256 | a path is walked exactly when some directory of the walk yields it |
| Archive.StepPaths | code.py:255-256 | one joined path per file of a walked directory: every file yields its joined path, and every path comes from some file |
| Archive.WalkedPathsCount | code.py:254-256 | the walk yields one path per listed file |
| Archive.WalkedPathsSnoc | code.py:254-256 | walking one more directory appends its files' paths |
| Archive.EntryName | code.py:253-257 | every entry name starts with `python/`; for a path under the folder, the folder followed by the rest of the name gives the path back |
| Archive.Entries | code.py:254-257 | one entry per walked file, and every entry starts with `python/` |
| Archive.EntriesCover | code.py:254-257 | every walked path has its entry name in the archive |
| Archive.EntriesSnoc | code.py:254-257 | walking one more directory appends the entries of its files |
| Archive.ZipEntries | code.py:252-257 | the nested loops produce `Entries` of the walk: one per file, in walk order, each under `python/` and relative to the folder |
| Archive.EntryExample | code.py:257 | `/tmp/python/a/b.txt` is stored as `python/a/b.txt` |
| Handler.LibrariesOfCases | code.py:176 | `event["libraries"]` raises KeyError('libraries') when the key is missing and TypeError when its value cannot be iterated; otherwise it gives one item per `len` of the value |
| Handler.KeyFor | code.py:36-46 | exactly the three actions the handler knows have a key, and every key is one of the three labels |
| Handler.KeyForDistinct | code.py:38-46 | different actions get different keys, so a reply's key tells which action ran |
| Handler.Wrap | code.py:39-46 | a result is wrapped under the action's key, and an exception passes through unchanged; unwrapping gives the action's own result back |
| Handler.Refusal | code.py:184-187 | a failed size check raises exactly when the size could not be read, with that error; otherwise it returns the over-limit message |
| Handler.PublishOutcome | code.py:196-206 | the new version's ARN is returned exactly when the layer name and bucket can be read and publishing answers; otherwise reading `new_layer` raises UnboundLocalError |
| Handler.InstallsOfAppend | code.py:176-177 | the installs of a joined trace are the installs of its parts, in order |
| Handler.InstallsOfNone | code.py:75-76 | a trace without installs installs nothing |
| Handler.StringPrefix | code.py:75-76 | the libraries before the first non-string are strings; the one after them is not; it is all of them exactly when every library is a string |
| Handler.StringPrefixAt | code.py:176-177 | a loop that stops at the first non-string has installed exactly the string prefix |
| Handler.InstallsOrdered | code.py:176-177 | a run of installs is in order and lies between the staging steps and the measurement |
| Handler.InstallSteps | code.py:176-177 | one install effect per library, in order; the installs it records are exactly the libraries |
| Handler.InstallLibraries | code.py:176-177 | one install per library, in order, until the first library that is not a string (exactly `InstallSteps` of the string prefix); the loop fails exactly when there is one |
| Handler.OrderedByNeighbours | code.py:49-103 | a trace whose neighbours are in order is in order |
| Handler.Concat | code.py:171-189 | early steps followed by later steps stay in order, and their installs concatenate |
| Handler.PackagingPrefix | code.py:180-206 | the packaging facts survive putting earlier steps in front |
| Handler.RefusedTrace | code.py:184-187 | a refused size stops the request after the measurement |
| Handler.UploadFailedTrace | code.py:191-194 | a failed upload ends the request with its error and nothing is published |
| Handler.UnreadableTrace | code.py:196-206 | when a publish argument cannot be read, no publish call is made and `new_layer` is unbound |
| Handler.PublishedTrace | code.py:196-206 | after a successful upload, the publish call is made last with the layer and bucket |
| Handler.PackSteps | code.py:180-206 | the packaging steps start with the measurement, and anything follows it exactly when the size fits |
| Handler.PackStepsOnce | code.py:180-206 | the measurement, zip, upload and publish each happen at most once, in that order |
| Handler.PackStepsPackaging | code.py:180-206 | the exact packaging steps and outcome keep every packaging fact: in order, zip and upload exactly when the size fits, publish last after a good upload, the refusal or upload error as outcome |
| Handler.PackAndPublish | code.py:78-103 | the trace is exactly `PackSteps` and the outcome `PackOutcome`: measure once; zip and upload once each, exactly when the size fits; publish once, last, after a successful upload; the refusal, upload error or publish result as outcome; the archive holds the walked files |
| Handler.EarlyTrace | code.py:180-206 | a trace that stops before the measurement has no zip, upload or publish |
| Handler.AssembleStopped | code.py:171-177 | staging followed by the installs up to a failed one is in order and installs exactly those libraries |
| Handler.Assemble | code.py:171-206 | staging, installs and packaging concatenated are in order, install exactly the libraries, and keep the packaging facts |
| Handler.AssembleOrder | code.py:171-189 | staging, installs and packaging concatenated are in order and install exactly the libraries |
| Handler.CreateStagingFacts | code.py:162-174 | the create path's steps before the installs are in order and fetch no version |
| Handler.CreateStaging | code.py:162-174 | the existence check exactly when the event names a layer, with that name, then clearing and making the staging folder, as the last two steps |
| Handler.UpdateStaging | code.py:63-73 | the version listing first and the unpack last; a version is fetched, and it is the given one; nothing is installed |
| Handler.ReadSteps | code.py:122-136 | the read-only steps are the update path's staging followed by the package listing |
| Handler.UpdateStagingFacts | code.py:63-73 | the update path's steps before the installs are in order and fetch the first listed version |
| Handler.BuildSteps | code.py:175-206 | the installs it records are the string prefix of the libraries, and the size is measured exactly when every library is a string |
| Handler.BuildStepsFacts | code.py:175-206 | staging followed by `BuildSteps` keeps order, the install facts, the error outcomes and the packaging facts (`BuildFacts`) |
| Handler.BuildUnread | code.py:176 | libraries that cannot be read end the request after the staging with the error |
| Handler.BuildStopped | code.py:176-177 | a library that is not a string ends the request after the installs before it, with TypeError and no measurement |
| Handler.BuildPacked | code.py:176-206 | with every library installed, the packaging steps follow and their facts hold of the whole trace |
| Handler.Build | code.py:175-206 | the trace is exactly the staging followed by `BuildSteps` and the outcome is `BuildOutcome`: installs in order up to the first non-string; an iteration error or a non-string library raises (TypeError for the latter) before the measurement; otherwise each packaging step once; with every fact of `BuildFacts` |
| Handler.CreateNew | code.py:148-206 | (`CreateNewRuns`) the trace and outcome are exact: a listed layer ends the request with only the existence check and the message; otherwise exactly `CreateStaging` (clearing and making the staging folder once each), then the installs up to the first non-string, which raises TypeError with no measurement, then each packaging step once; no version is ever fetched |
| Handler.Update | code.py:49-103 | (`UpdateRuns`) the trace and outcome are exact: a missing layer name raises KeyError with no effect; no listed version raises IndexError after the listing; otherwise exactly `UpdateStaging` for the first listed version (no clearing or making of a folder), then the installs up to the first non-string, which raises TypeError with no measurement, then each packaging step once |
| Handler.UpdateUnnamed | code.py:64 | without a `layer_name` key, `update` raises KeyError('layer_name') before any effect, whatever the other lookups and the size check give |
| Handler.UpdateUnlisted | code.py:64-65 | a layer with no listed version makes `update` raise IndexError right after the listing, which is its only effect |
| Handler.ReadStepsFacts | code.py:122-137 | the read-only steps are in order, fetch the first listed version, and never install, measure, zip, upload or publish |
| Handler.ReadOnly | code.py:106-145 | (`ReadOnlyRuns`) nothing is installed, measured, zipped, uploaded or published; the KeyError and IndexError cases; otherwise exactly `ReadSteps` for the first listed version, and the parsed `pip list` dictionary or its IndexError as outcome |
| Handler.Dispatch | code.py:36-46 | an event without an `action` key raises KeyError('action') with no call; for each known action, the result is that action's own result wrapped under its key, and the trace and that result are what `CreateNew`, `ReadOnly` or `Update` promise (`Performs`); a present but unknown action makes no call and returns `None`; the ordering, size, upload and version facts hold for every action |
| Handler.LambdaHandler | code.py:11-46 | for the guard as written and for the corrected one: a missing bucket key raises KeyError; a validator TypeError is raised; a diagnostic the guard stops is returned with no effect; as written, every validated event goes on to the probes; the failed probes return their messages; an event the corrected guard accepts has every required key; past the probes, a missing action raises KeyError('action'); otherwise the trace after the two probes and the result satisfy what the dispatch promises, including each action's own contract (`Performs`) |
| Handler.InvalidEventCarriesOn | code.py:11-36 | with the guard as written, the event `{"s3_bucket": "b"}` passes validation, reaches both probes and raises KeyError('action') |
| Handler.InvalidEventTurnedAway | code.py:11-22 | with the corrected guard, the same event gets its diagnostic back and nothing is called |

## Left out

- The AWS clients (`boto3`), `urllib`, `shutil`, `subprocess.run`, the file
  system, `os.walk` and `ZipFile` are not modelled. Their answers are the
  `World` given to each action, and their calls are effects in the trace.
- The two access probes are modelled as reachable or not. In the code the
  bucket probe is a lazy collection, so whether it can raise at all depends
  on `boto3`.
- The exception printed at code.py:101 and 204 is not modelled, only the
  UnboundLocalError that follows it.
- The `context` argument of `lambda_handler` is unused and not modelled.
- ZipFile's normalisation of archive names is not modelled. Neither is
  `os.path.join` beyond POSIX paths. Entries are the names the code passes.
- Validator.Repr: `str(list)` is rendered without the escaping and quote
  choice Python applies to names holding quotes or backslashes.
- PyText.ParseInt: `int()` of Unicode digits outside ASCII is modelled as a
  ValueError, so the model rejects strings Python would accept.
- PyText.ParseInt, PyText.ParseDecimal: CPython's default limit of 4300
  digits on decimal string conversion is not modelled. CPython raises
  ValueError for `int(s)` of a longer numeral and for `str(n)` of a larger
  `n`, while the model parses them, and the `int(str(n)) == n` round trip
  holds in CPython only below that limit. No `du` size comes near it.
- PyText.Split: whitespace is the fixed character set `str.split()` uses.
  There is no Unicode database.
- Numbers in the event are integers. JSON floats are not modelled.
- Concurrent invocations sharing `/tmp` are not modelled.
- `rm -rf /tmp/*` at code.py:172 runs without a shell, so it removes no
  files. The model records it as one step and gives it no effect on later
  answers.
- Handler.LambdaHandler takes the validation guard as a parameter, either
  as written or corrected (see Findings). Under the corrected guard every
  event with an empty value is turned away, including a `read_only` request
  whose `libraries` list is empty.
- An event with a repeated key is not excluded by the `Event` type. A
  decoded JSON object never has one (`Py.DistinctKeys`), and the validator's
  contracts hold either way.

## Findings

| source | as written | input that shows it | evidently intended | confidence | as-written member | corrected member |
|---|---|---|---|---|---|---|
| code.py:21-22 | `if not validate and len(validate) > 1` needs an empty string longer than one character, so it never holds and no validation result ends the request | the event `{"s3_bucket": "b"}` gets the diagnostic `Missing Keys: ['layer_name', 'libraries', 'action']`; the handler carries on through both probes and raises KeyError('action') | return any non-empty validation result | not executed | Handler.InvalidEventCarriesOn | Handler.InvalidEventTurnedAway |
