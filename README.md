# AFRO-CLIPZ core decisions in Dafny

This project models three pieces of the AFRO-CLIPZ repository in Dafny and proves properties about them.

**The asset organizer** (`tools/organize_assets.py`) is the main piece. It is a batch job. For every file of an input directory it:

- skips system files;
- fingerprints the file's bytes and skips content the manifest already records;
- picks a category from the file name;
- resolves name collisions in the output tree with `stem_1.suffix`, `stem_2.suffix`, …;
- moves the file there and records an asset entry in a manifest keyed by relative path.

The batch driver then walks the input files in sorted order, counts organized and skipped files, saves the manifest when something was organized outside a dry run, and prints a checklist of required assets.

**The clipping pipeline's segment selection** (`app_enhanced.py`) decides whether a real language-model key is configured. Without one, it picks conversations with a stub that looks only at the transcript's length.

**The web front end's configuration checks** (`web.py`) cover `Settings.is_configured` and the gating of the Google sign-in, e-mail sign-in and checkout handlers.

## Modules

| file | module | contents |
|---|---|---|
| `wrappers.dfy` | `Wrappers` | `Option` and `Result` |
| `strings.dfy` | `Strings` | Python's `startswith`, `endswith` and `in` on strings, ASCII `lower()`, `str(n)` for naturals |
| `paths.dfy` | `Paths` | `rfind`, and `pathlib`'s `suffix` and `stem` |
| `ordering.dfy` | `Ordering` | Python's `<` on strings, and `sorted` on the names of a directory listing |
| `categorizer.dfy` | `Categorizer` | `CATEGORY_MAPPINGS`, `SPECIAL_FILES`, `get_category` |
| `organizer.dfy` | `Organizer` | the manifest, and the class `AssetOrganizer` with the duplicate scan, the collision loop, `organize_asset` and `main` |
| `clipper.dfy` | `Clipper` | `is_api_configured`, the segment stub, and the dispatch in `get_relevant_segments` |
| `web.dfy` | `WebApp` | `Settings`, `is_configured`, and the three handlers |

## How the organizer is modelled

`AssetOrganizer` is a class. Its fields are the state the job changes:

- `incoming`: the input directory, as a map from file name to bytes;
- `outputFiles`: the output tree, as a map from relative path to bytes;
- `manifestFile`: the manifest document on disk, if any;
- `manifest`: the manifest in memory.

The fingerprint (SHA-256 as hex), the MIME guesser and the image decoder are `const` function fields. They are deterministic but otherwise unknown. The clock is a parameter, `now`.

The constructor is the start of `main`: it loads the manifest once. `Run` requires the manifest to be that loaded document.

`Organize` is `organize_asset` as a function on a `Store`, which is the three changing fields as a value. It returns the reported destination and the new store. The lemmas `OrganizeDecides`, `OrganizeKeeps` and `OrganizeRecords` state what one call decides, keeps and records.

`OrganizeAsset` is the method that does one call in place. Its contract ties its result and new state to `Organize` on the old state, and spells out the new state:

- the file leaves `incoming`;
- the file appears at the returned path;
- exactly that manifest key is written, with the record the source builds.

`ResolveDestination` is the source's `while dest_path.exists()` loop. Its specification is `ResolvesTo`: the chosen path is free, and every earlier candidate was taken. Termination is over the finite set of taken paths that have not been tried yet.

The loop of `main` is `OrganizeAll`. It returns the status lines and a ghost sequence `states`, with one store before each step and one after the last. `Trace` says that these are what the steps do: for each `k`, line `k` and store `k + 1` are what `Organize` gives for file `k` from store `k`. The `Trace…` lemmas derive what a whole run does from that:

- each line reports the step's real outcome (`TraceLines`);
- the lines are determined by the files and the first store (`TraceDetermined`);
- nothing is lost from the output tree or the manifest (`TraceKeeps`);
- skipped files stay where they are (`TraceSkippedStay`);
- outside a dry run, organized files are recorded (`TraceRecorded`);
- outside a dry run, and with a manifest that lists only files of the tree, every non-system file's fingerprint ends up in the manifest (`TraceFingerprints`).

`Run` states the consequences for the object itself.

`Run` is `main` after argument parsing. The source sorts `Path` objects (tools/organize_assets.py:272). On POSIX they all share the input directory as parent and compare case-sensitively, so this is the same as sorting their names. `SortNames` makes the order explicit. `SortedUnique` shows it is the only strictly increasing arrangement, so it is the order `sorted` gives.

## Model

| member | source | states |
|---|---|---|
| Strings.Contains | tools/organize_assets.py:103 | `pattern in filename` is true exactly when the pattern occurs at some position of the name |
| Strings.Lower | tools/organize_assets.py:98-99 | lowering keeps the length and lowers every character on its own (ASCII letters to lower case, all else unchanged) |
| Strings.Decimal | tools/organize_assets.py:171 | `str(counter)` is a non-empty run of decimal digits that spells `counter` read in base ten, with no leading zero; it has a single digit exactly below 10 |
| Strings.DecimalInjective | tools/organize_assets.py:171 | different counters render as different digit strings |
| Paths.LastIndexOf | tools/organize_assets.py:169-170 | the index of the last dot: -1 exactly when there is none; otherwise a dot with no dot after it |
| Paths.Suffix | tools/organize_assets.py:170 | `path.suffix`: present exactly when the last dot of the name is neither its first nor its last character, and then the name from that dot on; otherwise empty |
| Paths.Stem | tools/organize_assets.py:169 | `path.stem`: stem followed by suffix is the name, and a non-empty name has a non-empty stem |
| Paths.LowerSuffix | tools/organize_assets.py:98-99 | the lower-cased suffix is the suffix of the lower-cased name |
| Ordering.LessLexicographic | tools/organize_assets.py:272 | Python's `<` on names is the lexicographic order by code point: a proper prefix comes first, otherwise the first differing character decides |
| Ordering.LessIrreflexive | tools/organize_assets.py:272 | no name sorts before itself |
| Ordering.LessTransitive | tools/organize_assets.py:272 | the order on names is transitive |
| Ordering.LessTotal | tools/organize_assets.py:272 | any two different names are ordered one way or the other |
| Ordering.LessAsymmetric | tools/organize_assets.py:272 | the order never holds both ways |
| Ordering.SortedDistinct | tools/organize_assets.py:272 | a sorted listing names no file twice |
| Ordering.Least | tools/organize_assets.py:272 | a member of the set that sorts before every other member |
| Ordering.SortNames | tools/organize_assets.py:254-272 | the listing comes out strictly increasing, with every input name and nothing else, once each |
| Ordering.SortedUnique | tools/organize_assets.py:272 | two strictly increasing sequences with the same names are equal, so the sorted order is determined by the names |
| Categorizer.FirstMatch | tools/organize_assets.py:102-104 | no label exactly when no pattern occurs in the name; otherwise the label of the first pattern in table order that occurs |
| Categorizer.ExtensionCategory | tools/organize_assets.py:107 | the table's label for a listed suffix, `misc` for any other |
| Categorizer.GetCategory | tools/organize_assets.py:96-107 | one of the ten labels; `hero` when the flag-pick name occurs; otherwise `brand` when `logo` or `favicon` occurs; with no pattern, the table's label for the lower-cased suffix |
| Categorizer.CategoryIgnoresCase | tools/organize_assets.py:98-99 | names equal after lowering get the same label |
| Categorizer.LogoGifIsBrand | tools/organize_assets.py:68-72 | the name pattern wins over the extension: `logo.gif` is `brand`, not `hero` |
| Categorizer.ClipHasNoPattern | tools/organize_assets.py:68-72 | none of the three patterns occurs in `clip.mp4` |
| Categorizer.ClipSuffix | tools/organize_assets.py:99 | the suffix of `clip.mp4` is `.mp4` |
| Categorizer.ClipIsVideo | tools/organize_assets.py:96-107 | `clip.mp4` is `video` |
| Organizer.LoadManifest | tools/organize_assets.py:116-125 | no document on disk gives version `1.0`, no save time and no assets; a document on disk is taken as it is |
| Organizer.IsSystemFile | tools/organize_assets.py:147 | a file is a system file exactly when its name starts with a dot or is `README.md` (`.gitkeep` is one of the dot names) |
| Organizer.HashTagInjective | tools/organize_assets.py:156 | different digests give different `sha256:` fingerprints |
| Organizer.InsertKeepsHashesUnique | tools/organize_assets.py:155-201 | writing a record whose fingerprint no entry carries keeps fingerprints unique, even over a stale entry at the same path |
| Organizer.ConcatCancel | tools/organize_assets.py:164-173 | paths with the same prefix and suffix are equal only when their middles are |
| Organizer.NumberedNameInjective | tools/organize_assets.py:169-171 | different counters give different numbered names, and none of them is the original name |
| Organizer.CandidateInjective | tools/organize_assets.py:164-173 | the collision loop never tries the same path twice |
| Organizer.NotYetTried | tools/organize_assets.py:167-174 | a later attempt is never one of the paths already tried |
| Organizer.TriedGrows | tools/organize_assets.py:168-174 | each taken attempt joins the tried paths and shrinks the set of taken paths not yet tried, so the loop ends |
| Organizer.StopsAtFirstFree | tools/organize_assets.py:168-174 | stopping at a free candidate, with every earlier one taken, is the resolution |
| Organizer.ResolutionUnique | tools/organize_assets.py:162-174 | category, name and existing paths determine the destination |
| Organizer.StopIndex | tools/organize_assets.py:167-174 | started with the earlier attempts taken, the loop stops at an attempt that is the resolution |
| Organizer.Destination | tools/organize_assets.py:162-174 | every finite output tree leaves a resolution for every name |
| Organizer.FreeNameKept | tools/organize_assets.py:163-168 | a free `category/name` is used unchanged |
| Organizer.ResolutionInCategory | tools/organize_assets.py:161-174 | the destination is not an existing path and starts with `category/` |
| Organizer.PlacementKeepsOthers | tools/organize_assets.py:182-201 | moving a file to a free path keeps every existing file and every entry recorded at one |
| Organizer.LogoNumberedNames | tools/organize_assets.py:169-171 | the first two numbered names of `logo.png` are `logo_1.png` and `logo_2.png` |
| Organizer.SecondNumberAfterTwoTaken | tools/organize_assets.py:166-174 | with the plain path and the first numbered path taken, the loop resolves to the second numbered path |
| Organizer.LogoCollisions | tools/organize_assets.py:166-174 | with `brand/logo.png` and `brand/logo_1.png` taken, the next logo goes to `brand/logo_2.png`: numbers restart from the original stem and never compound |
| Organizer.MimeOr | tools/organize_assets.py:110-113 | the guessed type, or `application/octet-stream` when there is none |
| Organizer.RequiredReport | tools/organize_assets.py:293-299 | one line per required asset, with its name and purpose; found exactly when its name occurs in some manifest path |
| Organizer.LogExtended | tools/organize_assets.py:272-277 | a step that keeps recorded files in place and sends its file to a fresh path keeps the log recorded, with distinct destinations |
| Organizer.Names | tools/organize_assets.py:272 | the file names of the status lines, one per line, in order |
| Organizer.CountOrganized | tools/organize_assets.py:274-277 | the organized count never exceeds the number of processed files; it is zero exactly when every status line is a skip, and the full number exactly when none is |
| Organizer.AssetOrganizer.constructor | tools/organize_assets.py:250-251 | the job starts from the given directories, with the manifest loaded from disk |
| Organizer.AssetOrganizer.MakeRecord | tools/organize_assets.py:186-198 | the record carries the original name, the `sha256:` fingerprint of the bytes, their size, the category and the time; its MIME type is never empty; its dimensions are the decoder's answer |
| Organizer.AssetOrganizer.Organize | tools/organize_assets.py:136-203 | one call leaves every other input file with its bytes; a skip or a dry run leaves the store as it was |
| Organizer.AssetOrganizer.OrganizeDecides | tools/organize_assets.py:147-174 | the call skips exactly the system files and the files whose fingerprint the manifest holds; any other file gets the first free path of its category, which is new and starts with `category/` |
| Organizer.AssetOrganizer.OrganizeKeeps | tools/organize_assets.py:155-201 | the call keeps every file of the output tree, every entry recorded at one of them, the version and save time, unique fingerprints, and a manifest that lists only files of the tree |
| Organizer.AssetOrganizer.OrganizeRecords | tools/organize_assets.py:182-201 | outside a dry run an organized file leaves the input directory, sits at its destination with its bytes and is recorded there; the manifest then holds the fingerprint of every non-system file, organized or duplicate |
| Organizer.AssetOrganizer.OrganizeKeepsFingerprints | tools/organize_assets.py:155-201 | with a manifest that lists only files of the tree, no fingerprint is forgotten |
| Organizer.AssetOrganizer.FreshFileKeepsName | tools/organize_assets.py:160-168 | a non-system file with a new fingerprint whose plain `category/name` is free goes there under its own name |
| Organizer.AssetOrganizer.SameContentSkipped | tools/organize_assets.py:152-158 | identity is the content: outside a dry run, after a non-system file has been through a step, a copy of its bytes under any other name is skipped |
| Organizer.AssetOrganizer.TraceExtend | tools/organize_assets.py:272-277 | one more call of `organize_asset` extends the run by one line and one state |
| Organizer.AssetOrganizer.StepDecides | tools/organize_assets.py:147-174 | a run's line is empty exactly for a system file or a fingerprint held before that step, and otherwise the first free path in the tree before that step |
| Organizer.AssetOrganizer.StepLine | tools/organize_assets.py:272-277 | a line names its file, and a skipped step changes nothing |
| Organizer.AssetOrganizer.StepKeeps | tools/organize_assets.py:155-201 | one step of a run keeps what `OrganizeKeeps` says |
| Organizer.AssetOrganizer.StepUntouched | tools/organize_assets.py:182 | a step moves only its own file |
| Organizer.AssetOrganizer.StepRecordedAt | tools/organize_assets.py:182-201 | outside a dry run a step keeps the log so far recorded with distinct destinations |
| Organizer.AssetOrganizer.StepFingerprints | tools/organize_assets.py:152-201 | outside a dry run and when the manifest lists only files of the tree, a step forgets no fingerprint and leaves its own file's fingerprint recorded, unless it is a system file |
| Organizer.AssetOrganizer.StepDetermined | tools/organize_assets.py:136-203 | the same step from the same state gives the same line and the same next state |
| Organizer.AssetOrganizer.TraceLines | tools/organize_assets.py:272-277 | every line of a run names its file; it is empty exactly for a system file or a fingerprint the manifest holds when its step comes, and otherwise the first free path of the file's category in the tree at that moment |
| Organizer.AssetOrganizer.TraceDetermined | tools/organize_assets.py:272-277 | the lines and the states of a run are determined by the sorted files and the first state |
| Organizer.AssetOrganizer.TraceDryRun | tools/organize_assets.py:176-178 | a dry run changes nothing |
| Organizer.AssetOrganizer.TraceKeeps | tools/organize_assets.py:272-277 | a run keeps every file of the output tree, every entry recorded at one, the version and save time, and unique fingerprints |
| Organizer.AssetOrganizer.TraceUntouched | tools/organize_assets.py:272-277 | an input file no step processes keeps its bytes |
| Organizer.AssetOrganizer.TraceReaches | tools/organize_assets.py:272-277 | each file still has its original bytes in the input directory when its turn comes |
| Organizer.AssetOrganizer.TraceSkippedStay | tools/organize_assets.py:272-277 | every skipped file is still in the input directory after the run, with its bytes |
| Organizer.AssetOrganizer.TraceRecorded | tools/organize_assets.py:272-277 | outside a dry run every organized file is at its destination and recorded there under its name, and no two share a destination |
| Organizer.AssetOrganizer.TraceFingerprints | tools/organize_assets.py:272-277 | outside a dry run, with a manifest that lists only files of the tree, every non-system file ends with its fingerprint in the manifest |
| Organizer.AssetOrganizer.FindDuplicate | tools/organize_assets.py:154-158 | nothing exactly when no entry carries the fingerprint; otherwise a path whose entry carries it |
| Organizer.AssetOrganizer.ResolveDestination | tools/organize_assets.py:162-174 | the first of `category/name`, `category/stem_1.suffix`, … that is not in the output tree |
| Organizer.AssetOrganizer.OrganizeAsset | tools/organize_assets.py:136-203 | result and new state are those of `Organize`. System files and duplicates give nothing and change nothing; otherwise the resolved path is returned. A dry run changes nothing. A commit moves the file there and writes exactly that manifest key, with the name, fingerprint and category. Other files and recorded entries stay; fingerprints stay unique; a manifest that covers only existing files still does |
| Organizer.AssetOrganizer.Commit | tools/organize_assets.py:181-201 | the file leaves the input directory, appears at the destination, and exactly that key gets its record |
| Organizer.AssetOrganizer.OrganizeNext | tools/organize_assets.py:272-277 | one file processed: its line is the outcome of `Organize`, empty exactly for a system file or a held fingerprint and otherwise the first free path; the other input files keep their bytes; a dry run changes nothing |
| Organizer.AssetOrganizer.OrganizeAll | tools/organize_assets.py:269-277 | one line per file, in order, forming a `Trace` from the old state to the new one; organized is the number of lines with a destination, and organized plus skipped is the file count; a dry run changes nothing |
| Organizer.AssetOrganizer.OrganizeBatch | tools/organize_assets.py:269-300 | the loop, then a save with the time exactly when not a dry run and something was organized, then the checklist read from the final manifest |
| Organizer.AssetOrganizer.Run | tools/organize_assets.py:250-300 | an empty input directory stops early. Otherwise every input file gets one line, in sorted order, forming a `Trace` that ends in the final state. The counts add up. The manifest is saved exactly when not a dry run and something was organized. Outputs and the entries at them are kept, fingerprints stay unique, and skipped files stay with their bytes. Outside a dry run, organized files are recorded at distinct paths, and every non-system file's fingerprint is in the manifest when the manifest listed only existing files. A dry run changes nothing |
| Organizer.AssetOrganizer.RunKeeps | tools/organize_assets.py:269-300 | what a run keeps: the output tree, the entries at its files, unique fingerprints, and skipped files with their bytes |
| Organizer.AssetOrganizer.RunRecords | tools/organize_assets.py:269-300 | what a run outside a dry run records: organized files at distinct destinations under their names, and every non-system file's fingerprint when the manifest listed only existing files |
| Organizer.AssetOrganizer.FirstIntoEmpty | tools/organize_assets.py:147-203 | outside a dry run, the first non-system file into an empty tree and manifest goes to `category/name` and becomes the only file and the only fingerprint |
| Organizer.AssetOrganizer.CopyScenario | tools/organize_assets.py:147-203 | outside a dry run, two non-system files with different fingerprints and different plain destinations, and a copy of the first, into an empty tree: the first and the third go to their categories under their own names, and the copy is skipped (two organized, one skipped) |
| Clipper.GroqKeyFromEnv | app_enhanced.py:33 | the environment's key, or `groq-key` when it sets none |
| Clipper.IsApiConfigured | app_enhanced.py:46-49 | not configured exactly when the key is empty, is `groq-key`, or starts with `placeholder` |
| Clipper.UnsetKeyIsNotConfigured | app_enhanced.py:46-49 | with no key in the environment the API is not configured |
| Clipper.StubbedSegments | app_enhanced.py:129-164 | at most two ranges; none exactly when the transcript has fewer than 3 segments; the first spans segments 0 to 2; a second, spanning 3 to 5, exactly when there are at least 6 |
| Clipper.StubIgnoresQuery | app_enhanced.py:129-164 | the stub's answer does not depend on the query |
| Clipper.RelevantSegments | app_enhanced.py:167-232 | the stub when the key is not real; the model's conversations when it is and the answer parsed; the stub again when the request or parsing failed |
| Clipper.UnconfiguredIgnoresModel | app_enhanced.py:171-172 | without a real key the model's answer is never consulted |
| WebApp.SettingsFromEnv | web.py:32-62 | every string setting is the environment's value when the variable is set and its default otherwise (`0.0.0.0` for the host, `base` for the Whisper model, the random token for the session secret, `''` for the rest); debug is on exactly when the variable is `true` in any case, invite-only likewise but on when unset; the port is the given one |
| WebApp.GetAttribute | web.py:33-68 | `getattr(cls, key, '')`: an integer exactly for `PORT`, a boolean exactly for `DEBUG` and `INVITE_ONLY`, the method exactly for `is_configured`; the value of the named setting for `PORT`, `DEBUG`, `INVITE_ONLY` and each of the twelve string settings; a non-empty string for the class's docstring, names and module; `''` for any other name |
| WebApp.IsConfigured | web.py:64-71 | True exactly when every named setting is a non-empty string that starts neither with `stub` nor with `placeholder` (so True for no keys); string settings never raise; it raises exactly when some key, all of whose predecessors pass, names a truthy non-string, and the error names such a key |
| WebApp.Fetch | web.py:66-67 | the attribute each key names, one per key and in order |
| WebApp.CheckValues | web.py:66-71 | the loop over the fetched values: True exactly when every value passes; strings never raise; it raises exactly when a truthy non-string is reached past values that all pass, and the error is that value's key |
| WebApp.RaisesAfterPassing | web.py:66-70 | behind a first value that passes, the check never raises at the first place, and raises at place i exactly when it raises at place i - 1 of the rest |
| WebApp.FailingKeyMakesUnconfigured | web.py:67-70 | among string settings, one failing key makes the answer False |
| WebApp.ClassAttributesChecked | web.py:33-71 | the class docstring passes the check, and the method name makes it raise |
| WebApp.GoogleAuth | web.py:1070-1079 | status 501 exactly when the client id is empty; otherwise a redirect to `/app` |
| WebApp.EmailAuth | web.py:1081-1090 | status 403 exactly when invites are required and the code is missing or empty; otherwise a redirect to `/app` |
| WebApp.EmailCodeNeverChecked | web.py:1084-1090 | any two non-empty codes, with any e-mail addresses, get the same redirect |
| WebApp.CreateCheckout | web.py:1096-1120 | 501 without a billing key, whatever the plan; then 404 for an unknown plan; otherwise the plan's entry and a URL on the checkout base that ends in the plan id |
| WebApp.EmptyEnvironmentGates | web.py:1070-1103 | with an empty environment, Google sign-in gives its 501 error, e-mail sign-in without a code gives 403, and checkout gives 501 |

## Behaviour of the source worth knowing

- Dimensions are read for every committed file, whatever its category. `get_image_dimensions` is called on every destination, and its answer is kept whenever it decodes (tools/organize_assets.py:196-198). The model does the same through `imageSize`.
- A manifest entry can be overwritten. The collision loop asks only whether a file exists at the path (tools/organize_assets.py:168). The path then becomes the manifest key (201), so a stale entry whose file is gone is replaced. `OrganizeAsset` and `Run` promise to keep entries only at paths that exist. The promise that every fingerprint ends up in the manifest holds only when the manifest's keys are all existing files. Uniqueness of fingerprints holds regardless.
- An empty input directory ends the run before the summary and the checklist (tools/organize_assets.py:256-258). `Run` returns `NoFiles` and reports neither.
- Within one dry run, a second copy of some content is reported as "would move", not as a duplicate. The duplicate scan reads the manifest in memory (155-158), and a dry run returns before writing to it (176-178). The model keeps this: a dry run changes nothing.
- `is_configured` looks keys up with `getattr` on the class (web.py:68). So class attributes that are strings pass like settings: `is_configured('__doc__')` is True, because the docstring (web.py:33) is a non-empty string. A truthy value without `startswith` raises `AttributeError` (web.py:69). Among the modelled attributes, those values are `PORT` when non-zero, `DEBUG` or `INVITE_ONLY` when true, and the method `is_configured` itself. Every truthy attribute the class inherits without `startswith` (such as `__dict__`, `__init__` or `__class__`) raises as well.
- `is_api_configured` returns the key itself, `''`, when the key is empty (app_enhanced.py:49). Both callers use only its truthiness (171, 264). `Clipper.IsApiConfigured` is that truth value.

## Left out

- Hashing: SHA-256 itself and the 4096-byte chunked reading (tools/organize_assets.py:75-81). The hex digest is the uninterpreted function `digest` of the file's bytes.
- PIL and `mimetypes` (tools/organize_assets.py:84-93, 110-113). They are the function fields `imageSize` and `guessMime`. Their failures are folded into `None`.
- The UTC clock: one parameter `now` stands for every `datetime.utcnow()` call of a run. The source calls it separately for each record's `uploaded_at` (tools/organize_assets.py:192) and for the manifest's `generated_at` at the save (130), so in the source these times can differ.
- JSON reading and writing of the manifest, `mkdir`, and the status lines printed. The manifest on disk is the field `manifestFile`, and a save replaces it. Reading a manifest file that lacks `assets`, or records that lack `content_hash`, is not modelled: a loaded manifest always has both.
- `argparse` and the input-directory checks that exit with status 1 (tools/organize_assets.py:207-248).
- The atomicity of `shutil.move` and the window between moving files and saving the manifest. The model's steps are atomic. Input and output trees are disjoint, and the manifest file is not one of the input files.
- A directory, rather than a file, at a destination path, and a file whose path is a category directory (an output file `images` beside `images/x`). The output tree holds files only. In the source, the second case raises at the `mkdir` at tools/organize_assets.py:181, because `exist_ok` tolerates only an existing directory.
- Which duplicate path the scan names when several entries share a fingerprint. In the source that depends on dict order; `FindDuplicate` returns some matching path.
- Ordering.SortNames: the order of `Path` objects is taken to be the order of their names, which holds for POSIX paths. Windows paths compare case-insensitively, and that order is not modelled.
- Paths.Suffix: follows `pathlib` up to Python 3.13, where a suffix needs at least one character after the last dot. Later versions treat a trailing dot differently.
- Non-ASCII case mapping in `str.lower()`. `Lower` maps only `A`–`Z`.
- Clipper.StubbedSegments: the source's `len(transcript) > 0` guard is kept. Segment times are `real` values that are only copied, never computed with.
- Whisper transcription, the `ffmpeg` call and the moviepy editing (app_enhanced.py:105-126, 235-253). They are foreign libraries.
- The Groq HTTP request and `ast.literal_eval` of its answer (app_enhanced.py:174-232). Their outcome is the parameter `modelAnswer` of `RelevantSegments`: `None` stands for a request or parsing failure.
- `CostMonitor` (app_enhanced.py:52-102). It reads memory and writes log files.
- The HTML templates, the FastAPI app, CORS, static files and uvicorn startup. The handlers are pure functions from settings and inputs to a response.
- The webhook handler. It calls `hashlib.hmac`, which does not exist, so it raises before any HMAC check (RFC 2104). The job, health and config endpoints return canned values. The module-level `sessions`, `invites` and `users` dicts are never read or written by the handlers shown.
- WebApp.GetAttribute: of the attributes a class inherits, only `__doc__`, `__name__`, `__qualname__` and `__module__` are modelled, plus the method `is_configured`. Every other name yields `''` here, including `__dict__`, `__init__`, `__class__` and `__annotations__`. For most of those the source gets a truthy object without `startswith` and raises. `__module__` is `web` when the file is imported and `__main__` when it is run as a script; either passes the check.
- WebApp.SettingsFromEnv: the parsing of `PORT` with `int` is a parameter, and so is the random token `secrets.token_hex(32)`.
