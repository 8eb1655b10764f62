# jopper, modelled in Dafny

jopper copies Joplin notes into an OpenWebUI knowledge base. This project
models its core:

- the SQLite state store (`state.py`);
- the reconciliation run of the sync engine (`sync.py`);
- the Markdown rendering of a note (`sync.py`);
- the OpenWebUI client (`openwebui.py`);
- the Joplin client's tag filter (`joplin.py`);
- configuration loading (`config.py`);
- the supervisor of the Joplin CLI server (`joplin_service.py`).

Each source file has its own module: `State`, `Sync` (with its run-level
lemmas in `SyncProofs`), `OpenWebUI`, `Joplin`, `Config` and `JoplinService`.
`Text` holds the Python string operations the others need. `Wrappers` holds
`Option` and `Result`.

The code that changes state step by step stays imperative:

- `StateManager` is a class whose `notes` map and `syncLog` sequence stand for
  the two tables.
- `OpenWebUIClient` caches the collection id in a field.
- `SyncEngine.Sync` runs the two loops of `sync` over the store. It is proved
  equal to the specification function `Sync.Run`, which folds `NoteStep`
  over the fetched notes and then applies `DeletePass`.
- `JoplinServerManager` keeps the process handle and the settings file in
  fields. Its readiness loop is proved equal to `ReadyWithin`.

The outside world is passed in as values:

- the Joplin server's data (`Joplin.Server`);
- the OpenWebUI endpoints (`OpenWebUI.Http`);
- SHA-256 (an uninterpreted function);
- the timestamp of a run;
- the ids for which the state store raises (`fails`);
- the operating system of the supervisor (`JoplinService.Os`).

What is proved about runs:

- A second run straight after a clean one reports nothing and changes no row.
- The counters of a run add up to at most the number of iterations.
- The deletion pass does not depend on the order in which the set of deleted
  ids is walked.
- After a clean run, the table holds exactly the fetched ids.

## Model

| member | source | states |
|---|---|---|
| State.StateManager.constructor | src/jopper/state.py:32-71 | the store opens on the given tables, with every row kept under its own id |
| State.StateManager.GetNoteState | src/jopper/state.py:85-114 | a row is returned exactly when the table holds the id, and it is that row |
| State.StateManager.HasNoteChanged | src/jopper/state.py:116-131 | true iff there is no row or the stored hash differs from the hash of the content; reads only |
| State.SaveRoundTrip | src/jopper/state.py:133-160 | after a save the row reads back with the given title, hash, time and file id, the note no longer counts as changed, and other rows are unchanged |
| State.StateManager.SaveNoteState | src/jopper/state.py:150-156 | INSERT OR REPLACE: the key gets the new row, other rows and the log are unchanged, and the note is no longer changed |
| State.StateManager.GetAllSyncedNoteIds | src/jopper/state.py:162-175 | an id is in the set iff the table has a row for it |
| State.StateManager.DeleteNoteState | src/jopper/state.py:177-190 | removes the id's row if there is one and is a no-op otherwise; other rows and the log are unchanged |
| State.StateManager.LogSync | src/jopper/state.py:192-215 | appends exactly one entry with the four counts; the notes table is unchanged |
| State.LatestEntry | src/jopper/state.py:231-234 | an entry of the log whose timestamp no other entry exceeds, none iff the log is empty |
| State.StateManager.GetStats | src/jopper/state.py:217-251 | total_notes is the number of rows; the last sync is present iff the log is non-empty, is an entry of the log, and no entry is later |
| State.StatsOf | src/jopper/state.py:217-251 | total_notes is the number of rows; the last-sync part is present iff the log is non-empty and comes from an entry with the greatest timestamp |
| Sync.DisplayTitle | src/jopper/sync.py:169 | never empty; the note's own title when it has one |
| Sync.Heading | src/jopper/sync.py:173-177 | empty iff the stripped body already starts with "# " and the title; otherwise the H1 heading and a blank line |
| Sync.Footer | src/jopper/sync.py:181-183 | present iff the note has an update time |
| Sync.NotebookLine | src/jopper/sync.py:185-189 | present iff the note has a parent and that notebook's looked-up title is non-empty |
| Sync.FormatNoteContent | src/jopper/sync.py:160-191 | the rendered note is the heading, then the body verbatim, then the footer and the notebook line; after leading white space it always opens with its heading |
| Sync.RenderingMergesHeadingOnly | src/jopper/sync.py:173-179 | two different notes, one with an empty body and one whose body is only the heading, render to the same content |
| Sync.NoteStep | src/jopper/sync.py:78-119 | one iteration: an unchanged note changes nothing; at most one counter grows; "new" means absent from the snapshot; an error leaves the table alone; a clean step leaves the note settled; other rows are untouched |
| Sync.Upload | src/jopper/sync.py:88-113 | a changed note is saved with the uploaded file id and counted once as new or updated, or it counts one error and nothing is saved |
| Sync.NotesPass | src/jopper/sync.py:78-119 | the loop over notes: counters only grow, one per note at most, and no row of an unfetched id changes |
| Sync.Gone | src/jopper/sync.py:122-136 | the deleted ids whose row goes: the store does not raise, and the row has no file or the remote delete succeeds |
| Sync.DeletePass | src/jopper/sync.py:121-140 | each deleted id counts once, as deleted when its row goes or as an error when it stays; no error iff every id was removable |
| Sync.DeleteStep | src/jopper/sync.py:122-140 | one deletion: the row goes and deleted grows, or the row stays and errors grows |
| Sync.DeletePassPeel | src/jopper/sync.py:122 | the pass over a set equals one step for any member followed by the pass over the rest, so the walk order does not matter |
| Sync.DeletePassEmpty | src/jopper/sync.py:122 | the pass over no id changes nothing |
| Sync.Run | src/jopper/sync.py:30-158 | tagged mode without tags returns success with zero counts and no change; a failed fetch changes nothing; otherwise exactly one log entry, with the counts, is appended |
| Sync.SyncEngine.constructor | src/jopper/sync.py:19-28 | the engine holds a fresh store and a fresh client over the given configuration |
| Sync.SyncEngine.GetStatus | src/jopper/sync.py:193-210 | host:port, the OpenWebUI URL, the knowledge base name, mode, tags and interval come from the configuration, and the statistics are `StatsOf` the store's tables |
| Sync.SyncEngine.Sync | src/jopper/sync.py:30-158 | the run's outcome, tables and log are those of `Run` on the old tables, and the collection id is cached |
| Sync.SyncEngine.SyncNotes | src/jopper/sync.py:77-119 | the loop over the fetched notes computes `NotesPass` |
| Sync.SyncEngine.SyncNote | src/jopper/sync.py:78-119 | one iteration computes `NoteStep` |
| Sync.SyncEngine.UploadNote | src/jopper/sync.py:88-113 | the changed-note branch computes `Upload` whatever the answer to deleting the old file |
| Sync.SyncEngine.RemoveDeleted | src/jopper/sync.py:121-140 | the loop over the deleted ids, in any order, computes `DeletePass` |
| Sync.SyncEngine.RemoveOne | src/jopper/sync.py:122-140 | one deletion computes `DeleteStep` |
| SyncProofs.RunCountsBounded | src/jopper/sync.py:71-140 | the sum of the four counters is at most the number of fetched notes plus the number of deleted ids |
| SyncProofs.RunRemovesVanished | src/jopper/sync.py:62-69 | the ids walked for deletion are the stored ids that were not fetched: such a row stays iff it was not removable, a fetched id's row is the notes pass's row, and no other id gets a row |
| SyncProofs.FirstRunOnlyCreates | src/jopper/sync.py:89 | a run from an empty store counts nothing as updated or deleted |
| SyncProofs.NotesPassNothingKnown | src/jopper/sync.py:89 | when no fetched id is in the snapshot, no note counts as updated |
| SyncProofs.NotesPassIgnoresDelete | src/jopper/sync.py:94-97 | the notes pass does not depend on the answers of the file delete or the collection add |
| SyncProofs.NotesPassQuiet | src/jopper/sync.py:88 | a pass over settled notes for which the store does not raise changes nothing |
| SyncProofs.NotesPassSettles | src/jopper/sync.py:88-110 | after a pass without errors every fetched note has a row and is no longer changed |
| SyncProofs.KeysAfterCleanRun | src/jopper/sync.py:78-140 | after a run without errors the table's keys are exactly the fetched ids, each settled |
| SyncProofs.FetchedSettled | src/jopper/sync.py:78-140 | after a run without errors every fetched note has a row and is not pending |
| SyncProofs.NoStrayRows | src/jopper/sync.py:62-69 | after a run without errors no row is left for an id that was not fetched |
| SyncProofs.SecondRunIsQuiet | src/jopper/sync.py:84-88 | idempotence: after a run without errors, a second run on the same notes and hash reports 0/0/0/0 and leaves the table as it was |
| OpenWebUI.SanitizeTitle | src/jopper/openwebui.py:189 | same length; safe characters kept and every other character replaced by `_` |
| OpenWebUI.SanitizeIdempotent | src/jopper/openwebui.py:189 | sanitising twice is sanitising once, and a safe title is unchanged |
| OpenWebUI.Filename | src/jopper/openwebui.py:190 | note id, `_`, the first at most 50 sanitised title characters, `.md` |
| OpenWebUI.FilenameSeparatesNotes | src/jopper/openwebui.py:190 | ids without `_` never share a filename |
| OpenWebUI.ConfiguredCollection | src/jopper/openwebui.py:70-71 | the configured collection id when it is truthy, none otherwise |
| OpenWebUI.OpenWebUIClient.constructor | src/jopper/openwebui.py:18-30 | the base URL has no trailing slash and the cache is empty |
| OpenWebUI.OpenWebUIClient.GetOrPromptCollection | src/jopper/openwebui.py:60-83 | returns the cached id, else the configured id (now cached), else none; every call answers the same |
| OpenWebUI.OpenWebUIClient.ListCollections | src/jopper/openwebui.py:32-58 | the collections when the request succeeds with a JSON content type, empty otherwise |
| OpenWebUI.OpenWebUIClient.UploadRequestFor | src/jopper/openwebui.py:98-115 | the `collection_name` field is sent iff a truthy collection id is given, and it carries the knowledge base name |
| OpenWebUI.OpenWebUIClient.UploadFile | src/jopper/openwebui.py:85-125 | none on a failed request; when the server answers an id, that id is the result |
| OpenWebUI.OpenWebUIClient.AttachUrl | src/jopper/openwebui.py:139 | the base URL, `/api/v1/knowledge/`, the collection id verbatim, then `/file/add` |
| OpenWebUI.AttachUrlsDistinct | src/jopper/openwebui.py:139 | different collections are addressed by different URLs |
| OpenWebUI.OpenWebUIClient.AddFileToCollection | src/jopper/openwebui.py:127-150 | true iff the POST of the file id to `AttachUrl` of that collection succeeds |
| OpenWebUI.OpenWebUIClient.FileUrl | src/jopper/openwebui.py:163 | the base URL, `/api/v1/files/`, then the file id verbatim |
| OpenWebUI.FileUrlsDistinct | src/jopper/openwebui.py:163 | different files are addressed by different URLs |
| OpenWebUI.OpenWebUIClient.DeleteFile | src/jopper/openwebui.py:152-173 | true iff the DELETE of `FileUrl` of that file succeeds |
| OpenWebUI.OpenWebUIClient.SyncNoteResult | src/jopper/openwebui.py:196-206 | the uploaded id iff it is truthy |
| OpenWebUI.OpenWebUIClient.SyncNote | src/jopper/openwebui.py:175-206 | returns `SyncNoteResult` and tries the collection add exactly when an id came back and a collection is configured |
| OpenWebUI.SyncNoteIgnoresAttach | src/jopper/openwebui.py:200-204 | the result does not depend on the collection endpoint |
| Joplin.GetAllNotes | src/jopper/joplin.py:25-36 | every note of the server, none iff the server fails |
| Joplin.MatchingTagIds | src/jopper/joplin.py:54 | exactly the ids of tags whose title is requested |
| Joplin.NotesByTags | src/jopper/joplin.py:38-75 | empty for no names or no matching tag; none only when the server fails |
| Joplin.GetNotesByTags | src/jopper/joplin.py:63-75 | the filtering loop computes `NotesByTags` |
| Joplin.CarryingSelects | src/jopper/joplin.py:65-75 | the selection keeps order and holds exactly the notes carrying a requested tag |
| Joplin.TagFilterIsUnion | src/jopper/joplin.py:72 | a note is selected for `a + b` iff it is selected for `a` or for `b` |
| Joplin.GetNote | src/jopper/joplin.py:77-92 | the note with that id, none iff the server fails or no note has it |
| Joplin.GetNotebookTitle | src/jopper/joplin.py:94-108 | the notebook's title, "" on any failure |
| Config.JoplinUrl | src/jopper/config.py:25-28 | `http://`, the host, a colon, then `str(port)` |
| Config.JoplinUrlPort | src/jopper/config.py:25-28 | the port reads back from the text after the host's colon |
| Config.MakeSyncConfig | src/jopper/config.py:49-51 | the tag list is never absent: a missing one becomes empty |
| Config.GetConfig | src/jopper/config.py:95-111 | a present environment variable wins, even empty; otherwise the YAML walk, with the default for a missing key, a non-mapping or a null |
| Config.DescendFirst | src/jopper/config.py:106-108 | the walk is an ordinary nested lookup |
| Config.DescendBroken | src/jopper/config.py:106-110 | once a key is missing or a value is not a mapping, the rest of the walk finds nothing |
| Config.DescendScalar | src/jopper/config.py:107-110 | nothing is found below a value that is not a mapping |
| Config.ParseTags | src/jopper/config.py:150-157 | a string gives non-empty pieces without surrounding white space; a list is kept; anything else gives no tags |
| Config.ParseTagsSelects | src/jopper/config.py:151-157 | a tag string gives exactly the non-empty stripped comma-separated pieces, in order and with repetitions; so a string is a tag iff it is a non-blank stripped piece |
| Config.ParseTagsSpaced | src/jopper/config.py:155 | two clean tags written as in `"work, personal"` give the two tags, the blank after the comma stripped |
| Config.StripPieces | src/jopper/config.py:155 | the kept pieces are not empty and neither start nor end with white space, and there are no more of them than pieces |
| Config.StripEachAt | src/jopper/config.py:155 | entry `i` of the stripped pieces is piece `i` stripped |
| Config.StripPiecesFilters | src/jopper/config.py:155 | the kept pieces are exactly the stripped pieces with the empty ones filtered out, repetitions included |
| Config.StripPiecesSelects | src/jopper/config.py:155 | the kept pieces are a subsequence of the stripped pieces, and a string is kept iff it is a non-blank stripped piece |
| Config.ParseTagsJoin | src/jopper/config.py:155 | parsing `a,b,c` written from clean tags gives the same tags in order |
| Config.ParseInt | src/jopper/config.py:123 | a number is read only from a string that is not blank once stripped |
| Config.ShowNat | src/jopper/config.py:123 | `str(n)` of a natural number is a non-empty string of decimal digits |
| Config.ParseShowInt | src/jopper/config.py:123 | `int(str(n)) == n` |
| Config.JoplinPart | src/jopper/config.py:113-124 | a missing or empty token is `MissingJoplinToken`; a loaded token is not empty, and the token, host and port are those of the settings |
| Config.OpenWebUIPart | src/jopper/config.py:126-147 | a missing URL, then a missing API key, is reported first; a loaded URL is the configured one with trailing slashes removed, and the key, knowledge base name and collection id are the settings |
| Config.SyncPart | src/jopper/config.py:150-171 | the tags are the parsed tags and the state path is the setting's text |
| Config.Assemble | src/jopper/config.py:113-173 | the sections are checked in the source's order and the first error wins |
| Config.LoadJoplinConfig | src/jopper/config.py:113-124 | computes `LoadJoplin` |
| Config.LoadOpenWebUIConfig | src/jopper/config.py:126-147 | computes `LoadOpenWebUI` |
| Config.LoadSyncConfig | src/jopper/config.py:150-171 | computes `LoadSync` |
| Config.LoadConfig | src/jopper/config.py:64-173 | computes `Load` |
| Config.LoadedConfigIsComplete | src/jopper/config.py:113-140 | a loaded configuration has a non-empty token and API key, a non-empty URL has no trailing slash, and the URL is the URL setting with trailing slashes removed |
| JoplinService.SetupSettings | src/jopper/joplin_service.py:36-63 | the file is rewritten with the configuration iff it is missing, unreadable or its `api.token` differs; afterwards it holds the configured token |
| JoplinService.SetupSettled | src/jopper/joplin_service.py:45-63 | a second setup changes nothing, and a file whose token matches is left alone |
| JoplinService.JoplinServerManager.constructor | src/jopper/joplin_service.py:22-34 | an empty profile directory selects the default; no process; the settings file is set up |
| JoplinService.PortListening | src/jopper/joplin_service.py:65-90 | true iff the port accepts a connection and `/ping` answers 200 |
| JoplinService.ReadyNeedsPing | src/jopper/joplin_service.py:178-192 | the loop answers true only after a ping, within the first `budget / 2000 + 1` rounds, before the budget is spent |
| JoplinService.ReadyWithinMonotone | src/jopper/joplin_service.py:178 | a larger time budget never turns a ready server into a failure |
| JoplinService.ExitedBeforePingFails | src/jopper/joplin_service.py:178-192 | a child that exits at any round before any ping answered 200 fails the wait |
| JoplinService.ExitedChildFails | src/jopper/joplin_service.py:180-187 | a child that has exited at the first poll fails the wait |
| JoplinService.JoplinServerManager.WaitForReady | src/jopper/joplin_service.py:164-198 | the polling loop computes `ReadyWithin` and terminates, so by `ExitedBeforePingFails` it answers false once the child exits before a 200 ping |
| JoplinService.StopSignals | src/jopper/joplin_service.py:206-213 | terminate, then a kill exactly when the process does not end within the wait |
| JoplinService.JoplinServerManager.Stop | src/jopper/joplin_service.py:200-219 | a no-op without a handle; otherwise the signals of `StopSignals`; the handle is always cleared |
| JoplinService.JoplinServerManager.IsRunning | src/jopper/joplin_service.py:221-229 | true iff there is a handle and the process is alive |
| JoplinService.JoplinServerManager.SyncCommand | src/jopper/joplin_service.py:239-257 | `joplin sync --profile <dir>` with the derived HOME and the configuration |
| JoplinService.JoplinServerManager.ServerCommand | src/jopper/joplin_service.py:122-140 | `joplin server start --profile <dir>` with the derived HOME and the configuration |
| JoplinService.JoplinServerManager.TriggerSync | src/jopper/joplin_service.py:231-276 | true iff the command exits with 0; a time-out, a missing executable and other errors give false |
| JoplinService.JoplinServerManager.Start | src/jopper/joplin_service.py:92-162 | spawns nothing when the process is alive or the port answers; a failed sync does not stop the start; a failed wait stops the child; a false answer leaves nothing running; a successful start sends no signal |
| JoplinService.KeptParts | src/jopper/joplin_service.py:128 | `pathlib` keeps only non-empty components other than ".", and keeps every piece when all are proper components |
| JoplinService.RootOf | src/jopper/joplin_service.py:128 | no root without a leading slash; exactly two leading slashes are kept as "//" |
| JoplinService.Parent | src/jopper/joplin_service.py:128 | `parent` drops the last component and keeps the root; a path without components is its own parent |
| JoplinService.HomeOfAbsolute | src/jopper/joplin_service.py:128-129 | the child's HOME is the profile directory without its last two components |
| JoplinService.DefaultProfileHome | src/jopper/joplin_service.py:32 | with the default profile directory, the child's HOME is the user's home |
| JoplinService.ParseAbsolute | src/jopper/joplin_service.py:128 | an absolute path with single slashes parses back into its components |

## Left out

- Logging, and the creation of the database directory and the profile directory (`mkdir`).
- SQLite and the database file: the two tables are the fields `notes` and `syncLog`.
- HTTP and the joppy library: the answers are the values `Http` and `Server`. The request headers and time-outs are not modelled.
- The reading of the YAML file and the `JOPPER_CONFIG_FILE` lookup (config.py:76-92): the parsed YAML is a parameter. YAML scalars are kept as their text.
- `cli.py` is not part of this model.
- The `__enter__` and `__exit__` context manager of the supervisor (joplin_service.py:278-285): each only calls `start` or `stop`.
- Reading the child's stderr, and the contents of `JOPLIN_CONFIG_JSON` beyond the configuration map.
- Time is modelled as whole milliseconds. A probe round lasts its cost plus the 2-second sleep.
- SHA-256 is an uninterpreted function. It is deterministic and is not assumed to be injective.
- `datetime.utcnow()` is one `now` value per run.
- Python's `isalnum` and `isspace` cover the ASCII range only.
- `int()` accepts a sign and decimal digits only. It does not accept underscores between digits or non-ASCII digits.
- Config.JoplinPart: a list or mapping given as the token or the host is reported as `NotText`. Python would store it unchecked, but the model types these settings as strings.
- Config.OpenWebUIPart: the same applies to the API key, the knowledge base name and the collection id.
- Config.SyncPart: the same applies to the sync mode.
- YAML scalars other than strings are not modelled as numbers or booleans. So a `token: 0` or `url: false` in YAML is falsy and raises in Python, but loads in the model as the text. A float port such as `41184.5` is `NotAnInteger` in the model, while Python's `int(41184.5)` gives 41184.
- OpenWebUI.OpenWebUIClient.AddFileToCollection and OpenWebUI.OpenWebUIClient.DeleteFile: beyond the URL they address, the answer is the `Http` value's. The JSON body and headers are not modelled.
- A top-level YAML document that is not a mapping is treated like a mapping without the keys.
- A settings file is a map from names to strings. Non-string JSON values and a JSON document that is not an object are not modelled.
- Sync.NoteStep: a null note title is modelled as "", the same as an empty title. In the source, a null title reaches the sanitiser, which raises and adds an error.
- Sync.NoteStep: the title absent from the note dictionary ("Untitled" at sync.py:80) is not modelled. Notes always carry the field.
- Sync.NoteStep: a store failure (`fails`) is modelled as raising at the first store access of its iteration. A failure after the old remote file was deleted or after the upload is not modelled.
- Sync.SyncEngine.RemoveOne: a store failure is likewise modelled as raising before the remote delete.
- Sync.SyncEngine.RemoveDeleted: the set of deleted ids is walked in an order the model does not fix. `Sync.DeletePassPeel` shows that the result is the same for any order.
- `SyncEngine.__init__` (sync.py:19) takes the configuration only, and the model follows it. `cli.py` passes an extra `joplin_server_manager` argument that this signature does not accept.
- State.LatestEntry: among log rows with equal timestamps, SQLite does not fix which row `ORDER BY timestamp DESC LIMIT 1` picks. The model picks one such row and states only that no row has a later timestamp.
- Config.ParseInt: the contract only states that a number comes from a non-blank string. `Config.ParseShowInt` states the round trip.
