# Status-file notifier: a verified model of its registry and poller

The tool watches JSON status files on the local machine and forwards them to a
dashboard over HTTP from a background process. This project models the parts of
it that make decisions:

- **The registry** (`src/config.rs`, module `Registry`). This is a map from repo
  name to the status file registered under it, written through to a TOML file on
  every change. `watch` resolves a path to a key and a stored file. It decides
  which name is the key: an explicit name verbatim, otherwise the containing
  folder's name for a `.json` file and the final component for anything else. It
  decides what is stored: a path with any extension as it is, otherwise the path
  joined with an entry found inside it whose extension is `json` and whose name
  contains `status_` anywhere. `remove` deletes a key and
  `reload` re-reads the file. The class `Registry.Config` holds the in-memory map
  and the file's content.
- **The poll cycle** (`src/server.rs`, `Server.Server.PostUpdates` and
  `Server.BuildBatch`). It reloads the registry and refuses an empty one. It reads,
  parses and tags every entry with its key, stopping at the first failure. Only
  when every entry loaded does it send one POST carrying the whole batch. The
  result is the dashboard's 2xx verdict.
- **The pid marker and the lifecycle** (`Server.Server.IsRunning`, `Stop`,
  `Cleanup`, `Start`, `Serve`). A stale marker is deleted when probed. `stop`
  signals only a live, parseable pid. `start` returns at once when a live
  instance holds the marker. The loop checks for a stop request before each
  cycle and only logs cycle errors.

The modules are `Wrappers` (Option, Result), `Errors` (every failure, including
those the tool raises by panicking), `Paths` (the `std::path` rules used on
canonical absolute paths), `JsonValues`, `Pids` (marker text: trimming, `u32`
parsing, decimal form), `Registry` and `Server`.

Everything outside the process is an input to the model:

- the filesystem: the existing paths, folder listings and file contents;
- the registry file's content (`Registry.Backing`);
- the JSON parser (a function from text to an optional payload);
- process liveness (a predicate on the marker text);
- how `kill` ended (`Server.KillOutcome`);
- the dashboard's reply (`Server.HttpResponse`);
- and, per loop iteration, whether a termination signal is pending (`Server.Tick`).

The batch is built in an order the model leaves open, as `HashMap` iteration
leaves it open. Its properties are therefore stated per key, or over some
enumeration of the keys (`Server.IsBatchFor`).

Behaviours of the code worth noting, which the model follows:

- Default repo name of a `.json` file path: it is the name of the folder that
  holds the file, not the file's own name (`src/config.rs:60-65`).
- A failure to detach in `start`: the marker is deleted and `start` still
  returns `Ok` (`src/server.rs:92-96`).
- A registry file that cannot be parsed does not produce an error that callers
  see. `read_toml` panics (`src/config.rs:31`). In the background loop that panic
  ends the process and leaves the marker behind (`Server.StartEnd.Panicked`).
- `watch` failures (missing path, no derivable name, no status file) are panics
  in the code. The model reports them as `Err` results that leave the map and the
  file unchanged, which is the effect of a panic before the insert.

## Model

| member | source | states |
|---|---|---|
| `Paths.ExtensionOf` | src/config.rs:59-60 | The extension is the text after the last `.`, contains no `.`, and is preceded by a non-empty stem. There is none exactly when the name has no `.` after its first character, or is `..`. |
| `Paths.Contains` | src/config.rs:81-85 | True exactly when the pattern occurs at some position of the name. |
| `Paths.DisplayJoin` | src/config.rs:43-45 | Joining a discovered name onto a folder gives the folder's text, then `/`, then the name. `Registry.ResolveWatch` states its stored text with it. |
| `Registry.FindStatusEntry` | src/config.rs:77-86 | A found name is a readable entry of the listing with extension `json` that contains `status_`. Nothing is found exactly when no readable entry is such a name. |
| `Registry.DiscoverStatusFile` | src/config.rs:74-88 | Returns some matching entry of the folder. Returns none exactly when the folder cannot be listed or no entry matches. |
| `Registry.RepoName` | src/config.rs:59-72 | A path with extension exactly `json` yields its parent folder's final component. Any other path yields its own final component. None, the panic, at the root or for a `.json` file at the root. |
| `Registry.ResolveWatch` | src/config.rs:34-48 | A missing path fails with `PathNotFound`. An explicit name is the key verbatim, otherwise the derived name is. A path with an extension is stored unchanged; one without is joined with a discovered status file, stored as the folder's text, `/`, then the name. A failed discovery is `NoStatusFileFound`. Each error happens exactly under its condition. |
| `Registry.Config.WriteBackThenReload` | src/config.rs:90-93 | Writing the map back and then reloading succeeds, leaves the in-memory map unchanged and the file equal to it. |
| `Registry.Config.CreateOrLoad` | src/config.rs:16-27 | Loads the stored map when the file exists and starts empty when it does not. An unparseable file is `ConfigCorrupt`. |
| `Registry.Config.WriteBack` | src/config.rs:90-93 | The file holds exactly the in-memory map. |
| `Registry.Config.WatchFile` | src/config.rs:34-57 | On success the resolved key maps to the resolved file, overwriting any earlier entry. Every other key is unchanged, and the file equals the new map. On failure the map and the file are untouched. |
| `Registry.Config.Remove` | src/config.rs:106-122 | A present key is deleted alone, the file rewritten, and its value returned. For an absent key the map and the file are unchanged. |
| `Registry.Config.WatchThenRemove` | src/config.rs:106-118 | Watching and then removing the added key leaves the old registry minus that key, with the file in step. |
| `Registry.Config.Reload` | src/config.rs:124-130 | If the file exists, the map becomes its content. If it is absent, the map is kept. The file is never written. Only an unparseable file fails. |
| `JsonValues.WithProject` | src/server.rs:112 | The result is an object whose `project` is the repo name. Every other field of the payload is present with its value unchanged, and no other field is added. |
| `Pids.TrimStart` | src/server.rs:132 | Removes exactly the leading whitespace run. |
| `Pids.TrimEnd` | src/server.rs:132 | Removes exactly the trailing whitespace run. |
| `Pids.ParseU32` | src/server.rs:132 | Parsing succeeds exactly when the text is one or more decimal digits, optionally after a single `+`, whose value is below 2^32; the result is that value. Text starting with `-` is rejected. |
| `Pids.Decimal` | src/server.rs:42-43 | The pid text written to the marker is non-empty decimal digits without a leading zero, denoting the pid. |
| `Pids.ParsePidOfDecimal` | src/server.rs:131-133 | Trimming and parsing the marker the daemon wrote gives back the pid it wrote. |
| `Server.LoadEntry` | src/server.rs:109-112 | An entry fails exactly when its file is unreadable or does not parse. An unreadable file's error names its path. A loaded value is the parsed payload with `project` set to the key, every other field unchanged. A file that does not parse is `StatusFileInvalid`. |
| `Server.EnumerationSize` | src/server.rs:108 | A list naming each registry key exactly once is as long as the registry. |
| `Server.BatchCoversRegistry` | src/server.rs:107-114 | A batch has exactly one element per entry: same length as the registry, every key's tagged payload present, no two elements with the same `project`. |
| `Server.BuildBatch` | src/server.rs:107-114 | Visits distinct keys. It succeeds exactly when every entry loads, and then the batch is every key's tagged payload in visiting order. Otherwise the error is the last visited key's and all earlier keys loaded: fail fast. |
| `Server.PostLogStep` | src/server.rs:75-90 | A cycle that did not panic extends the log of the cycles before it: by its batch when it posts, by nothing when it does not. |
| `Server.PostLogLength` | src/server.rs:75-90 | The loop's request log keeps every earlier request and gains exactly one request per cycle that posts. |
| `Server.ResponseResult` | src/server.rs:118-123 | Success exactly for a 2xx status. Any other status is `DashboardRejected` carrying it, and no response is `DashboardUnreachable`. |
| `Server.HealedIsStable` | src/server.rs:145-160 | After a probe no marker names a dead process. Probing again gives the same answer and changes nothing. |
| `Server.Server.constructor` | src/server.rs:24-29 | A server starts with the given registry and marker and has sent and signalled nothing. |
| `Server.Server.IsRunning` | src/server.rs:145-160 | True exactly when the marker is readable and names a live process. A readable marker of a dead process is deleted. No marker, or an unreadable one, is left as it is. |
| `Server.Server.Cleanup` | src/server.rs:169-173 | Afterwards there is no marker, whatever its prior state. |
| `Server.Server.Stop` | src/server.rs:126-143 | Not running: `Ok`, no `kill`. An unparseable pid is `InvalidPid` with the marker kept. A `kill` that cannot be launched is an error with the marker kept. A successful kill removes the marker. A failed kill returns `Ok` and keeps the marker. |
| `Server.Server.StopStartedDaemon` | src/server.rs:131-137 | With the marker the daemon wrote and its process alive, `stop` runs `kill` on exactly that pid. |
| `Server.Server.PostUpdates` | src/server.rs:99-124 | The registry is reloaded first. A corrupt file panics and an empty registry is `NoFilesToWatch`; neither posts. Any failing entry returns that entry's error and posts nothing. Otherwise exactly one request goes to the URL carrying a batch for the registry, and the result is the 2xx verdict. |
| `Server.Server.RunCycle` | src/server.rs:82-88 | One iteration without a stop request: a corrupt registry file is the panic and changes nothing. Otherwise the registry is reloaded, and exactly one request carrying a batch for it is posted when it is non-empty and every entry loads; nothing is posted otherwise. A posting cycle's result is the 2xx verdict. |
| `Server.Server.Serve` | src/server.rs:74-90 | A pending stop request is seen before the cycle: it deletes the marker and exits with 0. Cycle errors never end the loop. Only the panic of a corrupt registry file does, and it leaves the marker. Every completed cycle had no stop request and a readable registry. Every completed cycle ran `post_updates`: the registry is the result of the cycles' reloads, and the requests sent are exactly the batches of the cycles that posted, one each, in order, all to the dashboard URL (`Server.PostLog`). |
| `Server.Server.Start` | src/server.rs:31-97 | With a live instance: `Ok`, with the marker, the registry and the requests sent all unchanged. Otherwise the setup steps fail in the code's order, and every early exit leaves the registry untouched. A failed detach clears the marker and returns `Ok`. A detached process writes its pid as the marker, then polls as `Serve` states: a stop request exits with 0 and clears the marker, a corrupt registry on a tick without a stop request panics and keeps the marker, and the requests sent are exactly the batches of the cycles that posted, all to the dashboard URL. |

## Left out

- Detaching from the terminal, redirecting output to the two log files, and every console message. The model keeps only the outcome of each setup step (`Server.Launch`).
- The signal-listener thread and its channel. A boolean per loop iteration says whether a stop request is pending (`Server.Tick`).
- The five-second sleep between cycles and the environment-variable lookup. The model keeps only whether the URL is present.
- Server.Server.Serve: the unbounded loop is run over a finite sequence of iterations. When the sequence ends without a stop request or a panic, the result is `Polling`.
- Server.Server.PostUpdates: a failure to build the HTTP client is not modelled. The 10-second request timeout is folded into `NoResponse`.
- JSON and TOML parsing and serialisation. The JSON parser is an input. The TOML file is its parsed content or `Corrupt`.
- Registry.Config.WriteBackThenReload: the TOML serialise-then-parse round trip is assumed by representing the file as its parsed content, not proved.
- JsonValues.WithProject: only object and `null` payloads are modelled. For any other JSON value the tool's indexing panics, and the parser input's result type excludes that case.
- Registry.Config.WriteBack: always succeeds. The tool panics if serialising or writing the file fails.
- Server.Server.Cleanup: removing the marker always succeeds. The tool panics if the removal fails.
- Server.Server.IsRunning: deleting a stale marker always succeeds. The tool ignores a failed deletion and keeps the marker.
- Server.Server.Stop: the marker is read once. A second read failing, and a failure to delete the marker after a successful kill, are not modelled.
- Registry.DiscoverStatusFile: names are Unicode strings. Entries whose names are not valid UTF-8, which the tool skips, are not represented.
- Paths are modelled as canonical absolute paths, because the command line canonicalises them before `watch` runs. Each component, and each name a folder lists, is non-empty and holds no `/` (`Paths.Component`). Relative paths and `..` components are not modelled.
- `list_all` only prints the map. src/cli.rs (argument definitions), src/main.rs (dispatch and canonicalisation) and src/status_types.rs (an unused record type) are not part of this model.
