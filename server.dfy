/** The background poller and its process marker (src/server.rs).
    What the operating system and the network answer is passed in: the text
    of each readable file, a JSON parser, whether a pid names a live process,
    how `kill` ended, the dashboard's reply, and, per loop iteration, whether
    a termination signal has arrived. */
module Server {
  import opened Wrappers
  import opened Errors
  import opened JsonValues
  import opened Registry
  import opened Pids

  /** The pid marker file: absent, present but unreadable, or holding text. */
  datatype Marker = NoMarker | UnreadableMarker | Written(text: string)

  /** The outcome of sending the POST: no response at all, or a status code. */
  datatype HttpResponse = NoResponse | Status(code: nat)

  /** One POST the poller issued: the URL and the JSON array it carried. */
  datatype Request = Request(url: string, body: seq<Json>)

  /** How `kill <pid>` ended: success, non-zero exit, or not launched at all. */
  datatype KillOutcome = Delivered | Refused | NotLaunched

  // ---------------------------------------------------------------- batches

  /** Reading, parsing and tagging one registry entry: the file must be
      readable and parse; the payload then gets its `project` set to the key. */
  function LoadEntry(repo: string, cfg: RepoConfig, files: map<string, string>,
                     parse: string -> Option<Payload>): (r: Result<Json, Error>)
    ensures r.Ok? ==> ProjectOf(r.value) == Some(repo)
    ensures r.Err? <==> cfg.statusFile !in files || parse(files[cfg.statusFile]).None?
    ensures cfg.statusFile !in files ==> r == Err(StatusFileUnreadable(cfg.statusFile))
    ensures r.Ok? ==> r.value == WithProject(parse(files[cfg.statusFile]).value, repo)
    ensures cfg.statusFile in files && parse(files[cfg.statusFile]).None? ==> r == Err(StatusFileInvalid)
  {
    if cfg.statusFile !in files then Err(StatusFileUnreadable(cfg.statusFile))
    else match parse(files[cfg.statusFile])
      case None => Err(StatusFileInvalid)
      case Some(v) => Ok(WithProject(v, repo))
  }

  predicate Distinct(keys: seq<string>)
  {
    forall i, j :: 0 <= i < j < |keys| ==> keys[i] != keys[j]
  }

  /** `keys` lists every key of `data` exactly once, in some order. */
  ghost predicate IsEnumeration(keys: seq<string>, data: map<string, RepoConfig>)
  {
    Distinct(keys) && forall k :: k in data <==> k in keys
  }

  predicate AllEntriesLoad(data: map<string, RepoConfig>, files: map<string, string>,
                           parse: string -> Option<Payload>)
  {
    forall k :: k in data ==> LoadEntry(k, data[k], files, parse).Ok?
  }

  /** A batch for the registry: the tagged payloads of its entries, one per
      key, in some order of the keys. */
  ghost predicate IsBatchFor(batch: seq<Json>, data: map<string, RepoConfig>,
                             files: map<string, string>, parse: string -> Option<Payload>)
  {
    exists order :: IsEnumeration(order, data) && |order| == |batch|
      && forall i :: 0 <= i < |batch| ==> LoadEntry(order[i], data[order[i]], files, parse) == Ok(batch[i])
  }

  /** A list that names each key once has as many elements as there are keys. */
  lemma {:induction false} EnumerationSize(keys: seq<string>, data: map<string, RepoConfig>)
    requires IsEnumeration(keys, data)
    ensures |keys| == |data|
  {
    if keys == [] {
      assert data.Keys == {};
    } else {
      var k := keys[0];
      var rest := data - {k};
      forall x ensures x in rest <==> x in keys[1..] {
        if x in keys[1..] {
          var j :| 0 <= j < |keys[1..]| && keys[1..][j] == x;
          assert keys[j + 1] == x;
        }
      }
      EnumerationSize(keys[1..], rest);
      assert data.Keys == rest.Keys + {k};
    }
  }

  /** A batch holds exactly one element per registry entry: it is as long as
      the registry, each key's tagged payload is in it, and no two elements
      carry the same `project`. */
  lemma BatchCoversRegistry(batch: seq<Json>, data: map<string, RepoConfig>,
                            files: map<string, string>, parse: string -> Option<Payload>)
    requires IsBatchFor(batch, data, files, parse)
    ensures |batch| == |data|
    ensures forall k :: k in data ==>
      exists i :: 0 <= i < |batch| && LoadEntry(k, data[k], files, parse) == Ok(batch[i])
    ensures forall i, j :: 0 <= i < j < |batch| ==> ProjectOf(batch[i]) != ProjectOf(batch[j])
  {
    var order :| IsEnumeration(order, data) && |order| == |batch|
      && forall i :: 0 <= i < |batch| ==> LoadEntry(order[i], data[order[i]], files, parse) == Ok(batch[i]);
    EnumerationSize(order, data);
    forall k | k in data
      ensures exists i :: 0 <= i < |batch| && LoadEntry(k, data[k], files, parse) == Ok(batch[i])
    {
      var i :| 0 <= i < |order| && order[i] == k;
      assert LoadEntry(order[i], data[order[i]], files, parse) == Ok(batch[i]);
    }
    forall i, j | 0 <= i < j < |batch| ensures ProjectOf(batch[i]) != ProjectOf(batch[j]) {
      assert ProjectOf(batch[i]) == Some(order[i]);
      assert ProjectOf(batch[j]) == Some(order[j]);
    }
  }

  /** The `for` loop of `post_updates`: visits the keys once each, in an
      order the map does not specify, and stops at the first entry that
      cannot be read or parsed. On success the batch is the registry's
      tagged payloads in visiting order; on failure the error is the one of
      the last key visited, and every key before it loaded. */
  method BuildBatch(data: map<string, RepoConfig>, files: map<string, string>,
                    parse: string -> Option<Payload>)
    returns (r: Result<seq<Json>, Error>, visited: seq<string>)
    ensures Distinct(visited) && forall k :: k in visited ==> k in data
    ensures r.Ok? ==> IsEnumeration(visited, data) && |r.value| == |visited|
    ensures r.Ok? ==> forall i :: 0 <= i < |visited| ==>
      LoadEntry(visited[i], data[visited[i]], files, parse) == Ok(r.value[i])
    ensures r.Err? ==>
      && visited != []
      && LoadEntry(visited[|visited| - 1], data[visited[|visited| - 1]], files, parse) == Err(r.error)
      && forall i :: 0 <= i < |visited| - 1 ==> LoadEntry(visited[i], data[visited[i]], files, parse).Ok?
    ensures r.Ok? <==> AllEntriesLoad(data, files, parse)
  {
    var batch: seq<Json> := [];
    var remaining := data.Keys;
    visited := [];
    while remaining != {}
      invariant forall k :: k in remaining <==> k in data && k !in visited
      invariant Distinct(visited) && forall k :: k in visited ==> k in data
      invariant |batch| == |visited|
      invariant forall i :: 0 <= i < |visited| ==> LoadEntry(visited[i], data[visited[i]], files, parse) == Ok(batch[i])
      decreases remaining
    {
      var key :| key in remaining;
      var path := data[key].statusFile;
      visited := visited + [key];
      if path !in files {
        return Err(StatusFileUnreadable(path)), visited;
      }
      var parsed := parse(files[path]);
      if parsed.None? {
        return Err(StatusFileInvalid), visited;
      }
      batch := batch + [WithProject(parsed.value, key)];
      remaining := remaining - {key};
    }
    r := Ok(batch);
  }

  /** `response.status().is_success()`: a cycle that posted succeeds exactly
      on a 2xx status (section 15.3 of RFC 9110); any other status is an error
      carrying it, and no response at all is an error too. */
  function ResponseResult(response: HttpResponse): (r: Result<(), Error>)
    ensures r.Ok? <==> response.Status? && 200 <= response.code <= 299
    ensures r.Err? && response.Status? ==> r.error == DashboardRejected(response.code)
    ensures response.NoResponse? ==> r == Err(DashboardUnreachable)
  {
    match response
    case NoResponse => Err(DashboardUnreachable)
    case Status(code) => if 200 <= code < 300 then Ok(()) else Err(DashboardRejected(code))
  }

  // ---------------------------------------------------------------- marker

  /** The marker names a process that currently exists. */
  predicate Live(m: Marker, alive: string -> bool)
  {
    m.Written? && alive(m.text)
  }

  /** The marker after `is_running` looked at it: a readable marker whose
      process is gone is deleted; any other marker stays. */
  function Healed(m: Marker, alive: string -> bool): Marker
  {
    if m.Written? && !alive(m.text) then NoMarker else m
  }

  /** After the probe no stale marker is left, and probing again finds the
      same answer and changes nothing more. */
  lemma HealedIsStable(m: Marker, alive: string -> bool)
    ensures Healed(m, alive).Written? ==> alive(Healed(m, alive).text)
    ensures Live(Healed(m, alive), alive) == Live(m, alive)
    ensures Healed(Healed(m, alive), alive) == Healed(m, alive)
  {
  }

  /** Termination signals and per-iteration inputs of the polling loop: whether
      a stop request is pending at the top of the iteration, the registry
      file as other invocations left it, the readable files, and the
      dashboard's reply to this iteration's POST. */
  datatype Tick = Tick(stopRequested: bool, store: Backing, files: map<string, string>, response: HttpResponse)

  /** The in-memory registry after one cycle's reload: a registry file that
      holds a map replaces it, a missing one keeps it. */
  function Reload(prev: map<string, RepoConfig>, t: Tick): map<string, RepoConfig>
  {
    if t.store.Stored? then t.store.entries else prev
  }

  /** The in-memory registry after the reloads of the first `n` cycles of
      `ticks`, starting from `m`. */
  function Reloaded(m: map<string, RepoConfig>, ticks: seq<Tick>, n: nat): map<string, RepoConfig>
    requires n <= |ticks|
  {
    if n == 0 then m else Reload(Reloaded(m, ticks, n - 1), ticks[n - 1])
  }

  /** A cycle posts when its reloaded registry is not empty and every entry
      in it loads. */
  predicate Posts(data: map<string, RepoConfig>, files: map<string, string>, parse: string -> Option<Payload>)
  {
    data != map[] && AllEntriesLoad(data, files, parse)
  }

  /** One cycle that did not panic, starting from the registry `prev`: when
      it posts, the log grows by one request carrying a batch for the
      reloaded registry; otherwise the log is unchanged. */
  ghost predicate CycleStep(prev: map<string, RepoConfig>, t: Tick, parse: string -> Option<Payload>,
                            log: seq<Request>, next: seq<Request>)
  {
    var data := Reload(prev, t);
    if Posts(data, t.files, parse) then
      |next| == |log| + 1 && next[..|log|] == log && IsBatchFor(next[|log|].body, data, t.files, parse)
    else next == log
  }

  /** `log` is `base` followed by what the first `n` cycles of `ticks` post,
      starting from the registry `m`: one request per cycle that posts, in
      order, each carrying a batch for the registry as that cycle reloaded it
      and the files as that cycle saw them. */
  ghost predicate PostLog(m: map<string, RepoConfig>, ticks: seq<Tick>, n: nat, parse: string -> Option<Payload>,
                          base: seq<Request>, log: seq<Request>)
    requires n <= |ticks|
  {
    if n == 0 then log == base
    else
      var t := ticks[n - 1];
      var data := Reload(Reloaded(m, ticks, n - 1), t);
      if Posts(data, t.files, parse) then
        && log != []
        && PostLog(m, ticks, n - 1, parse, base, log[..|log| - 1])
        && IsBatchFor(log[|log| - 1].body, data, t.files, parse)
      else PostLog(m, ticks, n - 1, parse, base, log)
  }

  /** How many of the first `n` cycles of `ticks` post, starting from the
      registry `m`. */
  function PostCount(m: map<string, RepoConfig>, ticks: seq<Tick>, n: nat, parse: string -> Option<Payload>): nat
    requires n <= |ticks|
  {
    if n == 0 then 0
    else
      var t := ticks[n - 1];
      PostCount(m, ticks, n - 1, parse) + if Posts(Reload(Reloaded(m, ticks, n - 1), t), t.files, parse) then 1 else 0
  }

  /** A cycle that did not panic extends the log of the cycles before it. */
  lemma PostLogStep(m: map<string, RepoConfig>, ticks: seq<Tick>, n: nat, parse: string -> Option<Payload>,
                    base: seq<Request>, log: seq<Request>, next: seq<Request>)
    requires n < |ticks|
    requires PostLog(m, ticks, n, parse, base, log)
    requires CycleStep(Reloaded(m, ticks, n), ticks[n], parse, log, next)
    ensures PostLog(m, ticks, n + 1, parse, base, next)
  {
  }

  /** The loop's log keeps what was there before and gains exactly one
      request per cycle that posts. */
  lemma {:induction false} PostLogLength(m: map<string, RepoConfig>, ticks: seq<Tick>, n: nat,
                                         parse: string -> Option<Payload>, base: seq<Request>, log: seq<Request>)
    requires n <= |ticks|
    requires PostLog(m, ticks, n, parse, base, log)
    ensures base <= log
    ensures |log| == |base| + PostCount(m, ticks, n, parse)
  {
    if n != 0 {
      var t := ticks[n - 1];
      if Posts(Reload(Reloaded(m, ticks, n - 1), t), t.files, parse) {
        PostLogLength(m, ticks, n - 1, parse, base, log[..|log| - 1]);
      } else {
        PostLogLength(m, ticks, n - 1, parse, base, log);
      }
    }
  }

  /** What the environment answers while `start` sets up: whether the home
      directory and the two log files are available, the dashboard URL
      variable, the pid of the detached process (none when detaching fails),
      and whether the signal listener can be installed. */
  datatype Launch = Launch(logsReady: bool, dashboardUrl: Option<string>, daemonPid: Option<nat>, signalsReady: bool)

  /** How `start` ends: it returns a result, the process panics, the process
      exits with a code, or it is still polling when the inputs run out. */
  datatype StartEnd = Returned(result: Result<(), Error>) | Panicked(error: Error) | Exited(code: int) | Polling

  class Server {
    const config: Config
    /** The pid marker file. */
    var marker: Marker
    /** Every POST issued, oldest first. */
    var sent: seq<Request>
    /** Every pid `stop` ran `kill` on, oldest first. */
    var killed: seq<nat>

    constructor (config: Config, marker: Marker)
      ensures this.config == config && this.marker == marker && sent == [] && killed == []
    {
      this.config := config;
      this.marker := marker;
      sent := [];
      killed := [];
    }

    /** `is_running`: true exactly when the marker names a live process; a
        readable marker naming a dead process is deleted, nothing else changes. */
    method IsRunning(alive: string -> bool) returns (running: bool)
      modifies this`marker
      ensures running <==> Live(old(marker), alive)
      ensures marker == Healed(old(marker), alive)
    {
      if marker.NoMarker? {
        return false;
      }
      if marker.Written? {
        if alive(marker.text) {
          return true;
        }
        marker := NoMarker;
        return false;
      }
      running := false;
    }

    /** `cleanup`: afterwards there is no marker, whatever there was before. */
    method Cleanup()
      modifies this`marker
      ensures marker == NoMarker
    {
      if !marker.NoMarker? {
        marker := NoMarker;
      }
    }

    /** `stop`: when nothing runs, succeeds without signalling anyone. When the
        marker names a live process, its text must parse as a pid; `kill` is
        run on that pid, and only a successful `kill` removes the marker. A
        `kill` that fails still reports success. */
    method Stop(alive: string -> bool, kill: KillOutcome) returns (r: Result<(), Error>)
      modifies this`marker, this`killed
      ensures !Live(old(marker), alive) ==>
        r == Ok(()) && marker == Healed(old(marker), alive) && killed == old(killed)
      ensures Live(old(marker), alive) && ParsePid(old(marker).text).None? ==>
        r == Err(InvalidPid) && marker == old(marker) && killed == old(killed)
      ensures Live(old(marker), alive) && ParsePid(old(marker).text).Some? ==>
        var pid := ParsePid(old(marker).text).value;
        && (kill.NotLaunched? ==> r == Err(KillUnavailable) && marker == old(marker) && killed == old(killed))
        && (kill.Delivered? ==> r == Ok(()) && marker == NoMarker && killed == old(killed) + [pid])
        && (kill.Refused? ==> r == Ok(()) && marker == old(marker) && killed == old(killed) + [pid])
    {
      var running := IsRunning(alive);
      if !running {
        return Ok(());
      }
      var pid := ParsePid(marker.text);
      if pid.None? {
        return Err(InvalidPid);
      }
      if kill.NotLaunched? {
        return Err(KillUnavailable);
      }
      killed := killed + [pid.value];
      if kill.Delivered? {
        marker := NoMarker;
      }
      r := Ok(());
    }

    /** The marker the detached process writes is the one `stop` needs: while
        that process lives, `stop` runs `kill` on exactly its pid. */
    method StopStartedDaemon(pid: nat, alive: string -> bool, kill: KillOutcome) returns (r: Result<(), Error>)
      requires pid < U32Limit && alive(Decimal(pid))
      requires marker == Written(Decimal(pid))
      modifies this`marker, this`killed
      ensures kill.NotLaunched? ==> r == Err(KillUnavailable) && killed == old(killed)
      ensures !kill.NotLaunched? ==> r == Ok(()) && killed == old(killed) + [pid]
      ensures kill.Delivered? ==> marker == NoMarker
    {
      ParsePidOfDecimal(pid);
      r := Stop(alive, kill);
    }

    /** `post_updates`: reloads the registry; an empty registry is an error and
        nothing is sent; any entry that cannot be read or parsed is an error
        and nothing is sent; otherwise exactly one POST carries one tagged
        payload per entry, and the result is the dashboard's verdict. */
    method PostUpdates(url: string, files: map<string, string>, parse: string -> Option<Payload>,
                       response: HttpResponse) returns (r: Result<(), Error>)
      modifies this`sent, config`tomlData
      ensures r == Err(ConfigCorrupt) <==> old(config.backing).Corrupt?
      ensures old(sent) <= sent && |sent| <= |old(sent)| + 1
      ensures forall i :: |old(sent)| <= i < |sent| ==> sent[i].url == url
      ensures old(config.backing).Corrupt? ==>
        r == Err(ConfigCorrupt) && config.tomlData == old(config.tomlData) && sent == old(sent)
      ensures old(config.backing).Stored? ==> config.tomlData == old(config.backing).entries
      ensures old(config.backing).Missing? ==> config.tomlData == old(config.tomlData)
      ensures !old(config.backing).Corrupt? && config.tomlData == map[] ==>
        r == Err(NoFilesToWatch) && sent == old(sent)
      ensures !old(config.backing).Corrupt? && config.tomlData != map[] && !AllEntriesLoad(config.tomlData, files, parse) ==>
        sent == old(sent) && r.Err?
        && exists k :: k in config.tomlData && LoadEntry(k, config.tomlData[k], files, parse) == Err(r.error)
      ensures !old(config.backing).Corrupt? && config.tomlData != map[] && AllEntriesLoad(config.tomlData, files, parse) ==>
        && |sent| == |old(sent)| + 1 && sent[..|old(sent)|] == old(sent)
        && sent[|old(sent)|].url == url
        && IsBatchFor(sent[|old(sent)|].body, config.tomlData, files, parse)
        && r == ResponseResult(response)
    {
      r := config.Reload();
      if r.Err? {
        return;
      }
      if |config.tomlData| == 0 {
        return Err(NoFilesToWatch);
      }
      var batch, visited := BuildBatch(config.tomlData, files, parse);
      if batch.Err? {
        return Err(batch.error);
      }
      sent := sent + [Request(url, batch.value)];
      r := ResponseResult(response);
    }

    /** One iteration of the loop that saw no stop request: the registry file
        is as other invocations left it, then one poll cycle runs. A file that
        cannot be parsed is the panic; otherwise the registry is reloaded and
        the cycle posts exactly when its registry is not empty and every entry
        loads, and then its result is the dashboard's verdict. */
    method RunCycle(url: string, parse: string -> Option<Payload>, tick: Tick,
                    ghost m: map<string, RepoConfig>, ghost ticks: seq<Tick>, ghost n: nat, ghost base: seq<Request>)
      returns (r: Result<(), Error>)
      requires n < |ticks| && ticks[n] == tick
      requires config.tomlData == Reloaded(m, ticks, n)
      requires PostLog(m, ticks, n, parse, base, sent) && |sent| == |base| + PostCount(m, ticks, n, parse)
      modifies this`sent, config
      ensures !tick.store.Corrupt? ==>
        && config.tomlData == Reloaded(m, ticks, n + 1)
        && PostLog(m, ticks, n + 1, parse, base, sent)
        && |sent| == |base| + PostCount(m, ticks, n + 1, parse)
      ensures config.backing == tick.store
      ensures r == Err(ConfigCorrupt) <==> tick.store.Corrupt?
      ensures tick.store.Corrupt? ==> sent == old(sent) && config.tomlData == old(config.tomlData)
      ensures !tick.store.Corrupt? ==>
        && config.tomlData == Reload(old(config.tomlData), tick)
        && CycleStep(old(config.tomlData), tick, parse, old(sent), sent)
      ensures !tick.store.Corrupt? && Posts(config.tomlData, tick.files, parse) ==> r == ResponseResult(tick.response)
      ensures old(sent) <= sent && |sent| <= |old(sent)| + 1
      ensures forall i :: |old(sent)| <= i < |sent| ==> sent[i].url == url
    {
      config.backing := tick.store;
      ghost var before := sent;
      r := PostUpdates(url, tick.files, parse, tick.response);
      if !tick.store.Corrupt? {
        PostLogStep(m, ticks, n, parse, base, before, sent);
      }
    }

    /** The loop of the detached process: at the top of every iteration a
        pending stop request deletes the marker and exits with code 0; else one
        poll cycle runs and its error, whatever it is, is only logged. A
        registry file that cannot be parsed makes the cycle panic, which ends
        the process and leaves the marker behind. `cycles` counts the cycles
        that returned. */
    method Serve(url: string, parse: string -> Option<Payload>, ticks: seq<Tick>)
      returns (end: StartEnd, cycles: nat)
      modifies this`marker, this`sent, config
      ensures cycles <= |ticks|
      ensures forall j :: 0 <= j < cycles ==> !ticks[j].stopRequested && !ticks[j].store.Corrupt?
      ensures end.Exited? || end.Panicked? || end.Polling?
      ensures end.Exited? ==> end.code == 0 && cycles < |ticks| && ticks[cycles].stopRequested && marker == NoMarker
      ensures end.Panicked? ==>
        end.error == ConfigCorrupt && cycles < |ticks| && !ticks[cycles].stopRequested
        && ticks[cycles].store.Corrupt? && marker == old(marker)
      ensures end.Polling? ==> cycles == |ticks| && marker == old(marker)
      ensures old(sent) <= sent && |sent| <= |old(sent)| + cycles
      ensures forall i :: |old(sent)| <= i < |sent| ==> sent[i].url == url
      ensures config.tomlData == Reloaded(old(config.tomlData), ticks, cycles)
      ensures PostLog(old(config.tomlData), ticks, cycles, parse, old(sent), sent)
      ensures |sent| == |old(sent)| + PostCount(old(config.tomlData), ticks, cycles, parse)
    {
      cycles := 0;
      ghost var m := config.tomlData;
      while cycles < |ticks|
        invariant cycles <= |ticks|
        invariant forall j :: 0 <= j < cycles ==> !ticks[j].stopRequested && !ticks[j].store.Corrupt?
        invariant marker == old(marker)
        invariant forall i :: |old(sent)| <= i < |sent| ==> sent[i].url == url
        invariant PostCount(m, ticks, cycles, parse) <= cycles
        invariant config.tomlData == Reloaded(m, ticks, cycles)
        invariant PostLog(m, ticks, cycles, parse, old(sent), sent)
        invariant |sent| == |old(sent)| + PostCount(m, ticks, cycles, parse)
      {
        var tick := ticks[cycles];
        if tick.stopRequested {
          Cleanup();
          PostLogLength(m, ticks, cycles, parse, old(sent), sent);
          return Exited(0), cycles;
        }
        var result := RunCycle(url, parse, tick, m, ticks, cycles, old(sent));
        if result == Err(ConfigCorrupt) {
          PostLogLength(m, ticks, cycles, parse, old(sent), sent);
          return Panicked(ConfigCorrupt), cycles;
        }
        cycles := cycles + 1;
      }
      PostLogLength(m, ticks, cycles, parse, old(sent), sent);
      end := Polling;
    }

    /** `start`: when a live process holds the marker, returns `Ok` and does
        nothing more. Otherwise, in order: log files, the dashboard URL,
        detaching (the detached process writes its pid to the marker; a
        failure to detach deletes the marker and still returns `Ok`), the
        signal listener, then the polling loop. */
    method Start(alive: string -> bool, launch: Launch, parse: string -> Option<Payload>, ticks: seq<Tick>)
      returns (end: StartEnd, cycles: nat)
      modifies this`marker, this`sent, config
      ensures Live(old(marker), alive) ==>
        && end == Returned(Ok(())) && cycles == 0 && marker == old(marker) && sent == old(sent)
        && config.tomlData == old(config.tomlData) && config.backing == old(config.backing)
      ensures !Live(old(marker), alive) && !launch.logsReady ==>
        end == Returned(Err(LogSetupFailed)) && cycles == 0 && marker == Healed(old(marker), alive) && sent == old(sent)
        && config.tomlData == old(config.tomlData) && config.backing == old(config.backing)
      ensures !Live(old(marker), alive) && launch.logsReady && launch.dashboardUrl.None? ==>
        end == Panicked(MissingDashboardUrl) && cycles == 0 && marker == Healed(old(marker), alive) && sent == old(sent)
        && config.tomlData == old(config.tomlData) && config.backing == old(config.backing)
      ensures !Live(old(marker), alive) && launch.logsReady && launch.dashboardUrl.Some? && launch.daemonPid.None? ==>
        end == Returned(Ok(())) && cycles == 0 && marker == NoMarker && sent == old(sent)
        && config.tomlData == old(config.tomlData) && config.backing == old(config.backing)
      ensures !Live(old(marker), alive) && launch.logsReady && launch.dashboardUrl.Some? && launch.daemonPid.Some? ==>
        var written := Written(Decimal(launch.daemonPid.value));
        && (!launch.signalsReady ==>
              end == Returned(Err(SignalSetupFailed)) && cycles == 0 && marker == written && sent == old(sent)
              && config.tomlData == old(config.tomlData) && config.backing == old(config.backing))
        && (launch.signalsReady ==>
              && cycles <= |ticks|
              && (forall j :: 0 <= j < cycles ==> !ticks[j].stopRequested && !ticks[j].store.Corrupt?)
              && (end.Exited? || end.Panicked? || end.Polling?)
              && (end.Exited? ==> end.code == 0 && cycles < |ticks| && ticks[cycles].stopRequested && marker == NoMarker)
              && (end.Panicked? ==>
                    end.error == ConfigCorrupt && cycles < |ticks| && !ticks[cycles].stopRequested
                    && ticks[cycles].store.Corrupt? && marker == written)
              && (end.Polling? ==> cycles == |ticks| && marker == written)
              && old(sent) <= sent && |sent| <= |old(sent)| + cycles
              && (forall i :: |old(sent)| <= i < |sent| ==> sent[i].url == launch.dashboardUrl.value)
              && PostLog(old(config.tomlData), ticks, cycles, parse, old(sent), sent)
              && |sent| == |old(sent)| + PostCount(old(config.tomlData), ticks, cycles, parse))
    {
      cycles := 0;
      var running := IsRunning(alive);
      if running {
        return Returned(Ok(())), 0;
      }
      if !launch.logsReady {
        return Returned(Err(LogSetupFailed)), 0;
      }
      if launch.dashboardUrl.None? {
        return Panicked(MissingDashboardUrl), 0;
      }
      if launch.daemonPid.None? {
        Cleanup();
        return Returned(Ok(())), 0;
      }
      marker := Written(Decimal(launch.daemonPid.value));
      if !launch.signalsReady {
        return Returned(Err(SignalSetupFailed)), 0;
      }
      end, cycles := Serve(launch.dashboardUrl.value, parse, ticks);
    }
  }
}
