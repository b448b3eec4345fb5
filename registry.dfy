/** The registry of watched status files (src/config.rs): a map from repo name
    to the status file registered under it, loaded from and written through to
    a TOML file. The filesystem is an input: which paths exist and what a
    folder lists. The TOML file is its parsed content, or `Corrupt` when it
    cannot be read or parsed. */
module Registry {
  import opened Wrappers
  import opened Errors
  import opened Paths

  /** One registry value: the path text of the watched status file. */
  datatype RepoConfig = RepoConfig(statusFile: string)

  /** The registry file on disk. */
  datatype Backing = Missing | Corrupt | Stored(entries: map<string, RepoConfig>)

  /** One result of `read_dir`: an entry's file name, or an entry that failed to read. */
  datatype DirEntry = Entry(name: Component) | BrokenEntry

  /** What the filesystem answers: the paths that exist, and the listing of
      each folder that can be read. */
  datatype FileSystem = FileSystem(existing: set<Path>, listings: map<Path, seq<DirEntry>>)

  /** `fs::read_dir(path).ok()`. */
  function ReadDir(fs: FileSystem, p: Path): Option<seq<DirEntry>>
  {
    if p in fs.listings then Some(fs.listings[p]) else None
  }

  /** A name the discovery accepts: extension exactly `json`, and `status_`
      somewhere in the name. */
  predicate IsStatusFileName(name: string)
  {
    ExtensionOf(name) == Some("json") && Contains(name, "status_")
  }

  /** `find` over the entries that read successfully. */
  function FindStatusEntry(entries: seq<DirEntry>): (r: Option<Component>)
    ensures r.Some? ==> Entry(r.value) in entries && IsStatusFileName(r.value)
    ensures r.None? <==> forall e :: e in entries && e.Entry? ==> !IsStatusFileName(e.name)
  {
    if entries == [] then None
    else if entries[0].Entry? && IsStatusFileName(entries[0].name) then Some(entries[0].name)
    else
      var r := FindStatusEntry(entries[1..]);
      assert entries == [entries[0]] + entries[1..];
      r
  }

  /** `discover_status_file`: some entry of the folder whose name is a status
      file name; none when the folder cannot be listed or nothing matches.
      The listing comes in the filesystem's order, which nothing specifies. */
  function DiscoverStatusFile(listing: Option<seq<DirEntry>>): (r: Option<Component>)
    ensures r.Some? ==> listing.Some? && Entry(r.value) in listing.value && IsStatusFileName(r.value)
    ensures r.None? <==> listing.None? || forall e :: e in listing.value && e.Entry? ==> !IsStatusFileName(e.name)
  {
    match listing
    case None => None
    case Some(entries) => FindStatusEntry(entries)
  }

  /** `get_repo_name`: for a path whose extension is exactly `json`, the name of
      the folder that holds it; for any other path, its own final component.
      `None` is the `unwrap` panic: the root, or a `.json` file at the root. */
  function RepoName(path: Path): (r: Option<string>)
    ensures var n := |path.components|;
      if Extension(path) == Some("json") then
        (r.Some? <==> n >= 2) && (r.Some? ==> r.value == path.components[n - 2])
      else
        (r.Some? <==> n >= 1) && (r.Some? ==> r.value == path.components[n - 1])
  {
    if Extension(path) == Some("json") then
      match Parent(path)
      case None => None
      case Some(folder) => FileName(folder)
    else FileName(path)
  }

  /** The entry `watch_file` adds: the key and the stored value. */
  datatype WatchEntry = WatchEntry(repo: string, config: RepoConfig)

  /** What `watch_file` decides before it touches the map: the path must
      exist; the key is the explicit name verbatim, or else the derived one;
      a path with an extension is stored as it is, one without is joined with
      the status file discovered in it. */
  function ResolveWatch(path: Path, repoName: Option<string>, fs: FileSystem): (r: Result<WatchEntry, Error>)
    ensures path !in fs.existing ==> r == Err(PathNotFound)
    ensures r.Err? <==>
      || path !in fs.existing
      || (repoName.None? && RepoName(path).None?)
      || (Extension(path).None? && DiscoverStatusFile(ReadDir(fs, path)).None?)
    ensures r == Err(NoRepoName) <==> path in fs.existing && repoName.None? && RepoName(path).None?
    ensures r == Err(NoStatusFileFound) <==>
      && path in fs.existing && (repoName.Some? || RepoName(path).Some?)
      && Extension(path).None? && DiscoverStatusFile(ReadDir(fs, path)).None?
    ensures r.Ok? && repoName.Some? ==> r.value.repo == repoName.value
    ensures r.Ok? && repoName.None? ==> Some(r.value.repo) == RepoName(path)
    ensures r.Ok? && Extension(path).Some? ==> r.value.config.statusFile == Display(path)
    ensures r.Ok? && Extension(path).None? ==>
      exists name: Component :: Entry(name) in ReadDir(fs, path).value && IsStatusFileName(name)
        && r.value.config.statusFile == Display(Join(path, name))
        && (path.components != [] ==> r.value.config.statusFile == Display(path) + "/" + name)
  {
    if path !in fs.existing then Err(PathNotFound)
    else
      var derived := if repoName.Some? then repoName else RepoName(path);
      if derived.None? then Err(NoRepoName)
      else if Extension(path).Some? then Ok(WatchEntry(derived.value, RepoConfig(Display(path))))
      else match DiscoverStatusFile(ReadDir(fs, path))
        case None => Err(NoStatusFileFound)
        case Some(name) =>
          var stored := Display(Join(path, name));
          assert path.components != [] ==> stored == Display(path) + "/" + name by {
            if path.components != [] { DisplayJoin(path, name); }
          }
          Ok(WatchEntry(derived.value, RepoConfig(stored)))
  }

  /** `read_toml` where the file exists, and the given map where it does not. */
  function ReadBacking(b: Backing, current: map<string, RepoConfig>): Result<map<string, RepoConfig>, Error>
  {
    match b
    case Missing => Ok(current)
    case Corrupt => Err(ConfigCorrupt)
    case Stored(entries) => Ok(entries)
  }

  class Config {
    const filePath: string
    var tomlData: map<string, RepoConfig>
    /** The TOML file at `filePath`. */
    var backing: Backing

    constructor (filePath: string, tomlData: map<string, RepoConfig>, backing: Backing)
      ensures this.filePath == filePath && this.tomlData == tomlData && this.backing == backing
    {
      this.filePath := filePath;
      this.tomlData := tomlData;
      this.backing := backing;
    }

    /** `create_or_load`: the stored map when the file exists, an empty map
        when it does not; a file that cannot be parsed panics. */
    static method CreateOrLoad(filePath: string, backing: Backing) returns (r: Result<Config, Error>)
      ensures r.Err? <==> backing.Corrupt?
      ensures r.Err? ==> r.error == ConfigCorrupt
      ensures r.Ok? ==> fresh(r.value) && r.value.filePath == filePath && r.value.backing == backing
      ensures r.Ok? ==> r.value.tomlData == if backing.Stored? then backing.entries else map[]
    {
      match ReadBacking(backing, map[])
      case Err(e) => r := Err(e);
      case Ok(m) =>
        var c := new Config(filePath, m, backing);
        r := Ok(c);
    }

    /** `write_back`: the whole map replaces the file. */
    method WriteBack()
      modifies this`backing
      ensures backing == Stored(tomlData)
    {
      backing := Stored(tomlData);
    }

    /** `write_back` followed by `reload`: the reload succeeds and finds
        exactly the map that was written, so the in-memory map is unchanged
        and the file stays in step with it. */
    method WriteBackThenReload() returns (r: Result<(), Error>)
      modifies this
      ensures r.Ok? && tomlData == old(tomlData) && backing == Stored(tomlData)
    {
      WriteBack();
      r := Reload();
    }

    /** `watch_file`: on success, the resolved key maps to the resolved file,
        any earlier entry under that key is replaced, every other key keeps
        its value, and the file holds the new map. On failure nothing changes.
        Returns the key that was added. */
    method WatchFile(path: Path, repoName: Option<string>, fs: FileSystem) returns (r: Result<string, Error>)
      modifies this
      ensures var resolved := ResolveWatch(path, repoName, fs);
        && (resolved.Err? ==> r == Err(resolved.error) && tomlData == old(tomlData) && backing == old(backing))
        && (resolved.Ok? ==>
              && r == Ok(resolved.value.repo)
              && tomlData == old(tomlData)[resolved.value.repo := resolved.value.config]
              && backing == Stored(tomlData))
    {
      var resolved := ResolveWatch(path, repoName, fs);
      if resolved.Err? {
        return Err(resolved.error);
      }
      tomlData := tomlData[resolved.value.repo := resolved.value.config];
      WriteBack();
      r := Ok(resolved.value.repo);
    }

    /** `remove`: a present key is deleted, the file rewritten, and the removed
        value returned; an absent key changes neither the map nor the file. */
    method Remove(repoName: string) returns (removed: Option<RepoConfig>)
      modifies this
      ensures repoName in old(tomlData) ==>
        removed == Some(old(tomlData)[repoName]) && tomlData == old(tomlData) - {repoName}
        && backing == Stored(tomlData)
      ensures repoName !in old(tomlData) ==>
        removed.None? && tomlData == old(tomlData) && backing == old(backing)
    {
      if repoName in tomlData {
        removed := Some(tomlData[repoName]);
        tomlData := tomlData - {repoName};
        WriteBack();
        return;
      }
      removed := None;
    }

    /** A watch followed by removing the key it added leaves the registry as
        it was without that key, and the file in step with the map. */
    method WatchThenRemove(path: Path, repoName: Option<string>, fs: FileSystem)
      returns (r: Result<string, Error>, removed: Option<RepoConfig>)
      modifies this
      ensures r.Ok? ==>
        && ResolveWatch(path, repoName, fs).Ok?
        && removed == Some(ResolveWatch(path, repoName, fs).value.config)
        && tomlData == old(tomlData) - {r.value} && backing == Stored(tomlData)
      ensures r.Err? ==> removed.None? && tomlData == old(tomlData) && backing == old(backing)
    {
      r := WatchFile(path, repoName, fs);
      removed := None;
      if r.Ok? {
        assert r.value in tomlData;
        removed := Remove(r.value);
      }
    }

    /** `reload`: the map becomes the file's content when the file exists and
        stays as it was when it does not; the file is not touched. A file that
        cannot be parsed panics, reported here as `ConfigCorrupt`. */
    method Reload() returns (r: Result<(), Error>)
      modifies this`tomlData
      ensures r.Err? <==> backing.Corrupt?
      ensures r.Err? ==> r.error == ConfigCorrupt && tomlData == old(tomlData)
      ensures backing.Stored? ==> tomlData == backing.entries
      ensures backing.Missing? ==> tomlData == old(tomlData)
    {
      match ReadBacking(backing, tomlData)
      case Err(e) => r := Err(e);
      case Ok(m) =>
        tomlData := m;
        r := Ok(());
    }
  }
}
