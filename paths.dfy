/** The few rules of Rust's `std::path` that the registry relies on, for the
    absolute canonical paths the tool works with (the command line
    canonicalises every path before `watch` sees it). A path is the sequence
    of its components below the root `/`. */
module Paths {
  import opened Wrappers

  /** One component of a canonical path, or a file name a folder lists:
      never empty and never holding `/`. */
  type Component = s: string | s != [] && '/' !in s witness "a"

  datatype Path = Path(components: seq<Component>)

  /** `Path::file_name`: the final component; the root has none. */
  function FileName(p: Path): Option<Component>
  {
    if p.components == [] then None else Some(p.components[|p.components| - 1])
  }

  /** `Path::parent`: the path without its final component; the root has none. */
  function Parent(p: Path): Option<Path>
  {
    if p.components == [] then None else Some(Path(p.components[..|p.components| - 1]))
  }

  /** `Path::join` with a single file name. */
  function Join(p: Path, name: Component): Path
  {
    Path(p.components + [name])
  }

  /** `Path::display().to_string()`: the components, each preceded by `/`;
      the root alone is `/`. */
  function Display(p: Path): string
  {
    if p.components == [] then "/" else Slashed(p.components)
  }

  function Slashed(cs: seq<Component>): string
  {
    if cs == [] then "" else Slashed(cs[..|cs| - 1]) + "/" + cs[|cs| - 1]
  }

  /** Joining a name onto a folder appends `/` and the name to its text. */
  lemma DisplayJoin(p: Path, name: Component)
    requires p.components != []
    ensures Display(Join(p, name)) == Display(p) + "/" + name
  {
    assert Join(p, name).components[..|p.components|] == p.components;
  }

  /** The position of the last `c` in `s`, if any. */
  function LastIndexOf(s: string, c: char): (r: Option<nat>)
    ensures r.Some? ==> r.value < |s| && s[r.value] == c && c !in s[r.value + 1..]
    ensures r.None? ==> c !in s
  {
    if s == [] then None
    else if s[|s| - 1] == c then Some(|s| - 1)
    else
      var r := LastIndexOf(s[..|s| - 1], c);
      assert s == s[..|s| - 1] + [s[|s| - 1]];
      assert r.Some? ==> s[r.value + 1..] == s[..|s| - 1][r.value + 1..] + [s[|s| - 1]];
      r
  }

  /** The extension of a file name, as `Path::extension` splits it: the text
      after the last `.`, unless there is no `.`, the only `.` leads the name
      (a hidden file such as `.profile`), or the name is `..`. */
  function ExtensionOf(name: string): (r: Option<string>)
    ensures r.Some? ==> name != ".." && '.' !in r.value && |r.value| + 1 < |name|
    ensures r.Some? ==> name == name[..|name| - |r.value| - 1] + "." + r.value
    ensures r.None? <==> name == ".." || name == [] || '.' !in name[1..]
  {
    if name == ".." then None
    else match LastIndexOf(name, '.')
      case None =>
        assert name != [] ==> name == [name[0]] + name[1..];
        None
      case Some(i) =>
        if i == 0 then None
        else
          assert name[1..][i - 1] == '.';
          assert name == name[..i] + "." + name[i + 1..];
          Some(name[i + 1..])
  }

  /** `Path::extension`. */
  function Extension(p: Path): Option<string>
  {
    match FileName(p)
    case None => None
    case Some(name) => ExtensionOf(name)
  }

  /** `t` occurs in `s` starting at position `i`. */
  predicate OccursAt(s: string, t: string, i: int)
  {
    0 <= i && i + |t| <= |s| && s[i..i + |t|] == t
  }

  /** `str::contains` for a string pattern. */
  function Contains(s: string, t: string): (r: bool)
    ensures r <==> exists i :: OccursAt(s, t, i)
  {
    if |s| < |t| then false
    else if s[..|t|] == t then assert OccursAt(s, t, 0); true
    else
      var r := Contains(s[1..], t);
      assert r ==> exists i :: OccursAt(s, t, i) by {
        if r {
          var i :| OccursAt(s[1..], t, i);
          assert s[1..][i..i + |t|] == s[i + 1..i + 1 + |t|];
          assert OccursAt(s, t, i + 1);
        }
      }
      assert (exists i :: OccursAt(s, t, i)) ==> r by {
        if exists i :: OccursAt(s, t, i) {
          var i :| OccursAt(s, t, i);
          assert i != 0;
          assert s[1..][i - 1..i - 1 + |t|] == s[i..i + |t|];
          assert OccursAt(s[1..], t, i - 1);
        }
      }
      r
  }
}
