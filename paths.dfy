/**
 * The part of `pathlib.Path` the pipeline uses: normalising a path string,
 * `name`, `suffix`, the `/` operator, and existence / kind / size queries
 * answered by an abstract file system.
 */
module Paths {
  import opened Optional
  import opened Strings

  /** What a path names on disk: a regular file or a directory, with its `st_size`. */
  datatype Entry = File(size: nat) | Dir(size: nat)

  /** The file system, keyed by normalised path strings (`str(Path(p))`). */
  type FileSystem = map<string, Entry>

  /** `s.split(c)`: the pieces between occurrences of `c`, in order. */
  function Split(s: string, c: char): (r: seq<string>)
    ensures |r| >= 1
    ensures forall i :: 0 <= i < |r| ==> c !in r[i]
    ensures JoinWith(r, [c]) == s
    decreases |s|
  {
    match IndexOf(s, c)
    case None => [s]
    case Some(i) =>
      var rest := Split(s[i + 1..], c);
      var r := [s[..i]] + rest;
      assert r[1..] == rest;
      assert s == s[..i] + [c] + s[i + 1..];
      r
  }

  /** Splitting a join of `c`-free pieces at `c` gives the pieces back. */
  lemma {:induction false} SplitJoin(parts: seq<string>, c: char)
    requires |parts| >= 1
    requires forall i :: 0 <= i < |parts| ==> c !in parts[i]
    ensures Split(JoinWith(parts, [c]), c) == parts
  {
    if |parts| > 1 {
      var rest := parts[1..];
      var j := JoinWith(parts, [c]);
      var n := |parts[0]|;
      assert j == parts[0] + [c] + JoinWith(rest, [c]);
      assert j[n] == c;
      assert forall k :: 0 <= k < n ==> j[k] == parts[0][k];
      assert IndexOf(j, c) == Some(n);
      assert j[n + 1..] == JoinWith(rest, [c]);
      assert j[..n] == parts[0];
      SplitJoin(rest, c);
    } else {
      assert JoinWith(parts, [c]) == parts[0];
    }
  }

  /** The segments pathlib keeps: empty segments and "." are dropped. */
  function KeepSegments(segs: seq<string>): (r: seq<string>)
    ensures forall i :: 0 <= i < |r| ==> r[i] != "" && r[i] != "." && r[i] in segs
  {
    if segs == [] then []
    else if segs[0] == "" || segs[0] == "." then KeepSegments(segs[1..])
    else [segs[0]] + KeepSegments(segs[1..])
  }

  /** Keeping segments is the identity on segments that are all kept. */
  lemma {:induction false} KeepSegmentsKept(segs: seq<string>)
    requires forall i :: 0 <= i < |segs| ==> segs[i] != "" && segs[i] != "."
    ensures KeepSegments(segs) == segs
  {
    if segs != [] {
      KeepSegmentsKept(segs[1..]);
    }
  }

  predicate IsAbsolute(p: string) {
    p != [] && p[0] == '/'
  }

  /** `Path(p).parts` without the root `/`. */
  function Components(p: string): (r: seq<string>)
    ensures forall i :: 0 <= i < |r| ==> r[i] != "" && r[i] != "." && '/' !in r[i]
  {
    KeepSegments(Split(p, '/'))
  }

  /** The string pathlib prints for `parts` under the root `/` or none: "." when nothing is there. */
  function Assemble(parts: seq<string>, absolute: bool): string {
    if absolute then "/" + JoinWith(parts, "/")
    else if parts == [] then "."
    else JoinWith(parts, "/")
  }

  /**
   * `str(Path(p))`: the root, then the kept components joined by `/`. The
   * root is always a single `/`: `PurePosixPath` keeps a leading `//` (exactly
   * two slashes) as its own root, which this model renders as `/`.
   */
  function Render(p: string): string {
    Assemble(Components(p), IsAbsolute(p))
  }

  /** Parsing an assembled path gives back its parts and its root. */
  lemma ComponentsOfAssemble(parts: seq<string>, absolute: bool)
    requires forall i :: 0 <= i < |parts| ==> parts[i] != "" && parts[i] != "." && '/' !in parts[i]
    ensures Components(Assemble(parts, absolute)) == parts
    ensures IsAbsolute(Assemble(parts, absolute)) == absolute
  {
    var r := Assemble(parts, absolute);
    if parts == [] {
      if absolute {
        assert r == "/";
        assert Split(r, '/') == ["", ""] by {
          assert IndexOf(r, '/') == Some(0);
          assert r[1..] == "";
        }
      } else {
        assert Split(r, '/') == ["."];
      }
    } else {
      var j := JoinWith(parts, "/");
      SplitJoin(parts, '/');
      KeepSegmentsKept(parts);
      if absolute {
        assert r == "/" + j;
        assert IndexOf(r, '/') == Some(0);
        assert r[1..] == j;
        assert Split(r, '/') == [""] + parts;
      } else {
        assert r == j;
        assert j == parts[0] || j[..|parts[0]|] == parts[0];
        assert r[0] == parts[0][0];
      }
    }
  }

  /** Normalising a normalised path changes nothing: `str(Path(str(Path(p)))) == str(Path(p))`. */
  lemma RenderIdempotent(p: string)
    ensures Components(Render(p)) == Components(p)
    ensures IsAbsolute(Render(p)) == IsAbsolute(p)
    ensures Render(Render(p)) == Render(p)
  {
    ComponentsOfAssemble(Components(p), IsAbsolute(p));
  }

  /** `Path(p).name`: the last component, or "" when there is none. */
  function Name(p: string): (r: string)
    ensures '/' !in r
  {
    var comps := Components(p);
    if comps == [] then "" else comps[|comps| - 1]
  }

  /** `Path(p).suffix`: from the last '.' of the name, unless that dot is first or last. */
  function Suffix(p: string): (r: string)
    ensures r == [] || (r[0] == '.' && EndsWith(Name(p), r) && |r| < |Name(p)|)
    ensures '.' !in Name(p) ==> r == []
  {
    var name := Name(p);
    match LastIndexOf(name, '.')
    case None => ""
    case Some(i) => if 0 < i < |name| - 1 then name[i..] else ""
  }

  /** `str(Path(dir) / name)`: an absolute `name` replaces `dir`, and `Path("")` contributes nothing. */
  function JoinPath(dir: string, name: string): string {
    if IsAbsolute(name) || dir == "" then Render(name) else Render(dir + "/" + name)
  }

  /** `str(Path(p).parent)`: all components but the last, under the same root. */
  function ParentPath(p: string): string {
    var comps := Components(p);
    Assemble(if comps == [] then [] else comps[..|comps| - 1], IsAbsolute(p))
  }

  /** The parent drops exactly the last component, which is the name. */
  lemma ParentComponents(p: string)
    ensures Components(p) != [] ==> Components(ParentPath(p)) + [Name(p)] == Components(p)
    ensures Components(p) == [] ==> Components(ParentPath(p)) == []
    ensures IsAbsolute(ParentPath(p)) == IsAbsolute(p)
  {
    var comps := Components(p);
    var kept := if comps == [] then [] else comps[..|comps| - 1];
    ComponentsOfAssemble(kept, IsAbsolute(p));
    if comps != [] {
      assert kept + [comps[|comps| - 1]] == comps;
    }
  }

  /** `str(Path(p).absolute())` for the working directory `cwd` (pathlib does not resolve `..`). */
  function Absolute(cwd: string, p: string): string {
    JoinPath(cwd, p)
  }

  predicate Exists(fs: FileSystem, p: string) {
    Render(p) in fs
  }

  predicate IsFile(fs: FileSystem, p: string) {
    Render(p) in fs && fs[Render(p)].File?
  }

  predicate IsDir(fs: FileSystem, p: string) {
    Render(p) in fs && fs[Render(p)].Dir?
  }

  /** `Path(p).stat().st_size`. */
  function Size(fs: FileSystem, p: string): nat
    requires Exists(fs, p)
  {
    fs[Render(p)].size
  }
}
