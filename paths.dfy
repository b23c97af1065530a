/** A simple model of the `pathlib` operations the configuration code uses:
    the final component of a path, its suffix, its stem, its parent, and
    joining a directory with a file name. Paths use '/' as separator and are
    taken to be in normal form (no trailing separator, no '.' components).
    Also the extension check every entry point performs before touching a
    file. */
module Paths {
  import opened Strings
  import opened Values

  /** `Path(p).name`: the text after the last separator. */
  function Name(p: string): (r: string)
    ensures |r| <= |p| && p[|p| - |r|..] == r
    ensures forall i :: 0 <= i < |r| ==> r[i] != '/'
  {
    p[LastIndexOf(p, '/') + 1..]
  }

  /** `Path(p).suffix`: the name from its last '.' on, provided that dot is
      neither the first nor the last character of the name; "" otherwise. */
  function Suffix(p: string): (r: string)
    ensures r == [] || (|r| >= 2 && r[0] == '.')
    ensures forall i :: 1 <= i < |r| ==> r[i] != '.' && r[i] != '/'
    // a suffix never takes the whole name, so a name such as ".yaml" has none
    ensures r != [] ==> |r| < |Name(p)|
    // no suffix: every dot inside the name is followed by another dot
    ensures r == [] ==> forall i :: 0 < i < |Name(p)| - 1 && Name(p)[i] == '.' ==> '.' in Name(p)[i + 1..]
  {
    var name := Name(p);
    var i := LastIndexOf(name, '.');
    if 0 < i < |name| - 1 then name[i..] else
      assert forall k :: 0 < k < |name| - 1 && name[k] == '.' ==> name[i] == '.' && i > k;
      []
  }

  /** `Path(p).stem`: the name without its suffix. */
  function Stem(p: string): (r: string)
    ensures r + Suffix(p) == Name(p)
  {
    var name := Name(p);
    var i := LastIndexOf(name, '.');
    if 0 < i < |name| - 1 then name[..i] else name
  }

  /** `str(Path(p).parent)`: everything before the last separator; "." for a
      bare file name and "/" for a file directly under the root. */
  function Parent(p: string): (r: string)
    ensures r != []
    ensures LastIndexOf(p, '/') == -1 ==> r == "." && Name(p) == p
    ensures LastIndexOf(p, '/') == 0 ==> r == "/" && r + Name(p) == p
    ensures LastIndexOf(p, '/') > 0 ==> r + "/" + Name(p) == p
  {
    var i := LastIndexOf(p, '/');
    if i == -1 then "." else if i == 0 then "/" else p[..i]
  }

  /** `str(Path(dir, name))` for a name without separators: "." (and "")
      vanish, a directory already ending in '/' gets no second one. */
  function JoinPath(dir: string, name: string): (r: string)
    ensures |r| >= |name| && r[|r| - |name|..] == name
    ensures dir == "." || dir == "" ==> r == name
    ensures dir != "." && dir != "" ==> |r| >= |dir| && r[..|dir|] == dir
  {
    if dir == "." || dir == "" then name
    else if dir[|dir| - 1] == '/' then dir + name
    else dir + "/" + name
  }

  /** Joining one directory with two different names gives two different
      paths. */
  lemma JoinPathInjective(dir: string, a: string, b: string)
    requires a != b
    ensures JoinPath(dir, a) != JoinPath(dir, b)
  {
    var prefix := if dir == "." || dir == "" then [] else if dir[|dir| - 1] == '/' then dir else dir + "/";
    assert JoinPath(dir, a) == prefix + a;
    assert JoinPath(dir, b) == prefix + b;
    assert (prefix + a)[|prefix|..] == a && (prefix + b)[|prefix|..] == b;
  }

  /** The allow-lists of the five entry points. */
  const YamlTypes: seq<string> := [".yml", ".yaml"]
  const ConfigYamlTypes: seq<string> := [".yaml", ".yml"]
  const InpTypes: seq<string> := [".inp"]
  const TxtTypes: seq<string> := [".txt"]

  /** `suffix.lower() in allowed_types`. */
  predicate AllowedSuffix(p: string, allowed: seq<string>)
  {
    Lower(Suffix(p)) in allowed
  }

  /** The guard at the top of each entry point: accept the path, or fail with
      the extension error naming the path and the allow-list. */
  function CheckExtension(p: string, allowed: seq<string>): (r: Result<()>)
    ensures r.Ok? <==> AllowedSuffix(p, allowed)
    ensures r.Err? ==> r.error == ExtensionMismatch(p, allowed)
  {
    if Lower(Suffix(p)) in allowed then Ok(()) else Err(ExtensionMismatch(p, allowed))
  }

  predicate NoSeparator(s: string)
  {
    forall i :: 0 <= i < |s| ==> s[i] != '/'
  }

  predicate IsExtension(ext: string)
  {
    |ext| >= 2 && ext[0] == '.' && forall i :: 1 <= i < |ext| ==> ext[i] != '.' && ext[i] != '/'
  }

  /** The last occurrence is where the postcondition of `LastIndexOf` says. */
  lemma LastIndexOfAt(s: string, c: char, k: int)
    requires -1 <= k < |s| && (k >= 0 ==> s[k] == c)
    requires forall j :: k < j < |s| ==> s[j] != c
    ensures LastIndexOf(s, c) == k
  {
  }

  /** A file name without separators, placed in any directory, keeps that
      name. */
  lemma NameOfJoin(dir: string, name: string)
    requires name != [] && NoSeparator(name)
    ensures Name(JoinPath(dir, name)) == name
  {
    var p := JoinPath(dir, name);
    var k := |p| - |name| - 1;
    assert k >= 0 ==> p[k] == '/';
    forall j | k < j < |p| ensures p[j] != '/' {
      assert p[j] == p[|p| - |name|..][j - |p| + |name|];
    }
    LastIndexOfAt(p, '/', k);
  }

  /** The parent of a directory joined with a file name is that directory,
      so together with `NameOfJoin` and the contract of `Parent` the joined
      path is the directory, one separator and the name. */
  lemma ParentOfJoin(dir: string, name: string)
    requires dir != "" && dir != "." && dir[|dir| - 1] != '/'
    requires name != [] && NoSeparator(name)
    ensures Parent(JoinPath(dir, name)) == dir
    ensures JoinPath(dir, name) == dir + "/" + name
  {
    var p := JoinPath(dir, name);
    NameOfJoin(dir, name);
    assert LastIndexOf(p, '/') > 0 by {
      assert p[|dir|] == '/';
      forall j | |dir| < j < |p| ensures p[j] != '/' {
        assert p[j] == name[j - |dir| - 1];
      }
      LastIndexOfAt(p, '/', |dir|);
    }
    assert |Parent(p)| == |dir|;
    assert Parent(p) == p[..|dir|];
  }

  /** The file name `base + ext` has suffix `ext` and stem `base` whenever
      `base` is non-empty. */
  lemma SuffixOfName(base: string, ext: string)
    requires base != [] && NoSeparator(base) && IsExtension(ext)
    ensures Name(base + ext) == base + ext
    ensures Suffix(base + ext) == ext
    ensures Stem(base + ext) == base
  {
    var name := base + ext;
    NameOfJoin(".", name);
    var i := |base|;
    forall j | i < j < |name| ensures name[j] != '.' {
      assert name[j] == ext[j - i];
    }
    LastIndexOfAt(name, '.', i);
    assert name[i..] == ext && name[..i] == base;
  }

  /** A hidden file whose whole name is a dot and an extension, such as
      `dir/.yaml`, has no suffix, so every extension check refuses it. */
  lemma HiddenFileHasNoSuffix(dir: string, ext: string, allowed: seq<string>)
    requires IsExtension(ext)
    ensures Suffix(JoinPath(dir, ext)) == []
    ensures CheckExtension(JoinPath(dir, ext), allowed).Ok? <==> "" in allowed
  {
    NameOfJoin(dir, ext);
    LastIndexOfAt(ext, '.', 0);
  }

  /** The file `base + ext`, placed in any directory, has name `base + ext`,
      suffix `ext` and stem `base`. */
  lemma NamedFile(dir: string, base: string, ext: string)
    requires base != [] && NoSeparator(base) && IsExtension(ext)
    ensures Name(JoinPath(dir, base + ext)) == base + ext
    ensures Suffix(JoinPath(dir, base + ext)) == ext
    ensures Stem(JoinPath(dir, base + ext)) == base
  {
    SuffixOfName(base, ext);
    NameOfJoin(dir, base + ext);
  }

  /** The check accepts a path exactly when the lower-cased extension it
      ends with is on the allow-list, whatever the directory and base name. */
  lemma CheckExtensionOfNamedFile(dir: string, base: string, ext: string, allowed: seq<string>)
    requires base != [] && NoSeparator(base) && IsExtension(ext)
    ensures CheckExtension(JoinPath(dir, base + ext), allowed).Ok? <==> Lower(ext) in allowed
  {
    NamedFile(dir, base, ext);
  }
}
