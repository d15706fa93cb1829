/**
 * A separator model of the `System.IO.Path` operations the compiled-model
 * cache uses. Both `\` and `/` separate directories, as on Windows; drive
 * letters, UNC prefixes and root directories are not distinguished.
 */
module Paths {
  import opened Wrappers

  predicate IsSeparator(c: char) {
    c == '\\' || c == '/'
  }

  predicate IsDot(c: char) {
    c == '.'
  }

  predicate NoSeparator(s: string) {
    forall i :: 0 <= i < |s| ==> !IsSeparator(s[i])
  }

  /** Index of the last separator, or -1. */
  function LastSeparator(s: string): (r: int)
    ensures -1 <= r < |s|
    ensures r >= 0 ==> IsSeparator(s[r])
    ensures forall j :: r < j < |s| ==> !IsSeparator(s[j])
  {
    if s == [] then -1 else if IsSeparator(s[|s| - 1]) then |s| - 1 else LastSeparator(s[..|s| - 1])
  }

  /** Index of the last dot, or -1 (`string.LastIndexOf('.')`). */
  function LastDot(s: string): (r: int)
    ensures -1 <= r < |s|
    ensures r >= 0 ==> IsDot(s[r])
    ensures forall j :: r < j < |s| ==> !IsDot(s[j])
  {
    if s == [] then -1 else if IsDot(s[|s| - 1]) then |s| - 1 else LastDot(s[..|s| - 1])
  }

  /** The three properties of `LastSeparator` determine it. */
  lemma LastSeparatorUnique(s: string, r: int)
    requires -1 <= r < |s|
    requires r >= 0 ==> IsSeparator(s[r])
    requires forall j :: r < j < |s| ==> !IsSeparator(s[j])
    ensures LastSeparator(s) == r
  {
  }

  /** The three properties of `LastDot` determine it. */
  lemma LastDotUnique(s: string, r: int)
    requires -1 <= r < |s|
    requires r >= 0 ==> IsDot(s[r])
    requires forall j :: r < j < |s| ==> !IsDot(s[j])
    ensures LastDot(s) == r
  {
  }

  /**
   * `Path.GetDirectoryName`: `None` (C#'s `null`) for an empty path, `""` when there is no
   * directory part, otherwise everything before the last separator.
   */
  function GetDirectoryName(path: string): (r: Option<string>)
  {
    if path == "" then None
    else
      var i := LastSeparator(path);
      if i < 0 then Some("") else Some(path[..i])
  }

  /** `Path.GetFileName`: everything after the last separator. */
  function GetFileName(path: string): (r: string)
  {
    path[LastSeparator(path) + 1..]
  }

  /** `Path.GetFileNameWithoutExtension`: the file name up to its last dot. */
  function GetFileNameWithoutExtension(path: string): (r: string)
  {
    var name := GetFileName(path);
    var dot := LastDot(name);
    if dot < 0 then name else name[..dot]
  }

  predicate IsPathRooted(s: string) {
    |s| > 0 && IsSeparator(s[0])
  }

  /** `Path.Combine` of two parts: inserts one separator unless either side already provides it. */
  function Combine(a: string, b: string): (r: string)
  {
    if b == "" then a
    else if a == "" then b
    else if IsPathRooted(b) then b
    else if IsSeparator(a[|a| - 1]) then a + b
    else a + "\\" + b
  }

  /** A file name, with or without its extension, never holds a separator. */
  lemma FileNameHasNoSeparator(path: string)
    ensures NoSeparator(GetFileName(path))
    ensures NoSeparator(GetFileNameWithoutExtension(path))
  {
    var i := LastSeparator(path);
    var name := GetFileName(path);
    assert NoSeparator(name) by {
      forall j | 0 <= j < |name| ensures !IsSeparator(name[j]) {
        assert name[j] == path[i + 1 + j];
      }
    }
    var dot := LastDot(name);
    if dot >= 0 {
      assert forall j :: 0 <= j < dot ==> name[..dot][j] == name[j];
    }
  }

  /** After a prefix that is empty or ends in a separator, the file name is what follows it. */
  lemma FileNameAfterPrefix(pre: string, name: string)
    requires pre == "" || IsSeparator(pre[|pre| - 1])
    requires NoSeparator(name)
    ensures GetFileName(pre + name) == name
  {
    var p := pre + name;
    assert forall j :: |pre| <= j < |p| ==> p[j] == name[j - |pre|];
    LastSeparatorUnique(p, |pre| - 1);
    assert p[|pre|..] == name;
  }

  /** In `base.ext` with a dot-free `ext`, the last dot is the one after `base`. */
  lemma LastDotBeforeExtension(base: string, ext: string)
    requires forall i :: 0 <= i < |ext| ==> !IsDot(ext[i])
    ensures LastDot(base + "." + ext) == |base|
  {
    var pre := base + ".";
    var name := pre + ext;
    assert IsDot(name[|base|]);
    forall j | |base| < j < |name| ensures !IsDot(name[j]) {
      assert name[j] == ext[j - |pre|];
    }
    LastDotUnique(name, |base|);
  }

  lemma BaseBeforeDot(base: string, ext: string)
    ensures (base + "." + ext)[..|base|] == base
  {
    assert base + "." + ext == base + ("." + ext);
  }

  /** The extension is what follows the last dot: a name `base.ext` with a dot-free `ext` loses `.ext`. */
  lemma StemBeforeExtension(pre: string, base: string, ext: string)
    requires pre == "" || IsSeparator(pre[|pre| - 1])
    requires NoSeparator(base + "." + ext)
    requires forall i :: 0 <= i < |ext| ==> !IsDot(ext[i])
    ensures GetFileName(pre + (base + "." + ext)) == base + "." + ext
    ensures GetFileNameWithoutExtension(pre + (base + "." + ext)) == base
  {
    FileNameAfterPrefix(pre, base + "." + ext);
    LastDotBeforeExtension(base, ext);
    BaseBeforeDot(base, ext);
  }

  /** Joining a directory that does not end in a separator to a plain name gives that directory back. */
  lemma DirectoryOfJoin(dir: string, name: string)
    requires dir != "" && !IsSeparator(dir[|dir| - 1])
    requires NoSeparator(name)
    ensures GetDirectoryName(dir + "\\" + name) == Some(dir)
  {
    var p := dir + "\\" + name;
    assert forall j :: |dir| < j < |p| ==> p[j] == name[j - |dir| - 1];
    LastSeparatorUnique(p, |dir|);
    assert p[..|dir|] == dir;
  }
}
