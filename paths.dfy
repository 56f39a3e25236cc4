/** Path strings as `PathBuf::join`, `Path::parent` and `Path::file_name`
    treat them, with '/' as the only separator. */
module Paths {

  /** `base.join(part)`: an absolute `part` replaces `base`; otherwise a
      separator is put between them unless `base` is empty or already ends
      with one. */
  function Join(base: string, part: string): string {
    if |part| > 0 && part[0] == '/' then part
    else if |base| == 0 || base[|base| - 1] == '/' then base + part
    else base + "/" + part
  }

  /** The index of the last '/' in `p`, if any. */
  function LastSeparator(p: string): (k: int)
    ensures -1 <= k < |p|
    ensures k >= 0 ==> p[k] == '/'
    ensures forall j :: k < j < |p| ==> p[j] != '/'
  {
    if |p| == 0 then -1
    else if p[|p| - 1] == '/' then |p| - 1
    else LastSeparator(p[..|p| - 1])
  }

  /** `path.parent()`: everything before the last separator. */
  function Parent(p: string): string {
    var k := LastSeparator(p);
    if k < 0 then "" else p[..k]
  }

  /** `path.file_name()`: everything after the last separator. */
  function FileName(p: string): string {
    var k := LastSeparator(p);
    p[k + 1..]
  }

  /** Joining a directory with a plain file name (no separator in it) and
      splitting the result again gives back the directory and the name. */
  lemma JoinThenSplit(dir: string, name: string)
    requires |dir| > 0 && dir[|dir| - 1] != '/'
    requires |name| > 0 && forall i :: 0 <= i < |name| ==> name[i] != '/'
    ensures Parent(Join(dir, name)) == dir
    ensures FileName(Join(dir, name)) == name
  {
    var p := Join(dir, name);
    assert p == dir + "/" + name;
    var k := |dir|;
    assert p[k] == '/';
    assert forall j :: k < j < |p| ==> p[j] == name[j - k - 1];
    LastSeparatorIs(p, k);
    assert p[..k] == dir;
    assert p[k + 1..] == name;
  }

  lemma LastSeparatorIs(p: string, k: nat)
    requires k < |p| && p[k] == '/'
    requires forall j :: k < j < |p| ==> p[j] != '/'
    ensures LastSeparator(p) == k
  {
  }
}
