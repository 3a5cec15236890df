/**
 * The part of the host filesystem the service touches, as a value: the set
 * of existing directories and the map from file paths to their bytes, with
 * the semantics of `Path.mkdir` and `shutil.rmtree` that api.py relies on.
 */
module FileSystem {

  /** An absolute path as its list of components; `[]` is `/`. */
  type Path = seq<string>

  newtype byte = x: int | 0 <= x < 256

  type Bytes = seq<byte>

  datatype Disk = Disk(dirs: set<Path>, files: map<Path, Bytes>)

  function Parent(p: Path): Path
    requires p != []
  {
    p[..|p| - 1]
  }

  /** Index of the first `/` in `s`, or `|s|` when there is none. */
  function FirstSlash(s: string): (k: nat)
    ensures k <= |s| && forall j | 0 <= j < k :: s[j] != '/'
    ensures k < |s| ==> s[k] == '/'
    ensures '/' !in s ==> k == |s|
  {
    if s == [] || s[0] == '/' then 0 else 1 + FirstSlash(s[1..])
  }

  /**
   * The components pathlib makes of a relative name: it is cut at every
   * `/`, and empty and `.` parts are dropped.
   */
  function Components(name: string): seq<string>
    decreases |name|
  {
    var k := FirstSlash(name);
    var head := name[..k];
    var rest := if k < |name| then Components(name[k + 1..]) else [];
    if head == "" || head == "." then rest else [head] + rest
  }

  /**
   * `p / name` for a relative name: the name's components below `p`. (An
   * absolute name would make pathlib discard `p`.)
   */
  function Join(p: Path, name: string): (r: Path)
    requires name == "" || name[0] != '/'
    ensures p <= r
  {
    p + Components(name)
  }

  /** A name without `/`, other than `""` and `.`, is a single component. */
  lemma PlainComponent(name: string)
    requires '/' !in name && name != "" && name != "."
    ensures Components(name) == [name]
  {
    assert name[..FirstSlash(name)] == name;
  }

  /** A name ending in a character other than `/` and `.` has at least one component. */
  lemma {:induction false} LastComponent(s: string)
    requires |s| > 0 && s[|s| - 1] !in "/."
    ensures Components(s) != []
    decreases |s|
  {
    var k := FirstSlash(s);
    if k == |s| {
      assert s[..k] == s;
      assert s != "." by { assert s[|s| - 1] != '.'; }
    } else {
      assert s[k + 1..][|s[k + 1..]| - 1] == s[|s| - 1];
      LastComponent(s[k + 1..]);
    }
  }

  /**
   * A name holding a `/`, whose first and last characters are neither `/`
   * nor `.`, has at least two components.
   */
  lemma SlashSplits(name: string)
    requires '/' in name && name[0] !in "/." && name[|name| - 1] !in "/."
    ensures |Components(name)| >= 2
  {
    var k := FirstSlash(name);
    var j :| 0 <= j < |name| && name[j] == '/';
    assert k <= j;
    assert name[..k][0] == name[0];
    assert name[k + 1..][|name[k + 1..]| - 1] == name[|name| - 1];
    LastComponent(name[k + 1..]);
  }

  /** `str(p)` for an absolute path. */
  function Render(p: Path): string
  {
    if p == [] then "" else Render(Parent(p)) + "/" + p[|p| - 1]
  }

  /**
   * A real filesystem: the root exists, every directory and every file sits
   * in an existing directory, and no path is both a file and a directory.
   */
  predicate WellFormed(d: Disk)
  {
    && [] in d.dirs
    && (forall q | q in d.dirs && q != [] :: Parent(q) in d.dirs)
    && (forall f | f in d.files :: f != [] && Parent(f) in d.dirs && f !in d.dirs)
  }

  /** Text of `FileExistsError` for `p`. */
  function FileExists(p: Path): string
  {
    "[Errno 17] File exists: '" + Render(p) + "'"
  }

  /** Text of `FileNotFoundError` for `p`. */
  function NoSuchFile(p: Path): string
  {
    "[Errno 2] No such file or directory: '" + Render(p) + "'"
  }

  /** Text of `NotADirectoryError` for `p`. */
  function NotADirectory(p: Path): string
  {
    "[Errno 20] Not a directory: '" + Render(p) + "'"
  }

  /** Some proper ancestor of `p` is a regular file, so the lookup of `p` stops at it. */
  predicate BelowFile(d: Disk, p: Path)
  {
    exists i | 0 < i < |p| :: p[..i] in d.files
  }

  datatype Made = Made(disk: Disk) | MkdirFailed(error: string)

  /**
   * `p.mkdir(exist_ok=existOk)` without `parents`: an existing path raises
   * unless it is a directory and `existOk` holds; a missing parent raises,
   * with `NotADirectoryError` when the lookup runs into a regular file and
   * `FileNotFoundError` otherwise.
   */
  function Mkdir(d: Disk, p: Path, existOk: bool): (m: Made)
    ensures m.Made? <==> (p in d.dirs && existOk)
                         || (p !in d.dirs && p !in d.files && p != [] && Parent(p) in d.dirs)
    ensures m.Made? ==> m.disk.dirs == d.dirs + {p} && m.disk.files == d.files
    ensures m.MkdirFailed? && (p in d.dirs || p in d.files) ==> m.error == FileExists(p)
    ensures m.MkdirFailed? && p !in d.dirs && p !in d.files ==>
              m.error == if BelowFile(d, p) then NotADirectory(p) else NoSuchFile(p)
  {
    if p in d.dirs || p in d.files then
      if existOk && p in d.dirs then Made(d) else MkdirFailed(FileExists(p))
    else if p == [] || Parent(p) !in d.dirs then
      MkdirFailed(if BelowFile(d, p) then NotADirectory(p) else NoSuchFile(p))
    else Made(d.(dirs := d.dirs + {p}))
  }

  /** A directory made inside an existing directory keeps the filesystem well formed. */
  lemma MkdirKeepsWellFormed(d: Disk, p: Path, existOk: bool)
    requires WellFormed(d)
    ensures Mkdir(d, p, existOk).Made? ==> WellFormed(Mkdir(d, p, existOk).disk)
  {
  }

  /** `shutil.rmtree(p)`: `p` and everything below it disappear. */
  function RemoveTree(d: Disk, p: Path): (r: Disk)
    ensures forall q | q in r.dirs :: q in d.dirs && !(p <= q)
    ensures forall f | f in r.files :: f in d.files && !(p <= f)
    ensures forall q | q in d.dirs && !(p <= q) :: q in r.dirs
    ensures forall f | f in d.files && !(p <= f) :: f in r.files && r.files[f] == d.files[f]
  {
    Disk(set q | q in d.dirs && !(p <= q), map f | f in d.files && !(p <= f) :: d.files[f])
  }

  /** A path strictly below `p` has its parent below `p` or equal to it. */
  lemma PrefixOfParent(p: Path, q: Path)
    requires q != []
    ensures p <= q && p != q <==> p <= Parent(q)
  {
    assert q[..|q|] == q;
    if |p| < |q| {
      assert Parent(q)[..|p|] == q[..|p|];
    }
  }

  /** Removing a tree other than the root keeps the filesystem well formed. */
  lemma RemoveTreeKeepsWellFormed(d: Disk, p: Path)
    requires WellFormed(d) && p != []
    ensures WellFormed(RemoveTree(d, p))
  {
    var r := RemoveTree(d, p);
    forall q | q in r.dirs && q != []
      ensures Parent(q) in r.dirs
    {
      PrefixOfParent(p, q);
    }
    forall f | f in r.files
      ensures f != [] && Parent(f) in r.dirs && f !in r.dirs
    {
      PrefixOfParent(p, f);
    }
  }

  /** In a well-formed filesystem nothing lives below a missing directory. */
  lemma {:induction false} NothingBelowMissingDir(d: Disk, p: Path, q: Path)
    requires WellFormed(d) && p !in d.dirs
    ensures q in d.dirs ==> !(p <= q)
    decreases |q|
  {
    if q in d.dirs {
      if q != [] && |p| < |q| {
        NothingBelowMissingDir(d, p, Parent(q));
        PrefixOfParent(p, q);
      } else {
        assert q[..|q|] == q;
        assert p <= q ==> p == q;
      }
    }
  }
}
