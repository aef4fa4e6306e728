/**
  The filesystem as both versions of rper see it, in place of the system
  calls: an inode table answering lstat, stat and chmod, and directory
  listings answering opendir/readdir. Output lines are recorded as tagged
  events rather than text.

  A path is the sequence of names from the directory argument down; [] is the
  directory argument itself. The table is keyed by path: a path that is not in
  the table is one lstat fails on. A symbolic link stores the path it resolves
  to; stat and chmod reach that inode through it.

  Listings are immutable during a run (chmod changes permission bits only);
  whether opendir succeeds on a directory is fixed by its listing.
 */
module FileSystem {
  import opened Modes
  import opened Getopt

  type Path = seq<string>

  /** What lstat/stat report in st_mode, and what readdir reports in d_type. */
  datatype Kind = Regular | Directory | Symlink | Special

  /**
    One inode: its kind, its st_mode word (permission bits plus whatever else
    the word holds), whether chmod on it succeeds (ownership and the like,
    decided outside the program), and for a link the path it resolves to.
   */
  datatype Inode = Inode(kind: Kind, perm: Mode, chmodOk: bool, target: Path)

  type Table = map<Path, Inode>

  /** A directory entry as readdir yields it; `sub` is what opening it gives. */
  datatype Dirent = Dirent(name: string, dtype: Kind, sub: Listing)

  /** The result of opendir: a failure, or the entries in readdir order. */
  datatype Listing = Unreadable | Entries(entries: seq<Dirent>)

  datatype ChmodResult = ChmodResult(ok: bool, fs: Table)

  /** lstat: the inode at `p` itself, links not followed. */
  function Lstat(fs: Table, p: Path): Option<Inode>
  {
    if p in fs then Some(fs[p]) else None
  }

  /**
    The inode that stat and chmod reach from `p`: `p` itself unless it is a
    link, else the link's target when that exists and is not itself a link.
   */
  function Resolve(fs: Table, p: Path): (r: Option<Path>)
    ensures r.Some? ==> r.value in fs && fs[r.value].kind != Symlink
    ensures p in fs && fs[p].kind != Symlink ==> r == Some(p)
    ensures p !in fs ==> r.None?
  {
    if p !in fs then None
    else if fs[p].kind != Symlink then Some(p)
    else if fs[p].target in fs && fs[fs[p].target].kind != Symlink then Some(fs[p].target)
    else None
  }

  /** stat: the inode `p` resolves to. */
  function Stat(fs: Table, p: Path): Option<Inode>
  {
    match Resolve(fs, p)
    case None => None
    case Some(q) => Some(fs[q])
  }

  /** chmod(p, m): sets the st_mode of the inode `p` resolves to, when permitted. */
  function Chmod(fs: Table, p: Path, m: Mode): ChmodResult
  {
    match Resolve(fs, p)
    case None => ChmodResult(false, fs)
    case Some(q) =>
      if fs[q].chmodOk then ChmodResult(true, fs[q := fs[q].(perm := m)]) else ChmodResult(false, fs)
  }

  /** What rper writes, one event per line; the path and the modes are kept, not the text. */
  datatype Event =
    | StatFailed(path: Path)          // "Error: Cannot access(stat) file"
    | LinkSkipped(path: Path)         // "(L -> SKIP)"
    | LinkUnresolved(path: Path)      // "Skipping: Cannot follow symlink"
    | LinkFollowed(path: Path)        // "(L -> FOLLOW)"
    | LinkFound(path: Path)           // "Error: Symlink found"
    | DirUnchanged(path: Path)        // "(D -> S)"
    | FileUnchanged(path: Path)       // "(F -> S)"
    | DirChanged(path: Path, before: Mode, template: seq<char>, after: Mode)   // "(D old -> [tpl] new)"
    | FileChanged(path: Path, before: Mode, template: seq<char>, after: Mode)  // "(F old -> [tpl] new)"
    | DirChmodFailed(path: Path)      // "Error: Cannot change directory permissions"
    | FileChmodFailed(path: Path)     // "Error: Cannot change file permissions"
    | OpenDirFailed(path: Path)       // "Error: Cannot open directory"
    | ConfigError(fault: Fault)       // the error main writes before it returns EXIT_FAILURE
  {
    /** Lines written to stderr rather than stdout. */
    predicate IsDiagnostic() {
      StatFailed? || LinkUnresolved? || LinkFound? || DirChmodFailed? || FileChmodFailed? || OpenDirFailed? || ConfigError?
    }
  }

  /** The event `e` when `shown`, nothing otherwise. */
  function Say(shown: bool, e: Event): (r: seq<Event>)
    ensures r == [] || r == [e]
    ensures |r| == 1 <==> shown
  {
    if shown then [e] else []
  }

  /** One call of change_permissions: the path and the two target flags it was given. */
  datatype Visited = Visited(path: Path, changeFiles: bool, changeDirs: bool)

  /** `q` lies under `p` and no name below `p` is "." or "..". */
  predicate Below(p: Path, q: Path) {
    |p| <= |q| && q[..|p|] == p && forall k :: |p| <= k < |q| ==> q[k] != "." && q[k] != ".."
  }

  // ---------------------------------------------------------------------------
  // What a run may do to the inode table
  // ---------------------------------------------------------------------------

  /** The inode after the template has been applied to its permission bits. */
  function Rewritten(t: seq<char>, ino: Inode): (r: Inode)
    requires IsTemplate(t)
    ensures r.kind == ino.kind && r.chmodOk == ino.chmodOk && r.target == ino.target
    ensures r.perm <= PERM_MASK
  {
    ino.(perm := Applied(t, ino.perm & PERM_MASK))
  }

  /** Kinds a run with these target flags may change. */
  predicate Touchable(k: Kind, changeFiles: bool, changeDirs: bool) {
    (k == Directory && changeDirs) || (k == Regular && changeFiles)
  }

  /**
    Every record of `fs` (one per path) is either as it was in `fs0` or has been rewritten
    once by the template, and then only if it is of a kind the flags target.
   */
  ghost predicate OnlyRewritten(fs0: Table, fs: Table, t: seq<char>, changeFiles: bool, changeDirs: bool)
    requires IsTemplate(t)
  {
    fs.Keys == fs0.Keys &&
    forall q :: q in fs0 ==>
      fs[q] == fs0[q] || (Touchable(fs0[q].kind, changeFiles, changeDirs) && fs[q] == Rewritten(t, fs0[q]))
  }

  /** The inodes of kind `k` whose record differs between `fs0` and `fs`. */
  function ChangedOf(fs0: Table, fs: Table, k: Kind): set<Path> {
    set q | q in fs0 && q in fs && fs[q] != fs0[q] && fs0[q].kind == k
  }

  lemma OnlyRewrittenRefl(fs: Table, t: seq<char>, changeFiles: bool, changeDirs: bool)
    requires IsTemplate(t)
    ensures OnlyRewritten(fs, fs, t, changeFiles, changeDirs)
    ensures forall k :: ChangedOf(fs, fs, k) == {}
  {
  }

  /**
    The one way a run changes the table: chmod of the inode `p` stats to, with
    the template applied to its bits, when that differs from its bits. The
    inode cannot have been rewritten before (a rewritten inode is a fixed
    point of the template), so a successful chmod adds exactly one inode, of
    the stat'ed kind, to the changed set.
   */
  lemma ChmodStep(fs0: Table, fs: Table, t: seq<char>, changeFiles: bool, changeDirs: bool, p: Path, ino: Inode, m: Mode)
    requires IsTemplate(t) && OnlyRewritten(fs0, fs, t, changeFiles, changeDirs)
    requires Stat(fs, p) == Some(ino) && Touchable(ino.kind, changeFiles, changeDirs)
    requires m == Applied(t, ino.perm & PERM_MASK) && ino.perm & PERM_MASK != m
    ensures OnlyRewritten(fs0, Chmod(fs, p, m).fs, t, changeFiles, changeDirs)
    ensures forall k :: |ChangedOf(fs0, Chmod(fs, p, m).fs, k)|
                        == |ChangedOf(fs0, fs, k)| + (if Chmod(fs, p, m).ok && k == ino.kind then 1 else 0)
  {
    var q := Resolve(fs, p).value;
    if Chmod(fs, p, m).ok {
      assert Chmod(fs, p, m).fs == fs[q := Rewritten(t, fs[q])];
      RewriteStep(fs0, fs, t, changeFiles, changeDirs, q);
    }
  }

  /** Rewriting an inode whose bits the template would still change: see ChmodStep. */
  lemma RewriteStep(fs0: Table, fs: Table, t: seq<char>, changeFiles: bool, changeDirs: bool, q: Path)
    requires IsTemplate(t) && OnlyRewritten(fs0, fs, t, changeFiles, changeDirs)
    requires q in fs && Touchable(fs[q].kind, changeFiles, changeDirs)
    requires fs[q].perm & PERM_MASK != Applied(t, fs[q].perm & PERM_MASK)
    ensures OnlyRewritten(fs0, fs[q := Rewritten(t, fs[q])], t, changeFiles, changeDirs)
    ensures forall k :: |ChangedOf(fs0, fs[q := Rewritten(t, fs[q])], k)|
                        == |ChangedOf(fs0, fs, k)| + (if k == fs[q].kind then 1 else 0)
  {
    NotYetRewritten(t, fs0[q], fs[q]);
    RewriteOne(fs0, fs, t, changeFiles, changeDirs, q);
    forall k ensures |ChangedOf(fs0, fs[q := Rewritten(t, fs[q])], k)| == |ChangedOf(fs0, fs, k)| + (if k == fs[q].kind then 1 else 0) {
      AddChanged(fs0, fs, q, Rewritten(t, fs0[q]), k);
    }
  }

  /** Rewriting one untouched inode of a targeted kind keeps the table within OnlyRewritten. */
  lemma RewriteOne(fs0: Table, fs: Table, t: seq<char>, changeFiles: bool, changeDirs: bool, q: Path)
    requires IsTemplate(t) && OnlyRewritten(fs0, fs, t, changeFiles, changeDirs)
    requires q in fs0 && fs[q] == fs0[q] && Touchable(fs0[q].kind, changeFiles, changeDirs)
    ensures OnlyRewritten(fs0, fs[q := Rewritten(t, fs0[q])], t, changeFiles, changeDirs)
  {
  }

  /**
    An inode whose bits the template would still change has not been
    rewritten yet, and rewriting it changes it.
   */
  lemma NotYetRewritten(t: seq<char>, orig: Inode, cur: Inode)
    requires IsTemplate(t)
    requires cur == orig || cur == Rewritten(t, orig)
    requires cur.perm & PERM_MASK != Applied(t, cur.perm & PERM_MASK)
    ensures cur == orig && Rewritten(t, orig) != orig
  {
    if cur != orig {
      AppliedIdempotent(t, orig.perm & PERM_MASK);
    }
  }

  /** Replacing an unchanged inode by a different record adds it to the changed set of its kind. */
  lemma AddChanged(fs0: Table, fs: Table, q: Path, ino: Inode, k: Kind)
    requires fs.Keys == fs0.Keys && q in fs0 && fs[q] == fs0[q] && ino != fs0[q] && ino.kind == fs0[q].kind
    ensures |ChangedOf(fs0, fs[q := ino], k)| == |ChangedOf(fs0, fs, k)| + (if k == ino.kind then 1 else 0)
  {
    if k == ino.kind {
      assert ChangedOf(fs0, fs[q := ino], k) == ChangedOf(fs0, fs, k) + {q};
    } else {
      assert ChangedOf(fs0, fs[q := ino], k) == ChangedOf(fs0, fs, k);
    }
  }

  /** A run targeting fewer kinds stays within what more targets allow. */
  lemma OnlyRewrittenWiden(fs0: Table, fs: Table, t: seq<char>, cf: bool, cd: bool, cf': bool, cd': bool)
    requires IsTemplate(t) && OnlyRewritten(fs0, fs, t, cf, cd)
    requires (cf ==> cf') && (cd ==> cd')
    ensures OnlyRewritten(fs0, fs, t, cf', cd')
  {
  }

  // ---------------------------------------------------------------------------
  // Which calls of change_permissions a directory walk may make
  // ---------------------------------------------------------------------------

  /** The arguments process_directory passes down that decide which paths it visits, and how. */
  datatype Scope = Scope(recursive: bool, changeFiles: bool, changeDirs: bool, includeDir: bool)

  /**
    A call of change_permissions that process_directory(p) on listing `l` may
    make: a path under `p` with no "." or ".." below it; `p` itself only with
    files off and directories on, and only under -d -i; the run's own flags,
    or files off and directories on under -d -i; a path directly under `p`
    names an entry of `l`, and a deeper one goes through an entry that readdir
    typed as a directory, and only when recursing.
   */
  predicate WalkCall(w: Scope, p: Path, l: Listing, v: Visited) {
    && Below(p, v.path)
    && (v.path == p ==> !v.changeFiles && v.changeDirs && w.changeDirs && w.includeDir)
    && ((v.changeFiles == w.changeFiles && v.changeDirs == w.changeDirs)
        || (!v.changeFiles && v.changeDirs && w.changeDirs && w.includeDir))
    && (|v.path| > |p| ==>
          && l.Entries?
          && exists k :: 0 <= k < |l.entries| && l.entries[k].name == v.path[|p|]
                         && (|v.path| > |p| + 1 ==> w.recursive && l.entries[k].dtype == Directory))
  }

  /** The calls recorded after `vs0` in `vs` are all calls process_directory(p) may make. */
  predicate Traced(vs0: seq<Visited>, vs: seq<Visited>, w: Scope, p: Path, l: Listing) {
    |vs0| <= |vs| && vs[..|vs0|] == vs0 && forall j :: |vs0| <= j < |vs| ==> WalkCall(w, p, l, vs[j])
  }

  lemma TracedTrans(a: seq<Visited>, b: seq<Visited>, d: seq<Visited>, w: Scope, p: Path, l: Listing)
    requires Traced(a, b, w, p, l) && Traced(b, d, w, p, l)
    ensures Traced(a, d, w, p, l)
  {
    assert d[..|a|] == d[..|b|][..|a|];
  }

  /** A call made inside the walk of entry `k`, a directory, is a call of the walk of `p`. */
  lemma WidenCall(w: Scope, p: Path, l: Listing, k: nat, v: Visited)
    requires l.Entries? && k < |l.entries| && w.recursive && l.entries[k].dtype == Directory
    requires l.entries[k].name != "." && l.entries[k].name != ".."
    requires WalkCall(w, p + [l.entries[k].name], l.entries[k].sub, v)
    ensures WalkCall(w, p, l, v)
  {
    var q := p + [l.entries[k].name];
    assert v.path[..|q|] == q;
    assert v.path[..|p|] == v.path[..|q|][..|p|];
    assert v.path[|p|] == v.path[..|q|][|p|];
    forall i | |p| <= i < |v.path|
      ensures v.path[i] != "." && v.path[i] != ".."
    {
      if i == |p| {
      } else {
        assert |q| <= i;
      }
    }
  }

  lemma WidenTraced(a: seq<Visited>, b: seq<Visited>, w: Scope, p: Path, l: Listing, k: nat)
    requires l.Entries? && k < |l.entries| && w.recursive && l.entries[k].dtype == Directory
    requires l.entries[k].name != "." && l.entries[k].name != ".."
    requires Traced(a, b, w, p + [l.entries[k].name], l.entries[k].sub)
    ensures Traced(a, b, w, p, l)
  {
    forall j | |a| <= j < |b|
      ensures WalkCall(w, p, l, b[j])
    {
      WidenCall(w, p, l, k, b[j]);
    }
  }

  /** A call recorded in `vs1` after `vs0` is still recorded once more calls have followed. */
  lemma KeptCall(vs0: seq<Visited>, vs1: seq<Visited>, vs: seq<Visited>, v: Visited)
    requires |vs0| <= |vs1| <= |vs| && vs[..|vs1|] == vs1 && v in vs1[|vs0|..]
    ensures v in vs[|vs0|..]
  {
    var j :| |vs0| <= j < |vs1| && vs1[j] == v;
    assert vs[j] == vs[..|vs1|][j];
    assert vs[|vs0|..][j - |vs0|] == v;
  }

  /** Every entry among the first `n` of `l`, but "." and "..", was visited after `vs0` in `vs`. */
  predicate Reached(vs0: seq<Visited>, vs: seq<Visited>, w: Scope, p: Path, l: Listing, n: nat)
    requires l.Entries? && n <= |l.entries|
  {
    |vs0| <= |vs| &&
    forall k :: 0 <= k < n && l.entries[k].name != "." && l.entries[k].name != ".." ==>
      Visited(p + [l.entries[k].name], w.changeFiles, w.changeDirs) in vs[|vs0|..]
  }

  lemma ReachedNext(vs0: seq<Visited>, vs1: seq<Visited>, vs: seq<Visited>, w: Scope, p: Path, l: Listing, n: nat)
    requires l.Entries? && 0 < n <= |l.entries| && Reached(vs0, vs1, w, p, l, n - 1)
    requires var e := l.entries[n - 1];
      if e.name == "." || e.name == ".." then vs == vs1
      else |vs1| < |vs| && vs[..|vs1| + 1] == vs1 + [Visited(p + [e.name], w.changeFiles, w.changeDirs)]
    ensures Reached(vs0, vs, w, p, l, n)
  {
    var e := l.entries[n - 1];
    if e.name != "." && e.name != ".." {
      var v := Visited(p + [e.name], w.changeFiles, w.changeDirs);
      var vs2 := vs1 + [v];
      assert vs[..|vs1|] == vs1 by {
        assert vs[..|vs1|] == vs[..|vs1| + 1][..|vs1|];
      }
      forall k | 0 <= k < n && l.entries[k].name != "." && l.entries[k].name != ".."
        ensures Visited(p + [l.entries[k].name], w.changeFiles, w.changeDirs) in vs[|vs0|..]
      {
        if k < n - 1 {
          KeptCall(vs0, vs1, vs, Visited(p + [l.entries[k].name], w.changeFiles, w.changeDirs));
        } else {
          assert vs[|vs0|..][|vs1| - |vs0|] == vs[..|vs1| + 1][|vs1|] == v;
        }
      }
    }
  }


  /**
    `rel` names an entry below a directory whose opendir gives `l`, one name
    per level as readdir lists them: no "." or "..", and every name but the
    last an entry that readdir typed as a directory, reached only when
    recursing.
   */
  predicate Reachable(w: Scope, l: Listing, rel: Path)
    decreases l
  {
    && l.Entries? && |rel| > 0 && rel[0] != "." && rel[0] != ".."
    && exists k :: 0 <= k < |l.entries| && l.entries[k].name == rel[0]
         && (|rel| > 1 ==> w.recursive && l.entries[k].dtype == Directory && Reachable(w, l.entries[k].sub, rel[1..]))
  }

}
