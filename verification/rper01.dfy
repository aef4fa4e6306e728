/**
  Version 0.1 of rper: change_permissions (lstat only, no symlink policy),
  the directory walk of process_directory, and the program state they update
  (the two run-wide counters, the stored template, the three output switches,
  the filesystem and the lines written).

  As for 0.2 the behaviour is given twice: as functions on a State value,
  about which the lemmas below are proved, and as the methods of class Rper,
  which are proved to end in the state the functions compute.

  Two traits of 0.1 are kept as written. The `mode` argument that main passes
  down (always 0) is never read: the methods take it and their contracts do
  not mention it. And in the directory branch of change_permissions the else
  that reports a failed chmod is attached to the inner output test instead of
  to the chmod test (TryDirChmod below, DirChmodMisnested for what follows).
 */
module Rper01 {
  import opened Modes
  import opened FileSystem
  import opened Getopt
  import opened Wildcard
  import opened Options01

  /** Everything a run changes: the two counters, the filesystem, the output, and the calls made. */
  datatype State = State(filesChanged: int, dirsChanged: int, fs: Table, events: seq<Event>, visited: seq<Visited>)

  /** What a run reads and never changes: the stored template and the three output switches. */
  datatype Config = Config(template: seq<char>, output: Output)

  /** Neither suppress_output nor suppress_all_output is on: the test guarding almost every line. */
  predicate Shown(out: Output) {
    !out.suppress && !out.suppressAll
  }

  // ---------------------------------------------------------------------------
  // change_permissions
  // ---------------------------------------------------------------------------

  /** change_permissions(p, mode, cf, cd): lstat, then the permission change. Each call is recorded. */
  function Visit(s: State, c: Config, p: Path, cf: bool, cd: bool): (r: State)
    requires IsTemplate(c.template)
    ensures r.visited == s.visited + [Visited(p, cf, cd)]
  {
    var s1 := s.(visited := s.visited + [Visited(p, cf, cd)]);
    match Lstat(s1.fs, p)
    case None => s1.(events := s1.events + Say(Shown(c.output), StatFailed(p)))
    case Some(ino) => ChangeMode(s1, c, p, ino, cf, cd)
  }

  /** The rest of change_permissions, on the inode lstat reported for `p` (a link's own inode). */
  function ChangeMode(s: State, c: Config, p: Path, ino: Inode, cf: bool, cd: bool): (r: State)
    requires IsTemplate(c.template)
    ensures r.visited == s.visited
  {
    var before := ino.perm & PERM_MASK;
    Decide(s, c, p, ino.kind, cf, cd, before, Applied(c.template, before))
  }

  /** What change_permissions does with an inode of kind `k` whose bits are `before` and would be `after`. */
  function Decide(s: State, c: Config, p: Path, k: Kind, cf: bool, cd: bool, before: Mode, after: Mode): (r: State)
    ensures r.visited == s.visited
  {
    if before == after then Unchanged(s, c, p, k, cf, cd)
    else if k == Directory && cd then TryDirChmod(s, c, p, before, after)
    else if k == Regular && cf then TryFileChmod(s, c, p, before, after)
    else s
  }

  /** The no-op notice, shown unless suppressed, for a targeted kind or when verbose. */
  function Unchanged(s: State, c: Config, p: Path, k: Kind, cf: bool, cd: bool): (r: State)
    ensures r.(events := s.events) == s
  {
    if k == Directory then
      s.(events := s.events + Say(Shown(c.output) && (cd || c.output.verbose), DirUnchanged(p)))
    else if k == Regular then
      s.(events := s.events + Say(Shown(c.output) && (cf || c.output.verbose), FileUnchanged(p)))
    else s
  }

  /**
    The directory branch as written: a successful chmod is counted and shown
    unless suppressed, and when suppressed the failure line is written if
    verbose; a failed chmod writes nothing.
   */
  function TryDirChmod(s: State, c: Config, p: Path, before: Mode, after: Mode): (r: State)
  {
    var r := Chmod(s.fs, p, after);
    if r.ok then
      s.(fs := r.fs, dirsChanged := s.dirsChanged + 1,
         events := s.events + (if Shown(c.output) then [DirChanged(p, before, c.template, after)]
                               else Say(Shown(c.output) || c.output.verbose, DirChmodFailed(p))))
    else s
  }

  /** The file branch: a successful chmod is counted and shown unless suppressed; a failure is reported unless suppressed, or when verbose. */
  function TryFileChmod(s: State, c: Config, p: Path, before: Mode, after: Mode): (r: State)
  {
    var r := Chmod(s.fs, p, after);
    if r.ok then
      s.(fs := r.fs, filesChanged := s.filesChanged + 1,
         events := s.events + Say(Shown(c.output), FileChanged(p, before, c.template, after)))
    else
      s.(events := s.events + Say(Shown(c.output) || c.output.verbose, FileChmodFailed(p)))
  }

  // ---------------------------------------------------------------------------
  // process_directory
  // ---------------------------------------------------------------------------

  /** process_directory(p, mode, ...) on a directory whose opendir gives `l`. */
  function Walk(s: State, c: Config, w: Scope, p: Path, l: Listing): (r: State)
    requires IsTemplate(c.template)
    decreases l, if l.Entries? then |l.entries| + 1 else 0
  {
    var s1 := if w.changeDirs && w.includeDir then Visit(s, c, p, false, true) else s;
    match l
    case Unreadable => s1.(events := s1.events + Say(Shown(c.output), OpenDirFailed(p)))
    case Entries(es) => Children(s1, c, w, p, l, |es|)
  }

  /** The readdir loop over the first `n` entries of `l`. */
  function Children(s: State, c: Config, w: Scope, p: Path, l: Listing, n: nat): (r: State)
    requires IsTemplate(c.template)
    requires l.Entries? && n <= |l.entries|
    decreases l, n
  {
    if n == 0 then s
    else Child(Children(s, c, w, p, l, n - 1), c, w, p, l.entries[n - 1])
  }

  /**
    One pass of the readdir loop, on the entry `e` of the directory at `p`:
    "." and ".." are skipped; any other entry is given to change_permissions
    and, when recursive and its d_type is a directory, walked.
   */
  function Child(s: State, c: Config, w: Scope, p: Path, e: Dirent): (r: State)
    requires IsTemplate(c.template)
    decreases e
  {
    if e.name == "." || e.name == ".." then s
    else
      var s2 := Visit(s, c, p + [e.name], w.changeFiles, w.changeDirs);
      if w.recursive && e.dtype == Directory then Walk(s2, c, w, p + [e.name], e.sub) else s2
  }

  // ---------------------------------------------------------------------------
  // The decision table of change_permissions
  // ---------------------------------------------------------------------------

  /** An inode lstat cannot reach is reported only when output is not suppressed, even with -v. */
  lemma VisitStatFailed(s: State, c: Config, p: Path, cf: bool, cd: bool)
    requires IsTemplate(c.template) && p !in s.fs
    ensures var r := Visit(s, c, p, cf, cd);
      && r.fs == s.fs && r.filesChanged == s.filesChanged && r.dirsChanged == s.dirsChanged
      && r.events == s.events + (if Shown(c.output) then [StatFailed(p)] else [])
  {
  }

  /** When the template leaves the bits as they are, nothing is chmod'ed and no counter moves. */
  lemma ChangeModeNoOp(s: State, c: Config, p: Path, ino: Inode, cf: bool, cd: bool)
    requires IsTemplate(c.template) && Applied(c.template, ino.perm & PERM_MASK) == ino.perm & PERM_MASK
    ensures var r := ChangeMode(s, c, p, ino, cf, cd);
      && r.fs == s.fs && r.filesChanged == s.filesChanged && r.dirsChanged == s.dirsChanged
      && (r.events == s.events || r.events == s.events + [DirUnchanged(p)] || r.events == s.events + [FileUnchanged(p)])
  {
    assert ChangeMode(s, c, p, ino, cf, cd) == Unchanged(s, c, p, ino.kind, cf, cd);
  }

  /**
    dirs_changed moves exactly for a directory, with -d in effect, whose bits
    the template changes and whose chmod succeeds; files_changed likewise for
    a regular file with -f in effect. Links and other kinds are never touched.
   */
  lemma ChangeModeCounters(s: State, c: Config, p: Path, ino: Inode, cf: bool, cd: bool)
    requires IsTemplate(c.template)
    ensures var r := ChangeMode(s, c, p, ino, cf, cd);
      var before := ino.perm & PERM_MASK;
      var after := Applied(c.template, before);
      var tried := before != after && ((ino.kind == Directory && cd) || (ino.kind == Regular && cf));
      var done := tried && Chmod(s.fs, p, after).ok;
      && r.dirsChanged == s.dirsChanged + (if done && ino.kind == Directory then 1 else 0)
      && r.filesChanged == s.filesChanged + (if done && ino.kind == Regular then 1 else 0)
      && r.fs == (if done then Chmod(s.fs, p, after).fs else s.fs)
  {
    var before := ino.perm & PERM_MASK;
    DecideCounters(s, c, p, ino.kind, cf, cd, before, Applied(c.template, before));
  }

  /** The same, for any bits before and after. */
  lemma DecideCounters(s: State, c: Config, p: Path, k: Kind, cf: bool, cd: bool, before: Mode, after: Mode)
    ensures var r := Decide(s, c, p, k, cf, cd, before, after);
      var tried := before != after && ((k == Directory && cd) || (k == Regular && cf));
      var done := tried && Chmod(s.fs, p, after).ok;
      && r.dirsChanged == s.dirsChanged + (if done && k == Directory then 1 else 0)
      && r.filesChanged == s.filesChanged + (if done && k == Regular then 1 else 0)
      && r.fs == (if done then Chmod(s.fs, p, after).fs else s.fs)
  {
    if before == after {
    } else if k == Directory && cd {
      DirChmodEffect(s, c, p, before, after);
    } else if k == Regular && cf {
      FileChmodEffect(s, c, p, before, after);
    }
  }

  lemma DirChmodEffect(s: State, c: Config, p: Path, before: Mode, after: Mode)
    ensures var r := TryDirChmod(s, c, p, before, after);
      var ok := Chmod(s.fs, p, after).ok;
      && r.visited == s.visited && r.filesChanged == s.filesChanged
      && r.fs == (if ok then Chmod(s.fs, p, after).fs else s.fs)
      && r.dirsChanged == s.dirsChanged + (if ok then 1 else 0)
      && Heard(s.events, r.events, c.output)
  {
    var r := TryDirChmod(s, c, p, before, after);
    assert r.events[..|s.events|] == s.events;
  }

  lemma FileChmodEffect(s: State, c: Config, p: Path, before: Mode, after: Mode)
    ensures var r := TryFileChmod(s, c, p, before, after);
      var ok := Chmod(s.fs, p, after).ok;
      && r.visited == s.visited && r.dirsChanged == s.dirsChanged
      && r.fs == (if ok then Chmod(s.fs, p, after).fs else s.fs)
      && r.filesChanged == s.filesChanged + (if ok then 1 else 0)
      && Heard(s.events, r.events, c.output)
  {
    var r := TryFileChmod(s, c, p, before, after);
    assert r.events[..|s.events|] == s.events;
  }

  /**
    The directory branch as written (see TryDirChmod): a failed chmod is
    neither counted nor reported, whatever the output switches; a successful
    one under suppressed output with -v in effect (as after `-v -s`) is
    counted and reported as a failure.
   */
  lemma DirChmodMisnested(s: State, c: Config, p: Path, cf: bool, before: Mode, after: Mode)
    requires before != after
    ensures var r := Decide(s, c, p, Directory, cf, true, before, after);
      var ok := Chmod(s.fs, p, after).ok;
      && (!ok ==> r == s)
      && (ok && !Shown(c.output) && c.output.verbose ==>
            r.dirsChanged == s.dirsChanged + 1 && r.events == s.events + [DirChmodFailed(p)])
  {
  }

  /** The file branch, for comparison: a failed chmod is reported unless suppressed, or when verbose; a success never is. */
  lemma FileChmodFailureReported(s: State, c: Config, p: Path, cd: bool, before: Mode, after: Mode)
    requires before != after
    ensures var r := Decide(s, c, p, Regular, true, cd, before, after);
      var ok := Chmod(s.fs, p, after).ok;
      && (!ok ==> r.filesChanged == s.filesChanged
                  && r.events == s.events + (if Shown(c.output) || c.output.verbose then [FileChmodFailed(p)] else []))
      && (ok ==> r.filesChanged == s.filesChanged + 1 && FileChmodFailed(p) !in r.events[|s.events|..])
  {
    var r := Decide(s, c, p, Regular, true, cd, before, after);
    if Chmod(s.fs, p, after).ok {
      assert r.events[|s.events|..] == Say(Shown(c.output), FileChanged(p, before, c.template, after));
    }
  }

  /**
    `rper -d -v -s -p 755 dir` on a directory entry `d` with mode 700 whose
    chmod succeeds (0x1C0 is mode 700, 0x1ED mode 755): dirs_changed goes to 1 and the only line written is
    "Error: Cannot change directory permissions". With the same entry made
    unchangeable and no output switch, nothing at all is written.
   */
  lemma MisnestedExample()
    ensures var d := Inode(Directory, 0x1C0, true, []);
      var c := Config("755", Output(true, false, true));
      var s := State(0, 0, map[["d"] := d], [], []);
      var r := Visit(s, c, ["d"], false, true);
      r.dirsChanged == 1 && r.events == [DirChmodFailed(["d"])]
    ensures var d := Inode(Directory, 0x1C0, false, []);
      var c := Config("755", Output(false, false, false));
      var s := State(0, 0, map[["d"] := d], [], []);
      var r := Visit(s, c, ["d"], false, true);
      r.dirsChanged == 0 && r.events == []
  {
    var a := Applied("755", 0x1C0);
    AppliedGroups("755", 0x1C0);
    Groups(a);
    assert Group(a, 0) == 7 && Group(a, 1) == 5 && Group(a, 2) == 5;
  }

  /**
    The directory branch as evidently intended, with the else on the chmod
    test as in the file branch (and as rper 0.2 writes it).
   */
  function TryDirChmodIntended(s: State, c: Config, p: Path, before: Mode, after: Mode): (r: State)
  {
    var r := Chmod(s.fs, p, after);
    if r.ok then
      s.(fs := r.fs, dirsChanged := s.dirsChanged + 1,
         events := s.events + Say(Shown(c.output), DirChanged(p, before, c.template, after)))
    else
      s.(events := s.events + Say(Shown(c.output) || c.output.verbose, DirChmodFailed(p)))
  }

  /** Intended: a failed directory chmod is reported as the file branch reports one, and a success never is. */
  lemma IntendedDirChmodReported(s: State, c: Config, p: Path, before: Mode, after: Mode)
    ensures var r := TryDirChmodIntended(s, c, p, before, after);
      var ok := Chmod(s.fs, p, after).ok;
      && (!ok ==> r.dirsChanged == s.dirsChanged
                  && r.events == s.events + (if Shown(c.output) || c.output.verbose then [DirChmodFailed(p)] else []))
      && (ok ==> r.dirsChanged == s.dirsChanged + 1 && DirChmodFailed(p) !in r.events[|s.events|..])
  {
    var r := TryDirChmodIntended(s, c, p, before, after);
    if Chmod(s.fs, p, after).ok {
      assert r.events[|s.events|..] == Say(Shown(c.output), DirChanged(p, before, c.template, after));
    }
  }

  // ---------------------------------------------------------------------------
  // What a walk keeps: the table, the counters and the output switches
  // ---------------------------------------------------------------------------

  /** Since `s0`, every path's record was changed at most once, by the template, and only if targeted; the counters count the changes. */
  ghost predicate Tracks(s0: State, s: State, t: seq<char>, cf: bool, cd: bool)
    requires IsTemplate(t)
  {
    && OnlyRewritten(s0.fs, s.fs, t, cf, cd)
    && s.dirsChanged == s0.dirsChanged + |ChangedOf(s0.fs, s.fs, Directory)|
    && s.filesChanged == s0.filesChanged + |ChangedOf(s0.fs, s.fs, Regular)|
  }

  /**
    Since `e0`, lines were only added, and with output suppressed (-s or -S)
    the only lines are chmod failures, and those only with -v in effect.
   */
  predicate Heard(e0: seq<Event>, e: seq<Event>, out: Output) {
    && |e0| <= |e| && e[..|e0|] == e0
    && (!Shown(out) && !out.verbose ==> e == e0)
    && (!Shown(out) ==> forall j :: |e0| <= j < |e| ==> e[j].DirChmodFailed? || e[j].FileChmodFailed?)
  }

  ghost predicate Since(s0: State, s: State, c: Config, cf: bool, cd: bool)
    requires IsTemplate(c.template)
  {
    Tracks(s0, s, c.template, cf, cd) && Heard(s0.events, s.events, c.output)
  }

  lemma SinceRefl(s: State, c: Config, cf: bool, cd: bool)
    requires IsTemplate(c.template)
    ensures Since(s, s, c, cf, cd)
  {
    OnlyRewrittenRefl(s.fs, c.template, cf, cd);
  }

  lemma HeardTrans(e0: seq<Event>, e1: seq<Event>, e2: seq<Event>, out: Output)
    requires Heard(e0, e1, out) && Heard(e1, e2, out)
    ensures Heard(e0, e2, out)
  {
    assert e2[..|e0|] == e1[..|e1|][..|e0|];
  }

  lemma ChangeModeTracks(s0: State, s: State, c: Config, p: Path, ino: Inode, cf: bool, cd: bool, wf: bool, wd: bool)
    requires IsTemplate(c.template) && Tracks(s0, s, c.template, wf, wd)
    requires Lstat(s.fs, p) == Some(ino) && (cf ==> wf) && (cd ==> wd)
    ensures Tracks(s0, ChangeMode(s, c, p, ino, cf, cd), c.template, wf, wd)
  {
    var before := ino.perm & PERM_MASK;
    var after := Applied(c.template, before);
    assert ChangeMode(s, c, p, ino, cf, cd) == Decide(s, c, p, ino.kind, cf, cd, before, after);
    DecideTracks(s0, s, c, p, ino, cf, cd, wf, wd, before, after);
  }

  lemma DecideTracks(s0: State, s: State, c: Config, p: Path, ino: Inode, cf: bool, cd: bool, wf: bool, wd: bool, before: Mode, after: Mode)
    requires IsTemplate(c.template) && Tracks(s0, s, c.template, wf, wd)
    requires Lstat(s.fs, p) == Some(ino) && (cf ==> wf) && (cd ==> wd)
    requires before == ino.perm & PERM_MASK && after == Applied(c.template, before)
    ensures Tracks(s0, Decide(s, c, p, ino.kind, cf, cd, before, after), c.template, wf, wd)
  {
    var r := Decide(s, c, p, ino.kind, cf, cd, before, after);
    DecideCounters(s, c, p, ino.kind, cf, cd, before, after);
    if before != after && ((ino.kind == Directory && cd) || (ino.kind == Regular && cf)) {
      TriedTracks(s0, s, r, c.template, wf, wd, p, ino, after);
    } else {
      assert r.fs == s.fs && r.dirsChanged == s.dirsChanged && r.filesChanged == s.filesChanged;
    }
  }

  lemma TriedTracks(s0: State, s: State, r: State, t: seq<char>, wf: bool, wd: bool, p: Path, ino: Inode, after: Mode)
    requires IsTemplate(t) && Tracks(s0, s, t, wf, wd)
    requires Lstat(s.fs, p) == Some(ino) && Touchable(ino.kind, wf, wd)
    requires after == Applied(t, ino.perm & PERM_MASK) && ino.perm & PERM_MASK != after
    requires var ok := Chmod(s.fs, p, after).ok;
      && r.fs == Chmod(s.fs, p, after).fs
      && r.dirsChanged == s.dirsChanged + (if ok && ino.kind == Directory then 1 else 0)
      && r.filesChanged == s.filesChanged + (if ok && ino.kind == Regular then 1 else 0)
    ensures Tracks(s0, r, t, wf, wd)
  {
    assert Stat(s.fs, p) == Some(ino);
    ChmodStep(s0.fs, s.fs, t, wf, wd, p, ino, after);
  }

  lemma ChangeModeHeard(s: State, c: Config, p: Path, ino: Inode, cf: bool, cd: bool)
    requires IsTemplate(c.template)
    ensures Heard(s.events, ChangeMode(s, c, p, ino, cf, cd).events, c.output)
  {
    var before := ino.perm & PERM_MASK;
    var after := Applied(c.template, before);
    assert ChangeMode(s, c, p, ino, cf, cd) == Decide(s, c, p, ino.kind, cf, cd, before, after);
    DecideHeard(s, c, p, ino.kind, cf, cd, before, after);
  }

  lemma DecideHeard(s: State, c: Config, p: Path, k: Kind, cf: bool, cd: bool, before: Mode, after: Mode)
    ensures Heard(s.events, Decide(s, c, p, k, cf, cd, before, after).events, c.output)
  {
    if before == after {
      var r := Unchanged(s, c, p, k, cf, cd);
      assert r.events[..|s.events|] == s.events;
    } else if k == Directory && cd {
      DirChmodEffect(s, c, p, before, after);
    } else if k == Regular && cf {
      FileChmodEffect(s, c, p, before, after);
    }
  }

  /** One call of change_permissions keeps the walk's invariants. */
  lemma VisitKeeps(s0: State, s: State, c: Config, p: Path, cf: bool, cd: bool, wf: bool, wd: bool)
    requires IsTemplate(c.template) && Since(s0, s, c, wf, wd)
    requires (cf ==> wf) && (cd ==> wd)
    ensures Since(s0, Visit(s, c, p, cf, cd), c, wf, wd)
  {
    var s1 := s.(visited := s.visited + [Visited(p, cf, cd)]);
    var r := Visit(s, c, p, cf, cd);
    if p in s.fs {
      assert r == ChangeMode(s1, c, p, s.fs[p], cf, cd);
      ChangeModeTracks(s0, s1, c, p, s.fs[p], cf, cd, wf, wd);
      ChangeModeHeard(s1, c, p, s.fs[p], cf, cd);
    } else {
      assert r.events[..|s.events|] == s.events;
    }
    HeardTrans(s0.events, s.events, r.events, c.output);
  }

  /**
    A whole walk keeps them: every path's record is changed at most once and only if
    its kind is targeted, the counters count exactly the changed directories
    and files, and with -s or -S the only lines written are chmod failures
    seen under -v; without -v, nothing at all.
   */
  lemma {:induction false} WalkKeeps(s0: State, s: State, c: Config, w: Scope, p: Path, l: Listing)
    requires IsTemplate(c.template) && Since(s0, s, c, w.changeFiles, w.changeDirs)
    ensures Since(s0, Walk(s, c, w, p, l), c, w.changeFiles, w.changeDirs)
    decreases l, if l.Entries? then |l.entries| + 1 else 0
  {
    var s1 := if w.changeDirs && w.includeDir then Visit(s, c, p, false, true) else s;
    if w.changeDirs && w.includeDir {
      VisitKeeps(s0, s, c, p, false, true, w.changeFiles, w.changeDirs);
    }
    match l
    case Unreadable =>
      var r := Walk(s, c, w, p, l);
      assert r.events[..|s0.events|] == s0.events;
    case Entries(es) =>
      ChildrenKeeps(s0, s1, c, w, p, l, |es|);
  }

  lemma {:induction false} ChildrenKeeps(s0: State, s: State, c: Config, w: Scope, p: Path, l: Listing, n: nat)
    requires IsTemplate(c.template) && Since(s0, s, c, w.changeFiles, w.changeDirs)
    requires l.Entries? && n <= |l.entries|
    ensures Since(s0, Children(s, c, w, p, l, n), c, w.changeFiles, w.changeDirs)
    decreases l, n
  {
    if n > 0 {
      ChildrenKeeps(s0, s, c, w, p, l, n - 1);
      var s1 := Children(s, c, w, p, l, n - 1);
      var e := l.entries[n - 1];
      if e.name != "." && e.name != ".." {
        VisitKeeps(s0, s1, c, p + [e.name], w.changeFiles, w.changeDirs, w.changeFiles, w.changeDirs);
        if w.recursive && e.dtype == Directory {
          var s2 := Visit(s1, c, p + [e.name], w.changeFiles, w.changeDirs);
          WalkKeeps(s0, s2, c, w, p + [e.name], e.sub);
        }
      }
    }
  }

  /** From the start of a run: the walk's changes and counters agree, whatever the listing. */
  lemma RunKeeps(s: State, c: Config, w: Scope, l: Listing)
    requires IsTemplate(c.template)
    ensures Since(s, Walk(s, c, w, [], l), c, w.changeFiles, w.changeDirs)
  {
    SinceRefl(s, c, w.changeFiles, w.changeDirs);
    WalkKeeps(s, s, c, w, [], l);
  }

  // ---------------------------------------------------------------------------
  // Which calls a walk makes
  // ---------------------------------------------------------------------------

  /**
    Every call of change_permissions a walk makes is one WalkCall allows: no
    "." or "..", the directory argument only with files off under -d -i, and
    only the top directory's entries under -n.
   */
  lemma {:induction false} WalkTrace(s: State, c: Config, w: Scope, p: Path, l: Listing)
    requires IsTemplate(c.template)
    ensures Traced(s.visited, Walk(s, c, w, p, l).visited, w, p, l)
    decreases l, if l.Entries? then |l.entries| + 1 else 0
  {
    var s1 := if w.changeDirs && w.includeDir then Visit(s, c, p, false, true) else s;
    assert Traced(s.visited, s1.visited, w, p, l) by {
      assert s1.visited[..|s.visited|] == s.visited;
    }
    match l
    case Unreadable =>
    case Entries(es) =>
      ChildrenTrace(s1, c, w, p, l, |es|);
      TracedTrans(s.visited, s1.visited, Walk(s, c, w, p, l).visited, w, p, l);
  }

  lemma {:induction false} ChildrenTrace(s: State, c: Config, w: Scope, p: Path, l: Listing, n: nat)
    requires IsTemplate(c.template)
    requires l.Entries? && n <= |l.entries|
    ensures Traced(s.visited, Children(s, c, w, p, l, n).visited, w, p, l)
    decreases l, n
  {
    if n == 0 {
      assert s.visited[..|s.visited|] == s.visited;
    } else {
      ChildrenTrace(s, c, w, p, l, n - 1);
      var s1 := Children(s, c, w, p, l, n - 1);
      var e := l.entries[n - 1];
      if e.name != "." && e.name != ".." {
        var q := p + [e.name];
        var s2 := Visit(s1, c, q, w.changeFiles, w.changeDirs);
        assert Traced(s1.visited, s2.visited, w, p, l) by {
          assert s2.visited[..|s1.visited|] == s1.visited;
          assert q[..|p|] == p && q[|p|] == l.entries[n - 1].name;
        }
        TracedTrans(s.visited, s1.visited, s2.visited, w, p, l);
        if w.recursive && e.dtype == Directory {
          WalkTrace(s2, c, w, q, e.sub);
          WidenTraced(s2.visited, Walk(s2, c, w, q, e.sub).visited, w, p, l, n - 1);
          TracedTrans(s.visited, s2.visited, Walk(s2, c, w, q, e.sub).visited, w, p, l);
        }
      }
    }
  }

  /** The readdir loop calls change_permissions, with the run's flags, on every entry but "." and "..". */
  lemma {:induction false} ChildrenComplete(s: State, c: Config, w: Scope, p: Path, l: Listing, n: nat)
    requires IsTemplate(c.template)
    requires l.Entries? && n <= |l.entries|
    ensures Reached(s.visited, Children(s, c, w, p, l, n).visited, w, p, l, n)
    decreases n
  {
    if n > 0 {
      ChildrenComplete(s, c, w, p, l, n - 1);
      var s1 := Children(s, c, w, p, l, n - 1);
      var r := Children(s, c, w, p, l, n);
      var e := l.entries[n - 1];
      assert r == Child(s1, c, w, p, e);
      if e.name != "." && e.name != ".." {
        var s2 := Visit(s1, c, p + [e.name], w.changeFiles, w.changeDirs);
        if w.recursive && e.dtype == Directory {
          WalkTrace(s2, c, w, p + [e.name], e.sub);
          assert r.visited[..|s2.visited|] == s2.visited;
        } else {
          assert r.visited == s2.visited;
        }
      }
      ReachedNext(s.visited, s1.visited, r.visited, w, p, l, n);
    }
  }

  /**
    The walk goes down: every entry reachable from `l` through directories,
    at any depth, gets a call of change_permissions with the run's flags.
    Without recursion Reachable keeps to the entries of `l` itself.
   */
  lemma {:induction false} WalkRecurses(s: State, c: Config, w: Scope, p: Path, l: Listing, rel: Path)
    requires IsTemplate(c.template) && Reachable(w, l, rel)
    ensures var r := Walk(s, c, w, p, l).visited;
      |s.visited| <= |r| && Visited(p + rel, w.changeFiles, w.changeDirs) in r[|s.visited|..]
    decreases l, if l.Entries? then |l.entries| + 1 else 0
  {
    var s1 := if w.changeDirs && w.includeDir then Visit(s, c, p, false, true) else s;
    var k :| 0 <= k < |l.entries| && l.entries[k].name == rel[0]
      && (|rel| > 1 ==> w.recursive && l.entries[k].dtype == Directory && Reachable(w, l.entries[k].sub, rel[1..]));
    ChildrenRecurses(s1, c, w, p, l, |l.entries|, k, rel);
    var r := Walk(s, c, w, p, l);
    var j :| |s1.visited| <= j < |r.visited| && r.visited[j] == Visited(p + rel, w.changeFiles, w.changeDirs);
    assert r.visited[|s.visited|..][j - |s.visited|] == r.visited[j];
  }

  lemma {:induction false} ChildrenRecurses(s: State, c: Config, w: Scope, p: Path, l: Listing, n: nat, k: nat, rel: Path)
    requires IsTemplate(c.template) && l.Entries? && k < n <= |l.entries|
    requires |rel| > 0 && rel[0] != "." && rel[0] != ".." && l.entries[k].name == rel[0]
    requires |rel| > 1 ==> w.recursive && l.entries[k].dtype == Directory && Reachable(w, l.entries[k].sub, rel[1..])
    ensures var r := Children(s, c, w, p, l, n).visited;
      |s.visited| <= |r| && Visited(p + rel, w.changeFiles, w.changeDirs) in r[|s.visited|..]
    decreases l, n
  {
    var v := Visited(p + rel, w.changeFiles, w.changeDirs);
    var s1 := Children(s, c, w, p, l, n - 1);
    var e := l.entries[n - 1];
    var r := Children(s, c, w, p, l, n).visited;
    assert r == Child(s1, c, w, p, e).visited;
    if k < n - 1 {
      ChildrenRecurses(s, c, w, p, l, n - 1, k, rel);
      ChildExtends(s1, c, w, p, e);
      KeptCall(s.visited, s1.visited, r, v);
    } else {
      ChildrenTrace(s, c, w, p, l, n - 1);
      ChildRecurses(s1, c, w, p, e, rel);
      var j :| |s1.visited| <= j < |r| && r[j] == v;
      assert r[|s.visited|..][j - |s.visited|] == v;
    }
  }

  /** The pass on the entry that `rel` starts with makes the call `rel` names, or walks down to it. */
  lemma {:induction false} ChildRecurses(s: State, c: Config, w: Scope, p: Path, e: Dirent, rel: Path)
    requires IsTemplate(c.template)
    requires |rel| > 0 && rel[0] != "." && rel[0] != ".." && e.name == rel[0]
    requires |rel| > 1 ==> w.recursive && e.dtype == Directory && Reachable(w, e.sub, rel[1..])
    ensures var r := Child(s, c, w, p, e).visited;
      |s.visited| <= |r| && Visited(p + rel, w.changeFiles, w.changeDirs) in r[|s.visited|..]
    decreases e
  {
    var v := Visited(p + rel, w.changeFiles, w.changeDirs);
    var r := Child(s, c, w, p, e).visited;
    ChildExtends(s, c, w, p, e);
    if |rel| == 1 {
      assert p + [e.name] == p + rel;
      assert r[|s.visited|..][0] == v;
    } else {
      var q := p + [e.name];
      var s2 := Visit(s, c, q, w.changeFiles, w.changeDirs);
      assert r == Walk(s2, c, w, q, e.sub).visited;
      WalkRecurses(s2, c, w, q, e.sub, rel[1..]);
      assert q + rel[1..] == p + rel;
      var j :| |s2.visited| <= j < |r| && r[j] == v;
      assert r[|s.visited|..][j - |s.visited|] == v;
    }
  }

  /** One pass of the loop keeps the calls made so far and, unless the entry is "." or "..", makes its call next. */
  lemma ChildExtends(s: State, c: Config, w: Scope, p: Path, e: Dirent)
    requires IsTemplate(c.template)
    ensures var r := Child(s, c, w, p, e).visited;
      && |s.visited| <= |r| && r[..|s.visited|] == s.visited
      && (e.name != "." && e.name != ".." ==>
            |s.visited| < |r| && r[|s.visited|] == Visited(p + [e.name], w.changeFiles, w.changeDirs))
  {
    if e.name != "." && e.name != ".." {
      var s2 := Visit(s, c, p + [e.name], w.changeFiles, w.changeDirs);
      var r := Child(s, c, w, p, e).visited;
      if w.recursive && e.dtype == Directory {
        WalkTrace(s2, c, w, p + [e.name], e.sub);
        assert r[..|s.visited|] == r[..|s2.visited|][..|s.visited|];
        assert r[|s.visited|] == r[..|s2.visited|][|s.visited|];
      } else {
        assert r == s2.visited;
      }
    }
  }

  /**
    The tree root/{a.txt, sub/{b.txt}} under -f: sub/b.txt gets a call of
    change_permissions exactly when the walk recurses.
   */
  lemma TreeExample(s: State, c: Config, recursive: bool)
    requires IsTemplate(c.template) && s.visited == []
    ensures var sub := Entries([Dirent("b.txt", Regular, Unreadable)]);
      var root := Entries([Dirent("a.txt", Regular, Unreadable), Dirent("sub", Directory, sub)]);
      var w := Scope(recursive, true, false, false);
      Visited(["sub", "b.txt"], true, false) in Walk(s, c, w, [], root).visited <==> recursive
  {
    var sub := Entries([Dirent("b.txt", Regular, Unreadable)]);
    var root := Entries([Dirent("a.txt", Regular, Unreadable), Dirent("sub", Directory, sub)]);
    var w := Scope(recursive, true, false, false);
    var r := Walk(s, c, w, [], root).visited;
    if recursive {
      assert Reachable(w, sub, ["b.txt"]) by {
        assert sub.entries[0].name == "b.txt";
      }
      assert Reachable(w, root, ["sub", "b.txt"]) by {
        assert root.entries[1].name == "sub" && ["sub", "b.txt"][1..] == ["b.txt"];
      }
      WalkRecurses(s, c, w, [], root, ["sub", "b.txt"]);
      assert [] + ["sub", "b.txt"] == ["sub", "b.txt"];
      assert r[|s.visited|..] == r;
    } else {
      WalkTrace(s, c, w, [], root);
    }
  }

  /** When opendir fails no entry is visited, and the failure is reported only when output is not suppressed. */
  lemma WalkUnreadable(s: State, c: Config, w: Scope, p: Path)
    requires IsTemplate(c.template)
    ensures var r := Walk(s, c, w, p, Unreadable);
      var s1 := if w.changeDirs && w.includeDir then Visit(s, c, p, false, true) else s;
      && r.visited == s.visited + (if w.changeDirs && w.includeDir then [Visited(p, false, true)] else [])
      && r.events == s1.events + (if Shown(c.output) then [OpenDirFailed(p)] else [])
  {
  }

  // ---------------------------------------------------------------------------
  // The program: globals as fields, the C functions as methods
  // ---------------------------------------------------------------------------

  /**
    The globals of rper 0.1 (the two counters, the three output switches and
    wildcard_mode) together with the filesystem and the output written so far.
   */
  class Rper {
    var filesChanged: int
    var dirsChanged: int
    var suppressOutput: bool
    var suppressAllOutput: bool
    var verbose: bool
    const wildcardMode: array<char>
    var fs: Table
    var events: seq<Event>
    ghost var visited: seq<Visited>

    ghost predicate Valid() {
      wildcardMode.Length == 4
    }

    /** The three characters of wildcard_mode that are read. */
    function Template(): seq<char>
      reads wildcardMode
      requires Valid()
    {
      wildcardMode[..3]
    }

    /** Everything a run changes, as a value. */
    ghost function Snapshot(): State
      reads this
    {
      State(filesChanged, dirsChanged, fs, events, visited)
    }

    /** The three output switches. */
    function Switches(): Output
      reads this
    {
      Output(suppressOutput, suppressAllOutput, verbose)
    }

    /** What change_permissions and process_directory read: the template and the output switches. */
    function Conf(): Config
      reads this, wildcardMode
      requires Valid()
    {
      Config(Template(), Switches())
    }

    /** The program as it starts on the filesystem `table`: every global at its initializer. */
    constructor(table: Table)
      ensures Valid() && Template() == [0 as char, 0 as char, 0 as char]
      ensures Snapshot() == State(0, 0, table, [], [])
      ensures Switches() == Output(false, false, false)
    {
      filesChanged, dirsChanged := 0, 0;
      suppressOutput, suppressAllOutput, verbose := false, false, false;
      wildcardMode := new char[4](_ => 0 as char);
      fs, events, visited := table, [], [];
    }

    /**
      change_permissions(path, mode, ...): lstat `path`, then, on the inode
      it reports, chmod to the template's mode when its kind is targeted and
      its bits change. `mode` is never read.
     */
    method ChangePermissions(path: Path, mode: Mode, changeFiles: bool, changeDirs: bool)
      requires Valid() && IsTemplate(Template())
      modifies this`filesChanged, this`dirsChanged, this`fs, this`events, this`visited
      ensures Snapshot() == Visit(old(Snapshot()), old(Conf()), path, changeFiles, changeDirs)
      ensures Switches() == old(Switches())
    {
      ghost var s0 := Snapshot();
      visited := visited + [Visited(path, changeFiles, changeDirs)];
      var st := Lstat(fs, path);
      if st.None? {
        if !suppressOutput && !suppressAllOutput {
          events := events + [StatFailed(path)];
        }
        return;
      }
      ghost var s1, c := Snapshot(), Conf();
      var ino := st.value;
      var oldMode := ino.perm & PERM_MASK;
      var newMode := ApplyWildcardMode(wildcardMode, oldMode);
      assert ChangeMode(s1, c, path, ino, changeFiles, changeDirs) == Decide(s1, c, path, ino.kind, changeFiles, changeDirs, oldMode, newMode);
      Settle(path, ino.kind, changeFiles, changeDirs, oldMode, newMode);
    }

    /**
      The end of change_permissions, once old_mode and new_mode are known for
      the inode of kind `kind` at `path`: the no-op notice, or the chmod with
      its count and its line, with the directory branch's else as written.
     */
    method Settle(path: Path, kind: Kind, changeFiles: bool, changeDirs: bool, oldMode: Mode, newMode: Mode)
      requires Valid()
      modifies this`filesChanged, this`dirsChanged, this`fs, this`events, this`visited
      ensures Snapshot() == Decide(old(Snapshot()), old(Conf()), path, kind, changeFiles, changeDirs, oldMode, newMode)
      ensures Switches() == old(Switches())
    {
      ghost var s1, c := Snapshot(), Conf();
      if oldMode == newMode {
        if !suppressOutput && !suppressAllOutput {
          if kind == Directory {
            if changeDirs || verbose {
              events := events + [DirUnchanged(path)];
            }
          } else if kind == Regular {
            if changeFiles || verbose {
              events := events + [FileUnchanged(path)];
            }
          }
        }
        assert Snapshot() == Unchanged(s1, c, path, kind, changeFiles, changeDirs);
        return;
      }
      if kind == Directory && changeDirs {
        var r := Chmod(fs, path, newMode);
        if r.ok {
          fs := r.fs;
          dirsChanged := dirsChanged + 1;
          if !suppressOutput && !suppressAllOutput {
            var shown := PrintWildcardMode(wildcardMode);
            events := events + [DirChanged(path, oldMode, shown, newMode)];
          } else {
            if (!suppressOutput && !suppressAllOutput) || verbose {
              events := events + [DirChmodFailed(path)];
            }
          }
        }
        assert Snapshot() == TryDirChmod(s1, c, path, oldMode, newMode);
      } else if kind == Regular && changeFiles {
        var r := Chmod(fs, path, newMode);
        if r.ok {
          fs := r.fs;
          filesChanged := filesChanged + 1;
          if !suppressOutput && !suppressAllOutput {
            var shown := PrintWildcardMode(wildcardMode);
            events := events + [FileChanged(path, oldMode, shown, newMode)];
          }
        } else {
          if (!suppressOutput && !suppressAllOutput) || verbose {
            events := events + [FileChmodFailed(path)];
          }
        }
        assert Snapshot() == TryFileChmod(s1, c, path, oldMode, newMode);
      }
    }

    /**
      process_directory(dirPath, mode, ...), where opening dirPath gives
      `listing`: the directory itself first under -d -i, then every entry but
      "." and "..", descending into entries typed as directories when
      recursive. `mode` is only passed on.
     */
    method ProcessDirectory(dirPath: Path, listing: Listing, mode: Mode, recursive: bool, changeFiles: bool,
                            changeDirs: bool, includeDir: bool)
      requires Valid() && IsTemplate(Template())
      modifies this`filesChanged, this`dirsChanged, this`fs, this`events, this`visited
      ensures Snapshot() == Walk(old(Snapshot()), old(Conf()), Scope(recursive, changeFiles, changeDirs, includeDir), dirPath, listing)
      ensures Switches() == old(Switches())
      decreases listing, if listing.Entries? then |listing.entries| + 1 else 0
    {
      ghost var c, w := Conf(), Scope(recursive, changeFiles, changeDirs, includeDir);
      if changeDirs && includeDir {
        ChangePermissions(dirPath, mode, false, true);
      }
      ghost var s1 := Snapshot();
      match listing
      case Unreadable =>
        if !suppressOutput && !suppressAllOutput {
          events := events + [OpenDirFailed(dirPath)];
        }
      case Entries(es) =>
        var i := 0;
        while i < |es|
          invariant i <= |es|
          invariant Snapshot() == Children(s1, c, w, dirPath, listing, i)
          invariant Switches() == old(Switches())
        {
          ProcessEntry(dirPath, es[i], mode, recursive, changeFiles, changeDirs, includeDir);
          i := i + 1;
        }
    }

    /** One pass of the readdir loop of process_directory, on the entry `entry` of `dirPath`. */
    method ProcessEntry(dirPath: Path, entry: Dirent, mode: Mode, recursive: bool, changeFiles: bool,
                        changeDirs: bool, includeDir: bool)
      requires Valid() && IsTemplate(Template())
      modifies this`filesChanged, this`dirsChanged, this`fs, this`events, this`visited
      ensures Snapshot() == Child(old(Snapshot()), old(Conf()), Scope(recursive, changeFiles, changeDirs, includeDir), dirPath, entry)
      ensures Switches() == old(Switches())
      decreases entry
    {
      if entry.name != "." && entry.name != ".." {
        var path := dirPath + [entry.name];
        ChangePermissions(path, mode, changeFiles, changeDirs);
        if recursive && entry.dtype == Directory {
          ProcessDirectory(path, entry.sub, mode, recursive, changeFiles, changeDirs, includeDir);
        }
      }
    }

    /**
      One pass of main's getopt loop: the switch on `opt`, given main's flags
      so far in `o`. It sets the output switches and, for -p, the stored
      template, and says whether main returns and with what.
     */
    method TakeOption(o: Options, opt: Opt) returns (r: Parsed<Options>)
      requires Valid()
      requires o.output == Switches() && o.template == Template()
      modifies this`suppressOutput, this`suppressAllOutput, this`verbose, wildcardMode
      ensures Valid()
      ensures r == Step(o, opt)
      ensures r.Continue? ==> r.options.output == Switches() && r.options.template == Template()
      ensures Snapshot() == old(Snapshot())
    {
      var c := opt.flag;
      if c == 'a' || c == 'h' || c == 'H' {
        r := Exit(EXIT_SUCCESS, None);
      } else if c == 'd' {
        r := Continue(o.(changeDirs := true));
      } else if c == 'f' {
        r := Continue(o.(changeFiles := true));
      } else if c == 'i' {
        r := Continue(o.(includeDir := true));
      } else if c == 'n' {
        r := Continue(o.(recursive := false));
      } else if c == 's' || c == 'S' || c == 'v' {
        SetSwitch(c);
        r := Continue(o.(output := Switches()));
      } else if c == 'p' {
        r := TakePermissions(o, opt.arg);
      } else {
        r := Exit(EXIT_FAILURE, Some(UnknownOption(c)));
      }
    }

    /** The cases -s, -S and -v of main's getopt switch: they set the output switches. */
    method SetSwitch(c: char)
      modifies this`suppressOutput, this`suppressAllOutput, this`verbose
      ensures Switches() == Switch(old(Switches()), c)
      ensures Snapshot() == old(Snapshot())
    {
      if c == 's' {
        suppressOutput := true;
        suppressAllOutput := false;
      } else if c == 'S' {
        if !suppressOutput {
          suppressAllOutput := true;
        }
      } else if c == 'v' {
        verbose := true;
        suppressOutput := false;
        suppressAllOutput := false;
      }
    }

    /** The case -p of main's getopt switch: validate and store the template, or make main fail. */
    method TakePermissions(o: Options, arg: string) returns (r: Parsed<Options>)
      requires Valid() && o.template == Template()
      modifies wildcardMode
      ensures Valid()
      ensures r == Step(o, Opt('p', arg))
      ensures r.Continue? ==> r.options.template == Template()
    {
      var status := ValidateAndProcessOctal(wildcardMode, arg);
      if status == -1 {
        assert Parse(arg).None?;
        assert Step(o, Opt('p', arg)) == Exit(EXIT_FAILURE, Some(InvalidTemplate(Stripped(arg))));
        return Exit(EXIT_FAILURE, Some(InvalidTemplate(Stripped(arg))));
      }
      assert Parse(arg) == Some(Template());
      assert Step(o, Opt('p', arg)) == Continue(o.(template := Template(), permFlag := true));
      r := Continue(o.(template := Template(), permFlag := true));
    }

    /** The getopt loop of main: the options in order, up to the first that makes main return. */
    method GetOptions(opts: seq<Opt>) returns (p: Parsed<Options>)
      requires Valid()
      requires Switches() == Output(false, false, false)
      modifies this, wildcardMode
      ensures Valid()
      ensures p == Fold(Initial(old(Template())), opts)
      ensures p.Continue? ==> p.options.output == Switches() && p.options.template == Template()
      ensures Snapshot() == old(Snapshot())
    {
      ghost var t0 := Template();
      var o := Initial(Template());
      var i := 0;
      while i < |opts|
        invariant Valid() && i <= |opts|
        invariant Fold(Initial(t0), opts[..i]) == Continue(o)
        invariant o.output == Switches() && o.template == Template()
        invariant Snapshot() == old(Snapshot())
      {
        assert opts[..i + 1][..i] == opts[..i];
        var r := TakeOption(o, opts[i]);
        if r.Exit? {
          FoldStopped(Initial(t0), opts, i + 1);
          return r;
        }
        o := r.options;
        i := i + 1;
      }
      assert opts[..i] == opts;
      p := Continue(o);
    }

    /**
      main, given the options getopt returns (`opts`), whether a directory
      operand follows them, and what opening that directory gives: the option
      loop, the two checks after it, the default target, and the walk from
      the directory operand with mode 0. Returns main's exit status.
     */
    method Run(opts: seq<Opt>, dirGiven: bool, root: Listing) returns (code: int)
      requires Valid() && Switches() == Output(false, false, false)
      modifies this, wildcardMode
      ensures var r := Setup(opts, dirGiven, old(Template()));
        && (r.Exit? ==> (code == r.code
              && Snapshot() == old(Snapshot()).(events := old(events) + (if r.fault.Some? then [ConfigError(r.fault.value)] else []))))
        && (r.Continue? ==> (code == EXIT_SUCCESS
              && Snapshot() == Walk(old(Snapshot()), Config(r.options.template, r.options.output),
                                    Scope(r.options.recursive, r.options.changeFiles, r.options.changeDirs,
                                          r.options.includeDir), [], root)))
    {
      var mode: Mode := 0;
      var p := GetOptions(opts);
      if p.Exit? {
        if p.fault.Some? {
          events := events + [ConfigError(p.fault.value)];
        }
        return p.code;
      }
      if !dirGiven {
        events := events + [ConfigError(MissingDirectory)];
        return EXIT_FAILURE;
      }
      var o := p.options;
      if !o.permFlag {
        events := events + [ConfigError(MissingPermissions)];
        return EXIT_FAILURE;
      }
      FoldKeepsTemplate(old(Template()), opts);
      var changeFiles := o.changeFiles;
      if !changeFiles && !o.changeDirs {
        changeFiles := true;
      }
      ProcessDirectory([], root, mode, o.recursive, changeFiles, o.changeDirs, o.includeDir);
      return EXIT_SUCCESS;
    }
  }
}
