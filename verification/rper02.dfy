/**
  Version 0.2 of rper: change_permissions with its symlink policy, the
  directory walk of process_directory, and the program state they update
  (the run-wide counters, the stored template, the output and symlink modes,
  the filesystem and the lines written).

  The behaviour is given twice: as functions on a State value (Visit,
  ChangeMode, Walk, Children), about which the lemmas below are proved, and
  as the methods of class Rper, which update the fields step by step as the
  C functions update the globals and are proved to end in the state the
  functions compute.
 */
module Rper02 {
  import opened Modes
  import opened FileSystem
  import opened Getopt
  import opened Wildcard
  import opened Options02

  /** Everything a run changes: the five counters, the filesystem, the output, and the calls made. */
  datatype State = State(
    filesChanged: int, dirsChanged: int,
    symlinksSkipped: int, symlinksFollowed: int, symlinkErrors: int,
    fs: Table, events: seq<Event>, visited: seq<Visited>)

  /** What a run reads and never changes: the stored template and the output mode. */
  datatype Config = Config(template: seq<char>, output: OutputMode)

  /** The arguments process_directory passes down unchanged. */
  datatype Flags = Flags(recursive: bool, changeFiles: bool, changeDirs: bool, includeDir: bool, links: SymlinkMode)
  {
    function Scope(): Scope {
      FileSystem.Scope(recursive, changeFiles, changeDirs, includeDir)
    }
  }

  /** Output that is neither quiet nor silent (changes and no-op notices are shown). */
  predicate ShowsChanges(out: OutputMode) {
    out != OutputQuiet && out != OutputSilent
  }

  // ---------------------------------------------------------------------------
  // change_permissions
  // ---------------------------------------------------------------------------

  /**
    change_permissions(p, cf, cd, links): lstat, the symlink switch, then the
    permission change on the inode reached. Each call is recorded in `visited`.
   */
  function Visit(s: State, c: Config, p: Path, cf: bool, cd: bool, links: SymlinkMode): (r: State)
    requires IsTemplate(c.template)
    ensures r.visited == s.visited + [Visited(p, cf, cd)]
  {
    var s1 := s.(visited := s.visited + [Visited(p, cf, cd)]);
    match Lstat(s1.fs, p)
    case None => s1.(events := s1.events + Say(c.output != OutputSilent, StatFailed(p)))
    case Some(ino) =>
      if ino.kind != Symlink then ChangeMode(s1, c, p, ino, cf, cd)
      else OnLink(s1, c, p, cf, cd, links)
  }

  /** The symlink switch of change_permissions, once lstat has reported a link at `p`. */
  function OnLink(s: State, c: Config, p: Path, cf: bool, cd: bool, links: SymlinkMode): (r: State)
    requires IsTemplate(c.template)
    ensures r.visited == s.visited
  {
    if links == SymlinkSkip then
      s.(symlinksSkipped := s.symlinksSkipped + 1,
         events := s.events + Say(c.output == OutputNormal || c.output == OutputVerbose, LinkSkipped(p)))
    else if links == SymlinkError then
      s.(symlinkErrors := s.symlinkErrors + 1,
         events := s.events + Say(c.output != OutputSilent, LinkFound(p)))
    else
      match Stat(s.fs, p)
      case None => s.(events := s.events + Say(c.output != OutputSilent, LinkUnresolved(p)))
      case Some(target) =>
        var s2 := s.(symlinksFollowed := s.symlinksFollowed + 1,
                     events := s.events + Say(c.output == OutputVerbose, LinkFollowed(p)));
        ChangeMode(s2, c, p, target, cf, cd)
  }

  /**
    The second half of change_permissions, on the inode `ino` that lstat (or,
    for a followed link, stat) reported for `p`.
   */
  function ChangeMode(s: State, c: Config, p: Path, ino: Inode, cf: bool, cd: bool): (r: State)
    requires IsTemplate(c.template)
    ensures r.visited == s.visited
  {
    var before := ino.perm & PERM_MASK;
    Decide(s, c, p, ino.kind, cf, cd, before, Applied(c.template, before))
  }

  /**
    What change_permissions does with an inode of kind `k` whose permission
    bits are `before` and would be `after` under the template.
   */
  function Decide(s: State, c: Config, p: Path, k: Kind, cf: bool, cd: bool, before: Mode, after: Mode): (r: State)
    ensures r.visited == s.visited
  {
    if before == after then Unchanged(s, c, p, k, cf, cd)
    else if k == Directory && cd then TryChmod(s, c, p, true, before, after)
    else if k == Regular && cf then TryChmod(s, c, p, false, before, after)
    else s
  }

  /** The no-op notice: "(D -> S)" or "(F -> S)", shown for a targeted kind or when verbose. */
  function Unchanged(s: State, c: Config, p: Path, k: Kind, cf: bool, cd: bool): (r: State)
    ensures r.(events := s.events) == s
  {
    if k == Directory then
      s.(events := s.events + Say(ShowsChanges(c.output) && (cd || c.output == OutputVerbose), DirUnchanged(p)))
    else if k == Regular then
      s.(events := s.events + Say(ShowsChanges(c.output) && (cf || c.output == OutputVerbose), FileUnchanged(p)))
    else s
  }

  /** The chmod branch for a directory (`dir`) or a regular file: count and show, or report. */
  function TryChmod(s: State, c: Config, p: Path, dir: bool, before: Mode, after: Mode): (r: State)
  {
    var r := Chmod(s.fs, p, after);
    if r.ok then
      if dir then
        s.(fs := r.fs, dirsChanged := s.dirsChanged + 1,
           events := s.events + Say(ShowsChanges(c.output), DirChanged(p, before, c.template, after)))
      else
        s.(fs := r.fs, filesChanged := s.filesChanged + 1,
           events := s.events + Say(ShowsChanges(c.output), FileChanged(p, before, c.template, after)))
    else
      s.(events := s.events + Say(c.output != OutputSilent, if dir then DirChmodFailed(p) else FileChmodFailed(p)))
  }

  /** The chmod branch: on success the table is chmod's and one counter moves; lines are only added. */
  lemma TryChmodEffect(s: State, c: Config, p: Path, dir: bool, before: Mode, after: Mode)
    ensures var r := TryChmod(s, c, p, dir, before, after);
      var ok := Chmod(s.fs, p, after).ok;
      && r.visited == s.visited
      && r.fs == (if ok then Chmod(s.fs, p, after).fs else s.fs)
      && r.dirsChanged == s.dirsChanged + (if ok && dir then 1 else 0)
      && r.filesChanged == s.filesChanged + (if ok && !dir then 1 else 0)
      && r.symlinksSkipped == s.symlinksSkipped && r.symlinksFollowed == s.symlinksFollowed
      && r.symlinkErrors == s.symlinkErrors
      && Heard(s.events, r.events, c.output)
  {
    var r := TryChmod(s, c, p, dir, before, after);
    assert r.events[..|s.events|] == s.events;
  }

  lemma UnchangedHeard(s: State, c: Config, p: Path, k: Kind, cf: bool, cd: bool)
    ensures Heard(s.events, Unchanged(s, c, p, k, cf, cd).events, c.output)
  {
    var r := Unchanged(s, c, p, k, cf, cd);
    assert r.events[..|s.events|] == s.events;
  }

  // ---------------------------------------------------------------------------
  // process_directory
  // ---------------------------------------------------------------------------

  /**
    process_directory(p, ...) on a directory whose opendir gives `l`: the
    directory itself first when -d and -i are in effect, then its entries.
   */
  function Walk(s: State, c: Config, f: Flags, p: Path, l: Listing): (r: State)
    requires IsTemplate(c.template)
    decreases l, if l.Entries? then |l.entries| + 1 else 0
  {
    var s1 := if f.changeDirs && f.includeDir then Visit(s, c, p, false, true, f.links) else s;
    match l
    case Unreadable => s1.(events := s1.events + Say(c.output != OutputSilent, OpenDirFailed(p)))
    case Entries(es) => Children(s1, c, f, p, l, |es|)
  }

  /** The readdir loop over the first `n` entries of `l`. */
  function Children(s: State, c: Config, f: Flags, p: Path, l: Listing, n: nat): (r: State)
    requires IsTemplate(c.template)
    requires l.Entries? && n <= |l.entries|
    decreases l, n
  {
    if n == 0 then s
    else Child(Children(s, c, f, p, l, n - 1), c, f, p, l.entries[n - 1])
  }

  /**
    One pass of the readdir loop, on the entry `e` of the directory at `p`:
    "." and ".." are skipped; any other entry is given to change_permissions
    and, when recursive and its d_type is a directory, walked.
   */
  function Child(s: State, c: Config, f: Flags, p: Path, e: Dirent): (r: State)
    requires IsTemplate(c.template)
    decreases e
  {
    if e.name == "." || e.name == ".." then s
    else
      var s2 := Visit(s, c, p + [e.name], f.changeFiles, f.changeDirs, f.links);
      if f.recursive && e.dtype == Directory then Walk(s2, c, f, p + [e.name], e.sub) else s2
  }

  // ---------------------------------------------------------------------------
  // The decision table of change_permissions
  // ---------------------------------------------------------------------------

  /** lstat reports a symbolic link at `p`. */
  predicate IsLink(fs: Table, p: Path) {
    p in fs && fs[p].kind == Symlink
  }

  /** Under the skip policy a link only moves symlinks_skipped: no chmod, no other counter. */
  lemma VisitSkipsLink(s: State, c: Config, p: Path, cf: bool, cd: bool)
    requires IsTemplate(c.template) && IsLink(s.fs, p)
    ensures var r := Visit(s, c, p, cf, cd, SymlinkSkip);
      && r.fs == s.fs
      && r.symlinksSkipped == s.symlinksSkipped + 1
      && r.symlinksFollowed == s.symlinksFollowed && r.symlinkErrors == s.symlinkErrors
      && r.filesChanged == s.filesChanged && r.dirsChanged == s.dirsChanged
      && (r.events == s.events || r.events == s.events + [LinkSkipped(p)])
  {
  }

  /** Under the error policy a link only moves symlink_errors, and reports it unless silent. */
  lemma VisitRejectsLink(s: State, c: Config, p: Path, cf: bool, cd: bool)
    requires IsTemplate(c.template) && IsLink(s.fs, p)
    ensures var r := Visit(s, c, p, cf, cd, SymlinkError);
      && r.fs == s.fs
      && r.symlinkErrors == s.symlinkErrors + 1
      && r.symlinksFollowed == s.symlinksFollowed && r.symlinksSkipped == s.symlinksSkipped
      && r.filesChanged == s.filesChanged && r.dirsChanged == s.dirsChanged
      && r.events == s.events + (if c.output == OutputSilent then [] else [LinkFound(p)])
  {
  }

  /** Following a link whose target stat cannot reach changes no counter and nothing on disk. */
  lemma VisitUnresolvedLink(s: State, c: Config, p: Path, cf: bool, cd: bool)
    requires IsTemplate(c.template) && IsLink(s.fs, p) && Stat(s.fs, p).None?
    ensures var r := Visit(s, c, p, cf, cd, SymlinkFollow);
      && r.fs == s.fs
      && r.symlinkErrors == s.symlinkErrors && r.symlinksFollowed == s.symlinksFollowed
      && r.symlinksSkipped == s.symlinksSkipped
      && r.filesChanged == s.filesChanged && r.dirsChanged == s.dirsChanged
      && r.events == s.events + (if c.output == OutputSilent then [] else [LinkUnresolved(p)])
  {
  }

  /**
    Following a link that resolves moves symlinks_followed and goes on with
    the target's inode, as if the target had been reached directly.
   */
  lemma VisitFollowsLink(s: State, c: Config, p: Path, cf: bool, cd: bool)
    requires IsTemplate(c.template) && IsLink(s.fs, p) && Stat(s.fs, p).Some?
    ensures var r := Visit(s, c, p, cf, cd, SymlinkFollow);
      var s1 := s.(visited := s.visited + [Visited(p, cf, cd)], symlinksFollowed := s.symlinksFollowed + 1,
                   events := s.events + (if c.output == OutputVerbose then [LinkFollowed(p)] else []));
      && Stat(s.fs, p).value.kind != Symlink
      && r == ChangeMode(s1, c, p, Stat(s.fs, p).value, cf, cd)
  {
    var s1 := s.(visited := s.visited + [Visited(p, cf, cd)]);
    assert Visit(s, c, p, cf, cd, SymlinkFollow) == OnLink(s1, c, p, cf, cd, SymlinkFollow);
  }

  /** When the template leaves the bits as they are, nothing is chmod'ed and no counter moves. */
  lemma ChangeModeNoOp(s: State, c: Config, p: Path, ino: Inode, cf: bool, cd: bool)
    requires IsTemplate(c.template) && Applied(c.template, ino.perm & PERM_MASK) == ino.perm & PERM_MASK
    ensures var r := ChangeMode(s, c, p, ino, cf, cd);
      && r.fs == s.fs && r.filesChanged == s.filesChanged && r.dirsChanged == s.dirsChanged
      && r.symlinksSkipped == s.symlinksSkipped && r.symlinksFollowed == s.symlinksFollowed
      && r.symlinkErrors == s.symlinkErrors
      && (r.events == s.events || r.events == s.events + [DirUnchanged(p)] || r.events == s.events + [FileUnchanged(p)])
  {
    assert ChangeMode(s, c, p, ino, cf, cd) == Unchanged(s, c, p, ino.kind, cf, cd);
  }

  /**
    dirs_changed moves exactly for a directory, with -d in effect, whose bits
    the template changes and whose chmod succeeds; files_changed likewise for
    a regular file with -f in effect. Nothing else changes on disk, and the
    symlink counters never move here.
   */
  lemma ChangeModeCounters(s: State, c: Config, p: Path, ino: Inode, cf: bool, cd: bool)
    requires IsTemplate(c.template)
    ensures var r := ChangeMode(s, c, p, ino, cf, cd);
      var before := ino.perm & PERM_MASK;
      var after := Applied(c.template, before);
      var tried := before != after && ((ino.kind == Directory && cd) || (ino.kind == Regular && cf));
      var done := tried && Chmod(s.fs, p, after).ok;
      && r.dirsChanged == s.dirsChanged + (if done && ino.kind == Directory then 1 else 0)
      && r.filesChanged == s.filesChanged + (if done && ino.kind == Regular then 1 else 0)
      && r.fs == (if done then Chmod(s.fs, p, after).fs else s.fs)
      && r.symlinksSkipped == s.symlinksSkipped && r.symlinksFollowed == s.symlinksFollowed
      && r.symlinkErrors == s.symlinkErrors
  {
    var before := ino.perm & PERM_MASK;
    DecideCounters(s, c, p, ino.kind, cf, cd, before, Applied(c.template, before));
  }

  /** The same, for any bits before and after. */
  lemma DecideCounters(s: State, c: Config, p: Path, k: Kind, cf: bool, cd: bool, before: Mode, after: Mode)
    ensures var r := Decide(s, c, p, k, cf, cd, before, after);
      var tried := before != after && ((k == Directory && cd) || (k == Regular && cf));
      var done := tried && Chmod(s.fs, p, after).ok;
      && r.dirsChanged == s.dirsChanged + (if done && k == Directory then 1 else 0)
      && r.filesChanged == s.filesChanged + (if done && k == Regular then 1 else 0)
      && r.fs == (if done then Chmod(s.fs, p, after).fs else s.fs)
      && r.symlinksSkipped == s.symlinksSkipped && r.symlinksFollowed == s.symlinksFollowed
      && r.symlinkErrors == s.symlinkErrors
  {
    if before == after {
    } else if k == Directory && cd {
      TryChmodEffect(s, c, p, true, before, after);
    } else if k == Regular && cf {
      TryChmodEffect(s, c, p, false, before, after);
    }
  }

  /**
    A failed chmod of a directory is reported (unless silent) and counts
    nothing; a successful one is counted and shown as a change, never
    reported as a failure.
   */
  lemma DirChmodFailureReported(s: State, c: Config, p: Path, cf: bool, before: Mode, after: Mode)
    requires before != after
    ensures var r := Decide(s, c, p, Directory, cf, true, before, after);
      var ok := Chmod(s.fs, p, after).ok;
      && (!ok ==> r.dirsChanged == s.dirsChanged && r.events == s.events + (if c.output == OutputSilent then [] else [DirChmodFailed(p)]))
      && (ok ==> r.dirsChanged == s.dirsChanged + 1
                 && r.events == s.events + (if ShowsChanges(c.output) then [DirChanged(p, before, c.template, after)] else []))
  {
  }

  // ---------------------------------------------------------------------------
  // What a walk keeps: the table, the counters and the output policy
  // ---------------------------------------------------------------------------

  /**
    Since `s0`, every path's record was changed at most once, by the template, and only
    if targeted; the change counters count exactly the changed records.
   */
  ghost predicate Tracks(s0: State, s: State, t: seq<char>, cf: bool, cd: bool)
    requires IsTemplate(t)
  {
    && OnlyRewritten(s0.fs, s.fs, t, cf, cd)
    && s.dirsChanged == s0.dirsChanged + |ChangedOf(s0.fs, s.fs, Directory)|
    && s.filesChanged == s0.filesChanged + |ChangedOf(s0.fs, s.fs, Regular)|
  }

  /** Since `e0`, lines were only added: none when silent, only diagnostics when quiet. */
  predicate Heard(e0: seq<Event>, e: seq<Event>, out: OutputMode) {
    && |e0| <= |e| && e[..|e0|] == e0
    && (out == OutputSilent ==> e == e0)
    && (out == OutputQuiet ==> forall j :: |e0| <= j < |e| ==> e[j].IsDiagnostic())
  }

  /** Since `s0`, only the symlink counter of the policy in force has moved, and only upwards. */
  predicate LinkCounts(s0: State, s: State, links: SymlinkMode) {
    && s0.symlinksSkipped <= s.symlinksSkipped && s0.symlinksFollowed <= s.symlinksFollowed
    && s0.symlinkErrors <= s.symlinkErrors
    && (links != SymlinkSkip ==> s.symlinksSkipped == s0.symlinksSkipped)
    && (links != SymlinkFollow ==> s.symlinksFollowed == s0.symlinksFollowed)
    && (links != SymlinkError ==> s.symlinkErrors == s0.symlinkErrors)
  }

  ghost predicate Since(s0: State, s: State, c: Config, cf: bool, cd: bool, links: SymlinkMode)
    requires IsTemplate(c.template)
  {
    Tracks(s0, s, c.template, cf, cd) && Heard(s0.events, s.events, c.output) && LinkCounts(s0, s, links)
  }

  lemma SinceRefl(s: State, c: Config, cf: bool, cd: bool, links: SymlinkMode)
    requires IsTemplate(c.template)
    ensures Since(s, s, c, cf, cd, links)
  {
    OnlyRewrittenRefl(s.fs, c.template, cf, cd);
  }

  lemma ChangeModeTracks(s0: State, s: State, c: Config, p: Path, ino: Inode, cf: bool, cd: bool, wf: bool, wd: bool)
    requires IsTemplate(c.template) && Tracks(s0, s, c.template, wf, wd)
    requires Stat(s.fs, p) == Some(ino) && (cf ==> wf) && (cd ==> wd)
    ensures Tracks(s0, ChangeMode(s, c, p, ino, cf, cd), c.template, wf, wd)
  {
    var before := ino.perm & PERM_MASK;
    var after := Applied(c.template, before);
    assert ChangeMode(s, c, p, ino, cf, cd) == Decide(s, c, p, ino.kind, cf, cd, before, after);
    DecideTracks(s0, s, c, p, ino, cf, cd, wf, wd, before, after);
  }

  lemma DecideTracks(s0: State, s: State, c: Config, p: Path, ino: Inode, cf: bool, cd: bool, wf: bool, wd: bool, before: Mode, after: Mode)
    requires IsTemplate(c.template) && Tracks(s0, s, c.template, wf, wd)
    requires Stat(s.fs, p) == Some(ino) && (cf ==> wf) && (cd ==> wd)
    requires before == ino.perm & PERM_MASK && after == Applied(c.template, before)
    ensures Tracks(s0, Decide(s, c, p, ino.kind, cf, cd, before, after), c.template, wf, wd)
  {
    var r := Decide(s, c, p, ino.kind, cf, cd, before, after);
    DecideCounters(s, c, p, ino.kind, cf, cd, before, after);
    if before != after && ((ino.kind == Directory && cd) || (ino.kind == Regular && cf)) {
      TriedTracks(s0, s, r, c.template, wf, wd, p, ino, after);
    } else {
      assert r.fs == s.fs && r.dirsChanged == s.dirsChanged && r.filesChanged == s.filesChanged;
    }
  }

  lemma TriedTracks(s0: State, s: State, r: State, t: seq<char>, wf: bool, wd: bool, p: Path, ino: Inode, after: Mode)
    requires IsTemplate(t) && Tracks(s0, s, t, wf, wd)
    requires Stat(s.fs, p) == Some(ino) && Touchable(ino.kind, wf, wd)
    requires after == Applied(t, ino.perm & PERM_MASK) && ino.perm & PERM_MASK != after
    requires var ok := Chmod(s.fs, p, after).ok;
      && r.fs == Chmod(s.fs, p, after).fs
      && r.dirsChanged == s.dirsChanged + (if ok && ino.kind == Directory then 1 else 0)
      && r.filesChanged == s.filesChanged + (if ok && ino.kind == Regular then 1 else 0)
    ensures Tracks(s0, r, t, wf, wd)
  {
    ChmodStep(s0.fs, s.fs, t, wf, wd, p, ino, after);
  }

  lemma ChangeModeHeard(s: State, c: Config, p: Path, ino: Inode, cf: bool, cd: bool)
    requires IsTemplate(c.template)
    ensures Heard(s.events, ChangeMode(s, c, p, ino, cf, cd).events, c.output)
  {
    var before := ino.perm & PERM_MASK;
    var after := Applied(c.template, before);
    assert ChangeMode(s, c, p, ino, cf, cd) == Decide(s, c, p, ino.kind, cf, cd, before, after);
    DecideHeard(s, c, p, ino.kind, cf, cd, before, after);
  }

  lemma DecideHeard(s: State, c: Config, p: Path, k: Kind, cf: bool, cd: bool, before: Mode, after: Mode)
    ensures Heard(s.events, Decide(s, c, p, k, cf, cd, before, after).events, c.output)
  {
    if before == after {
      UnchangedHeard(s, c, p, k, cf, cd);
    } else if k == Directory && cd {
      TryChmodEffect(s, c, p, true, before, after);
    } else if k == Regular && cf {
      TryChmodEffect(s, c, p, false, before, after);
    }
  }

  lemma HeardTrans(e0: seq<Event>, e1: seq<Event>, e2: seq<Event>, out: OutputMode)
    requires Heard(e0, e1, out) && Heard(e1, e2, out)
    ensures Heard(e0, e2, out)
  {
    assert e2[..|e0|] == e1[..|e1|][..|e0|];
  }

  /** One call of change_permissions writes nothing when silent and only diagnostics when quiet. */
  lemma VisitHeard(s: State, c: Config, p: Path, cf: bool, cd: bool, links: SymlinkMode)
    requires IsTemplate(c.template)
    ensures Heard(s.events, Visit(s, c, p, cf, cd, links).events, c.output)
  {
    var s1 := s.(visited := s.visited + [Visited(p, cf, cd)]);
    if p in s.fs && s.fs[p].kind != Symlink {
      ChangeModeHeard(s1, c, p, s.fs[p], cf, cd);
    } else if p in s.fs {
      assert Visit(s, c, p, cf, cd, links) == OnLink(s1, c, p, cf, cd, links);
      OnLinkHeard(s1, c, p, cf, cd, links);
    }
  }

  lemma OnLinkHeard(s: State, c: Config, p: Path, cf: bool, cd: bool, links: SymlinkMode)
    requires IsTemplate(c.template)
    ensures Heard(s.events, OnLink(s, c, p, cf, cd, links).events, c.output)
  {
    if links == SymlinkFollow && Stat(s.fs, p).Some? {
      var s2 := s.(symlinksFollowed := s.symlinksFollowed + 1,
                   events := s.events + Say(c.output == OutputVerbose, LinkFollowed(p)));
      assert OnLink(s, c, p, cf, cd, links) == ChangeMode(s2, c, p, Stat(s.fs, p).value, cf, cd);
      ChangeModeHeard(s2, c, p, Stat(s.fs, p).value, cf, cd);
      HeardTrans(s.events, s2.events, OnLink(s, c, p, cf, cd, links).events, c.output);
    }
  }

  /** One call of change_permissions keeps the table and counter invariants of the walk. */
  lemma VisitTracks(s0: State, s: State, c: Config, p: Path, cf: bool, cd: bool, links: SymlinkMode, wf: bool, wd: bool)
    requires IsTemplate(c.template) && Tracks(s0, s, c.template, wf, wd)
    requires (cf ==> wf) && (cd ==> wd)
    ensures Tracks(s0, Visit(s, c, p, cf, cd, links), c.template, wf, wd)
  {
    var s1 := s.(visited := s.visited + [Visited(p, cf, cd)]);
    var r := Visit(s, c, p, cf, cd, links);
    if p in s.fs && s.fs[p].kind != Symlink {
      assert r == ChangeMode(s1, c, p, s.fs[p], cf, cd);
      ChangeModeTracks(s0, s1, c, p, s.fs[p], cf, cd, wf, wd);
    } else if p in s.fs {
      assert r == OnLink(s1, c, p, cf, cd, links);
      OnLinkTracks(s0, s1, c, p, cf, cd, links, wf, wd);
    } else {
      assert r.fs == s.fs && r.dirsChanged == s.dirsChanged && r.filesChanged == s.filesChanged;
    }
  }

  lemma OnLinkTracks(s0: State, s: State, c: Config, p: Path, cf: bool, cd: bool, links: SymlinkMode, wf: bool, wd: bool)
    requires IsTemplate(c.template) && Tracks(s0, s, c.template, wf, wd)
    requires (cf ==> wf) && (cd ==> wd)
    ensures Tracks(s0, OnLink(s, c, p, cf, cd, links), c.template, wf, wd)
  {
    var r := OnLink(s, c, p, cf, cd, links);
    if links == SymlinkFollow && Stat(s.fs, p).Some? {
      var s2 := s.(symlinksFollowed := s.symlinksFollowed + 1,
                   events := s.events + Say(c.output == OutputVerbose, LinkFollowed(p)));
      assert r == ChangeMode(s2, c, p, Stat(s.fs, p).value, cf, cd);
      ChangeModeTracks(s0, s2, c, p, Stat(s.fs, p).value, cf, cd, wf, wd);
    } else {
      assert r.fs == s.fs && r.dirsChanged == s.dirsChanged && r.filesChanged == s.filesChanged;
    }
  }

  /** One call of change_permissions moves at most the symlink counter of the policy in force. */
  lemma VisitLinkCounts(s: State, c: Config, p: Path, cf: bool, cd: bool, links: SymlinkMode)
    requires IsTemplate(c.template)
    ensures LinkCounts(s, Visit(s, c, p, cf, cd, links), links)
  {
    var s1 := s.(visited := s.visited + [Visited(p, cf, cd)]);
    var r := Visit(s, c, p, cf, cd, links);
    if p in s.fs && s.fs[p].kind != Symlink {
      assert r == ChangeMode(s1, c, p, s.fs[p], cf, cd);
      ChangeModeCounters(s1, c, p, s.fs[p], cf, cd);
    } else if p in s.fs {
      assert r == OnLink(s1, c, p, cf, cd, links);
      OnLinkCounts(s1, c, p, cf, cd, links);
    }
  }

  lemma OnLinkCounts(s: State, c: Config, p: Path, cf: bool, cd: bool, links: SymlinkMode)
    requires IsTemplate(c.template)
    ensures LinkCounts(s, OnLink(s, c, p, cf, cd, links), links)
  {
    var r := OnLink(s, c, p, cf, cd, links);
    if links == SymlinkFollow && Stat(s.fs, p).Some? {
      var s2 := s.(symlinksFollowed := s.symlinksFollowed + 1,
                   events := s.events + Say(c.output == OutputVerbose, LinkFollowed(p)));
      assert r == ChangeMode(s2, c, p, Stat(s.fs, p).value, cf, cd);
      ChangeModeCounters(s2, c, p, Stat(s.fs, p).value, cf, cd);
    }
  }

  lemma VisitKeeps(s0: State, s: State, c: Config, p: Path, cf: bool, cd: bool, links: SymlinkMode, wf: bool, wd: bool)
    requires IsTemplate(c.template) && Since(s0, s, c, wf, wd, links)
    requires (cf ==> wf) && (cd ==> wd)
    ensures Since(s0, Visit(s, c, p, cf, cd, links), c, wf, wd, links)
  {
    VisitTracks(s0, s, c, p, cf, cd, links, wf, wd);
    VisitLinkCounts(s, c, p, cf, cd, links);
    VisitHeard(s, c, p, cf, cd, links);
    HeardTrans(s0.events, s.events, Visit(s, c, p, cf, cd, links).events, c.output);
  }

  /**
    A whole walk keeps them: every path's record is changed at most once and only if
    its kind is targeted (the root, visited with files off, only as a
    directory), dirs_changed and files_changed count exactly the changed
    directories and files, silent output writes nothing and quiet output
    only diagnostics, and only the counter of the symlink policy in force moves.
   */
  lemma {:induction false} WalkKeeps(s0: State, s: State, c: Config, f: Flags, p: Path, l: Listing)
    requires IsTemplate(c.template) && Since(s0, s, c, f.changeFiles, f.changeDirs, f.links)
    ensures Since(s0, Walk(s, c, f, p, l), c, f.changeFiles, f.changeDirs, f.links)
    decreases l, if l.Entries? then |l.entries| + 1 else 0
  {
    var s1 := if f.changeDirs && f.includeDir then Visit(s, c, p, false, true, f.links) else s;
    if f.changeDirs && f.includeDir {
      VisitKeeps(s0, s, c, p, false, true, f.links, f.changeFiles, f.changeDirs);
    }
    match l
    case Unreadable =>
      var r := Walk(s, c, f, p, l);
      assert r.events[..|s0.events|] == s0.events;
    case Entries(es) =>
      ChildrenKeeps(s0, s1, c, f, p, l, |es|);
  }

  lemma {:induction false} ChildrenKeeps(s0: State, s: State, c: Config, f: Flags, p: Path, l: Listing, n: nat)
    requires IsTemplate(c.template) && Since(s0, s, c, f.changeFiles, f.changeDirs, f.links)
    requires l.Entries? && n <= |l.entries|
    ensures Since(s0, Children(s, c, f, p, l, n), c, f.changeFiles, f.changeDirs, f.links)
    decreases l, n
  {
    if n > 0 {
      ChildrenKeeps(s0, s, c, f, p, l, n - 1);
      var s1 := Children(s, c, f, p, l, n - 1);
      var e := l.entries[n - 1];
      if e.name != "." && e.name != ".." {
        VisitKeeps(s0, s1, c, p + [e.name], f.changeFiles, f.changeDirs, f.links, f.changeFiles, f.changeDirs);
        if f.recursive && e.dtype == Directory {
          var s2 := Visit(s1, c, p + [e.name], f.changeFiles, f.changeDirs, f.links);
          WalkKeeps(s0, s2, c, f, p + [e.name], e.sub);
        }
      }
    }
  }

  /** From the start of a run: the walk's changes and counters agree, whatever the listing. */
  lemma RunKeeps(s: State, c: Config, f: Flags, l: Listing)
    requires IsTemplate(c.template)
    ensures Since(s, Walk(s, c, f, [], l), c, f.changeFiles, f.changeDirs, f.links)
  {
    SinceRefl(s, c, f.changeFiles, f.changeDirs, f.links);
    WalkKeeps(s, s, c, f, [], l);
  }

  // ---------------------------------------------------------------------------
  // Which calls a walk makes
  // ---------------------------------------------------------------------------

  /**
    Every call of change_permissions a walk makes is one WalkCall allows, and
    earlier calls stay as they were. With the root path [] this says that no
    path with a "." or ".." component is ever visited, that the directory
    argument is only visited with files off under -d -i, and that -n keeps
    the walk to the entries of the top directory.
   */
  lemma {:induction false} WalkTrace(s: State, c: Config, f: Flags, p: Path, l: Listing)
    requires IsTemplate(c.template)
    ensures Traced(s.visited, Walk(s, c, f, p, l).visited, f.Scope(), p, l)
    decreases l, if l.Entries? then |l.entries| + 1 else 0
  {
    var s1 := if f.changeDirs && f.includeDir then Visit(s, c, p, false, true, f.links) else s;
    assert Traced(s.visited, s1.visited, f.Scope(), p, l) by {
      assert s1.visited[..|s.visited|] == s.visited;
    }
    match l
    case Unreadable =>
    case Entries(es) =>
      ChildrenTrace(s1, c, f, p, l, |es|);
      TracedTrans(s.visited, s1.visited, Walk(s, c, f, p, l).visited, f.Scope(), p, l);
  }

  lemma {:induction false} ChildrenTrace(s: State, c: Config, f: Flags, p: Path, l: Listing, n: nat)
    requires IsTemplate(c.template)
    requires l.Entries? && n <= |l.entries|
    ensures Traced(s.visited, Children(s, c, f, p, l, n).visited, f.Scope(), p, l)
    decreases l, n
  {
    if n == 0 {
      assert s.visited[..|s.visited|] == s.visited;
    } else {
      ChildrenTrace(s, c, f, p, l, n - 1);
      var s1 := Children(s, c, f, p, l, n - 1);
      var e := l.entries[n - 1];
      if e.name != "." && e.name != ".." {
        var q := p + [e.name];
        var s2 := Visit(s1, c, q, f.changeFiles, f.changeDirs, f.links);
        assert Traced(s1.visited, s2.visited, f.Scope(), p, l) by {
          assert s2.visited[..|s1.visited|] == s1.visited;
          assert q[..|p|] == p && q[|p|] == l.entries[n - 1].name;
        }
        TracedTrans(s.visited, s1.visited, s2.visited, f.Scope(), p, l);
        if f.recursive && e.dtype == Directory {
          WalkTrace(s2, c, f, q, e.sub);
          WidenTraced(s2.visited, Walk(s2, c, f, q, e.sub).visited, f.Scope(), p, l, n - 1);
          TracedTrans(s.visited, s2.visited, Walk(s2, c, f, q, e.sub).visited, f.Scope(), p, l);
        }
      }
    }
  }

  /** The readdir loop calls change_permissions, with the run's flags, on every entry but "." and "..". */
  lemma {:induction false} ChildrenComplete(s: State, c: Config, f: Flags, p: Path, l: Listing, n: nat)
    requires IsTemplate(c.template)
    requires l.Entries? && n <= |l.entries|
    ensures Reached(s.visited, Children(s, c, f, p, l, n).visited, f.Scope(), p, l, n)
    decreases n
  {
    if n > 0 {
      ChildrenComplete(s, c, f, p, l, n - 1);
      var s1 := Children(s, c, f, p, l, n - 1);
      var r := Children(s, c, f, p, l, n);
      var e := l.entries[n - 1];
      assert r == Child(s1, c, f, p, e);
      if e.name != "." && e.name != ".." {
        var s2 := Visit(s1, c, p + [e.name], f.changeFiles, f.changeDirs, f.links);
        if f.recursive && e.dtype == Directory {
          WalkTrace(s2, c, f, p + [e.name], e.sub);
          assert r.visited[..|s2.visited|] == s2.visited;
        } else {
          assert r.visited == s2.visited;
        }
      }
      ReachedNext(s.visited, s1.visited, r.visited, f.Scope(), p, l, n);
    }
  }

  /**
    The walk goes down: every entry reachable from `l` through directories,
    at any depth, gets a call of change_permissions with the run's flags.
    Without recursion Reachable keeps to the entries of `l` itself.
   */
  lemma {:induction false} WalkRecurses(s: State, c: Config, f: Flags, p: Path, l: Listing, rel: Path)
    requires IsTemplate(c.template) && Reachable(f.Scope(), l, rel)
    ensures var r := Walk(s, c, f, p, l).visited;
      |s.visited| <= |r| && Visited(p + rel, f.changeFiles, f.changeDirs) in r[|s.visited|..]
    decreases l, if l.Entries? then |l.entries| + 1 else 0
  {
    var s1 := if f.changeDirs && f.includeDir then Visit(s, c, p, false, true, f.links) else s;
    var k :| 0 <= k < |l.entries| && l.entries[k].name == rel[0]
      && (|rel| > 1 ==> f.recursive && l.entries[k].dtype == Directory && Reachable(f.Scope(), l.entries[k].sub, rel[1..]));
    ChildrenRecurses(s1, c, f, p, l, |l.entries|, k, rel);
    var r := Walk(s, c, f, p, l);
    var j :| |s1.visited| <= j < |r.visited| && r.visited[j] == Visited(p + rel, f.changeFiles, f.changeDirs);
    assert r.visited[|s.visited|..][j - |s.visited|] == r.visited[j];
  }

  lemma {:induction false} ChildrenRecurses(s: State, c: Config, f: Flags, p: Path, l: Listing, n: nat, k: nat, rel: Path)
    requires IsTemplate(c.template) && l.Entries? && k < n <= |l.entries|
    requires |rel| > 0 && rel[0] != "." && rel[0] != ".." && l.entries[k].name == rel[0]
    requires |rel| > 1 ==> f.recursive && l.entries[k].dtype == Directory && Reachable(f.Scope(), l.entries[k].sub, rel[1..])
    ensures var r := Children(s, c, f, p, l, n).visited;
      |s.visited| <= |r| && Visited(p + rel, f.changeFiles, f.changeDirs) in r[|s.visited|..]
    decreases l, n
  {
    var v := Visited(p + rel, f.changeFiles, f.changeDirs);
    var s1 := Children(s, c, f, p, l, n - 1);
    var e := l.entries[n - 1];
    var r := Children(s, c, f, p, l, n).visited;
    assert r == Child(s1, c, f, p, e).visited;
    if k < n - 1 {
      ChildrenRecurses(s, c, f, p, l, n - 1, k, rel);
      ChildExtends(s1, c, f, p, e);
      KeptCall(s.visited, s1.visited, r, v);
    } else {
      ChildrenTrace(s, c, f, p, l, n - 1);
      ChildRecurses(s1, c, f, p, e, rel);
      var j :| |s1.visited| <= j < |r| && r[j] == v;
      assert r[|s.visited|..][j - |s.visited|] == v;
    }
  }

  /** The pass on the entry that `rel` starts with makes the call `rel` names, or walks down to it. */
  lemma {:induction false} ChildRecurses(s: State, c: Config, f: Flags, p: Path, e: Dirent, rel: Path)
    requires IsTemplate(c.template)
    requires |rel| > 0 && rel[0] != "." && rel[0] != ".." && e.name == rel[0]
    requires |rel| > 1 ==> f.recursive && e.dtype == Directory && Reachable(f.Scope(), e.sub, rel[1..])
    ensures var r := Child(s, c, f, p, e).visited;
      |s.visited| <= |r| && Visited(p + rel, f.changeFiles, f.changeDirs) in r[|s.visited|..]
    decreases e
  {
    var v := Visited(p + rel, f.changeFiles, f.changeDirs);
    var r := Child(s, c, f, p, e).visited;
    ChildExtends(s, c, f, p, e);
    if |rel| == 1 {
      assert p + [e.name] == p + rel;
      assert r[|s.visited|..][0] == v;
    } else {
      var q := p + [e.name];
      var s2 := Visit(s, c, q, f.changeFiles, f.changeDirs, f.links);
      assert r == Walk(s2, c, f, q, e.sub).visited;
      WalkRecurses(s2, c, f, q, e.sub, rel[1..]);
      assert q + rel[1..] == p + rel;
      var j :| |s2.visited| <= j < |r| && r[j] == v;
      assert r[|s.visited|..][j - |s.visited|] == v;
    }
  }

  /** One pass of the loop keeps the calls made so far and, unless the entry is "." or "..", makes its call next. */
  lemma ChildExtends(s: State, c: Config, f: Flags, p: Path, e: Dirent)
    requires IsTemplate(c.template)
    ensures var r := Child(s, c, f, p, e).visited;
      && |s.visited| <= |r| && r[..|s.visited|] == s.visited
      && (e.name != "." && e.name != ".." ==>
            |s.visited| < |r| && r[|s.visited|] == Visited(p + [e.name], f.changeFiles, f.changeDirs))
  {
    if e.name != "." && e.name != ".." {
      var s2 := Visit(s, c, p + [e.name], f.changeFiles, f.changeDirs, f.links);
      var r := Child(s, c, f, p, e).visited;
      if f.recursive && e.dtype == Directory {
        WalkTrace(s2, c, f, p + [e.name], e.sub);
        assert r[..|s.visited|] == r[..|s2.visited|][..|s.visited|];
        assert r[|s.visited|] == r[..|s2.visited|][|s.visited|];
      } else {
        assert r == s2.visited;
      }
    }
  }

  /**
    When opendir fails no entry is visited: the only call is the one for the
    directory itself under -d -i, and the failure is reported unless silent.
   */
  lemma WalkUnreadable(s: State, c: Config, f: Flags, p: Path)
    requires IsTemplate(c.template)
    ensures var r := Walk(s, c, f, p, Unreadable);
      && r.visited == s.visited + (if f.changeDirs && f.includeDir then [Visited(p, false, true)] else [])
      && (c.output != OutputSilent ==> |r.events| > 0 && r.events[|r.events| - 1] == OpenDirFailed(p))
      && (c.output == OutputSilent ==> r.events == s.events)
  {
    if f.changeDirs && f.includeDir {
      VisitHeard(s, c, p, false, true, f.links);
    }
  }

  // ---------------------------------------------------------------------------
  // The program: globals as fields, the C functions as methods
  // ---------------------------------------------------------------------------

  /**
    The globals of rper 0.2 (the five counters, wildcard_mode, output_mode,
    symlink_mode) together with the filesystem and the output written so far.
    wildcard_mode is the char[4] buffer of the source; only its first three
    characters are ever read.
   */
  class Rper {
    var filesChanged: int
    var dirsChanged: int
    var symlinksSkipped: int
    var symlinksFollowed: int
    var symlinkErrors: int
    const wildcardMode: array<char>
    var outputMode: OutputMode
    var symlinkMode: SymlinkMode
    var fs: Table
    var events: seq<Event>
    ghost var visited: seq<Visited>

    ghost predicate Valid() {
      wildcardMode.Length == 4
    }

    /** The three characters of wildcard_mode that are read. */
    function Template(): seq<char>
      reads wildcardMode
      requires Valid()
    {
      wildcardMode[..3]
    }

    /** Everything a run changes, as a value. */
    ghost function Snapshot(): State
      reads this
    {
      State(filesChanged, dirsChanged, symlinksSkipped, symlinksFollowed, symlinkErrors, fs, events, visited)
    }

    /** The program as it starts on the filesystem `table`: every global at its initializer. */
    constructor(table: Table)
      ensures Valid() && Template() == [0 as char, 0 as char, 0 as char]
      ensures Snapshot() == State(0, 0, 0, 0, 0, table, [], [])
      ensures outputMode == OutputNormal && symlinkMode == SymlinkSkip
    {
      filesChanged, dirsChanged := 0, 0;
      symlinksSkipped, symlinksFollowed, symlinkErrors := 0, 0, 0;
      wildcardMode := new char[4](_ => 0 as char);
      outputMode, symlinkMode := OutputNormal, SymlinkSkip;
      fs, events, visited := table, [], [];
    }

    /** What change_permissions and process_directory read: the template and the output mode. */
    function Conf(): Config
      reads this, wildcardMode
      requires Valid()
    {
      Config(Template(), outputMode)
    }

    /**
      change_permissions: lstat `path`; apply the symlink policy `links`; then,
      on the inode reached, chmod to the template's mode when its kind is
      targeted and its bits change, counting and reporting as it goes.
     */
    method ChangePermissions(path: Path, changeFiles: bool, changeDirs: bool, links: SymlinkMode)
      requires Valid() && IsTemplate(Template())
      modifies this`filesChanged, this`dirsChanged, this`symlinksSkipped, this`symlinksFollowed, this`symlinkErrors,
               this`fs, this`events, this`visited
      ensures Snapshot() == Visit(old(Snapshot()), old(Conf()), path, changeFiles, changeDirs, links)
      ensures outputMode == old(outputMode) && symlinkMode == old(symlinkMode)
    {
      ghost var s0 := Snapshot();
      visited := visited + [Visited(path, changeFiles, changeDirs)];
      var st := Lstat(fs, path);
      if st.None? {
        if outputMode != OutputSilent {
          events := events + [StatFailed(path)];
        }
        return;
      }
      var ino := st.value;
      if ino.kind == Symlink {
        ChangeLink(path, changeFiles, changeDirs, links);
        return;
      }
      ChangeInode(path, ino, changeFiles, changeDirs);
    }

    /** The symlink switch of change_permissions, on a `path` that lstat reported as a link. */
    method ChangeLink(path: Path, changeFiles: bool, changeDirs: bool, links: SymlinkMode)
      requires Valid() && IsTemplate(Template())
      modifies this`filesChanged, this`dirsChanged, this`symlinksSkipped, this`symlinksFollowed, this`symlinkErrors,
               this`fs, this`events, this`visited
      ensures Snapshot() == OnLink(old(Snapshot()), old(Conf()), path, changeFiles, changeDirs, links)
    {
      match links
      case SymlinkSkip =>
        symlinksSkipped := symlinksSkipped + 1;
        if outputMode == OutputNormal || outputMode == OutputVerbose {
          events := events + [LinkSkipped(path)];
        }
      case SymlinkFollow =>
        FollowLink(path, changeFiles, changeDirs);
      case SymlinkError =>
        symlinkErrors := symlinkErrors + 1;
        if outputMode != OutputSilent {
          events := events + [LinkFound(path)];
        }
    }

    /** The follow case of the symlink switch: stat the link, then change the inode it resolves to. */
    method FollowLink(path: Path, changeFiles: bool, changeDirs: bool)
      requires Valid() && IsTemplate(Template())
      modifies this`filesChanged, this`dirsChanged, this`symlinksSkipped, this`symlinksFollowed, this`symlinkErrors,
               this`fs, this`events, this`visited
      ensures Snapshot() == OnLink(old(Snapshot()), old(Conf()), path, changeFiles, changeDirs, SymlinkFollow)
    {
      ghost var s1 := Snapshot();
      var target := Stat(fs, path);
      if target.None? {
        if outputMode != OutputSilent {
          events := events + [LinkUnresolved(path)];
        }
        return;
      }
      var ino := target.value;
      symlinksFollowed := symlinksFollowed + 1;
      if outputMode == OutputVerbose {
        events := events + [LinkFollowed(path)];
      }
      ghost var s2 := s1.(symlinksFollowed := s1.symlinksFollowed + 1,
                          events := s1.events + Say(outputMode == OutputVerbose, LinkFollowed(path)));
      assert Snapshot() == s2;
      ChangeInode(path, ino, changeFiles, changeDirs);
    }

    /**
      The rest of change_permissions, on the inode `ino` that lstat (or, for a
      followed link, stat) reported for `path`: old_mode, new_mode, then Settle.
     */
    method ChangeInode(path: Path, ino: Inode, changeFiles: bool, changeDirs: bool)
      requires Valid() && IsTemplate(Template())
      modifies this`filesChanged, this`dirsChanged, this`symlinksSkipped, this`symlinksFollowed, this`symlinkErrors,
               this`fs, this`events, this`visited
      ensures Snapshot() == ChangeMode(old(Snapshot()), old(Conf()), path, ino, changeFiles, changeDirs)
      ensures outputMode == old(outputMode) && symlinkMode == old(symlinkMode)
    {
      ghost var s1, c := Snapshot(), Conf();
      var oldMode := ino.perm & PERM_MASK;
      var newMode := ApplyWildcardMode(wildcardMode, oldMode);
      assert ChangeMode(s1, c, path, ino, changeFiles, changeDirs) == Decide(s1, c, path, ino.kind, changeFiles, changeDirs, oldMode, newMode);
      Settle(path, ino.kind, changeFiles, changeDirs, oldMode, newMode);
    }

    /**
      The end of change_permissions, once old_mode and new_mode are known for
      the inode of kind `kind` reached from `path`: the no-op notice, or the
      chmod with its count and its line.
     */
    method Settle(path: Path, kind: Kind, changeFiles: bool, changeDirs: bool, oldMode: Mode, newMode: Mode)
      requires Valid()
      modifies this`filesChanged, this`dirsChanged, this`symlinksSkipped, this`symlinksFollowed, this`symlinkErrors,
               this`fs, this`events, this`visited
      ensures Snapshot() == Decide(old(Snapshot()), old(Conf()), path, kind, changeFiles, changeDirs, oldMode, newMode)
      ensures outputMode == old(outputMode) && symlinkMode == old(symlinkMode)
    {
      ghost var s1, c := Snapshot(), Conf();
      if oldMode == newMode {
        if outputMode != OutputQuiet && outputMode != OutputSilent {
          if kind == Directory {
            if changeDirs || outputMode == OutputVerbose {
              events := events + [DirUnchanged(path)];
            }
          } else if kind == Regular {
            if changeFiles || outputMode == OutputVerbose {
              events := events + [FileUnchanged(path)];
            }
          }
        }
        assert Snapshot() == Unchanged(s1, c, path, kind, changeFiles, changeDirs);
        return;
      }
      if kind == Directory && changeDirs {
        var r := Chmod(fs, path, newMode);
        if r.ok {
          fs := r.fs;
          dirsChanged := dirsChanged + 1;
          if outputMode != OutputQuiet && outputMode != OutputSilent {
            var shown := PrintWildcardMode(wildcardMode);
            events := events + [DirChanged(path, oldMode, shown, newMode)];
          }
        } else {
          if outputMode != OutputSilent {
            events := events + [DirChmodFailed(path)];
          }
        }
        assert Snapshot() == TryChmod(s1, c, path, true, oldMode, newMode);
      } else if kind == Regular && changeFiles {
        var r := Chmod(fs, path, newMode);
        if r.ok {
          fs := r.fs;
          filesChanged := filesChanged + 1;
          if outputMode != OutputQuiet && outputMode != OutputSilent {
            var shown := PrintWildcardMode(wildcardMode);
            events := events + [FileChanged(path, oldMode, shown, newMode)];
          }
        } else {
          if outputMode != OutputSilent {
            events := events + [FileChmodFailed(path)];
          }
        }
        assert Snapshot() == TryChmod(s1, c, path, false, oldMode, newMode);
      }
    }

    /**
      process_directory(dirPath, ...), where opening dirPath gives `listing`:
      the directory itself first under -d -i, then every entry but "." and
      "..", descending into entries whose d_type is a directory when recursive.
     */
    method ProcessDirectory(dirPath: Path, listing: Listing, recursive: bool, changeFiles: bool, changeDirs: bool,
                            includeDir: bool, links: SymlinkMode)
      requires Valid() && IsTemplate(Template())
      modifies this`filesChanged, this`dirsChanged, this`symlinksSkipped, this`symlinksFollowed, this`symlinkErrors,
               this`fs, this`events, this`visited
      ensures Snapshot() == Walk(old(Snapshot()), old(Conf()), Flags(recursive, changeFiles, changeDirs, includeDir, links), dirPath, listing)
      ensures outputMode == old(outputMode) && symlinkMode == old(symlinkMode)
      decreases listing, if listing.Entries? then |listing.entries| + 1 else 0
    {
      ghost var c, f := Conf(), Flags(recursive, changeFiles, changeDirs, includeDir, links);
      if changeDirs && includeDir {
        ChangePermissions(dirPath, false, true, links);
      }
      ghost var s1 := Snapshot();
      match listing
      case Unreadable =>
        if outputMode != OutputSilent {
          events := events + [OpenDirFailed(dirPath)];
        }
      case Entries(es) =>
        var i := 0;
        while i < |es|
          invariant i <= |es|
          invariant Snapshot() == Children(s1, c, f, dirPath, listing, i)
          invariant outputMode == old(outputMode) && symlinkMode == old(symlinkMode)
        {
          ProcessEntry(dirPath, es[i], recursive, changeFiles, changeDirs, includeDir, links);
          i := i + 1;
        }
    }

    /** One pass of the readdir loop of process_directory, on the entry `entry` of `dirPath`. */
    method ProcessEntry(dirPath: Path, entry: Dirent, recursive: bool, changeFiles: bool, changeDirs: bool,
                        includeDir: bool, links: SymlinkMode)
      requires Valid() && IsTemplate(Template())
      modifies this`filesChanged, this`dirsChanged, this`symlinksSkipped, this`symlinksFollowed, this`symlinkErrors,
               this`fs, this`events, this`visited
      ensures Snapshot() == Child(old(Snapshot()), old(Conf()), Flags(recursive, changeFiles, changeDirs, includeDir, links), dirPath, entry)
      decreases entry
    {
      if entry.name != "." && entry.name != ".." {
        var path := dirPath + [entry.name];
        ChangePermissions(path, changeFiles, changeDirs, links);
        if recursive && entry.dtype == Directory {
          ProcessDirectory(path, entry.sub, recursive, changeFiles, changeDirs, includeDir, links);
        }
      }
    }

    /**
      One pass of main's getopt loop: the switch on `opt`, given main's flags
      so far in `o`. It sets the output and symlink globals and, for -p, the
      stored template, and says whether main returns and with what.
     */
    method TakeOption(o: Options, opt: Opt) returns (r: Parsed<Options>)
      requires Valid()
      requires o.output == outputMode && o.symlinks == symlinkMode && o.template == Template()
      modifies this`outputMode, this`symlinkMode, wildcardMode
      ensures Valid()
      ensures r == Step(o, opt)
      ensures r.Continue? ==> r.options.output == outputMode && r.options.symlinks == symlinkMode
                              && r.options.template == Template()
    {
      var c := opt.flag;
      if c == 'a' || c == 'h' || c == 'H' {
        r := Exit(EXIT_SUCCESS, None);
      } else if c == 'd' {
        r := Continue(o.(changeDirs := true));
      } else if c == 'f' {
        r := Continue(o.(changeFiles := true));
      } else if c == 'i' {
        r := Continue(o.(includeDir := true));
      } else if c == 'n' {
        r := Continue(o.(recursive := false));
      } else if c == 's' {
        outputMode := OutputQuiet;
        r := Continue(o.(output := outputMode));
      } else if c == 'S' {
        outputMode := OutputSilent;
        r := Continue(o.(output := outputMode));
      } else if c == 'v' {
        outputMode := OutputVerbose;
        r := Continue(o.(output := outputMode));
      } else if c == 'L' {
        symlinkMode := SymlinkFollow;
        r := Continue(o.(symlinks := symlinkMode));
      } else if c == 'k' {
        symlinkMode := SymlinkError;
        r := Continue(o.(symlinks := symlinkMode));
      } else if c == 'p' {
        r := TakePermissions(o, opt.arg);
      } else {
        r := Exit(EXIT_FAILURE, Some(UnknownOption(c)));
      }
    }

    /** The case -p of main's getopt switch: validate and store the template, or make main fail. */
    method TakePermissions(o: Options, arg: string) returns (r: Parsed<Options>)
      requires Valid() && o.template == Template()
      modifies wildcardMode
      ensures Valid()
      ensures r == Step(o, Opt('p', arg))
      ensures r.Continue? ==> r.options.template == Template()
    {
      var status := ValidateAndProcessOctal(wildcardMode, arg);
      if status == -1 {
        assert Parse(arg).None?;
        return Exit(EXIT_FAILURE, Some(InvalidTemplate(Stripped(arg))));
      }
      assert Parse(arg) == Some(Template());
      r := Continue(o.(template := Template(), permFlag := true));
    }

    /** The getopt loop of main: the options in order, up to the first that makes main return. */
    method GetOptions(opts: seq<Opt>) returns (p: Parsed<Options>)
      requires Valid()
      requires outputMode == OutputNormal && symlinkMode == SymlinkSkip
      modifies this, wildcardMode
      ensures Valid()
      ensures p == Fold(Initial(old(Template())), opts)
      ensures p.Continue? ==> p.options.output == outputMode && p.options.symlinks == symlinkMode
                              && p.options.template == Template()
      ensures Snapshot() == old(Snapshot())
    {
      ghost var t0 := Template();
      var o := Initial(Template());
      var i := 0;
      while i < |opts|
        invariant Valid() && i <= |opts|
        invariant Fold(Initial(t0), opts[..i]) == Continue(o)
        invariant o.output == outputMode && o.symlinks == symlinkMode && o.template == Template()
        invariant Snapshot() == old(Snapshot())
      {
        assert opts[..i + 1][..i] == opts[..i];
        var r := TakeOption(o, opts[i]);
        if r.Exit? {
          FoldStopped(Initial(t0), opts, i + 1);
          return r;
        }
        o := r.options;
        i := i + 1;
      }
      assert opts[..i] == opts;
      p := Continue(o);
    }

    /**
      main, given the options getopt returns (`opts`), whether a directory
      operand follows them, and what opening that directory gives: the option
      loop, the two checks after it, the default target, and the walk from the
      directory operand. Returns main's exit status.
     */
    method Run(opts: seq<Opt>, dirGiven: bool, root: Listing) returns (code: int)
      requires Valid() && outputMode == OutputNormal && symlinkMode == SymlinkSkip
      modifies this, wildcardMode
      ensures var r := Setup(opts, dirGiven, old(Template()));
        && (r.Exit? ==> (code == r.code
              && Snapshot() == old(Snapshot()).(events := old(events) + (if r.fault.Some? then [ConfigError(r.fault.value)] else []))))
        && (r.Continue? ==> (code == EXIT_SUCCESS
              && Snapshot() == Walk(old(Snapshot()), Config(r.options.template, r.options.output),
                                    Flags(r.options.recursive, r.options.changeFiles, r.options.changeDirs,
                                          r.options.includeDir, r.options.symlinks), [], root)))
    {
      var p := GetOptions(opts);
      if p.Exit? {
        if p.fault.Some? {
          events := events + [ConfigError(p.fault.value)];
        }
        return p.code;
      }
      if !dirGiven {
        events := events + [ConfigError(MissingDirectory)];
        return EXIT_FAILURE;
      }
      var o := p.options;
      if !o.permFlag {
        events := events + [ConfigError(MissingPermissions)];
        return EXIT_FAILURE;
      }
      FoldKeepsTemplate(old(Template()), opts);
      var changeFiles := o.changeFiles;
      if !changeFiles && !o.changeDirs {
        changeFiles := true;
      }
      ProcessDirectory([], root, o.recursive, changeFiles, o.changeDirs, o.includeDir, symlinkMode);
      return EXIT_SUCCESS;
    }
  }
}
