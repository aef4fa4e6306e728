# rper: a verified model

rper is a small command-line tool that walks a directory and rewrites the
permission bits of the files and/or directories below it. The new bits come
from a three-slot template given with `-p`: user, group and other, each slot
an octal digit or `*`, which keeps that group's old bits (`-p 6*4` on a file
of mode 750 gives 654). The template may carry a leading `0` (`0755`). Flags
choose the targets (`-f` files, `-d` directories, `-i` the directory argument
itself, `-n` no recursion) and the output (`-s`, `-S`, `-v`). A run ends with
counts of what it changed.

Two versions are modelled side by side, each in its own modules, because
their behaviour differs in detail:

- rper 0.1 (`rper_0.1.c`) has three output switches: suppress_output,
  suppress_all_output and verbose. It looks at every entry with `lstat`, so
  a symbolic link is never changed.
- rper 0.2 (`rper_0.2.c`) has a single output mode (normal, quiet, silent,
  verbose). It adds a symlink policy: skip, which is the default, follow
  (`-L`) or error (`-k`), each with its own counter.

The project is laid out as follows:

- `modes.dfy` (module `Modes`) defines mode words (`bv32`, as `mode_t`) and
  the template grammar. `Parse` describes what the validator accepts and
  stores. `Applied` describes what `apply_wildcard_mode` computes. The lemmas
  prove the group-by-group rule, idempotence, the `***` identity and the
  no-op condition.
- `wildcard.dfy` (module `Wildcard`) holds the three functions that work on
  the global buffer `wildcard_mode`. They are methods over a `char` array of
  length 4, proved against `Applied` and `Parse`. What is modelled of these
  three behaves the same in both versions. The 0.2 apply loop adds `mode_t`
  casts that change no result. The validators differ only in the text they
  print after the error.
- `filesystem.dfy` (module `FileSystem`) stands in for the system calls:
  - an inode table keyed by path answers lstat, stat and chmod;
  - chmod success is an attribute of each inode;
  - directory listings answer opendir and readdir;
  - output lines are recorded as tagged events.

  It also holds the invariant a whole walk keeps: the record of every path is
  rewritten at most once, by the template, and only if its kind is targeted.
- `getopt.dfy`, `options01.dfy` and `options02.dfy` model the option loop of
  `main` as a left fold of one step per option that getopt returns. They also
  cover the checks after the loop and the default target. Reference
  definitions ("the last of -s/-S/-v wins", "a flag is set exactly when its
  option occurs") are proved equal to the fold.
- `rper01.dfy` and `rper02.dfy` give `change_permissions` and
  `process_directory` twice:
  - as functions on a `State` value, about which the decision table, the
    counter and output rules and the walk invariants are proved;
  - as the methods of a class `Rper`, whose fields are the program's globals
    (counters, `wildcard_mode`, output and symlink settings). The methods
    update the fields step by step, as the C functions update the globals,
    and are proved to end in the state the functions compute. `Run` is
    `main`.

Constants follow the source. The template characters accepted are
`"4567*"`, which is the set handed to `strspn`. The mask is 0777, written
`0x1FF` because Dafny has no octal literals. The exit codes are
`EXIT_SUCCESS` 0 and `EXIT_FAILURE` 1, and the validator returns 0 or -1.

Where the prose description of rper and the code disagree, the model follows
the code:

- Templates: the description allows the digits 0-7 in a slot. The validator
  accepts only 4, 5, 6, 7 and `*`.
- Suppressed output in 0.1: the usage text (rper_0.1.c:90) says that `-s`
  keeps error messages. During the walk, the lstat and opendir errors are
  guarded by `!suppress_output && !suppress_all_output` (rper_0.1.c:152,
  232), as are the no-op notices, so `-s` hides them too. The configuration
  errors of `main` are written whatever the switches.
- The 0.1 directory branch: a failed chmod is reported in the file branch
  but not in the directory branch. See Findings.

## Model

| member | source | states |
|---|---|---|
| Modes.Parse | rper_0.2.c:336-354 | the argument is accepted exactly when it is three characters of "4567*", or a '0' followed by three such; the stored template is those three characters, so the argument is the template with any stripped leading '0' put back |
| Modes.StrSpn | rper_0.2.c:346 | strspn: the length of the longest prefix of `s` made of characters of `accept` |
| Modes.Applied | rper_0.2.c:156-168 | the new mode never exceeds 0777 |
| Modes.AppliedGroups | rper_0.2.c:157-165 | group i of the result is the old group i for a `*` slot, and the slot's digit otherwise |
| Modes.SetUser | rper_0.2.c:162-163 | one loop step on the user group sets it to the digit and leaves group and other unchanged (SetGroupBits and SetOther do the same for the other two groups) |
| Modes.SetGroupBits | rper_0.2.c:162-163 | the loop step on the group bits sets them and keeps user and other |
| Modes.SetOther | rper_0.2.c:162-163 | the loop step on the other bits sets them and keeps user and group |
| Modes.LoopApplies | rper_0.2.c:160-165 | three steps of the apply loop compute Applied |
| Modes.AppliedIgnoresTypeBits | rper_0.2.c:157 | the result depends only on old_mode & 0777 |
| Modes.AppliedIdempotent | rper_0.2.c:160-165 | applying a template twice gives what applying it once gives |
| Modes.AllWildcardsKeep | rper_0.2.c:160-165 | the template `***` returns old_mode & 0777 unchanged |
| Modes.AppliedFixedPoint | rper_0.2.c:234 | old_mode == new_mode exactly when every slot is `*` or the digit its group already holds |
| Modes.AcceptedDigitsKeepRead | rper_0.2.c:346 | since only 4-7 pass the validator, every group set by a digit slot carries its read bit |
| Modes.Example755 | rper_0.2.c:156-168 | `755` on mode 644 gives 755 |
| Modes.ExampleWildcard | rper_0.2.c:156-168 | `6*4` on mode 750 gives 654 |
| Modes.GroupsDetermine | rper_0.2.c:157 | a 9-bit mode is determined by its three groups |
| Wildcard.ApplyWildcardMode | rper_0.2.c:156-168 | the loop over the buffer returns Applied of the stored template and the old mode |
| Wildcard.ClearAndSet | rper_0.2.c:162-163 | on a mode within 0777, one pass for a digit slot computes SetGroup, the clear-then-or step of the loop |
| Modes.SetGroupKeeps | rper_0.2.c:162-163 | that step, for any group i, leaves a mode within 0777 with group i equal to the digit and the other two groups unchanged |
| Wildcard.PrintWildcardMode | rper_0.2.c:174-182 | the rendering is exactly the three stored characters |
| Wildcard.ValidateAndProcessOctal | rper_0.2.c:336-355 | returns 0 exactly when the argument is valid and then stores the parsed template; otherwise returns -1 and leaves the buffer unchanged |
| FileSystem.ChmodStep | rper_0.2.c:249-269 | a chmod of a targeted inode to its templated bits keeps "each path's record rewritten at most once, by the template", and adds one to the changed set of its kind |
| FileSystem.WidenTraced | rper_0.2.c:324-325 | the calls a recursive walk of a subdirectory makes are calls the walk of its parent may make |
| FileSystem.ReachedNext | rper_0.2.c:311-321 | after one more pass of the readdir loop, one more entry has been handed to change_permissions |
| Getopt.LastTemplateValid | rper_0.2.c:407-412 | the template of the last `-p` is a valid template |
| Options01.StepSwitches | rper_0.1.c:321-334 | what one of -s, -S, -v does to the three output switches |
| Options01.FoldSwitches | rper_0.1.c:321-334 | after the loop, suppress_output is on exactly when the last of -s/-v is -s; suppress_all_output exactly when an -S follows the last of them; never both; verbose exactly when -v occurs |
| Options01.FoldTargets | rper_0.1.c:309-320 | each target flag is set exactly when its option occurs; -n clears recursion |
| Options01.FoldOnlyRunOptions | rper_0.1.c:298-346 | the loop runs to the end only when every option is a run option and every -p argument is valid |
| Options01.FoldStopped | rper_0.1.c:300-344 | once an option makes main return, later options change nothing |
| Options01.Setup | rper_0.1.c:298-366 | a run goes ahead only with a valid template and at least one target |
| Options01.SetupMeaning | rper_0.1.c:349-366 | a run needs a directory and -p; files are targeted when -f is given or -d is not |
| Options01.NoRunWithBadOption | rper_0.1.c:300-344 | help, about, an unknown option or an invalid -p anywhere means no run |
| Options01.FoldRunsThrough | rper_0.1.c:298-346 | conversely, the loop runs to the end when every option is a run option and every -p argument is valid |
| Options01.SetupRuns | rper_0.1.c:349-369 | with such options a run goes ahead exactly when a directory and -p are given; otherwise main fails with the missing-directory error, or else the missing-permissions error |
| Options01.FirstRefusal | rper_0.1.c:300-344 | at the first option that is not a run option or is an invalid -p, main returns: EXIT_SUCCESS with no error for -a, -h and -H; EXIT_FAILURE with the invalid-value error (the argument without its leading '0') or the unknown-option error otherwise |
| Options01.VerboseThenQuiet | rper_0.1.c:321-334 | `-v -s` leaves verbose and suppress_output both on |
| Options02.StepModes | rper_0.2.c:392-412 | what one option does to the output mode, the symlink mode and the template |
| Options02.FoldLastWins | rper_0.2.c:392-406 | the last of -s/-S/-v sets the output mode, the last of -L/-k the symlink mode, the last -p the template |
| Options02.FoldTargets | rper_0.2.c:380-391 | each target flag is set exactly when its option occurs; -n clears recursion |
| Options02.FoldOnlyRunOptions | rper_0.2.c:369-418 | the loop runs to the end only when every option is a run option and every -p argument is valid |
| Options02.FoldStopped | rper_0.2.c:371-416 | once an option makes main return, later options change nothing |
| Options02.Setup | rper_0.2.c:369-438 | a run goes ahead only with a valid template and at least one target |
| Options02.SetupMeaning | rper_0.2.c:420-438 | a run needs a directory and -p; files are targeted when -f is given or -d is not; the output and symlink modes are the last given |
| Options02.NoRunWithBadOption | rper_0.2.c:371-416 | help, about, an unknown option or an invalid -p anywhere means no run |
| Options02.FoldRunsThrough | rper_0.2.c:369-418 | conversely, the loop runs to the end when every option is a run option and every -p argument is valid |
| Options02.SetupRuns | rper_0.2.c:420-441 | with such options a run goes ahead exactly when a directory and -p are given; otherwise main fails with the missing-directory error, or else the missing-permissions error |
| Options02.FirstRefusal | rper_0.2.c:371-416 | at the first option that is not a run option or is an invalid -p, main returns: EXIT_SUCCESS with no error for -a, -h and -H; EXIT_FAILURE with the invalid-value error (the argument without its leading '0') or the unknown-option error otherwise |
| Rper01.VisitStatFailed | rper_0.1.c:151-156 | when lstat fails nothing changes, and the error is written only when output is not suppressed |
| Rper01.ChangeModeNoOp | rper_0.1.c:162-175 | when the template keeps the bits, no chmod and no counter moves; at most a no-op notice is written |
| Rper01.ChangeModeCounters | rper_0.1.c:158-212 | dirs_changed rises exactly for a targeted directory whose bits change and whose chmod succeeds, files_changed likewise for regular files; links and other kinds are never touched |
| Rper01.DecideCounters | rper_0.1.c:162-212 | the same counter rule for any bits before and after |
| Rper01.DirChmodMisnested | rper_0.1.c:177-193 | a failed directory chmod writes nothing and counts nothing; a successful one under -v with output suppressed writes the chmod error |
| Rper01.MisnestedExample | rper_0.1.c:177-193 | `rper -d -v -s -p 755` on a directory of mode 700 counts one change and writes only the directory chmod error |
| Rper01.IntendedDirChmodReported | rper_0.1.c:195-211 | with the else on the chmod test, as in the file branch: a failed directory chmod is reported unless suppressed or when verbose, and a success never is |
| Rper01.FileChmodFailureReported | rper_0.1.c:195-211 | a failed file chmod is reported unless suppressed or when verbose, and a success never is |
| Rper01.VisitKeeps | rper_0.1.c:148-213 | one call of change_permissions keeps the walk invariant (each path's record changed at most once, by the template, only if targeted; counters count the changed records; with output suppressed only chmod failures are written, and only under -v) |
| Rper01.WalkKeeps | rper_0.1.c:220-258 | the same for a whole process_directory, whatever the listing |
| Rper01.RunKeeps | rper_0.1.c:369 | from the start of a run, the counters equal the number of changed directories and files |
| Rper01.WalkTrace | rper_0.1.c:220-258 | every call of change_permissions is one the walk may make: never on "." or "..", on the directory argument only under -d -i and with files off, below the top only when recursive and through DT_DIR entries |
| Rper01.ChildrenComplete | rper_0.1.c:239-255 | the readdir loop calls change_permissions on every entry but "." and "..", with the run's target flags |
| Rper01.WalkRecurses | rper_0.1.c:239-255 | the walk recurses: every entry reachable through DT_DIR entries while recursing, at any depth, gets a call of change_permissions with the run's target flags |
| Rper01.TreeExample | rper_0.1.c:239-255 | on the tree root/{a.txt, sub/{b.txt}} under -f, sub/b.txt gets a call exactly when the walk recurses |
| Rper01.WalkUnreadable | rper_0.1.c:221-236 | when opendir fails no entry is visited, and the error is written only when output is not suppressed |
| Rper01.Rper.constructor | rper_0.1.c:71-76 | the counters start at 0 and the output switches off |
| Rper01.Rper.ChangePermissions | rper_0.1.c:148-213 | the globals end as Visit computes, and the `mode` argument plays no part |
| Rper01.Rper.Settle | rper_0.1.c:162-212 | the globals end as Decide computes |
| Rper01.Rper.ProcessDirectory | rper_0.1.c:220-258 | the globals end as Walk computes |
| Rper01.Rper.ProcessEntry | rper_0.1.c:241-254 | one pass of the readdir loop ends as Child computes |
| Rper01.Rper.TakeOption | rper_0.1.c:299-345 | one pass of the switch is Step, and the globals hold the switches and template Step computes |
| Rper01.Rper.SetSwitch | rper_0.1.c:321-334 | the output switches end as Switch computes |
| Rper01.Rper.TakePermissions | rper_0.1.c:335-340 | the -p case is Step on that option, and the buffer then holds its template |
| Rper01.Rper.GetOptions | rper_0.1.c:298-346 | the option loop returns Fold of the options, with the globals in step |
| Rper01.Rper.Run | rper_0.1.c:289-369 | when Setup exits, main returns its code having changed nothing and written only the configuration error Setup names, whatever the output switches; otherwise it returns EXIT_SUCCESS after a Walk with the settings Setup computes |
| Rper02.VisitSkipsLink | rper_0.2.c:199-206 | under the skip policy a link only adds one to symlinks_skipped: no chmod, no other counter |
| Rper02.VisitRejectsLink | rper_0.2.c:221-226 | under the error policy a link only adds one to symlink_errors, and is reported unless silent |
| Rper02.VisitUnresolvedLink | rper_0.2.c:208-214 | following a link stat cannot resolve changes no counter and nothing on disk |
| Rper02.VisitFollowsLink | rper_0.2.c:208-219 | following a link that resolves adds one to symlinks_followed and goes on with the target's inode |
| Rper02.ChangeModeNoOp | rper_0.2.c:234-247 | when the template keeps the bits, no chmod and no counter moves |
| Rper02.ChangeModeCounters | rper_0.2.c:230-284 | dirs_changed rises exactly for a targeted directory whose bits change and whose chmod succeeds, files_changed likewise; symlink counters unchanged |
| Rper02.DecideCounters | rper_0.2.c:234-284 | the same counter rule for any bits before and after |
| Rper02.TryChmodEffect | rper_0.2.c:249-284 | a chmod attempt changes the table only on success and moves only the counter of its kind |
| Rper02.DirChmodFailureReported | rper_0.2.c:249-265 | a failed directory chmod is reported unless silent and counts nothing; a success is counted and never reported as a failure |
| Rper02.UnchangedHeard | rper_0.2.c:234-247 | the no-op notice is never written under quiet or silent output |
| Rper02.VisitHeard | rper_0.2.c:188-285 | change_permissions writes nothing when silent and only error messages when quiet |
| Rper02.VisitTracks | rper_0.2.c:188-285 | one call keeps "each path's record changed at most once, by the template, only if targeted", with counters equal to the changed records |
| Rper02.VisitLinkCounts | rper_0.2.c:199-227 | one call moves at most the symlink counter of the policy in force, and only upwards |
| Rper02.WalkKeeps | rper_0.2.c:292-330 | a whole process_directory keeps all three invariants |
| Rper02.RunKeeps | rper_0.2.c:441 | from the start of a run, the counters equal the changed records and only the policy's symlink counter moves |
| Rper02.WalkTrace | rper_0.2.c:292-330 | every call of change_permissions is one the walk may make: never on "." or "..", on the directory argument only under -d -i and with files off, below the top only when recursive and through DT_DIR entries |
| Rper02.ChildrenComplete | rper_0.2.c:311-327 | the readdir loop calls change_permissions on every entry but "." and "..", with the run's target flags |
| Rper02.WalkRecurses | rper_0.2.c:311-327 | the walk recurses: every entry reachable through DT_DIR entries while recursing, at any depth, gets a call of change_permissions with the run's target flags |
| Rper02.WalkUnreadable | rper_0.2.c:293-308 | when opendir fails no entry is visited; the error is written unless silent |
| Rper02.Rper.constructor | rper_0.2.c:81-109 | the counters start at 0, output normal, symlinks skipped |
| Rper02.Rper.ChangePermissions | rper_0.2.c:188-285 | the globals end as Visit computes |
| Rper02.Rper.ChangeLink | rper_0.2.c:199-228 | the symlink switch ends as OnLink computes |
| Rper02.Rper.FollowLink | rper_0.2.c:208-219 | the follow case ends as OnLink computes under the follow policy |
| Rper02.Rper.ChangeInode | rper_0.2.c:230-284 | the globals end as ChangeMode computes |
| Rper02.Rper.Settle | rper_0.2.c:234-284 | the globals end as Decide computes |
| Rper02.Rper.ProcessDirectory | rper_0.2.c:292-330 | the globals end as Walk computes |
| Rper02.Rper.ProcessEntry | rper_0.2.c:313-326 | one pass of the readdir loop ends as Child computes |
| Rper02.Rper.TakeOption | rper_0.2.c:370-417 | one pass of the switch is Step, with the output and symlink modes and the template in step |
| Rper02.Rper.TakePermissions | rper_0.2.c:407-412 | the -p case is Step on that option, and the buffer then holds its template |
| Rper02.Rper.GetOptions | rper_0.2.c:369-418 | the option loop returns Fold of the options, with the globals in step |
| Rper02.Rper.Run | rper_0.2.c:361-441 | when Setup exits, main returns its code having changed nothing and written only the configuration error Setup names, whatever the output mode; otherwise it returns EXIT_SUCCESS after a Walk with the settings Setup computes |

## Left out

- System calls: lstat, stat, chmod, opendir, readdir and closedir are modelled by an inode table and fixed listings. Whether a chmod succeeds is an attribute of the inode. closedir and the directory handle have no counterpart.
- Hard links: the table is keyed by path, so two names of one file are two independent records. In C, the second name's lstat sees the mode the first call already wrote. The template is idempotent (AppliedIdempotent), so the second call is a no-op, and one chmod counts once. The model rewrites and counts both records, so files_changed is 2 where C gives 1. "Changed at most once" in VisitKeeps, VisitTracks, WalkKeeps, RunKeeps and ChmodStep holds per path, not per inode.
- readdir order: entries come as a given sequence. No property depends on the order, except that output events are recorded in visiting order.
- `DT_UNKNOWN`: `d_type` is taken as the exact kind of an entry. The listing of a directory entry is fixed before the run, and chmod does not change it.
- stat follows one link: a link whose target is itself a link counts as a stat failure. Longer chains and dangling targets are not distinguished.
- Path building with `snprintf` into a 1024-byte buffer (rper_0.2.c:318, rper_0.1.c:246): paths are sequences of names, so truncation cannot happen in the model.
- Path search permission: lstat, stat and chmod succeed or fail by the table alone. A directory's own mode does not decide whether the entries below it can be reached. In C the walk chmods a subdirectory before it descends into it (rper_0.1.c:249-253, rper_0.2.c:321-325). So `rper -d -p 644 dir`, run by the owner and not as root, takes search permission away from each subdirectory, and lstat then fails on every entry below it. The model instead visits and changes those entries, and RunKeeps counts them.
- Display text: the output is recorded as one tagged event per line. The configuration errors of `main` are one `ConfigError` event each. It is recorded when `main` returns. The usage text or hint printed after it is display text. The events are not the printed strings, and `strerror(errno)` is not modelled.
- Display helpers: `print_permissions`, `print_usage`, `print_about` (rper_0.2.c:117-143, rper_0.1.c:84-103) and the final summary (rper_0.2.c:444-456, rper_0.1.c:373-377) are not part of this model.
- getopt: argv scanning, `optind` and the argument count are modelled by a sequence of (option, argument) pairs and a flag saying whether a directory argument follows. getopt's own message for a missing -p argument is not modelled.
- The directory argument is the root path `[]`. Its name, and the file named `argv[optind]`, are not modelled.
- Integer counters are unbounded: `int` overflow after 2^31 changes is not modelled.
- `wildcard_mode`'s fourth byte, the terminating NUL, is only kept unchanged. C string termination of `optarg` is not modelled, since a `string` has no embedded NUL.

## Findings

| source | as written | input that shows it | evidently intended | confidence | as-written member | corrected member |
|---|---|---|---|---|---|---|
| rper_0.1.c:177-193 | in the directory branch the `else` that reports a failed chmod belongs to the output test inside the success branch. A failed chmod of a directory is therefore never reported, and a successful one under suppressed output with verbose on writes "Cannot change directory permissions" | `rper -d -v -s -p 755 dir` with an entry of mode 700 whose chmod succeeds: one directory is counted and the only line is the chmod error. With the chmod failing and no output flag, nothing is written | the `else` on the chmod test, as in the file branch (rper_0.1.c:196-211) and as rper 0.2 writes it (rper_0.2.c:250-265) | high (not executed) | Rper01.MisnestedExample | Rper01.IntendedDirChmodReported |

The model of 0.1 (`Rper01.TryDirChmod`, used by `Rper01.Decide` and by the
class methods) keeps the branch as written, because it models the program
as it is. `Rper01.DirChmodMisnested` states the as-written behaviour for
every input. `Rper01.TryDirChmodIntended` is the corrected branch, and
`Rper01.IntendedDirChmodReported` proves that it reports failures as the
file branch does. Version 0.2 has the corrected shape (`Rper02.TryChmod`),
and its model uses it throughout.
