/**
 * The source workspace (patcher.py, `_reset_source` and `setup_source`).
 *
 * The workspace's files are a listing of paths relative to the project directory, in
 * the order `glob` yields them. Git commands are abstract steps: only their order is
 * modelled, not what they do to the tree.
 */
module Workspace {
  import opened Text
  import opened Paths

  /** A path that `.git/**/*.lock` matches: a `*.lock` name at any depth under `.git`. */
  predicate IsStaleLock(p: RelPath) {
    |p| >= 2 && p[0] == ".git" && EndsWith(p[|p| - 1], ".lock")
  }

  datatype GitCommand =
    | ResetHardHead    // git reset --hard HEAD
    | CleanForceDirs   // git clean -fd

  datatype ResetStep = Unlink(path: RelPath) | RunGit(command: GitCommand)

  /** The stale lock files of a listing, in listing order. */
  function StaleLocks(tree: seq<RelPath>): seq<RelPath> {
    if tree == [] then []
    else StaleLocks(tree[..|tree| - 1]) + (if IsStaleLock(tree[|tree| - 1]) then [tree[|tree| - 1]] else [])
  }

  function Unlinks(paths: seq<RelPath>): (steps: seq<ResetStep>)
    ensures |steps| == |paths|
    ensures forall i :: 0 <= i < |paths| ==> steps[i] == Unlink(paths[i])
  {
    seq(|paths|, i requires 0 <= i < |paths| => Unlink(paths[i]))
  }

  /** What `_reset_source` does to a workspace whose files, in glob order, are `tree`. */
  function ResetPlan(tree: seq<RelPath>): seq<ResetStep> {
    Unlinks(StaleLocks(tree)) + [RunGit(ResetHardHead), RunGit(CleanForceDirs)]
  }

  lemma {:induction false} StaleLocksMembers(tree: seq<RelPath>)
    ensures forall p :: p in StaleLocks(tree) <==> p in tree && IsStaleLock(p)
  {
    if tree != [] {
      StaleLocksMembers(tree[..|tree| - 1]);
      assert tree == tree[..|tree| - 1] + [tree[|tree| - 1]];
    }
  }

  /** The reset deletes every stale lock file of the tree, and no other file. */
  lemma ResetUnlinksExactlyStaleLocks(tree: seq<RelPath>, p: RelPath)
    ensures Unlink(p) in ResetPlan(tree) <==> p in tree && IsStaleLock(p)
  {
    StaleLocksMembers(tree);
    var locks := StaleLocks(tree);
    if Unlink(p) in ResetPlan(tree) {
      var i :| 0 <= i < |ResetPlan(tree)| && ResetPlan(tree)[i] == Unlink(p);
      assert i < |locks| && locks[i] == p;
    }
    if p in tree && IsStaleLock(p) {
      var i :| 0 <= i < |locks| && locks[i] == p;
      assert ResetPlan(tree)[i] == Unlink(p);
    }
  }

  /** Every deletion comes first; then `git reset --hard HEAD`; then `git clean -fd`, last. */
  lemma ResetPlanOrder(tree: seq<RelPath>)
    ensures var plan := ResetPlan(tree);
            && |plan| >= 2
            && plan[|plan| - 2] == RunGit(ResetHardHead)
            && plan[|plan| - 1] == RunGit(CleanForceDirs)
            && forall i :: 0 <= i < |plan| - 2 ==> plan[i].Unlink?
  {
  }

  /**
   * `_reset_source`: delete each stale lock file in glob order, then run the two git
   * commands. `remaining` is the listing without the deleted files.
   */
  method ResetSource(tree: seq<RelPath>) returns (remaining: seq<RelPath>, steps: seq<ResetStep>)
    ensures steps == ResetPlan(tree)
    ensures forall p :: p in remaining <==> p in tree && !IsStaleLock(p)
  {
    remaining, steps := [], [];
    var i := 0;
    while i < |tree|
      invariant 0 <= i <= |tree|
      invariant steps == Unlinks(StaleLocks(tree[..i]))
      invariant forall p :: p in remaining <==> p in tree[..i] && !IsStaleLock(p)
    {
      assert tree[..i + 1] == tree[..i] + [tree[i]];
      if IsStaleLock(tree[i]) {
        steps := steps + [Unlink(tree[i])];
      } else {
        remaining := remaining + [tree[i]];
      }
      i := i + 1;
    }
    assert tree[..i] == tree;
    steps := steps + [RunGit(ResetHardHead), RunGit(CleanForceDirs)];
  }

  /** An entry of the download directory /work/src. */
  datatype EntryKind = RegularFile | Directory(hasGit: bool)
  datatype Entry = Entry(name: string, kind: EntryKind)

  predicate IsGitDir(e: Entry) {
    e.kind == Directory(true)
  }

  /** The directory `setup_source` settles on, if any, given what was downloaded. */
  predicate ProjectFound(entries: seq<Entry>) {
    if exists e :: e in entries && e.name == "repo" then Entry("repo", Directory(true)) in entries
    else exists e :: e in entries && IsGitDir(e)
  }

  /**
   * `setup_source`: after a successful download, `repo` is the project when it exists
   * at all (so a `repo` without `.git` fails rather than falling back); otherwise the
   * first directory, in listing order, that holds `.git`.
   */
  method SetupSource(downloaded: bool, entries: seq<Entry>) returns (project: Option<string>)
    ensures project.Some? <==> downloaded && ProjectFound(entries)
    ensures (exists e :: e in entries && e.name == "repo") && project.Some? ==> project == Some("repo")
    ensures (forall e :: e in entries ==> e.name != "repo") && project.Some? ==>
              exists k :: 0 <= k < |entries| && entries[k].name == project.value && IsGitDir(entries[k])
                          && forall j :: 0 <= j < k ==> !IsGitDir(entries[j])
  {
    if !downloaded {
      return None;
    }
    var repoExists := exists e :: e in entries && e.name == "repo";
    if repoExists {
      project := if Entry("repo", Directory(true)) in entries then Some("repo") else None;
      return;
    }
    project := None;
    var i := 0;
    while i < |entries|
      invariant 0 <= i <= |entries|
      invariant forall j :: 0 <= j < i ==> !IsGitDir(entries[j])
    {
      if IsGitDir(entries[i]) {
        project := Some(entries[i].name);
        return;
      }
      i := i + 1;
    }
  }
}
