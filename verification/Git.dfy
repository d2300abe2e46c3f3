/** The repository operations ingestion uses, on (commit chain, staged tree, work tree). */
module Git {
  import opened Prelude

  /** A file of a vault's repository. Notes lie below the vault directory, the archive does not. */
  datatype File = NoteFile(path: string)
    | ArchiveText(sha: string) | ArchiveManifest(sha: string) | OtherFile(name: string)

  datatype Blob = Text(text: string) | Manifest(job: string, touched: seq<string>, commit: Option<nat>)

  type Tree = map<File, Blob>

  /** The job and source an ingest commit names in its message. */
  datatype Origin = Origin(job: string, sha: string)

  /** `id` stands for the commit's hash: no two commit objects share one. */
  datatype Commit = Commit(id: nat, tree: Tree, origin: Option<Origin>)

  datatype Repo = Repo(chain: seq<Commit>, staged: Tree, work: Tree, minted: nat)

  /** A registered repository has a first commit, and ids are minted in order. */
  predicate ValidRepo(r: Repo) {
    && |r.chain| > 0 && IdsAscend(r.chain)
    && Last(r.chain).id < r.minted
  }

  predicate IdsAscend(chain: seq<Commit>) {
    forall i, j :: 0 <= i < j < |chain| ==> chain[i].id < chain[j].id
  }

  function HeadTree(r: Repo): Tree
    requires ValidRepo(r)
  {
    Last(r.chain).tree
  }

  /** `status --porcelain` prints nothing. */
  predicate IsClean(r: Repo)
    requires ValidRepo(r)
  {
    r.staged == HeadTree(r) && r.work == r.staged
  }

  /** `add -A` */
  function AddAll(r: Repo): Repo { r.(staged := r.work) }

  /** `commit`: nothing staged is an error. */
  function Committed(r: Repo, origin: Option<Origin>): Result<Repo, Exn>
    requires ValidRepo(r)
  {
    if r.staged == HeadTree(r) then Err(Exn(Terminal, "nothing to commit"))
    else Ok(r.(chain := r.chain + [Commit(r.minted, r.staged, origin)], minted := r.minted + 1))
  }

  /** `commit --amend --no-edit`: a new commit object in place of HEAD; it may not become empty. */
  function Amended(r: Repo): Result<Repo, Exn>
    requires ValidRepo(r)
  {
    if |r.chain| > 1 && r.staged == r.chain[|r.chain| - 2].tree then Err(Exn(Terminal, "amend would be empty"))
    else Ok(r.(chain := Init(r.chain) + [Commit(r.minted, r.staged, Last(r.chain).origin)], minted := r.minted + 1))
  }

  /** `reset --hard HEAD`: tracked files only. */
  function ResetHard(r: Repo): Repo
    requires ValidRepo(r)
  {
    r.(staged := HeadTree(r), work := (r.work - r.staged.Keys) + HeadTree(r))
  }

  /** `clean -fd`: untracked files. */
  function CleanUntracked(r: Repo): Repo {
    r.(work := map f | f in r.work && f in r.staged :: r.work[f])
  }

  /** A successful `pull --ff-only` of commits with these trees. */
  function FastForwarded(r: Repo, trees: seq<Tree>): (s: Repo)
    requires ValidRepo(r)
    ensures ValidRepo(s) && r.chain <= s.chain
    ensures forall i :: |r.chain| <= i < |s.chain| ==> s.chain[i].origin.None?
  {
    if trees == [] then r
    else
      var s := FastForwarded(r, Init(trees));
      Repo(s.chain + [Commit(s.minted, Last(trees), None)], Last(trees), Last(trees), s.minted + 1)
  }

  lemma {:induction false} FastForwardStaysClean(r: Repo, trees: seq<Tree>)
    requires ValidRepo(r) && IsClean(r)
    ensures IsClean(FastForwarded(r, trees))
  {
  }

  /** Rollback discards every change since HEAD and nothing of the history, whatever state
    * the index and the work tree are in. */
  lemma RollbackCleans(r: Repo)
    requires ValidRepo(r)
    ensures var s := CleanUntracked(ResetHard(r));
      ValidRepo(s) && IsClean(s) && s.chain == r.chain && s.minted == r.minted
  {
  }

  /** The same history under an unknown index and work tree. */
  predicate SameHistory(a: Repo, b: Repo) { a.chain == b.chain && a.minted == b.minted }

  /** One git working tree. A command that raises leaves the history alone. */
  class GitRepo {
    var repo: Repo
    /** What its commands raised, what pulls fetched, and the histories that pushes offered. */
    ghost var failures: seq<Exn>
    ghost var fetched: seq<seq<Tree>>
    ghost var pushed: seq<seq<Commit>>

    constructor (repo: Repo)
      requires ValidRepo(repo)
      ensures this.repo == repo && failures == [] && fetched == [] && pushed == []
    {
      this.repo, failures, fetched, pushed := repo, [], [], [];
    }

    /** A command that dies half way may leave any index and work tree. */
    method Disturb()
      modifies `repo
      ensures SameHistory(old(repo), repo)
    {
      var staged: Tree := *;
      var work: Tree := *;
      repo := repo.(staged := staged, work := work);
    }

    /** Writes one file of the work tree; a write that dies may leave anything there. */
    method WriteFile(f: File, blob: Blob) returns (r: Result<(), Exn>)
      modifies `repo, `failures
      ensures failures == old(failures) + Raising(r)
      ensures r.Ok? ==> repo == old(repo).(work := old(repo).work[f := blob])
      ensures r.Err? ==> SameHistory(old(repo), repo)
    {
      if * {
        Disturb();
        var exn: Exn := *;
        failures := failures + [exn];
        return Err(exn);
      }
      repo := repo.(work := repo.work[f := blob]);
      r := Ok(());
    }

    method Clean() returns (r: Result<bool, Exn>)
      requires ValidRepo(repo)
      modifies `failures
      ensures failures == old(failures) + Raising(r)
      ensures r.Ok? ==> r.value == IsClean(repo)
      ensures r.Err? ==> r.error.kind == Terminal
    {
      if * {
        failures := failures + [Exn(Terminal, "git status failed")];
        return Err(Exn(Terminal, "git status failed"));
      }
      r := Ok(IsClean(repo));
    }

    method HeadSha() returns (r: Result<nat, Exn>)
      requires ValidRepo(repo)
      modifies `failures
      ensures failures == old(failures) + Raising(r)
      ensures r.Ok? ==> r.value == Last(repo.chain).id
      ensures r.Err? ==> r.error.kind == Terminal
    {
      if * {
        failures := failures + [Exn(Terminal, "git rev-parse failed")];
        return Err(Exn(Terminal, "git rev-parse failed"));
      }
      r := Ok(Last(repo.chain).id);
    }

    method Add() returns (r: Result<(), Exn>)
      modifies `repo, `failures
      ensures failures == old(failures) + Raising(r)
      ensures r.Ok? ==> repo == AddAll(old(repo))
      ensures r.Err? ==> SameHistory(old(repo), repo) && r.error.kind == Terminal
    {
      if * {
        Disturb();
        failures := failures + [Exn(Terminal, "git add failed")];
        return Err(Exn(Terminal, "git add failed"));
      }
      repo := AddAll(repo);
      r := Ok(());
    }

    /** `git commit` alone; reading back the new sha is `HeadSha`. */
    method Commit(origin: Option<Origin>) returns (r: Result<(), Exn>)
      requires ValidRepo(repo)
      modifies `repo, `failures
      ensures failures == old(failures) + Raising(r)
      ensures r.Ok? ==> Committed(old(repo), origin) == Ok(repo)
      ensures r.Err? ==> SameHistory(old(repo), repo) && r.error.kind == Terminal
      ensures Committed(old(repo), origin).Err? ==> r.Err?
    {
      var next := Committed(repo, origin);
      var works: bool := *;
      if next.Ok? && works {
        repo := next.value;
        return Ok(());
      }
      Disturb();
      failures := failures + [Exn(Terminal, "git commit failed")];
      r := Err(Exn(Terminal, "git commit failed"));
    }

    method Amend() returns (r: Result<(), Exn>)
      requires ValidRepo(repo)
      modifies `repo, `failures
      ensures failures == old(failures) + Raising(r)
      ensures r.Ok? ==> Amended(old(repo)) == Ok(repo)
      ensures r.Err? ==> SameHistory(old(repo), repo) && r.error.kind == Terminal
      ensures Amended(old(repo)).Err? ==> r.Err?
    {
      var next := Amended(repo);
      var works: bool := *;
      if next.Ok? && works {
        repo := next.value;
        return Ok(());
      }
      Disturb();
      failures := failures + [Exn(Terminal, "git commit --amend failed")];
      r := Err(Exn(Terminal, "git commit --amend failed"));
    }

    method Reset() returns (r: Result<(), Exn>)
      requires ValidRepo(repo)
      modifies `repo, `failures
      ensures failures == old(failures) + Raising(r)
      ensures r.Ok? ==> repo == ResetHard(old(repo))
      ensures r.Err? ==> SameHistory(old(repo), repo) && r.error.kind == Terminal
    {
      if * {
        Disturb();
        failures := failures + [Exn(Terminal, "git reset failed")];
        return Err(Exn(Terminal, "git reset failed"));
      }
      repo := ResetHard(repo);
      r := Ok(());
    }

    method CleanFd() returns (r: Result<(), Exn>)
      modifies `repo, `failures
      ensures failures == old(failures) + Raising(r)
      ensures r.Ok? ==> repo == CleanUntracked(old(repo))
      ensures r.Err? ==> SameHistory(old(repo), repo) && r.error.kind == Terminal
    {
      if * {
        Disturb();
        failures := failures + [Exn(Terminal, "git clean failed")];
        return Err(Exn(Terminal, "git clean failed"));
      }
      repo := CleanUntracked(repo);
      r := Ok(());
    }

    /** Divergence is a conflict, a network failure is transient; neither moves anything. */
    method PullFfOnly() returns (r: Result<(), Exn>, ghost trees: seq<Tree>)
      requires ValidRepo(repo)
      modifies `repo, `failures, `fetched
      ensures failures == old(failures) + Raising(r)
      ensures fetched == if r.Ok? then old(fetched) + [trees] else old(fetched)
      ensures r.Ok? ==> repo == FastForwarded(old(repo), trees)
      ensures r.Err? ==> repo == old(repo) && r.error.kind in {Terminal, Transient, GitConflict}
    {
      trees := [];
      if {
        case true => r := Err(Exn(Terminal, "git pull could not start"));
        case true => r := Err(Exn(Transient, "network failure"));
        case true => r := Err(Exn(GitConflict, "could not fast-forward"));
        case true =>
          var incoming: seq<Tree> := *;
          repo := FastForwarded(repo, incoming);
          trees, fetched := incoming, fetched + [incoming];
          r := Ok(());
      }
      failures := failures + Raising(r);
    }

    /** The local history is never affected by a push. */
    method Push() returns (r: Result<(), Exn>)
      modifies `failures, `pushed
      ensures failures == old(failures) + Raising(r) && pushed == old(pushed) + [repo.chain]
      ensures r.Err? ==> r.error.kind in {Terminal, GitPush}
    {
      if {
        case true => r := Ok(());
        case true => r := Err(Exn(GitPush, "push failed"));
        case true => r := Err(Exn(Terminal, "git push could not start"));
      }
      failures, pushed := failures + Raising(r), pushed + [repo.chain];
    }

    /** `rollback()`: reset, then clean. */
    method Rollback() returns (r: Result<(), Exn>)
      requires ValidRepo(repo)
      modifies `repo, `failures
      ensures failures == old(failures) + Raising(r)
      ensures SameHistory(old(repo), repo)
      ensures r.Ok? ==> IsClean(repo)
      ensures r.Ok? ==> repo == CleanUntracked(ResetHard(old(repo)))
      ensures r.Err? ==> r.error.kind == Terminal
    {
      RollbackCleans(repo);
      var reset :- Reset();
      var cleaned :- CleanFd();
      r := Ok(());
    }
  }
}
