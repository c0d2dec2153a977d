/**
 * The abstract state of one host as fabfile.py sees it through its
 * commands: which files and directories exist, which directories hold a
 * repository and how each repository's remotes are configured, plus the
 * ordered log of every command the script ran there.
 *
 * Every `git` invocation and every transfer is an `Action`. Whether it
 * succeeds is decided by an oracle bit, except that an action also fails
 * in the situations `Succeeds` lists: a git command run in a directory that
 * is not itself a repository, on a remote that does not exist, adding a
 * remote that already exists, or `mkdir` under a missing parent. git also
 * finds a repository from any directory below its work tree; the model does
 * not, so it matches git only where `NoEnclosingRepository` holds.
 */
module World {
  import opened Naming

  datatype Option<T> = None | Some(value: T)

  /** One repository: its remotes (name to URL), the bundles unbundled into it
      in order, the branch it was cloned at, and its submodule configuration. */
  datatype Repo = Repo(
    remotes: map<string, string>,
    applied: seq<string>,
    clonedAt: Option<string>,
    initialized: set<string>,
    moduleUrls: map<string, string>)

  /** The submodule-recursion setting a fetch runs with. */
  datatype Recurse = GitDefault | NoRecurse

  datatype Action =
    | Clone(bundle: string, branch: string, origin: string)       // git clone -b <branch> <bundle> -o <origin> <dir>
    | RemoteAdd(name: string, url: string)                        // git remote add
    | RemoteSetUrl(name: string, url: string)                     // git remote set-url
    | Fetch(remote: string, prune: bool, recurse: Recurse)        // git -c fetch.prune=... fetch
    | Unbundle(bundle: string)                                    // git bundle unbundle
    | SubmoduleInit(submodule: string)                             // git submodule init
    | SubmoduleConfig(submodule: string, url: string)              // git config submodule.<m>.url
    | SubmoduleUpdate(submodule: string)                           // git submodule update
    | RemoteRename(from: string, to: string)                      // git remote rename
    | BundleCreate(path: string)                                  // git bundle create <path> --all
    | MakeDir(path: string)                                       // dir_ensure
    | Upload(path: string)                                        // file_upload

  /** A command run in directory `dir`, and whether it succeeded. */
  datatype Event = Event(dir: string, action: Action, ok: bool)

  datatype HostState = HostState(
    files: set<string>,
    dirs: set<string>,
    repos: map<string, Repo>,
    log: seq<Event>)

  function FreshRepo(remotes: map<string, string>, clonedAt: Option<string>): Repo {
    Repo(remotes, [], clonedAt, {}, map[])
  }

  /** Whether `a`, run in `dir`, succeeds: the oracle bit `ok` and what git demands. */
  predicate Succeeds(s: HostState, dir: string, a: Action, ok: bool)
    ensures Succeeds(s, dir, a, ok) ==> ok
    ensures Succeeds(s, dir, a, ok) && !(a.Clone? || a.MakeDir? || a.Upload?) ==> dir in s.repos
    ensures Succeeds(s, dir, a, ok) && a.Clone? ==> dir !in s.repos
  {
    ok &&
    match a
    case Clone(b, _, _) => b in s.files && dir !in s.repos
    case RemoteAdd(n, _) => dir in s.repos && n !in s.repos[dir].remotes
    case RemoteSetUrl(n, _) => dir in s.repos && n in s.repos[dir].remotes
    case Fetch(r, _, _) => dir in s.repos && r in s.repos[dir].remotes
    case Unbundle(b) => dir in s.repos && b in s.files
    case SubmoduleInit(_) => dir in s.repos
    case SubmoduleConfig(_, _) => dir in s.repos
    case SubmoduleUpdate(m) =>
      && dir in s.repos && m in s.repos[dir].initialized && m in s.repos[dir].moduleUrls
      && Join(dir, m) !in s.repos
    case RemoteRename(f, t) => dir in s.repos && f in s.repos[dir].remotes && t !in s.repos[dir].remotes
    case BundleCreate(_) => dir in s.repos
    case MakeDir(p) => CanMakeDir(s, p)
    case Upload(_) => true
  }

  /** `dir_ensure(p)` with its default `recursive=False`: nothing to do when
      `p` exists, otherwise a plain `mkdir`, which needs the parent. */
  predicate CanMakeDir(s: HostState, p: string) {
    p in s.dirs || Dirname(p) == [] || Dirname(p) in s.dirs
  }

  /** No repository of `s` lies strictly above `dir`. Where this holds, a git
      command run in `dir` acts on `dir` alone, as the model assumes. */
  predicate NoEnclosingRepository(s: HostState, dir: string) {
    forall r | r in s.repos :: !StartsWith(dir, r + "/")
  }

  function WithRepo(s: HostState, dir: string, r: Repo): HostState {
    s.(repos := s.repos[dir := r])
  }

  /** What a successful action changes (the log aside). */
  function Effect(s: HostState, dir: string, a: Action): (s': HostState)
    requires Succeeds(s, dir, a, true)
    ensures s'.log == s.log
  {
    match a
    case Clone(b, br, o) =>
      s.(dirs := s.dirs + {dir}, repos := s.repos[dir := FreshRepo(map[o := b], Some(br))])
    case RemoteAdd(n, u) =>
      WithRepo(s, dir, s.repos[dir].(remotes := s.repos[dir].remotes[n := u]))
    case RemoteSetUrl(n, u) =>
      WithRepo(s, dir, s.repos[dir].(remotes := s.repos[dir].remotes[n := u]))
    case Fetch(_, _, _) => s
    case Unbundle(b) =>
      WithRepo(s, dir, s.repos[dir].(applied := s.repos[dir].applied + [b]))
    case SubmoduleInit(m) =>
      WithRepo(s, dir, s.repos[dir].(initialized := s.repos[dir].initialized + {m}))
    case SubmoduleConfig(m, u) =>
      WithRepo(s, dir, s.repos[dir].(moduleUrls := s.repos[dir].moduleUrls[m := u]))
    case SubmoduleUpdate(m) =>
      var path := Join(dir, m);
      s.(dirs := s.dirs + {path},
         repos := s.repos[path := FreshRepo(map["origin" := s.repos[dir].moduleUrls[m]], None)])
    case RemoteRename(f, t) =>
      var rs := s.repos[dir].remotes;
      WithRepo(s, dir, s.repos[dir].(remotes := (rs - {f})[t := rs[f]]))
    case BundleCreate(p) => s.(files := s.files + {p})
    case MakeDir(p) => s.(dirs := s.dirs + {p})
    case Upload(p) => s.(files := s.files + {p})
  }

  /** A successful action removes nothing: files, directories and repositories
      only come into being, and every repository other than the one in `dir`
      stays as it was. A fetch (no pruning is modelled) changes nothing. */
  lemma EffectGrows(s: HostState, dir: string, a: Action)
    requires Succeeds(s, dir, a, true)
    ensures var s' := Effect(s, dir, a);
      && s.files <= s'.files && s.dirs <= s'.dirs && s.repos.Keys <= s'.repos.Keys
      && (forall d | d in s.repos && d != dir :: s'.repos[d] == s.repos[d])
      && (a.Fetch? ==> s' == s)
  {
  }

  /** Run one action: apply its effect when it succeeds, log it either way. */
  function Exec(s: HostState, dir: string, a: Action, ok: bool): (r: (HostState, bool))
    ensures r.1 == Succeeds(s, dir, a, ok)
    ensures r.0.log == s.log + [Event(dir, a, r.1)]
    ensures !r.1 ==> r.0 == s.(log := s.log + [Event(dir, a, false)])
  {
    var succ := Succeeds(s, dir, a, ok);
    var s' := if succ then Effect(s, dir, a) else s;
    (s'.(log := s.log + [Event(dir, a, succ)]), succ)
  }

  /* ---------------------------------------------------------------------
   * Observations used by the probes of fabfile.py
   * ------------------------------------------------------------------- */

  /** `git remote | grep -q "^<remote>$"` run in `dir`. */
  predicate RemoteListed(s: HostState, dir: string, remote: string) {
    dir in s.repos && remote in s.repos[dir].remotes
  }

  /** `git remote -v | egrep -q "^<remote>[[:space:]]+<bundle>"` run in `dir`:
      the remote exists and its URL begins with the bundle path. */
  predicate UrlMatches(s: HostState, dir: string, remote: string, bundle: string) {
    RemoteListed(s, dir, remote) && StartsWith(s.repos[dir].remotes[remote], bundle)
  }

  /** The bundles whose contents reached a repository, in the order the log
      records them: a successful clone from a bundle or `bundle unbundle`. */
  function AppliedBy(e: Event): (r: seq<string>)
    ensures |r| <= 1
  {
    if !e.ok then []
    else match e.action
      case Clone(b, _, _) => [b]
      case Unbundle(b) => [b]
      case _ => []
  }

  function Applied(log: seq<Event>): (r: seq<string>)
    ensures |r| <= |log|
  {
    if log == [] then [] else Applied(log[..|log| - 1]) + AppliedBy(log[|log| - 1])
  }

  /** What one run action adds to the sequence of applied bundles. */
  lemma ExecApplied(s: HostState, dir: string, a: Action, ok: bool)
    ensures Applied(Exec(s, dir, a, ok).0.log) == Applied(s.log) + AppliedBy(Event(dir, a, Succeeds(s, dir, a, ok)))
  {
    var e := Event(dir, a, Succeeds(s, dir, a, ok));
    assert (s.log + [e])[..|s.log|] == s.log;
  }
}
