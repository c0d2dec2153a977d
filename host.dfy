/**
 * fabfile.py as it runs: a `Host` whose files, directories, repositories and
 * command log change one command at a time, and fabfile.py's tasks as
 * methods that run commands on it. Each method is proved to leave the host
 * exactly as the functions of `UnbundleSpec`, `ExportSpec`, `ImportSpec` and
 * `DeploySpec` say, so the properties proved there hold of the methods.
 */
module Fabfile {
  import opened Naming
  import opened World
  import opened UnbundleSpec
  import opened ExportSpec
  import opened ImportSpec
  import opened DeploySpec

  class Host {
    var files: set<string>
    var dirs: set<string>
    var repos: map<string, Repo>
    var log: seq<Event>

    function Snapshot(): HostState
      reads this
    {
      HostState(files, dirs, repos, log)
    }

    constructor (s: HostState)
      ensures Snapshot() == s
    {
      files, dirs, repos, log := s.files, s.dirs, s.repos, s.log;
    }

    /** `cuisine_run` of one command in directory `dir`: when it succeeds its
        effect is applied, and either way it is logged. */
    method RunCommand(dir: string, a: Action, ok: bool) returns (succeeded: bool)
      modifies this
      ensures (Snapshot(), succeeded) == Exec(old(Snapshot()), dir, a, ok)
    {
      succeeded := Succeeds(Snapshot(), dir, a, ok);
      if succeeded {
        match a {
          case Clone(b, br, o) =>
            dirs := dirs + {dir};
            repos := repos[dir := FreshRepo(map[o := b], Some(br))];
          case RemoteAdd(n, u) =>
            repos := repos[dir := repos[dir].(remotes := repos[dir].remotes[n := u])];
          case RemoteSetUrl(n, u) =>
            repos := repos[dir := repos[dir].(remotes := repos[dir].remotes[n := u])];
          case Fetch(_, _, _) =>
          case Unbundle(b) =>
            repos := repos[dir := repos[dir].(applied := repos[dir].applied + [b])];
          case SubmoduleInit(m) =>
            repos := repos[dir := repos[dir].(initialized := repos[dir].initialized + {m})];
          case SubmoduleConfig(m, u) =>
            repos := repos[dir := repos[dir].(moduleUrls := repos[dir].moduleUrls[m := u])];
          case SubmoduleUpdate(m) =>
            var path := Join(dir, m);
            dirs := dirs + {path};
            repos := repos[path := FreshRepo(map["origin" := repos[dir].moduleUrls[m]], None)];
          case RemoteRename(f, t) =>
            var rs := repos[dir].remotes;
            repos := repos[dir := repos[dir].(remotes := (rs - {f})[t := rs[f]])];
          case BundleCreate(p) =>
            files := files + {p};
          case MakeDir(p) =>
            dirs := dirs + {p};
          case Upload(p) =>
            files := files + {p};
        }
      }
      log := log + [Event(dir, a, succeeded)];
    }

    /** A command whose failure ends the Fabric task with `e`
        (`if ret.failed: sys.exit(1)`). */
    method Check(dir: string, a: Action, ok: bool, e: Error) returns (outcome: Outcome)
      modifies this
      ensures Run(Snapshot(), outcome) == Step(old(Snapshot()), dir, a, ok, e)
    {
      var succeeded := RunCommand(dir, a, ok);
      outcome := if succeeded then Done else Abort(e);
    }

    /** fabfile.py:74-83 and fabfile.py:154-163. */
    method FetchThenUnbundle(dir: string, remote: string, bundle: string, recurse: Recurse, o: Oracle)
      returns (outcome: Outcome)
      modifies this
      ensures Run(Snapshot(), outcome) == UnbundleSpec.FetchThenUnbundle(old(Snapshot()), dir, remote, bundle, recurse, o)
    {
      outcome := Check(dir, Fetch(remote, false, recurse), o.fetchOk, FetchFailed);
      if outcome == Done {
        outcome := Check(dir, Unbundle(bundle), o.unbundleOk, UnbundleFailed);
      }
    }

    /** Case D, fabfile.py:51-83: the results of `remote add` and
        `remote set-url` are not checked. */
    method ReconcileModule(dir: string, bundle: string, force: bool, remote: string, o: Oracle)
      returns (outcome: Outcome)
      modifies this
      ensures Run(Snapshot(), outcome) == UnbundleSpec.ReconcileModule(old(Snapshot()), dir, bundle, force, remote, o)
    {
      var found := RemoteListed(Snapshot(), dir, remote);
      if !found {
        var _ := RunCommand(dir, RemoteAdd(remote, bundle), o.addOk);
      } else if !UrlMatches(Snapshot(), dir, remote, bundle) {
        if force {
          var _ := RunCommand(dir, RemoteSetUrl(remote, bundle), o.setUrlOk);
        } else {
          return Abort(WrongUrl);
        }
      }
      outcome := FetchThenUnbundle(dir, remote, bundle, GitDefault, o);
    }

    /** Case C, fabfile.py:86-116. */
    method ActivateModule(repoDir: string, moduleDir: string, bundle: string, remote: string, o: Oracle)
      returns (outcome: Outcome)
      modifies this
      ensures Run(Snapshot(), outcome) == UnbundleSpec.ActivateModule(old(Snapshot()), repoDir, moduleDir, bundle, remote, o)
    {
      var sub := Basename(moduleDir);
      outcome := Check(repoDir, SubmoduleInit(sub), o.initOk, InitFailed);
      if outcome != Done { return; }
      outcome := Check(repoDir, SubmoduleConfig(sub, bundle), o.configOk, ConfigFailed);
      if outcome != Done { return; }
      outcome := Check(repoDir, SubmoduleUpdate(sub), o.updateOk, UpdateFailed);
      if outcome != Done { return; }
      if moduleDir !in dirs {
        return Abort(ModuleDirMissing);
      }
      outcome := Check(moduleDir, RemoteRename("origin", remote), o.renameOk, RenameFailed);
      if outcome != Done { return; }
      outcome := Check(moduleDir, Unbundle(bundle), o.unbundleOk, UnbundleFailed);
    }

    /** Case B, fabfile.py:119-163, as written: an absent remote is added; an
        existing one must pass the URL check, and is then re-set under `force`
        and refused without it. */
    method ReconcileRoot(dir: string, bundle: string, force: bool, remote: string, o: Oracle)
      returns (outcome: Outcome)
      modifies this
      ensures Run(Snapshot(), outcome) == ReconcileRootAsWritten(old(Snapshot()), dir, bundle, force, remote, o)
    {
      if !RemoteListed(Snapshot(), dir, remote) {
        outcome := Check(dir, RemoteAdd(remote, bundle), o.addOk, AddRemoteFailed);
        if outcome != Done { return; }
      } else {
        if !UrlMatches(Snapshot(), dir, remote, bundle) {
          return Abort(RemoteCheckFailed);
        }
        if force {
          outcome := Check(dir, RemoteSetUrl(remote, bundle), o.setUrlOk, SetUrlFailed);
          if outcome != Done { return; }
        } else {
          return Abort(WrongUrl);
        }
      }
      outcome := FetchThenUnbundle(dir, remote, bundle, NoRecurse, o);
    }

    /** `_git_unbundle_helper(bundle_file, repository_dir, module_dir, force,
        branch, remote)`, fabfile.py:28-179. */
    method UnbundleHelper(bundle: string, repoDir: string, moduleDir: string, force: bool,
                          branch: string, remote: string, o: Oracle)
      returns (outcome: Outcome)
      modifies this
      ensures Run(Snapshot(), outcome) == Helper(old(Snapshot()), bundle, repoDir, moduleDir, force, branch, remote, o)
    {
      if bundle !in files {
        return Abort(MissingBundle);
      }
      if repoDir == [] {
        return Abort(MissingRepository);
      }
      if moduleDir != [] {
        if moduleDir in repos {
          outcome := ReconcileModule(moduleDir, bundle, force, remote, o);
        } else {
          outcome := ActivateModule(repoDir, moduleDir, bundle, remote, o);
        }
      } else if repoDir in dirs {
        outcome := ReconcileRoot(repoDir, bundle, force, remote, o);
      } else {
        var b := CloneBranch(branch, o.firstHead);
        outcome := Check(repoDir, Clone(bundle, b, remote), o.cloneOk, CloneFailed);
      }
    }

    /** `git_bundle(repository_dir, bundle_file)`, fabfile.py:182-235: one
        `bundle create` per listed `.git` entry, collecting the names. */
    method GitBundle(repoDir: string, bundleFile: string, items: seq<string>, oks: seq<bool>)
      returns (names: seq<string>, outcome: Outcome)
      requires |oks| == |items|
      modifies this
      ensures Export(Snapshot(), names, outcome) == ExportSpec.GitBundle(old(Snapshot()), repoDir, bundleFile, items, oks)
    {
      if repoDir !in dirs {
        return [], Abort(MissingRepository);
      }
      var file := BundleFile(repoDir, bundleFile);
      var outDir := Dirname(file);
      var base := BundleBase(file);
      ghost var es := Entries(items, repoDir, base);
      ghost var goal := ExportFrom(Snapshot(), es, oks, 0, outDir, []);
      names := [];
      var i := 0;
      while i < |items|
        invariant 0 <= i <= |items|
        invariant ExportFrom(Snapshot(), es, oks, i, outDir, names) == goal
        decreases |items| - i
      {
        var root := EntryRoot(items[i]);
        var name := EntryName(items[i], repoDir, base);
        assert es[i] == Entry(root, name);
        if name.None? {
          return names, Abort(EmptyPath);
        }
        outcome := Check(root, BundleCreate(Join(outDir, name.value)), oks[i], CreateFailed);
        if outcome != Done {
          return names, outcome;
        }
        names := names + [name.value];
        i := i + 1;
      }
      outcome := Done;
    }

    /** The loop of fabfile.py:288-295: each listed sibling bundle into the
        module directory its name decodes to, stopping at the first abort. */
    method ImportModules(siblings: seq<string>, oracles: seq<Oracle>, repoDir: string, base: string,
                         force: bool, remote: string)
      returns (outcome: Outcome)
      requires |oracles| == |siblings|
      modifies this
      ensures Run(Snapshot(), outcome)
           == ImportSpec.ImportModules(old(Snapshot()), siblings, ModuleDirs(repoDir, base, siblings), oracles, 0,
                                       repoDir, force, remote)
    {
      ghost var dirsOf := ModuleDirs(repoDir, base, siblings);
      ghost var goal := ImportSpec.ImportModules(Snapshot(), siblings, dirsOf, oracles, 0, repoDir, force, remote);
      var i := 0;
      while i < |siblings|
        invariant 0 <= i <= |siblings|
        invariant ImportSpec.ImportModules(Snapshot(), siblings, dirsOf, oracles, i, repoDir, force, remote) == goal
        decreases |siblings| - i
      {
        var moduleDir := ModuleDir(repoDir, base, siblings[i]);
        ghost var before := Snapshot();
        outcome := UnbundleHelper(siblings[i], repoDir, moduleDir, force, [], remote, oracles[i]);
        ImportModulesStep(before, Run(Snapshot(), outcome), siblings, dirsOf, oracles, i, repoDir, force, remote);
        if outcome != Done { return; }
        i := i + 1;
      }
      outcome := Done;
    }

    /** `git_unbundle(bundle_file, repository_dir, branch, force, remote)`,
        fabfile.py:238-295: the main bundle, then every listed sibling. */
    method GitUnbundle(bundle: string, repoDir: string, branch: string, force: bool, remote: string,
                       main: Oracle, siblings: seq<string>, oracles: seq<Oracle>)
      returns (outcome: Outcome)
      requires |oracles| == |siblings|
      modifies this
      ensures Run(Snapshot(), outcome)
           == ImportSpec.GitUnbundle(old(Snapshot()), bundle, repoDir, branch, force, remote, main, siblings, oracles)
    {
      if bundle !in files {
        return Abort(MissingBundle);
      }
      var target := Target(bundle, repoDir);
      if !force && target in dirs {
        return Abort(NotEmpty);
      }
      ghost var s0 := Snapshot();
      outcome := UnbundleHelper(bundle, target, [], force, branch, remote, main);
      if outcome != Done { return; }
      GitUnbundleAfterMain(s0, Snapshot(), bundle, repoDir, branch, force, remote, main, siblings, oracles);
      outcome := ImportModules(siblings, oracles, target, BundleBase(bundle), force, remote);
    }

    /** fabfile.py:317-329: make the temporary directory `dir`, then upload
        every bundle into it in order; the first upload is the main bundle. */
    method Stage(dir: string, names: seq<string>) returns (mainFile: string, outcome: Outcome)
      requires dir != []
      modifies this
      ensures Run(Snapshot(), outcome) == DeploySpec.Stage(old(Snapshot()), dir, Paths(dir, names))
      ensures outcome == Done ==> mainFile == if names == [] then "" else Join(dir, names[0])
    {
      mainFile := "";
      outcome := Check([], MakeDir(dir), true, MakeDirFailed);
      if outcome != Done { return; }
      ghost var paths := Paths(dir, names);
      ghost var staged := UploadAll(Snapshot(), paths);
      assert Run(staged, Done) == DeploySpec.Stage(old(Snapshot()), dir, paths);
      assert paths[0..] == paths;
      var i := 0;
      while i < |names|
        invariant 0 <= i <= |names|
        invariant UploadAll(Snapshot(), paths[i..]) == staged
        invariant mainFile == if i == 0 then "" else paths[0]
        decreases |names| - i
      {
        var remoteFile := Join(dir, names[i]);
        if mainFile == [] {
          mainFile := remoteFile;
        }
        UploadAllFrom(Snapshot(), paths, i);
        var _ := RunCommand([], Upload(remoteFile), true);
        i := i + 1;
      }
    }
  }

  /** `deploy_bundle(local_path, deploy_path, file_name, branch, remote)`,
      fabfile.py:298-332, on two distinct hosts. */
  method DeployBundle(local: Host, remote: Host, localPath: string, deployPath: string, fileName: string,
                      branch: string, remoteName: string, items: seq<string>, oks: seq<bool>,
                      main: Oracle, siblings: seq<string>, oracles: seq<Oracle>)
    returns (names: seq<string>, outcome: Outcome)
    requires local != remote
    requires |oks| == |items| && |oracles| == |siblings|
    modifies local, remote
    ensures Deploy(local.Snapshot(), remote.Snapshot(), names, outcome)
         == DeploySpec.DeployBundle(old(local.Snapshot()), old(remote.Snapshot()), localPath, deployPath,
                                    fileName, branch, remoteName, items, oks, main, siblings, oracles)
  {
    var localDir := Join(localPath, "temp");
    names, outcome := local.GitBundle(localPath, Join(localDir, fileName), items, oks);
    if outcome != Done || names == [] {
      return;
    }
    var remoteDir := Join(deployPath, "temp");
    var mainFile;
    mainFile, outcome := remote.Stage(remoteDir, names);
    if outcome != Done {
      return;
    }
    outcome := remote.GitUnbundle(mainFile, deployPath, branch, true, remoteName, main, siblings, oracles);
  }
}
