/**
 * `git_unbundle` (fabfile.py:238-295): import the main bundle into the
 * target directory, then every sibling `<base>_*.bundle` the `find | sort`
 * listing reports as a submodule, each through `_git_unbundle_helper`.
 * The listing and the command results are inputs.
 */
module ImportSpec {
  import opened Naming
  import opened World
  import opened UnbundleSpec

  /** The directory the main bundle is imported into: the one given, or else
      the bundle's base name (fabfile.py:267-270). */
  function Target(bundle: string, repoDir: string): (r: string)
    ensures repoDir != [] ==> r == repoDir
    ensures repoDir == [] ==> '/' !in r
  {
    if repoDir != [] then repoDir else BundleBase(bundle)
  }

  /** The module directory of each sibling bundle, fabfile.py:289-293. */
  function ModuleDirs(repoDir: string, base: string, siblings: seq<string>): (dirs: seq<string>)
    ensures |dirs| == |siblings|
    ensures forall j :: 0 <= j < |siblings| ==> dirs[j] == ModuleDir(repoDir, base, siblings[j])
  {
    seq(|siblings|, j requires 0 <= j < |siblings| => ModuleDir(repoDir, base, siblings[j]))
  }

  /** The loop of fabfile.py:288-295 from sibling `i` on, `dirs` holding each
      sibling's module directory. The branch is not passed on to the
      submodule calls. */
  function ImportModules(s: HostState, siblings: seq<string>, dirs: seq<string>, oracles: seq<Oracle>, i: nat,
                         repoDir: string, force: bool, remote: string): (r: Run)
    requires |dirs| == |siblings| && |oracles| == |siblings| && i <= |siblings|
    ensures r.outcome.Abort? ==> IsHelperError(r.outcome.error)
    decreases |siblings| - i, 1
  {
    if i == |siblings| then Run(s, Done)
    else ImportModule(s, siblings, dirs, oracles, i, repoDir, force, remote)
  }

  /** One turn of that loop: sibling `i` through the helper, then, unless it
      aborted, the siblings after it. */
  function ImportModule(s: HostState, siblings: seq<string>, dirs: seq<string>, oracles: seq<Oracle>, i: nat,
                        repoDir: string, force: bool, remote: string): (r: Run)
    requires |dirs| == |siblings| && |oracles| == |siblings| && i < |siblings|
    ensures r.outcome.Abort? ==> IsHelperError(r.outcome.error)
    decreases |siblings| - i, 0
  {
    var s1 :- Helper(s, siblings[i], repoDir, dirs[i], force, [], remote, oracles[i]);
    ImportModules(s1, siblings, dirs, oracles, i + 1, repoDir, force, remote)
  }

  /** `git_unbundle(bundle_file, repository_dir, branch, force, remote)`,
      fabfile.py:238-295, given the helper's command results for the main
      bundle (`main`), the sibling listing and one oracle per sibling. */
  function GitUnbundle(s: HostState, bundle: string, repoDir: string, branch: string, force: bool,
                       remote: string, main: Oracle, siblings: seq<string>, oracles: seq<Oracle>): (r: Run)
    requires |oracles| == |siblings|
    ensures bundle !in s.files ==> r == Run(s, Abort(MissingBundle))
    ensures r.outcome == Abort(NotEmpty) <==> bundle in s.files && !force && Target(bundle, repoDir) in s.dirs
    ensures r.outcome == Abort(NotEmpty) ==> r.state == s
    ensures r.outcome.Abort? && r.outcome.error != NotEmpty ==> IsHelperError(r.outcome.error)
  {
    if bundle !in s.files then Run(s, Abort(MissingBundle))
    else
      var target := Target(bundle, repoDir);
      if !force && target in s.dirs then Run(s, Abort(NotEmpty))
      else
        var s1 :- Helper(s, bundle, target, [], force, branch, remote, main);
        ImportModules(s1, siblings, ModuleDirs(target, BundleBase(bundle), siblings), oracles, 0, target, force, remote)
  }

  /** One turn of the sibling loop: the helper's run `h` for sibling `i`
      either ends the loop or hands it on to sibling `i + 1`. */
  lemma ImportModulesStep(s: HostState, h: Run, siblings: seq<string>, dirs: seq<string>, oracles: seq<Oracle>,
                          i: nat, repoDir: string, force: bool, remote: string)
    requires |dirs| == |siblings| && |oracles| == |siblings| && i < |siblings|
    requires h == Helper(s, siblings[i], repoDir, dirs[i], force, [], remote, oracles[i])
    ensures ImportModules(s, siblings, dirs, oracles, i, repoDir, force, remote)
         == if h.outcome.Abort? then h else ImportModules(h.state, siblings, dirs, oracles, i + 1, repoDir, force, remote)
  {
  }

  /** Once the main bundle's helper call completed in state `s1`, the import
      goes on with the sibling loop from there. */
  lemma GitUnbundleAfterMain(s0: HostState, s1: HostState, bundle: string, repoDir: string, branch: string,
                             force: bool, remote: string, main: Oracle, siblings: seq<string>, oracles: seq<Oracle>)
    requires |oracles| == |siblings|
    requires bundle in s0.files && (force || Target(bundle, repoDir) !in s0.dirs)
    requires Helper(s0, bundle, Target(bundle, repoDir), [], force, branch, remote, main) == Run(s1, Done)
    ensures GitUnbundle(s0, bundle, repoDir, branch, force, remote, main, siblings, oracles)
         == ImportModules(s1, siblings, ModuleDirs(Target(bundle, repoDir), BundleBase(bundle), siblings), oracles, 0,
                          Target(bundle, repoDir), force, remote)
  {
  }

  /** When the main bundle's helper call `h` aborts, the import ends with it. */
  lemma GitUnbundleMainAborts(s: HostState, h: Run, bundle: string, repoDir: string, branch: string,
                              force: bool, remote: string, main: Oracle, siblings: seq<string>, oracles: seq<Oracle>)
    requires |oracles| == |siblings|
    requires bundle in s.files && (force || Target(bundle, repoDir) !in s.dirs)
    requires h == Helper(s, bundle, Target(bundle, repoDir), [], force, branch, remote, main) && h.outcome.Abort?
    ensures GitUnbundle(s, bundle, repoDir, branch, force, remote, main, siblings, oracles) == h
  {
  }

  /* ---------------------------------------------------------------------
   * Properties
   * ------------------------------------------------------------------- */

  /** A sequence `after` that extends `before` by a prefix of `rest`, all of
      `rest` exactly when `done`. */
  predicate GrowsByPrefix(before: seq<string>, after: seq<string>, rest: seq<string>, done: bool) {
    && before <= after
    && after[|before|..] <= rest
    && (done <==> after[|before|..] == rest)
  }

  /** A run over `rest` that applies, in order, a prefix of `rest`: all of it
      exactly when it completes. */
  predicate AppliesPrefixOf(s: HostState, rest: seq<string>, r: Run) {
    && s.log <= r.state.log
    && GrowsByPrefix(Applied(s.log), Applied(r.state.log), rest, r.outcome == Done)
  }

  /** Growing by `b` and then by a prefix of `rest` is growing by a prefix of
      `[b] + rest`. */
  lemma GrowsByPrefixCons(a0: seq<string>, a1: seq<string>, a2: seq<string>, b: string,
                          rest: seq<string>, done: bool)
    requires a1 == a0 + [b]
    requires GrowsByPrefix(a1, a2, rest, done)
    ensures GrowsByPrefix(a0, a2, [b] + rest, done)
  {
    assert a2[|a0|..] == [b] + a2[|a1|..];
  }

  /** The sibling loop from sibling `i` on, whose run is `r`, applies in order
      a prefix of the remaining siblings: all of them exactly when it completes. */
  lemma {:induction false} ImportModulesApplies(s: HostState, siblings: seq<string>, dirs: seq<string>,
                                                oracles: seq<Oracle>, i: nat, repoDir: string, force: bool,
                                                remote: string, r: Run)
    requires |dirs| == |siblings| && |oracles| == |siblings| && i <= |siblings|
    requires r == ImportModules(s, siblings, dirs, oracles, i, repoDir, force, remote)
    ensures AppliesPrefixOf(s, siblings[i..], r)
    decreases |siblings| - i
  {
    if i < |siblings| {
      assert siblings[i..] == [siblings[i]] + siblings[i + 1..];
      var h := ImportModuleSplit(s, siblings, dirs, oracles, i, repoDir, force, remote);
      var r' := ImportModules(h.state, siblings, dirs, oracles, i + 1, repoDir, force, remote);
      if h.outcome == Done {
        ImportModulesApplies(h.state, siblings, dirs, oracles, i + 1, repoDir, force, remote, r');
      }
      HelperThen(s, h, siblings[i], siblings[i + 1..], r');
    }
  }

  /** Sibling `i`'s turn of the loop as the helper's run `h`, which keeps the
      helper's promise, followed unless it aborted by the siblings after it. */
  lemma ImportModuleSplit(s: HostState, siblings: seq<string>, dirs: seq<string>, oracles: seq<Oracle>,
                          i: nat, repoDir: string, force: bool, remote: string) returns (h: Run)
    requires |dirs| == |siblings| && |oracles| == |siblings| && i < |siblings|
    ensures HelperPromise(s, h, siblings[i])
    ensures ImportModules(s, siblings, dirs, oracles, i, repoDir, force, remote)
         == if h.outcome.Abort? then h else ImportModules(h.state, siblings, dirs, oracles, i + 1, repoDir, force, remote)
  {
    h := Helper(s, siblings[i], repoDir, dirs[i], force, [], remote, oracles[i]);
    HelperKeeps(s, siblings[i], repoDir, dirs[i], force, [], remote, oracles[i]);
    ImportModulesStep(s, h, siblings, dirs, oracles, i, repoDir, force, remote);
  }

  /** A helper call for bundle `b` followed, when it succeeds, by a run `r` over
      `rest`: together they apply a prefix of `[b] + rest`. */
  lemma HelperThen(s: HostState, h: Run, b: string, rest: seq<string>, r: Run)
    requires HelperPromise(s, h, b)
    requires h.outcome == Done ==> AppliesPrefixOf(h.state, rest, r)
    ensures AppliesPrefixOf(s, [b] + rest, if h.outcome.Abort? then h else r)
  {
    if h.outcome == Done {
      GrowsByPrefixCons(Applied(s.log), Applied(h.state.log), Applied(r.state.log), b, rest, r.outcome == Done);
    } else {
      var a := Applied(s.log);
      assert Applied(h.state.log) == a;
      assert a[|a|..] == [];
    }
  }

  /** The order of fabfile.py:281-295: a completed import applies the main
      bundle and then every sibling in listing order; an aborted one applies a
      proper prefix of that sequence, so no module bundle is applied unless the
      main one was applied before it. The two checks that precede the helper
      abort without changing anything. */
  lemma GitUnbundleOrder(s: HostState, bundle: string, repoDir: string, branch: string, force: bool,
                         remote: string, main: Oracle, siblings: seq<string>, oracles: seq<Oracle>)
    requires |oracles| == |siblings|
    ensures var r := GitUnbundle(s, bundle, repoDir, branch, force, remote, main, siblings, oracles);
      && AppliesPrefixOf(s, [bundle] + siblings, r)
      && (bundle !in s.files ==> r == Run(s, Abort(MissingBundle)))
      && (bundle in s.files && !force && Target(bundle, repoDir) in s.dirs ==> r == Run(s, Abort(NotEmpty)))
  {
    if bundle in s.files && (force || Target(bundle, repoDir) !in s.dirs) {
      var target := Target(bundle, repoDir);
      var h := Helper(s, bundle, target, [], force, branch, remote, main);
      HelperKeeps(s, bundle, target, [], force, branch, remote, main);
      var dirs := ModuleDirs(target, BundleBase(bundle), siblings);
      if h.outcome == Done {
        ImportModulesApplies(h.state, siblings, dirs, oracles, 0, target, force, remote,
                             ImportModules(h.state, siblings, dirs, oracles, 0, target, force, remote));
        assert siblings[0..] == siblings;
      }
      HelperThen(s, h, bundle, siblings, ImportModules(h.state, siblings, dirs, oracles, 0, target, force, remote));
    }
  }

  /** An empty sibling listing reaches the loop as one empty line (Python's
      `''.split('\n')`), and no file has the empty name: the import then aborts
      at that line after the main bundle was applied, reporting a missing bundle. */
  lemma EmptyListingAborts(s: HostState, repoDir: string, base: string, force: bool,
                           remote: string, o: Oracle)
    requires "" !in s.files
    ensures ImportModules(s, [""], ModuleDirs(repoDir, base, [""]), [o], 0, repoDir, force, remote) == Run(s, Abort(MissingBundle))
  {
  }

  /** Export and import agree on names: a sibling bundle written next to the
      main bundle for the module at relative path `rel` is imported into the
      directory `rel` below the target, its base taken from the main bundle's
      file name as `git_unbundle` does. */
  lemma ExportedModuleLandsInPlace(dir: string, base: string, rel: string, target: string)
    requires dir == [] || dir[|dir| - 1] == '/'
    requires Encodable(base, ".") && Encodable(base, rel) && ModuleName(rel) != []
    ensures ModuleDir(target, BundleBase(dir + EncodeName(base, ".")), dir + EncodeName(base, rel)) == Join(target, rel)
  {
    SiblingDecodesAgainstMain(dir, base, rel);
  }

  /** The helper `h` for a main repository directory that exists but neither
      holds a repository nor lies inside one fails at `git remote add`. */
  lemma HelperOutsideRepository(s: HostState, bundle: string, dir: string, force: bool, branch: string,
                                remote: string, o: Oracle, h: Run)
    requires bundle in s.files && dir != [] && dir in s.dirs && dir !in s.repos
    requires NoEnclosingRepository(s, dir)
    requires h == Helper(s, bundle, dir, [], force, branch, remote, o)
    ensures h == Run(s.(log := s.log + [Event(dir, RemoteAdd(remote, bundle), false)]), Abort(AddRemoteFailed))
  {
    assert Classify(s, dir, []) == RootExisting;
    assert !RemoteListed(s, dir, remote);
    assert !Succeeds(s, dir, RemoteAdd(remote, bundle), o.addOk);
  }

  /** A forced import into a directory that exists but neither holds a
      repository nor lies inside one takes the existing-repository branch of
      the helper (fabfile.py:120) and stops at `git remote add`, which git
      refuses there (fabfile.py:131-134): nothing is cloned and nothing
      applied. */
  lemma ImportIntoNonRepository(s: HostState, bundle: string, repoDir: string, branch: string,
                                remote: string, main: Oracle, siblings: seq<string>, oracles: seq<Oracle>)
    requires |oracles| == |siblings|
    requires bundle in s.files && repoDir != [] && repoDir in s.dirs && repoDir !in s.repos
    requires NoEnclosingRepository(s, repoDir)
    ensures var r := GitUnbundle(s, bundle, repoDir, branch, true, remote, main, siblings, oracles);
      && r.outcome == Abort(AddRemoteFailed)
      && r.state == s.(log := s.log + [Event(repoDir, RemoteAdd(remote, bundle), false)])
      && Applied(r.state.log) == Applied(s.log)
  {
    var h := Helper(s, bundle, repoDir, [], true, branch, remote, main);
    HelperOutsideRepository(s, bundle, repoDir, true, branch, remote, main, h);
    ExecApplied(s, repoDir, RemoteAdd(remote, bundle), main.addOk);
    GitUnbundleMainAborts(s, h, bundle, repoDir, branch, true, remote, main, siblings, oracles);
  }
}
