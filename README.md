# fabric-bundle in Dafny

A model of `fabfile.py`, the Fabric script that moves a Git repository and
its nested submodule repositories between hosts as Git bundle files, and
proofs about it.

- **Export** (`git_bundle`): one `git bundle create --all` runs for every
  `.git` entry that `find` lists under the repository. Each bundle is named
  `<base>.bundle` for the main repository and `<base>_<rel>.bundle` for the
  repository at relative path `<rel>`. The bundle names come back in
  listing order.
- **Import** (`git_unbundle`): the main bundle is imported into the target
  directory. Then every sibling `<base>_*.bundle` that `find` lists is
  imported as a submodule, into the directory its name decodes to. Each
  import goes through `_git_unbundle_helper`, which takes one of four
  branches:
  - clone a new main repository;
  - reconcile the `bundle` remote of an existing main repository;
  - register and check out a new submodule;
  - reconcile the remote of an existing submodule.
- **Deploy** (`deploy_bundle`): export locally into `<local>/temp`. Unless
  nothing was exported, create `<deploy>/temp` on the remote host, upload
  the bundles there in order, and import the first one with `force` set.

Modules:

- `Naming` (naming.dfy): the pieces of Python 2's byte-string `str` and of
  `os.path` that the script uses, the bundle naming scheme, and its round
  trip.
- `World` (world.dfy): the abstract state of a host: files, directories,
  repositories with their remotes and submodule configuration, and the log
  of commands run. It also defines each git command as an `Action` with its
  effect. Whether a command succeeds is an oracle bit. A command also fails
  in the situations `Succeeds` lists: a git command outside a repository, a
  clone into an existing repository, a remote added twice, a `mkdir` without
  a parent. Git also finds a repository from any directory below its work
  tree, and the model does not, so the two agree only where
  `NoEnclosingRepository` holds.
- `UnbundleSpec` (unbundle_spec.dfy): `_git_unbundle_helper` as a function
  from the state to a `Run`. `sys.exit(1)` becomes an `Abort` outcome with
  the reason.
- `ExportSpec`, `ImportSpec`, `DeploySpec`: `git_bundle`, `git_unbundle` and
  `deploy_bundle` as functions of the host state, plus what they promise.
  `dir_ensure` without its parent is a Fabric abort, `MakeDirFailed`.
  The `find` listings and the command results are inputs.
- `Fabfile` (host.dfy): the script as it runs. A `Host` class holds the
  fields that the commands update, and one method per task mirrors the
  source step by step. Each method is proved to leave the host exactly as
  the specification function says, so the lemmas about the functions hold
  for the methods. The methods follow the source as written, including the
  existing-main-repository branch of fabfile.py:136-152 (see Findings).

## Model

| member | source | states |
|---|---|---|
| Naming.RemovePrefix | fabfile.py:22-25 | if `text` starts with `prefix`, then `prefix` followed by the result is `text`; otherwise the result is `text` unchanged |
| Naming.Strip | fabfile.py:204 | the result neither starts nor ends with whitespace, and a string with no surrounding whitespace is returned as it is |
| Naming.RFind | fabfile.py:201 | the index of the last occurrence of the character, or -1 when there is none |
| Naming.LowerAscii | fabfile.py:205 | Python 2's `lower` on a byte string: the same length, each ASCII capital lowered and every other character kept |
| Naming.HasBundleExtension | fabfile.py:204-205 | a file with a `bundle` extension has a non-empty extension, so its root is shorter than the file name |
| Naming.Basename | fabfile.py:201 | the result is the suffix of the path after its last `/`, and contains no `/` |
| Naming.Splitext | fabfile.py:204 | root followed by extension is the path |
| Naming.SplitextExtension | fabfile.py:204 | the extension is empty, or starts with `.` and holds no further `.` and no `/` |
| Naming.Dirname | fabfile.py:202 | the directory is a prefix of the path, and is empty for a path without `/` |
| Naming.Join | fabfile.py:223 | an absolute second part replaces the first; otherwise the parts are concatenated, with one `/` inserted when needed |
| Naming.BundleBase | fabfile.py:204-208 | the base name contains no `/`; a file without a `bundle` extension keeps its whole basename |
| Naming.EncodeName | fabfile.py:220-222 | the main repository (`.`) is named `<base>.bundle`; the repository at `rel` is named `<base>_<rel>.bundle` |
| Naming.ModuleName | fabfile.py:221 | the relative path is empty exactly for `.` (or empty) input, and is otherwise unchanged |
| Naming.DecodeModule | fabfile.py:289-292 | a decoded module name contains no `/` |
| Naming.ModuleDir | fabfile.py:289-293 | a module directory below a non-empty repository directory is non-empty |
| Naming.DirnameOfJoin | fabfile.py:318-319 | the parent of `<dir>/<name>` is `dir`, so `dir_ensure` of `<deploy>/temp` needs `<deploy>` to exist |
| Naming.DecodeEncode | fabfile.py:220-222 | round trip: decoding the bundle name encoded for `rel`, in any directory, gives back `rel` (empty for `.`) |
| Naming.EncodeInjective | fabfile.py:220-222 | distinct relative paths get distinct bundle names |
| Naming.BundleBaseStripsExtension | fabfile.py:204-206 | an extension spelled `bundle` in any letter case is stripped from the base name |
| Naming.MainBundleBase | fabfile.py:260-263 | the main bundle `<base>.bundle` gives back `<base>` as its base name |
| Naming.SiblingDecodesAgainstMain | fabfile.py:260-292 | the base that the import derives from the main bundle decodes every sibling written by the export back into its relative path |
| World.Succeeds | fabfile.py:56-179 | a command succeeds only when its oracle bit says so; every git command but clone needs a repository in its directory, and a clone needs none there |
| World.Effect | fabfile.py:56-179 | a successful command leaves the log to `Exec` |
| World.EffectGrows | fabfile.py:56-179 | a successful command removes nothing: files, directories and repositories only come into being; repositories outside its directory stay as they were; a fetch changes nothing |
| World.Exec | fabfile.py:56-179 | a command is logged with whether it succeeded; it succeeds exactly as `Succeeds` says; a failed one changes nothing but the log |
| World.ExecApplied | fabfile.py:80 | one command adds to the applied bundles exactly what its own logged event applies |
| UnbundleSpec.Step | fabfile.py:75-78 | a checked command logs its event, is `Done` exactly when it succeeds, and otherwise aborts with its own error |
| UnbundleSpec.Classify | fabfile.py:45-51 | a module directory selects a submodule branch, the existing one exactly when a repository is there; without one, an existing directory selects the existing-main-repository branch |
| UnbundleSpec.FetchThenUnbundle | fabfile.py:74-83 | fetch then unbundle completes exactly when both commands succeed, and otherwise aborts with the failed one's error |
| UnbundleSpec.ReconcileModule | fabfile.py:51-83 | the existing-submodule branch aborts only on a wrong URL, a failed fetch or a failed unbundle: `remote add` and `set-url` are not checked |
| UnbundleSpec.ActivateModule | fabfile.py:86-116 | the new-submodule branch aborts only on a failed command or a missing module directory |
| UnbundleSpec.ConfigureModule | fabfile.py:92-116 | configure, update, rename and unbundle abort only with their own errors |
| UnbundleSpec.CheckOutModule | fabfile.py:98-116 | update, rename and unbundle abort only with their own errors |
| UnbundleSpec.AdoptModule | fabfile.py:103-116 | rename and unbundle abort only with their own errors, and the call reports a missing module directory exactly when it does not exist |
| UnbundleSpec.SetRemoteThenApply | fabfile.py:129-163 | completes only when the remote command succeeded; aborts only with that command's error, a failed fetch or a failed unbundle |
| UnbundleSpec.ReconcileRootAsWritten | fabfile.py:119-163 | the existing-main-repository branch as written aborts only with one of its six errors, among them the failed URL check |
| UnbundleSpec.ReconcileRoot | fabfile.py:119-163 | corrected: the same branch never aborts on the URL check itself |
| UnbundleSpec.CloneRoot | fabfile.py:165-179 | the clone branch completes or aborts with a failed clone |
| UnbundleSpec.Helper | fabfile.py:28-179 | the helper reports a missing bundle exactly when the bundle does not exist, and a missing repository directory exactly when it is empty and the bundle exists; it aborts only with its own errors |
| UnbundleSpec.CloneBranch | fabfile.py:166-171 | the branch is the explicit one, else the first head of the bundle, else `HEAD`, with any `refs/heads/` prefix removed |
| UnbundleSpec.CloneBranchExamples | fabfile.py:166-171 | concrete branch derivations: `HEAD` when neither is given; `refs/heads/main` and `main` both give `main` |
| UnbundleSpec.HelperKeeps | fabfile.py:28-179 | in every branch, as written, the helper only appends to the log; it applies exactly its bundle on success and nothing on abort; a failed command is its last command; a check that fails before any command changes nothing |
| UnbundleSpec.FetchThenUnbundleKeeps | fabfile.py:154-163 | fetch then unbundle keeps the helper's promise, and aborts only on a failed command or a missing submodule directory |
| UnbundleSpec.ReconcileModuleKeeps | fabfile.py:51-83 | the existing-submodule branch keeps the helper's promise |
| UnbundleSpec.ActivateModuleKeeps | fabfile.py:86-116 | the new-submodule branch keeps the helper's promise |
| UnbundleSpec.ConfigureModuleKeeps | fabfile.py:92-116 | configure, update, rename and unbundle keep the helper's promise, and abort only on a failed command or a missing submodule directory |
| UnbundleSpec.CheckOutModuleKeeps | fabfile.py:98-116 | update, rename and unbundle keep the helper's promise, and abort only on a failed command or a missing submodule directory |
| UnbundleSpec.AdoptModuleKeeps | fabfile.py:103-116 | the module-directory check, rename and unbundle keep the helper's promise, and abort only on a failed command or a missing submodule directory |
| UnbundleSpec.ReconcileRootAsWrittenKeeps | fabfile.py:119-163 | the existing-main-repository branch as written keeps the helper's promise |
| UnbundleSpec.ReconcileRootKeeps | fabfile.py:119-163 | corrected: the existing-main-repository branch keeps the helper's promise as well |
| UnbundleSpec.SetRemoteThenApplyKeeps | fabfile.py:129-163 | a checked `remote add` or `remote set-url`, then fetch and unbundle, keeps the helper's promise and aborts only on a failed command |
| UnbundleSpec.PreparatoryStep | fabfile.py:61-69 | a command other than clone or unbundle only appends to the log and applies nothing |
| UnbundleSpec.PreparatoryStepAborts | fabfile.py:87-111 | a checked preparatory command that fails keeps the helper's promise |
| UnbundleSpec.ApplyingStep | fabfile.py:160-163 | a clone or unbundle as the last step keeps the helper's promise |
| UnbundleSpec.ThenKeeps | fabfile.py:28-179 | preparatory commands followed by a call that keeps the promise also keep it |
| UnbundleSpec.CloneRootBinds | fabfile.py:165-179 | the clone succeeds exactly when git accepts it; the new repository's only remote is then the bundle under the requested name, cloned at the derived branch |
| UnbundleSpec.ReconcileModuleBinds | fabfile.py:51-83 | on success, the remote points at a URL the script's own check accepts; no other remote changed; the bundle was applied; fetch then unbundle were the last two commands. This needs a succeeding `set-url`, whose result the script does not check |
| UnbundleSpec.UncheckedRemoteThenFetchBinds | fabfile.py:60-83 | an unchecked `remote add` or `set-url`, then a successful fetch and unbundle, leaves the remote bound to the bundle; a failed `remote add` leaves no remote, so the fetch fails |
| UnbundleSpec.FetchThenUnbundleBinds | fabfile.py:154-163 | on success, fetch then unbundle leaves the remotes as they were, applies the bundle, and logs the two commands last |
| UnbundleSpec.SetRemoteThenApplyBinds | fabfile.py:129-163 | on success, the remote is bound to the bundle, no other remote changed, the bundle was applied, and fetch then unbundle were the last two commands |
| UnbundleSpec.ReconcileModuleRefuses | fabfile.py:63-72 | the call reports a wrong URL exactly when the remote exists with another URL and `force` is off, and then changes nothing |
| UnbundleSpec.ActivateModuleBinds | fabfile.py:86-116 | on success, the submodule is registered in the parent with the bundle as its URL; its own repository sits at `<repo>/<name>`, has the bundle as its only remote, and has exactly the bundle applied |
| UnbundleSpec.CheckOutModuleBinds | fabfile.py:98-116 | on success, `submodule update` created the module's repository from the configured URL; the rename made it the bundle remote; the parent is unchanged |
| UnbundleSpec.ReconcileRootAsWrittenOutcomes | fabfile.py:129-152 | as written, the call succeeds only by adding an absent remote or, under `force`, by re-setting a URL that already matched; a mismatching URL aborts even under `force`; a matching one aborts without `force` |
| UnbundleSpec.ReconcileRootAsWrittenBinds | fabfile.py:119-163 | as written, on success: the remote is bound to the bundle, no other remote changed, the bundle was applied, and fetch without submodule recursion then unbundle were the last two commands |
| UnbundleSpec.ReconcileRootExtendsAsWritten | fabfile.py:136-152 | the corrected branch agrees with the one as written on every call except those the code as written refuses up front with the host untouched |
| UnbundleSpec.ForcedRebindRefusedAsWritten | fabfile.py:136-152 | a repository whose `bundle` remote points at an older bundle, imported with `force`: as written it aborts untouched, while the corrected reconciliation re-points the remote |
| UnbundleSpec.ReconcileRootRebindsUnderForce | fabfile.py:144-149 | corrected: under `force`, an existing remote with another URL is re-pointed at the bundle, and the bundle is applied |
| UnbundleSpec.ReconcileRootBinds | fabfile.py:119-163 | corrected: on success, the remote points at a URL the check accepts; no other remote changed; the bundle was applied; fetch (without submodule recursion) then unbundle were the last two commands |
| UnbundleSpec.ReconcileRootRefuses | fabfile.py:150-152 | corrected: the call reports a wrong URL exactly when the remote has another URL and `force` is off, and then changes nothing |
| ExportSpec.RelPath | fabfile.py:220-221 | an empty path has no relative path (Python raises); the start itself is `.`, whatever trailing slashes either has; a path below the start is the start without trailing slashes, then `/`, then the result |
| ExportSpec.RelPathExamples | fabfile.py:220-221 | concrete cases: `repo` against `repo/` is `.`; `repo/lib` against `repo/` is `lib`; `/lib` against `/` is `lib`; the empty path raises |
| ExportSpec.BundleFile | fabfile.py:201 | an explicit bundle file is used as given; otherwise it is the last component of the repository path, without `/` |
| ExportSpec.EntryName | fabfile.py:217-222 | an entry gets no name exactly when its directory is empty (`relpath` raises); otherwise its name encodes its path relative to the repository |
| ExportSpec.ExportFrom | fabfile.py:216-231 | the loop only extends the names collected so far, by at most one per remaining entry, and ends done, at an empty path, or at a failed `bundle create` |
| ExportSpec.GitBundle | fabfile.py:182-235 | the export reports a missing repository exactly when the directory does not exist, and then changes nothing and returns no name; it fails only with a missing repository, an empty path or a failed create; it returns at most one name per listed entry |
| ExportSpec.Entries | fabfile.py:216-222 | one entry per listed line, in order, each with its repository directory and bundle name |
| ExportSpec.ExportCollectsCons | fabfile.py:226-231 | a bundled entry in front of a run that collects as promised still collects as promised, with its name first |
| ExportSpec.ExportEndsCons | fabfile.py:216-231 | a bundled entry in front of a run that ends as promised still ends as promised |
| ExportSpec.ExportFromStep | fabfile.py:216-231 | one turn of the loop keeps its promise |
| ExportSpec.ExportStopsAtEmptyPath | fabfile.py:220 | an entry whose path is empty stops the loop before any command runs |
| ExportSpec.ExportStopsAtFailure | fabfile.py:227-230 | a failed `bundle create` stops the loop right after it, and is the last event logged |
| ExportSpec.ExportFromKeeps | fabfile.py:216-231 | from any entry on, the names collected extend the earlier ones with one name per entry, in order; each bundle file exists and its successful `bundle create` was logged; the loop completes exactly when every entry was bundled, and otherwise stops at the first entry with an empty path or a failed create |
| ExportSpec.GitBundleKeeps | fabfile.py:182-235 | a missing repository aborts before anything runs; otherwise the loop's promise holds for the listing, named against the base of the bundle file and written next to it |
| ExportSpec.GitBundleOneNamePerEntry | fabfile.py:210-235 | a completed export returns exactly one name per listed entry, in listing order; each name encodes the entry's path relative to the repository; each bundle file exists, and a successful `bundle create` of it, run in the entry's directory, is logged |
| ImportSpec.Target | fabfile.py:267-270 | an explicit repository directory is the target; otherwise the target is the bundle's base name, without `/` |
| ImportSpec.ModuleDirs | fabfile.py:288-293 | one module directory per sibling bundle, each decoded from the sibling's name below the target |
| ImportSpec.ImportModules | fabfile.py:288-295 | the sibling loop aborts only with an error of the helper |
| ImportSpec.ImportModule | fabfile.py:295 | one sibling's turn aborts only with an error of the helper |
| ImportSpec.GitUnbundle | fabfile.py:238-295 | a missing bundle aborts with nothing changed; the import reports a non-empty target exactly when the bundle exists, `force` is off and the target exists, and then changes nothing; any other abort is an error of the helper |
| ImportSpec.ImportModuleSplit | fabfile.py:295 | one sibling's turn is a helper run that keeps the helper's promise, followed, unless it aborted, by the siblings after it |
| ImportSpec.ImportModulesStep | fabfile.py:288-295 | one turn of the sibling loop either ends the import with the helper's abort or continues with the next sibling |
| ImportSpec.GitUnbundleMainAborts | fabfile.py:281 | when the main bundle's helper call aborts, the import ends with that abort and no sibling is tried |
| ImportSpec.GitUnbundleAfterMain | fabfile.py:281-295 | once the main bundle's helper call completed, the import continues with the sibling loop from that state |
| ImportSpec.ImportModulesApplies | fabfile.py:288-295 | the sibling loop applies, in order, a prefix of the remaining siblings: all of them exactly when it completes |
| ImportSpec.HelperThen | fabfile.py:281-295 | a helper call followed by a loop that applies a prefix of the rest applies a prefix of the whole sequence |
| ImportSpec.GitUnbundleOrder | fabfile.py:238-295 | the import applies, in order, a prefix of the main bundle followed by the listed siblings: all of them exactly when it completes, so no sibling is applied before the main bundle; a missing bundle, or an existing target without `force`, aborts with nothing changed |
| ImportSpec.EmptyListingAborts | fabfile.py:285-295 | an empty sibling listing reaches the loop as one empty line, and the import then aborts at it with a missing bundle |
| ImportSpec.ExportedModuleLandsInPlace | fabfile.py:220-222 | a sibling bundle written for the module at `rel` is imported into `<target>/<rel>` |
| ImportSpec.HelperOutsideRepository | fabfile.py:119-134 | the helper for a main directory that exists but neither holds nor lies inside a repository logs a failed `remote add` and aborts with nothing else changed |
| ImportSpec.ImportIntoNonRepository | fabfile.py:119-134 | a forced import into an existing directory that neither holds nor lies inside a repository stops at `remote add`; nothing is cloned and nothing is applied |
| DeploySpec.TempDir | fabfile.py:309 | the temporary directory is `<path>/temp`, whose parent is `<path>` (`<path>temp` after a trailing `/`) |
| DeploySpec.Paths | fabfile.py:323-325 | one remote path per bundle name, each the name joined to the temporary directory |
| DeploySpec.UploadAdds | fabfile.py:330 | an upload adds its file and its event, and changes nothing else |
| DeploySpec.UploadAll | fabfile.py:322-330 | the uploads add exactly the uploaded files and extend the log by one event per path; directories, repositories and applied bundles stay as they were |
| DeploySpec.UploadEventsAt | fabfile.py:323-330 | the `j`-th upload event is the upload of the `j`-th path |
| DeploySpec.UploadAllLog | fabfile.py:322-330 | the uploads append to the log exactly the upload events of the paths |
| DeploySpec.UploadAllLogs | fabfile.py:322-330 | the `j`-th event the uploads log is the upload of the `j`-th path |
| DeploySpec.UploadAllFrom | fabfile.py:323-330 | uploading from the `i`-th path on is uploading the `i`-th path, then the rest |
| DeploySpec.MakeDirAdds | fabfile.py:319 | `dir_ensure` succeeds exactly when the directory or its parent exists; it then adds the directory alone; it applies nothing |
| DeploySpec.Stage | fabfile.py:318-330 | staging completes exactly when `dir_ensure` can make the directory; otherwise it logs the failed `mkdir`, aborts, and changes nothing else |
| DeploySpec.StageAdds | fabfile.py:318-330 | completed staging adds the temporary directory and every uploaded file, and nothing else; repositories stay the same; one event for the directory and one per upload; nothing is applied either way |
| DeploySpec.StageKeepsApplied | fabfile.py:318-330 | staging only appends to the log and applies nothing |
| DeploySpec.StageLogsInOrder | fabfile.py:318-330 | staging logs the directory first, as succeeded or failed, then, when it succeeded, one upload per path, in order |
| DeploySpec.StagedInto | fabfile.py:318-330 | staging into a directory whose parent exists completes, with every upload in place, repositories unchanged, and nothing applied |
| DeploySpec.ShipBundles | fabfile.py:316-332 | the remote part aborts at `dir_ensure` exactly when the temporary directory cannot be made; it never reports a non-empty target, as the import is forced; any other abort is an error of the helper |
| DeploySpec.ShipStaged | fabfile.py:321-332 | after staging completed, the remote part is the forced import of the first uploaded bundle into the deploy path |
| DeploySpec.DeployBundle | fabfile.py:298-332 | a local path that does not exist aborts with both hosts unchanged and no name; a deployment never reports a non-empty target |
| DeploySpec.DeployTouchesRemoteOnlyWithBundles | fabfile.py:311-314 | the remote host changes only when the export returned at least one name, one per listed entry; an existing local path with an empty listing returns with both hosts unchanged; the listing `[""]` that an empty `find` output gives aborts at its empty path instead |
| DeploySpec.ShipUploadsInOrder | fabfile.py:318-330 | the remote host first tries to make `<deploy>/temp`; once it exists, every exported bundle is uploaded into it, in export order |
| DeploySpec.ShipImportsFirstUpload | fabfile.py:321-332 | the import starts from the first uploaded bundle: the remote applies, in order, a prefix of that bundle followed by the listed siblings, and all of them when the deployment completes |
| DeploySpec.ShipStagedApplies | fabfile.py:321-332 | once staging completed, the remote applies a prefix of the first uploaded bundle followed by the siblings |
| DeploySpec.ImportFromStaged | fabfile.py:321-332 | what the import applies after staging is what it applies relative to the host before staging |
| DeploySpec.ShiftPrefix | fabfile.py:318-332 | steps that apply nothing do not change what a later run applies |
| DeploySpec.ShipIntoMissingPathStops | fabfile.py:318-319 | deploying into a path that does not exist stops at `dir_ensure` of `<deploy>/temp`, with a failed `mkdir` logged, nothing uploaded and nothing applied |
| DeploySpec.ShipFromStaged | fabfile.py:321-332 | a forced import, after staging, into an existing directory that neither holds nor lies inside a repository stops at `remote add` and applies nothing |
| DeploySpec.ShipIntoFreshPathStops | fabfile.py:318-332 | deploying into an existing directory that neither holds nor lies inside a repository stops at `remote add`: the path exists, so the import skips the clone, and nothing is applied |
| DeploySpec.DeployShipsExport | fabfile.py:307-332 | the local host ends as the export leaves it; an export that completed with names ships exactly those names (one per listed entry) through the staging and import above |
| Fabfile.Host.constructor | fabfile.py:307-316 | a host starts in the given state |
| Fabfile.Host.RunCommand | fabfile.py:61 | running a command changes the host exactly as `World.Exec` says |
| Fabfile.Host.Check | fabfile.py:75-78 | a checked command changes the host and reports the outcome exactly as `UnbundleSpec.Step` says |
| Fabfile.Host.FetchThenUnbundle | fabfile.py:74-83 | runs fetch then unbundle as `UnbundleSpec.FetchThenUnbundle` says |
| Fabfile.Host.ReconcileModule | fabfile.py:51-83 | the existing-submodule branch, as `UnbundleSpec.ReconcileModule` says |
| Fabfile.Host.ActivateModule | fabfile.py:86-116 | the new-submodule branch, as `UnbundleSpec.ActivateModule` says |
| Fabfile.Host.ReconcileRoot | fabfile.py:119-163 | the existing-main-repository branch, as written, as `UnbundleSpec.ReconcileRootAsWritten` says |
| Fabfile.Host.UnbundleHelper | fabfile.py:28-179 | the helper, as written, changes the host and ends exactly as `UnbundleSpec.Helper` says, so `HelperKeeps` holds for it |
| Fabfile.Host.GitBundle | fabfile.py:182-235 | the export loop leaves the host, the names and the outcome exactly as `ExportSpec.GitBundle` says, so `GitBundleKeeps` and `GitBundleOneNamePerEntry` hold for it |
| Fabfile.Host.ImportModules | fabfile.py:288-295 | the sibling loop ends exactly as `ImportSpec.ImportModules` says, so `ImportModulesApplies` holds for it |
| Fabfile.Host.GitUnbundle | fabfile.py:238-295 | the import ends exactly as `ImportSpec.GitUnbundle` says, so `GitUnbundleOrder` holds for it |
| Fabfile.Host.Stage | fabfile.py:318-330 | staging leaves the host and ends as `DeploySpec.Stage` says; once it completed, the main file is the first uploaded path (empty when there is none) |
| Fabfile.DeployBundle | fabfile.py:298-332 | the deployment leaves both hosts, the names and the outcome exactly as `DeploySpec.DeployBundle` says |

## Left out

- Fabric aborts a task by itself when a command fails outside `warn_only`. The model follows only the script's own checks. So the unchecked `remote add` and `remote set-url` of fabfile.py:61 and fabfile.py:69 let the run continue in the model. It then aborts at the following fetch when the remote is missing.
- Output, `print` and the exit code: `sys.exit(1)` becomes an `Abort` outcome carrying the reason.
- The `find`, `sort` and `git bundle list-heads` commands are not modelled. Their output is an input: the listing's lines as `split('\n')` gives them, and the first head.
- Every command's success is an input bit, restricted by the refusals `Succeeds` lists.
- The egrep URL check `^<remote>[[:space:]]+<bundle>` is modelled as "the remote exists and its URL starts with the bundle path". The bundle path is taken literally, not as a regular expression. The grep `^<remote>$` is modelled as "the remote exists".
- ExportSpec.RelPath: it covers the paths `find` prints below the repository (the repository itself, or a path below `<repo>/`), with trailing slashes removed from either side. It does no normalisation of `..`, of repeated or inner slashes, or of paths relative to the working directory.
- ImportSpec.HelperOutsideRepository, ImportSpec.ImportIntoNonRepository, DeploySpec.ShipFromStaged, DeploySpec.ShipIntoFreshPathStops: git finds a repository from any directory below its work tree, and the model does not, so these require `NoEnclosingRepository`. Where a repository encloses the directory, git would run `remote add` and the commands after it on that repository.
- ExportSpec.ExportFrom: for the same reason, a listed entry inside another repository's work tree is bundled in the model only if it is itself a repository; git would bundle the enclosing repository.
- `dir_ensure` is called without `recursive`, so it runs a plain `mkdir`. A `mkdir` without a parent fails, which Fabric turns into an abort. The model records this as the outcome `MakeDirFailed`, after logging the failed command.
- Paths are not resolved against the working directory. `git bundle create` runs inside each listed repository (fabfile.py:226-227), so a relative bundle path would land below that repository. The model records the path as given.
- The not-empty check of fabfile.py:274-279 always aborts when the target exists and `force` is off, because `split` never returns an empty list. It is modelled as exactly that, without the listing.
- `mode_local()` and `mode_remote()` switch which host the commands reach. They become two distinct `Host` objects.
- `file_upload` of a local file that does not exist is not modelled: an upload always succeeds.
- `dir_ensure` and `file_upload` do not run in a repository directory, so their events carry the empty directory.
- The contents of bundles and repositories (commits, refs, object transfer) are not modelled. A repository records which bundles were applied to it, in order.

## Findings

| source | as written | input that shows it | evidently intended | confidence | as-written member | corrected member |
|---|---|---|---|---|---|---|
| fabfile.py:136-152 | When the `bundle` remote of an existing main repository exists, a URL that fails the check aborts ("failed to check remote") even under `force`. A URL that passes it aborts ("wrong URL") without `force`. The helper, the import and the deployment model this as written (`ReconcileRootAsWritten`); the corrected `ReconcileRoot` is proved separately, and `ReconcileRootExtendsAsWritten` shows it agrees wherever the code as written gets through. | An existing repository `/r` whose `bundle` remote points at `/old.bundle`, imported from `/new.bundle` with `force` and every command succeeding: it aborts and nothing changes. | As in the submodule branch (fabfile.py:63-72) and the comments at fabfile.py:137 and fabfile.py:145: a matching URL is used as it is; a differing one is re-pointed at the bundle under `force` and refused without it. | not executed | UnbundleSpec.ForcedRebindRefusedAsWritten | UnbundleSpec.ReconcileRootRebindsUnderForce |
