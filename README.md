# drupal-env: scaffolding, pre-scaffold adjustments, dependency installer and binary locator

drupal-env is a set of Robo commands, written in PHP, for setting up a Drupal
development environment. This project models the logic under their prompts and
shell calls, and proves properties of it. The model covers:

- **The scaffolding bracket** (`updateScaffolding`). It snapshots composer.json
  and runs the pre-scaffold adjustments unless they are disabled. Then it adds
  the package to `extra.drupal-scaffold.allowed-packages`, runs
  `composer drupal:scaffold` and removes the package again. Last, it runs
  `composer update --lock` when composer.json changed.
- **The pre-scaffold adjustments** (`preScaffoldChanges`). Each is a guarded
  update of composer.json or of the file set: the hash-salt file, the
  composer-patches plugin, settings.php, the RoboEnv autoload and .gitignore.
  Then the scaffold `gitignore` flag, the post-drupal-scaffold command upsert
  and `extra.patches-file`.
- **The dependency installer** (`installDependencies`), in both copies. There
  is one in the CommonCommands class and one in the CommonTrait trait.
- **The binary locator** (`getBinaryLocation`, `askForBinaryLocation`).
- **The two configuration layers** the trait keeps in Robo's configuration.
- **`genUuidV4`** (RFC 4122 section 4.4).
- **The small helpers**: the software table, `drush`, `isDrupalInstalled`,
  `getComposerPath`, `getPackageName` and `getDefaultLocalEnvironment`.

Modules:

- `Results`: `Option`, `Result` (`Ok`/`Fail(message)`), PHP's `empty()` on strings, and `implode`.
- `Json`: composer.json and the YAML layers as a tree. `Get`/`Set` on key paths (`Set` auto-vivifies objects as PHP does), `??`, `empty()`, and list access.
- `Workspace`: the project directory: composer.json, the set of existing paths, and the append-only log of issued commands. It also gives the `Host` oracle for the external tools, and the `Project` object whose composer.json is saved in place.
- `DrupalEnvCommandsBase`: the command object (`package_name`, `disable_pre_scaffolding`), `getComposerPath`, and `enableScaffolding`/`disableScaffolding`.
- `DrupalEnvCommands`: each pre-scaffold step as a function on the directory, the whole step sequence, the steps as methods on `Project`, and `updateScaffolding`/`scaffold` for the concrete class.
- `RoboConfig`: `Robo::Config()` and the layer files roboConfDrupalEnv.yml and roboConfDrupalEnv.local.yml, plus `switchConfig`, `getConfig` and both `saveConfig`s.
- `Dependencies`: what the two installers share: the refusal, the `composer show` probes and the buckets.
- `CommonCommands`: the software table, `drush`, `isDrupalInstalled` and the class's `installDependencies`.
- `CommonTrait`: `getDefaultLocalEnvironment`, the binary locator and the trait's `installDependencies`.
- `Uuid`: `genUuidV4` on 16 caller-supplied bytes, with its inverse.

Every external effect is an input. These are:

- `which composer` / `which docker`: `Host.composerOnPath` / `dockerOnPath`.
- What `composer require` and `composer config` do to composer.json: `Host`.
- The files `drupal:scaffold` writes: `Host.scaffolded`.
- `which <path>`: the set `exe` of executable paths.
- The `composer show` probes: the set `installed`.
- The confirm answers: the sets `accept` and `acceptDev`.
- The choice and the entered path: `pick` and `entered`.
- The drush results: `ExecResult` / `DrushRun`.
- Whether a YAML file can be written: `writable`.
- `DRUPAL_ENV_LOCAL`: `localEnv`.

The commands issued are recorded in a log, so contracts can say what was run and in what order.

## Model

| member | source | states |
|---|---|---|
| Results.Implode | scaffolding/Robo/CommonCommands.php:372 | `implode` of no piece is empty and of one piece is that piece |
| Results.ImplodeAppend | scaffolding/Robo/CommonCommands.php:373 | joining two non-empty runs of pieces is joining each and putting the glue between them, so every further piece adds the glue and itself |
| Json.Coalesce | src/Robo/Plugin/Commands/DrupalEnvCommands.php:43 | `??` yields the stored value when it is set and not null, and the default when the key is missing |
| Json.Append | src/Robo/Plugin/Commands/DrupalEnvCommands.php:86 | `$list[] = v` makes the list at the path the old list followed by `v` |
| Json.GetSet | src/Robo/Plugin/Commands/DrupalEnvCommands.php:51 | after an assignment to a key path, reading that path gives the value written |
| Json.GetSetOther | src/Robo/Plugin/Commands/DrupalEnvCommands.php:51 | an assignment to a key path changes no path that diverges from it |
| Json.SetGet | src/Robo/Plugin/Commands/DrupalEnvCommands.php:64 | writing back the value a path already holds leaves the tree unchanged |
| Json.SetSet | src/Robo/Plugin/Commands/DrupalEnvCommands.php:81 | a second assignment to the same path overrides the first |
| Json.InValuesSet | src/Robo/Plugin/Commands/DrupalEnvCommands.php:50-51 | after `psr-4[k] = v`, `v` is among the values of `psr-4` |
| Json.ListSetOther | src/Robo/Plugin/Commands/DrupalEnvCommandsBase.php:156-157 | an assignment elsewhere leaves a list and its members unchanged |
| Workspace.AfterRequire | src/Robo/Plugin/Commands/DrupalEnvCommands.php:37 | a successful `composer require` records the constraint under `require`; a failed one leaves composer.json unchanged |
| Workspace.AfterConfig | src/Robo/Plugin/Commands/DrupalEnvCommands.php:93 | a successful `composer config` sets the key; a failed one leaves composer.json unchanged |
| Workspace.Project.constructor | src/Robo/Plugin/Commands/DrupalEnvCommandsBase.php:130-145 | the project object holds the given composer.json, files and log |
| DrupalEnvCommandsBase.ScaffoldCommand.constructor | src/Robo/Plugin/Commands/DrupalEnvCommandsBase.php:20-28 | a command starts with its package name and with pre-scaffolding enabled |
| DrupalEnvCommandsBase.ScaffoldCommand.GetPackageName | src/Robo/Plugin/Commands/DrupalEnvCommandsBase.php:37-43 | throws iff the package name is PHP-empty ("" or "0"), otherwise returns it |
| DrupalEnvCommandsBase.ScaffoldCommand.Retarget | src/Robo/Plugin/Commands/DrupalEnvCommandsBase.php:76-79 | a non-empty argument becomes the package name and disables pre-scaffolding; an empty one changes neither field |
| DrupalEnvCommandsBase.GetComposerPath | src/Robo/Plugin/Commands/DrupalEnvCommandsBase.php:52-63 | `composer` if found, else the docker wrapper if docker is found, and it throws iff neither is found |
| DrupalEnvCommandsBase.Enabled | src/Robo/Plugin/Commands/DrupalEnvCommandsBase.php:156-157 | the package is present afterwards; the list is unchanged if it was present, else the package is appended at the end |
| DrupalEnvCommandsBase.FirstIndex | src/Robo/Plugin/Commands/DrupalEnvCommandsBase.php:175 | `array_search` finds the first position holding the package |
| DrupalEnvCommandsBase.FirstIndexLeast | src/Robo/Plugin/Commands/DrupalEnvCommandsBase.php:175 | the found position is at or before every position holding the package |
| DrupalEnvCommandsBase.RemoveFirstAt | src/Robo/Plugin/Commands/DrupalEnvCommandsBase.php:175-176 | `unset` at the found key removes exactly the first occurrence; the other entries keep their order |
| DrupalEnvCommandsBase.RemoveFirstAbsent | src/Robo/Plugin/Commands/DrupalEnvCommandsBase.php:175 | an absent package leaves the list unchanged |
| DrupalEnvCommandsBase.EnabledNoDuplicates | src/Robo/Plugin/Commands/DrupalEnvCommandsBase.php:153-163 | enabling never creates a duplicate in a duplicate-free list |
| DrupalEnvCommandsBase.EnabledIdempotent | src/Robo/Plugin/Commands/DrupalEnvCommandsBase.php:153-163 | enabling twice is enabling once |
| DrupalEnvCommandsBase.RemoveFirstAppended | src/Robo/Plugin/Commands/DrupalEnvCommandsBase.php:157-176 | removing the first copy of a package just appended to a list without it gives the list back |
| DrupalEnvCommandsBase.EnableThenDisable | src/Robo/Plugin/Commands/DrupalEnvCommandsBase.php:153-181 | from a duplicate-free list, enable then disable leaves the package absent; an originally absent package leaves the list as it was; a present one is removed from its place |
| DrupalEnvCommandsBase.DisableKeepsSecondCopy | src/Robo/Plugin/Commands/DrupalEnvCommandsBase.php:175-176 | whenever the list holds the package at two positions, enable then disable leaves a copy behind, since `array_search` finds the first copy only |
| DrupalEnvCommandsBase.EnableManifest | src/Robo/Plugin/Commands/DrupalEnvCommandsBase.php:153-163 | allowed-packages becomes `Enabled` of the old list, and composer.json is untouched when the package is present |
| DrupalEnvCommandsBase.DisableManifest | src/Robo/Plugin/Commands/DrupalEnvCommandsBase.php:172-181 | allowed-packages loses its first copy of the package, and composer.json is untouched when the package is absent |
| DrupalEnvCommandsBase.EnableDisableScenario | src/Robo/Plugin/Commands/DrupalEnvCommandsBase.php:153-181 | with no allowed-packages key, enable creates `[pkg]`, a second enable changes nothing, and disable leaves `[]` |
| DrupalEnvCommandsBase.EnableDisableRestores | src/Robo/Plugin/Commands/DrupalEnvCommandsBase.php:153-181 | if the list exists without the package, the bracket restores composer.json exactly |
| DrupalEnvCommandsBase.BracketResult | src/Robo/Plugin/Commands/DrupalEnvCommandsBase.php:153-181 | from a duplicate-free list, the bracket leaves the list without the package, as the old list with its one copy removed |
| DrupalEnvCommandsBase.BracketFrame | src/Robo/Plugin/Commands/DrupalEnvCommandsBase.php:153-181 | the bracket changes nothing outside allowed-packages |
| DrupalEnvCommandsBase.EnableScaffolding | src/Robo/Plugin/Commands/DrupalEnvCommandsBase.php:153-163 | saves `EnableManifest` and returns true iff the package was absent; files and log untouched |
| DrupalEnvCommandsBase.DisableScaffolding | src/Robo/Plugin/Commands/DrupalEnvCommandsBase.php:172-181 | saves `DisableManifest` and returns true iff the package was present; files and log untouched |
| DrupalEnvCommands.RTrimSlash | src/Robo/Plugin/Commands/DrupalEnvCommands.php:44 | `rtrim($s, '/')`: a prefix that does not end in '/', with only '/' removed |
| DrupalEnvCommands.Replaced | src/Robo/Plugin/Commands/DrupalEnvCommands.php:79-84 | the in-place overwrite keeps the list length |
| DrupalEnvCommands.HasMarkedAt | src/Robo/Plugin/Commands/DrupalEnvCommands.php:71-76 | `array_filter` finds a match iff some entry contains the marker text |
| DrupalEnvCommands.ReplacedAt | src/Robo/Plugin/Commands/DrupalEnvCommands.php:79-84 | each entry with the marker becomes the canonical command and every other entry is untouched |
| DrupalEnvCommands.CommandIsMarked | src/Robo/Plugin/Commands/DrupalEnvCommands.php:75-77 | the canonical command contains the marker text |
| DrupalEnvCommands.UpsertProperties | src/Robo/Plugin/Commands/DrupalEnvCommands.php:70-88 | the canonical command is present afterwards. With a marked entry, marked entries are replaced in place and others untouched; without one, the command is appended. The upsert is idempotent |
| DrupalEnvCommands.RequireFrame | src/Robo/Plugin/Commands/DrupalEnvCommands.php:35-38 | requiring the plugin only touches `require.cweagans/composer-patches` |
| DrupalEnvCommands.AutoloadFrame | src/Robo/Plugin/Commands/DrupalEnvCommands.php:50-53 | the autoload step only touches `autoload.psr-4.RoboEnv\` |
| DrupalEnvCommands.GitignoreFlagFrame | src/Robo/Plugin/Commands/DrupalEnvCommands.php:63-66 | the flag step only touches `extra.drupal-scaffold.gitignore` |
| DrupalEnvCommands.PostScaffoldCmdFrame | src/Robo/Plugin/Commands/DrupalEnvCommands.php:70-88 | the upsert only touches `scripts.post-drupal-scaffold-cmd` |
| DrupalEnvCommands.PatchesFrame | src/Robo/Plugin/Commands/DrupalEnvCommands.php:91-94 | the patches step only touches `extra.patches-file` |
| DrupalEnvCommands.MiddleFrame | src/Robo/Plugin/Commands/DrupalEnvCommands.php:49-88 | the three in-process edits touch only their own keys |
| DrupalEnvCommands.PostScaffoldCmdList | src/Robo/Plugin/Commands/DrupalEnvCommands.php:69-88 | the step stores the upsert of the old command list |
| DrupalEnvCommands.PreManifestRequire | src/Robo/Plugin/Commands/DrupalEnvCommands.php:35-38 | the plugin is required only when its `require` entry is empty, and a failed require leaves it as it was |
| DrupalEnvCommands.PreManifestAutoload | src/Robo/Plugin/Commands/DrupalEnvCommands.php:50-53 | './RoboEnv/' is a psr-4 value afterwards; psr-4 is untouched when it already was one, else `RoboEnv\` maps to it |
| DrupalEnvCommands.PreManifestGitignore | src/Robo/Plugin/Commands/DrupalEnvCommands.php:63-66 | the flag becomes false exactly when `?? true` of it is truthy (so an unset flag is written), else it is unchanged |
| DrupalEnvCommands.PreManifestPostScaffoldCmds | src/Robo/Plugin/Commands/DrupalEnvCommands.php:70-88 | the whole run leaves the command list as the upsert of the original list |
| DrupalEnvCommands.PreManifestPatchesFile | src/Robo/Plugin/Commands/DrupalEnvCommands.php:91-94 | `extra.patches-file` is set to composer.patches.json iff it was something else and `composer config` succeeds |
| DrupalEnvCommands.PreManifestFrame | src/Robo/Plugin/Commands/DrupalEnvCommands.php:23-95 | keys no step writes are unchanged, among them allowed-packages and the web root |
| DrupalEnvCommands.SettingsPathsAreLong | src/Robo/Plugin/Commands/DrupalEnvCommands.php:45 | the settings paths are never the salt file or .gitignore |
| DrupalEnvCommands.FirstStepsEffect | src/Robo/Plugin/Commands/DrupalEnvCommands.php:28-38 | the salt file exists after the first step (written only if absent), and the require is issued only when the entry is empty |
| DrupalEnvCommands.MiddleStepsEffect | src/Robo/Plugin/Commands/DrupalEnvCommands.php:42-66 | settings.php is copied only when missing while the default exists; .gitignore exists afterwards |
| DrupalEnvCommands.LastStepEffect | src/Robo/Plugin/Commands/DrupalEnvCommands.php:91-94 | `composer config extra.patches-file` is issued only when the key differs |
| DrupalEnvCommands.PreScaffoldFailure | src/Robo/Plugin/Commands/DrupalEnvCommands.php:37 | the adjustments throw iff a composer call is needed and neither composer nor docker is found |
| DrupalEnvCommands.SaltInvisibleLater | src/Robo/Plugin/Commands/DrupalEnvCommands.php:28-47 | creating the salt file does not change the settings.php decision |
| DrupalEnvCommands.PreScaffoldCommands | src/Robo/Plugin/Commands/DrupalEnvCommands.php:23-95 | with composer available, the run succeeds with the planned commands and files and with the composed composer.json |
| DrupalEnvCommands.PreManifestSettles | src/Robo/Plugin/Commands/DrupalEnvCommands.php:23-95 | when the external commands do what is asked, composer.json is settled afterwards |
| DrupalEnvCommands.FilesSettledAfter | src/Robo/Plugin/Commands/DrupalEnvCommands.php:28-58 | the files the steps create are all present afterwards |
| DrupalEnvCommands.PreScaffoldFilesSettled | src/Robo/Plugin/Commands/DrupalEnvCommands.php:28-58 | after the run the salt file and .gitignore exist, and settings.php exists when its default does |
| DrupalEnvCommands.PreScaffoldSettles | src/Robo/Plugin/Commands/DrupalEnvCommands.php:23-95 | a run with cooperative tools settles composer.json and the files |
| DrupalEnvCommands.PreManifestSettledNoOp | src/Robo/Plugin/Commands/DrupalEnvCommands.php:23-95 | a settled composer.json is left unchanged |
| DrupalEnvCommands.PreScaffoldSettledNoOp | src/Robo/Plugin/Commands/DrupalEnvCommands.php:23-95 | on a settled project the run succeeds, keeps composer.json and, with the files settled, changes and issues nothing |
| DrupalEnvCommands.SettledPlanEmpty | src/Robo/Plugin/Commands/DrupalEnvCommands.php:23-95 | on a settled project nothing is planned |
| DrupalEnvCommands.PreScaffoldIdempotent | src/Robo/Plugin/Commands/DrupalEnvCommands.php:23-95 | a second run makes no further composer.json, file or log change |
| DrupalEnvCommands.CreateHashSalt | src/Robo/Plugin/Commands/DrupalEnvCommands.php:28-30 | the project afterwards is `SaltStep` of the project before |
| DrupalEnvCommands.RequirePatchesPlugin | src/Robo/Plugin/Commands/DrupalEnvCommands.php:35-38 | the project and outcome are `RequirePatchesStep` of the project before |
| DrupalEnvCommands.CopySettings | src/Robo/Plugin/Commands/DrupalEnvCommands.php:42-47 | the project afterwards is `SettingsCopyStep` of the project before |
| DrupalEnvCommands.AddRoboEnvAutoload | src/Robo/Plugin/Commands/DrupalEnvCommands.php:50-53 | composer.json becomes `AutoloadStep` of the old one; nothing else changes |
| DrupalEnvCommands.TouchGitignore | src/Robo/Plugin/Commands/DrupalEnvCommands.php:56-58 | the project afterwards is `GitignoreFileStep` of the project before |
| DrupalEnvCommands.DisableScaffoldGitignore | src/Robo/Plugin/Commands/DrupalEnvCommands.php:62-66 | composer.json becomes `GitignoreFlagStep` of the old one; nothing else changes |
| DrupalEnvCommands.UpsertPostScaffoldCmd | src/Robo/Plugin/Commands/DrupalEnvCommands.php:69-88 | the `foreach` over matches overwrites in place, or appends; composer.json becomes `PostScaffoldCmdStep` of the old one |
| DrupalEnvCommands.SetPatchesFile | src/Robo/Plugin/Commands/DrupalEnvCommands.php:91-94 | the project and outcome are `PatchesFileStep` of the project before |
| DrupalEnvCommands.PreScaffoldChanges | src/Robo/Plugin/Commands/DrupalEnvCommands.php:23-95 | the step sequence on the project equals `PreScaffold`, whose properties are proved above |
| DrupalEnvCommands.UpdateScaffoldingOutcome | src/Robo/Plugin/Commands/DrupalEnvCommandsBase.php:90-116 | without composer and docker nothing happens and the run throws; otherwise it throws only at the end, iff the package name is PHP-empty |
| DrupalEnvCommands.PreStageLog | src/Robo/Plugin/Commands/DrupalEnvCommandsBase.php:97-99 | the pre-scaffold stage only appends to the log and issues no `_exec` |
| DrupalEnvCommands.PreStageAllowedPackages | src/Robo/Plugin/Commands/DrupalEnvCommandsBase.php:97-99 | the pre-scaffold stage does not touch allowed-packages |
| DrupalEnvCommands.ScaffoldStageLock | src/Robo/Plugin/Commands/DrupalEnvCommandsBase.php:102-113 | after enable, scaffold and disable, the only commands among the new log entries are one `drupal:scaffold` and then, iff composer.json differs from the snapshot, one `update --lock`, and the log ends with them |
| DrupalEnvCommands.LockUpdatedIffChanged | src/Robo/Plugin/Commands/DrupalEnvCommandsBase.php:94-113 | a run keeps the old log as prefix; its commands are `drupal:scaffold` once and then `update --lock` once iff composer.json after disable differs from the snapshot before the pre-scaffold steps, with nothing after them |
| DrupalEnvCommands.ScaffoldStageBracket | src/Robo/Plugin/Commands/DrupalEnvCommandsBase.php:102-108 | the stage issues `drupal:scaffold`, brings in the scaffolded files and leaves the package absent |
| DrupalEnvCommands.ScaffoldBracket | src/Robo/Plugin/Commands/DrupalEnvCommandsBase.php:90-108 | after a run `drupal:scaffold` was issued, the scaffolded files exist, the package is absent and the rest of allowed-packages is kept |
| DrupalEnvCommands.SettledBracket | src/Robo/Plugin/Commands/DrupalEnvCommandsBase.php:102-108 | the enable/disable bracket keeps a settled composer.json settled |
| DrupalEnvCommands.WebRootBracket | src/Robo/Plugin/Commands/DrupalEnvCommandsBase.php:102-108 | the bracket does not move the web root |
| DrupalEnvCommands.ScaffoldStageAgain | src/Robo/Plugin/Commands/DrupalEnvCommandsBase.php:102-113 | when the bracket restores the snapshot and the files are there, only `drupal:scaffold` is issued |
| DrupalEnvCommands.PreStageSettledNoOp | src/Robo/Plugin/Commands/DrupalEnvCommandsBase.php:97-99 | skipped or settled pre-scaffold steps change nothing |
| DrupalEnvCommands.FirstRunRestorable | src/Robo/Plugin/Commands/DrupalEnvCommandsBase.php:90-113 | after one run, the bracket restores composer.json exactly |
| DrupalEnvCommands.FirstRunSettled | src/Robo/Plugin/Commands/DrupalEnvCommandsBase.php:90-113 | with the pre-scaffold steps on and cooperative tools, a run settles composer.json |
| DrupalEnvCommands.UpdateScaffoldingStable | src/Robo/Plugin/Commands/DrupalEnvCommandsBase.php:90-116 | a second run leaves composer.json and the outcome as the first left them, and issues no `update --lock` |
| DrupalEnvCommands.UpdateScaffoldingConverges | src/Robo/Plugin/Commands/DrupalEnvCommandsBase.php:90-116 | once the files are settled, a second run only issues `drupal:scaffold` again |
| DrupalEnvCommands.ScaffoldWithPackage | src/Robo/Plugin/Commands/DrupalEnvCommandsBase.php:102-113 | enable, `_exec` scaffold, disable and the hash comparison on the project equal `ScaffoldStage` |
| DrupalEnvCommands.UpdateScaffolding | src/Robo/Plugin/Commands/DrupalEnvCommandsBase.php:90-116 | the method's effect and outcome equal `UpdateScaffoldingRun`, whose properties are proved above |
| DrupalEnvCommands.Scaffold | src/Robo/Plugin/Commands/DrupalEnvCommandsBase.php:74-81 | a non-empty name retargets the command and disables pre-scaffolding, an empty one changes neither; then the update runs |
| RoboConfig.StripOptions | scaffolding/Robo/CommonTrait.php:71-72 | the exported configuration loses exactly its `options` key |
| RoboConfig.Reload | scaffolding/Robo/CommonTrait.php:98-108 | after loading a layer, every key other than `options` reads as in the file, and the runtime options stay |
| RoboConfig.Lookup | scaffolding/Robo/CommonTrait.php:88 | `get($key, $default)` returns the stored value, or the default when the key is missing |
| RoboConfig.Config.constructor | scaffolding/Robo/CommonTrait.php:98-108 | the configuration starts with the given active values and layer files |
| RoboConfig.Config.SwitchConfig | scaffolding/Robo/CommonTrait.php:98-108 | picks roboConfDrupalEnv.local.yml iff local, else roboConfDrupalEnv.yml, and loads that layer |
| RoboConfig.Config.SaveConfig | scaffolding/Robo/CommonTrait.php:67-74 | loads the chosen layer, sets the key, writes the configuration without `options` to that file and returns whether the write succeeded |
| RoboConfig.Config.GetConfig | scaffolding/Robo/CommonTrait.php:85-89 | loads the chosen layer and returns the stored value or the default |
| RoboConfig.Config.SaveShared | scaffolding/Robo/CommonCommands.php:84-89 | writes the configuration as it is, without `options`, to roboConfDrupalEnv.yml |
| RoboConfig.SaveThenGet | scaffolding/Robo/CommonTrait.php:67-89 | reading a key back from the layer it was saved to gives the saved value |
| RoboConfig.SaveKeepsLayer | scaffolding/Robo/CommonTrait.php:67-74 | saving one key writes every other key of the layer back as the file held it |
| Dependencies.NotInstalledMembers | scaffolding/Robo/CommonCommands.php:333-339 | a project is listed as missing iff it is among the projects and its probe fails |
| Dependencies.NotInstalledEmpty | scaffolding/Robo/CommonCommands.php:337-339 | nothing is missing iff every probe succeeds |
| Dependencies.ProbesAt | scaffolding/Robo/CommonCommands.php:306-309 | one `./composer show` probe per project, in order |
| Dependencies.ProbeAll | scaffolding/Robo/CommonCommands.php:333-336 | the `array_filter` loop keeps the missing projects in order and issues each probe once |
| Dependencies.BucketAppend | scaffolding/Robo/CommonCommands.php:340-363 | buckets keep input order |
| Dependencies.BucketMembers | scaffolding/Robo/CommonCommands.php:340-363 | a project is in a bucket iff it is missing, taken, and its dev choice matches the bucket |
| Dependencies.Partition | scaffolding/Robo/CommonCommands.php:340-363 | a taken project lands in exactly one bucket, a declined one in neither |
| Dependencies.NotAskingTakesAll | scaffolding/Robo/CommonCommands.php:358-363 | without asking, all missing projects go, in order, to the dev bucket if `dev_dep` and to the regular one otherwise |
| Dependencies.ChooseBuckets | scaffolding/Robo/CommonCommands.php:340-363 | the `foreach` (or `array_keys`) builds exactly `Bucket` of the missing projects for each bucket |
| CommonCommands.ExecutableFilePath | scaffolding/Robo/CommonCommands.php:169-177 | a path is found iff `which` answers |
| CommonCommands.SoftwareRow | scaffolding/Robo/CommonCommands.php:214-220 | the row has the header keys, with the given values and '!!! Does not exist !!!' when the binary is not found |
| CommonCommands.SoftwareTable.constructor | scaffolding/Robo/CommonCommands.php:212 | a table of rows starts empty |
| CommonCommands.SoftwareTable.AddSoftwareTableRow | scaffolding/Robo/CommonCommands.php:212-223 | exactly one row is appended, existing rows are untouched, and the result is true iff the binary was found |
| CommonCommands.PrintSoftwareTable | scaffolding/Robo/CommonCommands.php:239-248 | throws iff some software was missing |
| CommonCommands.Drush | scaffolding/Robo/CommonCommands.php:262-277 | throws without running anything when `path_to_drush` is empty; otherwise runs drush once and throws iff it fails |
| CommonCommands.IsDrupalInstalled | scaffolding/Robo/CommonCommands.php:286-296 | issues the drush status call and propagates its exception |
| CommonCommands.IsDrupalInstalledAnswer | scaffolding/Robo/CommonCommands.php:286-291 | with `$return`, the answer is whether drush reports a successful bootstrap |
| CommonCommands.IsDrupalInstalledStrict | scaffolding/Robo/CommonCommands.php:286-296 | without `$return`, it returns true iff bootstrap succeeded, and throws the not-installed message otherwise |
| CommonCommands.InstallRefused | scaffolding/Robo/CommonCommands.php:329-331 | `ask_dev_dep` without `ask_before_install` throws before any probe, and only then is nothing issued |
| CommonCommands.InstallNothingMissing | scaffolding/Robo/CommonCommands.php:333-339 | when every project is installed, only the probes run and the result is true |
| CommonCommands.InstallWithoutDrush | scaffolding/Robo/CommonCommands.php:365-387 | without a drush path ("" or "0", both `empty()`), each non-empty bucket gets one `composer require` and the result is the AND of the requires |
| CommonCommands.InstallDrushFailurePropagates | scaffolding/Robo/CommonCommands.php:365-387 | a failing drush enable of a non-empty bucket throws; otherwise the result is the AND of the requires |
| CommonCommands.Commands.constructor | scaffolding/Robo/CommonCommands.php:262-266 | the command object holds its drush path and class name |
| CommonCommands.Commands.RunBatch | scaffolding/Robo/CommonCommands.php:365-386 | one bucket's require and enable equal `BatchStage` |
| CommonCommands.Commands.InstallDependencies | scaffolding/Robo/CommonCommands.php:327-388 | the method's result and commands equal `InstallRun`, whose properties are proved above |
| CommonTrait.DefaultLocalEnvironment | scaffolding/Robo/CommonTrait.php:120-123 | throws iff the value is PHP-empty, else returns it unchanged |
| CommonTrait.GetDefaultLocalEnvironment | scaffolding/Robo/CommonTrait.php:117-124 | reads `flags.common.defaultLocalEnvironment` from the local layer, default `[]` |
| CommonTrait.DefaultLocalEnvironmentFromLayer | scaffolding/Robo/CommonTrait.php:117-124 | succeeds iff the local layer holds a non-empty value, and returns that value |
| CommonTrait.InsideEnvironmentFirst | scaffolding/Robo/CommonTrait.php:238-239 | inside the local environment, the env command for `name` is returned without cache, prompt or save |
| CommonTrait.LocalMachineNotAllowed | scaffolding/Robo/CommonTrait.php:246-247 | outside it with the local machine disallowed, `getLocalEnvCommand(name, false)` is returned |
| CommonTrait.CachedPathReusedOnlyIfValid | scaffolding/Robo/CommonTrait.php:280-286 | a cached path is reused iff it is non-empty and executable, otherwise a warning is shown and the user is prompted |
| CommonTrait.CachedChoicesReused | scaffolding/Robo/CommonTrait.php:276-290 | cached docker returns `docker_run`; cached local_environment returns the env command for the literal 'composer' |
| CommonTrait.SavedOnlyOnSuccess | scaffolding/Robo/CommonTrait.php:301-329 | a record is saved only after a prompt that succeeds; Docker fails iff docker is absent, Local Machine (with a named binary) fails iff the path is not executable |
| CommonTrait.PathCheckTestsName | scaffolding/Robo/CommonTrait.php:306-311 | the "path is required" check tests the binary's name: for any non-empty name an empty entered path reaches the existence check and fails there, and only an empty name fails as required |
| CommonTrait.ChoiceIsRemembered | scaffolding/Robo/CommonTrait.php:272-326 | a saved record is answered from the cache next time, with the same result and no prompt |
| CommonTrait.AskForBinaryLocationIn | scaffolding/Robo/CommonTrait.php:268-330 | reads the cached record from the local layer, decides, and saves the record to the local layer exactly when the decision says so |
| CommonTrait.GetBinaryLocationIn | scaffolding/Robo/CommonTrait.php:234-252 | inside the environment, or with the local machine disallowed, the configuration is untouched; otherwise the cached record is consulted |
| CommonTrait.TraitSuccessAllTrue | scaffolding/Robo/CommonTrait.php:417-446 | a batch adds no false iff it is empty, or its require succeeds and drush did not run unsuccessfully |
| CommonTrait.TraitDrushExceptionsSwallowed | scaffolding/Robo/CommonTrait.php:425-446 | past the refusal the trait never throws: drush exceptions are swallowed and the result is the AND over the batches |
| CommonTrait.TraitInstallRefusedOrTrivial | scaffolding/Robo/CommonTrait.php:382-392 | the refusal throws before any probe; with nothing missing, only probes run and the result is true |
| CommonTrait.TraitRunBatch | scaffolding/Robo/CommonTrait.php:417-444 | one bucket's require and enable append the success flags and commands of `TraitSuccess`/`TraitIssued` |
| CommonTrait.TraitInstallDependencies | scaffolding/Robo/CommonTrait.php:380-447 | the method's result and commands equal `TraitInstallRun` |
| Uuid.HexDigit | scaffolding/Robo/CommonCommands.php:57 | `bin2hex` emits lowercase hex digits |
| Uuid.HexValue | scaffolding/Robo/CommonCommands.php:57 | every lowercase hex digit has a value that maps back to it |
| Uuid.HexValueDigit | scaffolding/Robo/CommonCommands.php:57 | digit then value is the identity |
| Uuid.Stamp | scaffolding/Robo/CommonCommands.php:52-54 | the stamped data is still 16 bytes |
| Uuid.BinToHex | scaffolding/Robo/CommonCommands.php:57 | `bin2hex` doubles the length |
| Uuid.BinToHexIndex | scaffolding/Robo/CommonCommands.php:57 | byte i becomes its high then low nibble at positions 2i and 2i+1 |
| Uuid.BinToHexAt | scaffolding/Robo/CommonCommands.php:57 | every byte becomes its two nibbles, high first |
| Uuid.HexToBin | scaffolding/Robo/CommonCommands.php:57 | the inverse of `bin2hex` halves the length |
| Uuid.BinToHexIsHex | scaffolding/Robo/CommonCommands.php:57 | `bin2hex` only emits lowercase hex |
| Uuid.ByteFromNibbles | scaffolding/Robo/CommonCommands.php:57 | a byte is recovered from its two hex digits |
| Uuid.HexRoundTrip | scaffolding/Robo/CommonCommands.php:57 | decoding `bin2hex` gives back the bytes |
| Uuid.LayoutAt | scaffolding/Robo/CommonCommands.php:57 | the `vsprintf` layout is 36 characters with '-' at 8, 13, 18, 23 and the hex digits in order elsewhere |
| Uuid.GenUuidV4 | scaffolding/Robo/CommonCommands.php:45-58 | 36 characters, '-' at 8, 13, 18 and 23, lowercase hex elsewhere |
| Uuid.VersionDigit | scaffolding/Robo/CommonCommands.php:52 | character 14 is always '4' |
| Uuid.VariantDigit | scaffolding/Robo/CommonCommands.php:54 | character 19 is always one of 8, 9, a, b |
| Uuid.UuidRoundTrip | scaffolding/Robo/CommonTrait.php:24-37 | parsing the UUID gives back the stamped bytes |
| Uuid.StampKeepsBits | scaffolding/Robo/CommonTrait.php:31-33 | only the high nibble of byte 6 and the top two bits of byte 8 change; they become 0100 and 10 |
| Uuid.StampDeterminedByFreeBits | scaffolding/Robo/CommonTrait.php:31-33 | two inputs stamp alike iff they agree on every bit the stamp keeps |
| Uuid.UuidDeterminedByData | scaffolding/Robo/CommonTrait.php:24-37 | two inputs give the same UUID iff they agree on every kept bit: every such bit reaches the output |

## Left out

- Process execution, `which`, `whereis`, the composer and drush tasks, user prompts and `yell`/`warning`/`table` output are inputs or log entries. The texts shown to the user are not modelled.
- `random_bytes` and `Crypt::randomBytesBase64`: `genUuidV4` takes its 16 bytes from the caller, and the salt file's content is not modelled, only its existence.
- JSON and YAML encoding, and `md5_file`: composer.json is the decoded tree, and the hash comparison is tree equality.
- RoboConfig.Reload: `Robo::loadConfiguration` is modelled as "the configuration becomes the file's contents, the runtime options stay". Robo merges the loaded file into the configuration it already holds, so keys missing from the file keep their old values there, and the model does not capture that merge. RoboConfig.SaveThenGet and RoboConfig.SaveKeepsLayer hold under this replace reading only.
- PHP array-key artefacts: after `unset`, allowed-packages is a plain sequence, not a list with a gap that `json_encode` would turn into an object.
- Json.List: a value at a list path that is not a list reads as `[]`. PHP does not do that. A string `post-drupal-scaffold-cmd` makes `array_filter` throw a type error (DrupalEnvCommands.php:71), and a string `allowed-packages` makes `in_array` and `array_search` throw one (DrupalEnvCommandsBase.php:156, 175). The model instead overwrites such a value with a list, so the user's own script or package entry is lost where PHP stops.
- PHP's loose comparisons (`in_array` without strict mode, `switch` on the cached `type`) are modelled as equality of values. A non-string web root is not modelled.
- Json.Set: a scalar in the middle of a written key path is replaced by an object, where PHP would fail. A list in the middle of a written key path is replaced by an object too, and its entries are dropped, where PHP keeps them under their numeric keys beside the new one.
- `FlagPath`: the flag key `flags.common.paths.<name>` is split as if the binary name held no dot.
- `drupal:scaffold` and `update --lock` go through `_exec`, which returns a result and does not throw. A failed scaffold is ignored and the steps after it still run.
- `UpdateScaffoldingConverges` needs the files to be settled after the first run: `drupal:scaffold` may bring in default.settings.php, and then settings.php is copied on the following run.
- `getLocalEnvCommand`, `commonGetDrushPath` and the trait's `drush` are not shown. The model records the local-env call symbolically and treats the drush call as an outcome that either raises or runs.
- The trait swallows drush exceptions only. A drush run that completes unsuccessfully still adds `false` to `$success`, as the code at CommonTrait.php:425-444 does.
- The trait's `isDrupalInstalled` (CommonTrait.php:339-350) and its copies of `executableFilePath`, `softwareTableHeaders`, `addSoftwareTableRow`, `printSoftWareTable` and `saveYml` are identical to or rely on collaborators already covered; they are not modelled a second time.
- CommonCommands.Drush: `stopOnFail` is modelled as an exception carrying the task's message; Robo's exact exception text is not visible. Argument escaping of `taskExec` is not modelled: the command line joins the arguments with spaces.
- CommonTrait.PathCheckTestsName: a blank answer to the path prompt with no default comes back from `ask` as `null`, and `executableFilePath(string)` then throws a type error. The model reads that answer as the empty string and does not tell the case apart.
- The default offered by the "Enter the full path" prompt (`executableFilePath($name)`) is not modelled: the entered path is an input.
- `xdebugPhpstormDebugConfig`, the `drupalEnvAdmin*` wizards and `installOptionalDependencies` are UI flows over the modelled operations. settings.drupal_env.php is runtime include plumbing. None are modelled.
- CommonTrait.GetDefaultLocalEnvironment: the PHP return type `array` would reject a non-empty scalar. The model returns any non-empty value.
- CommonCommands.IsDrupalInstalled: its own contract only covers the issued call and error propagation. `IsDrupalInstalledAnswer` and `IsDrupalInstalledStrict` state its answers.
- Uuid.BinToHex: its own contract gives the length only. `BinToHexAt` and `HexRoundTrip` state the digits and the inverse.
- DrupalEnvCommands.Replaced: its own contract gives the length only. `ReplacedAt` states the entries.
