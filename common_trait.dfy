/**
 * `CommonTrait`, shared by the plugin commands: the default local
 * environment, where a binary such as composer is run from, and its copy of
 * `installDependencies`, which swallows drush exceptions.
 */
module CommonTrait {
  import opened Results
  import opened Json
  import opened Workspace
  import opened Dependencies
  import opened RoboConfig

  // ---------------------------------------------------------------------------
  // getDefaultLocalEnvironment()
  // ---------------------------------------------------------------------------

  const DefaultLocalEnvironmentKey: Path := ["flags", "common", "defaultLocalEnvironment"]
  const NotInitializedMessage := "Cannot call this until the local environment has been initialized."

  /** The check on the value read from the local layer: an empty value means no environment was set up. */
  function DefaultLocalEnvironment(v: Json): (r: Result<Json>)
    ensures r.Fail? <==> IsEmpty(Some(v))
    ensures r.Fail? ==> r.message == NotInitializedMessage
    ensures r.Ok? ==> r.value == v
  {
    if IsEmpty(Some(v)) then Fail(NotInitializedMessage) else Ok(v)
  }

  /** `getDefaultLocalEnvironment()`: read the local layer, with `[]` as the default. */
  method GetDefaultLocalEnvironment(cfg: Config) returns (r: Result<Json>)
    modifies cfg
    ensures cfg.active == Reload(old(cfg.active), Layer(old(cfg.files), LocalFile))
    ensures cfg.files == old(cfg.files)
    ensures r == DefaultLocalEnvironment(Lookup(cfg.active, DefaultLocalEnvironmentKey, Arr([])))
  {
    var v := cfg.GetConfig(DefaultLocalEnvironmentKey, Arr([]), true);
    if IsEmpty(Some(v)) {
      return Fail(NotInitializedMessage);
    }
    return Ok(v);
  }

  /** A default environment is found exactly when the local layer holds a non-empty value for it. */
  lemma DefaultLocalEnvironmentFromLayer(active: Json, files: map<string, Json>)
    ensures var v := Lookup(Reload(active, Layer(files, LocalFile)), DefaultLocalEnvironmentKey, Arr([]));
      var layer := Get(Layer(files, LocalFile), DefaultLocalEnvironmentKey);
      && (DefaultLocalEnvironment(v).Ok? <==> !IsEmpty(layer))
      && (DefaultLocalEnvironment(v).Ok? ==> Some(DefaultLocalEnvironment(v).value) == layer)
  {
  }

  // ---------------------------------------------------------------------------
  // getBinaryLocation() and askForBinaryLocation()
  // ---------------------------------------------------------------------------

  /**
   * How a binary is run: through `getLocalEnvCommand($name, ...)`, which is
   * not part of this model (its second argument, when given), or by a command
   * string: a path on this machine or the caller's docker command.
   */
  datatype Binary = LocalEnvCommand(name: string, secondArg: Option<bool>) | Direct(command: string)

  /** The answer to "Would you like to run ... from your local machine, ...?". */
  datatype Pick = LocalMachine | LocalEnvironment | Docker | Unrecognised(answer: string)

  /**
   * What a lookup decides: the location or the exception, the record saved to
   * the local layer, whether the user was prompted, whether a stale path was
   * reported, and the `_exec` commands it issued.
   */
  datatype Located = Located(result: Result<Binary>, save: Option<Json>, prompted: bool, warnedStale: bool, issued: seq<Command>)

  const PathRequiredMessage := "A path is required."
  const DockerMissingMessage := "Docker could not be found on your system."
  const DockerBinary := "docker"
  const LocalMachineType := "local_machine"
  const LocalEnvironmentType := "local_environment"
  const DockerType := "docker"

  function PathMissingMessage(path: string): string {
    "The path '" + path + "' does not exist on your machine."
  }

  function InvalidChoiceMessage(name: string): string {
    "Invalid operation when choosing path to " + name
  }

  /** `'flags.common.paths.' . $name`, for a name without dots. */
  function FlagPath(name: string): Path {
    ["flags", "common", "paths", name]
  }

  /** The record a choice is saved as. */
  function Record(kind: string): Json {
    Obj(map["type" := Str(kind)])
  }

  function MachineRecord(path: string): Json {
    Obj(map["type" := Str(LocalMachineType), "path" := Str(path)])
  }

  /** The `switch ($path_config['type'])` cases that return without prompting; `exe` are the arguments `which` accepts. */
  function CachedChoice(cached: Json, dockerRun: string, exe: set<string>): Option<Binary> {
    if IsEmpty(Some(cached)) then None
    else if Get(cached, ["type"]) == Some(Str(LocalEnvironmentType)) then Some(LocalEnvCommand("composer", Some(false)))
    else if Get(cached, ["type"]) == Some(Str(LocalMachineType)) then
      match Get(cached, ["path"])
      case Some(Str(p)) => if !EmptyString(p) && p in exe then Some(Direct(p)) else None
      case _ => None
    else if Get(cached, ["type"]) == Some(Str(DockerType)) then Some(Direct(dockerRun))
    else None
  }

  /** A cached local-machine choice that cannot be reused, which the user is warned about. */
  predicate Stale(cached: Json, exe: set<string>) {
    !IsEmpty(Some(cached)) && Get(cached, ["type"]) == Some(Str(LocalMachineType)) && CachedChoice(cached, "", exe).None?
  }

  /** The prompt and the handling of the user's answer; `entered` is the path typed at "Enter the full path to ...". */
  function Prompt(name: string, dockerRun: string, pick: Pick, entered: string, exe: set<string>, stale: bool): Located {
    match pick
    case LocalMachine =>
      var issued := [Exec("whereis " + name)];
      if |name| == 0 then Located(Fail(PathRequiredMessage), None, true, stale, issued)
      else if entered !in exe then Located(Fail(PathMissingMessage(entered)), None, true, stale, issued)
      else Located(Ok(Direct(entered)), Some(MachineRecord(entered)), true, stale, issued)
    case LocalEnvironment =>
      Located(Ok(LocalEnvCommand("composer", Some(false))), Some(Record(LocalEnvironmentType)), true, stale, [])
    case Docker =>
      if DockerBinary in exe then Located(Ok(Direct(dockerRun)), Some(Record(DockerType)), true, stale, [])
      else Located(Fail(DockerMissingMessage), None, true, stale, [])
    case Unrecognised(_) => Located(Fail(InvalidChoiceMessage(name)), None, true, stale, [])
  }

  /** `askForBinaryLocation($io, $name, $docker_run)`, given the cached record. */
  function AskForBinaryLocation(name: string, dockerRun: string, cached: Json, pick: Pick, entered: string, exe: set<string>): Located {
    match CachedChoice(cached, dockerRun, exe)
    case Some(b) => Located(Ok(b), None, false, false, [])
    case None => Prompt(name, dockerRun, pick, entered, exe, Stale(cached, exe))
  }

  /** `getBinaryLocation($io, $name, $docker_run, $local_machine_allowed)`; `localEnv` is whether DRUPAL_ENV_LOCAL is set. */
  function GetBinaryLocation(localEnv: bool, localMachineAllowed: bool, name: string, dockerRun: string,
                             cached: Json, pick: Pick, entered: string, exe: set<string>): Located {
    if localEnv then Located(Ok(LocalEnvCommand(name, None)), None, false, false, [])
    else if !localMachineAllowed then Located(Ok(LocalEnvCommand(name, Some(false))), None, false, false, [])
    else AskForBinaryLocation(name, dockerRun, cached, pick, entered, exe)
  }

  /** Inside the local environment the binary is the environment's own, whatever else holds; nothing is read, asked or saved. */
  lemma InsideEnvironmentFirst(localMachineAllowed: bool, name: string, dockerRun: string,
                               cached: Json, pick: Pick, entered: string, exe: set<string>)
    ensures GetBinaryLocation(true, localMachineAllowed, name, dockerRun, cached, pick, entered, exe)
      == Located(Ok(LocalEnvCommand(name, None)), None, false, false, [])
  {
  }

  /** Outside it, a binary that may not run on this machine goes through the local environment, without a prompt. */
  lemma LocalMachineNotAllowed(name: string, dockerRun: string, cached: Json, pick: Pick, entered: string, exe: set<string>)
    ensures GetBinaryLocation(false, false, name, dockerRun, cached, pick, entered, exe)
      == Located(Ok(LocalEnvCommand(name, Some(false))), None, false, false, [])
  {
  }

  /**
   * A cached local-machine path is used without a prompt exactly when it is a
   * non-empty path that `which` accepts; otherwise the user is warned and
   * asked again.
   */
  lemma CachedPathReusedOnlyIfValid(name: string, dockerRun: string, path: string, pick: Pick, entered: string, exe: set<string>)
    ensures var l := AskForBinaryLocation(name, dockerRun, MachineRecord(path), pick, entered, exe);
      && (!l.prompted <==> !EmptyString(path) && path in exe)
      && (!l.prompted ==> l.result == Ok(Direct(path)) && l.save.None?)
      && (l.prompted ==> l.warnedStale && l == Prompt(name, dockerRun, pick, entered, exe, true))
  {
    assert Get(MachineRecord(path), ["type"]) == Some(Str(LocalMachineType));
    assert Get(MachineRecord(path), ["path"]) == Some(Str(path));
  }

  /** A cached docker choice gives the docker command and a cached environment choice the environment's composer, without a prompt. */
  lemma CachedChoicesReused(name: string, dockerRun: string, pick: Pick, entered: string, exe: set<string>)
    ensures AskForBinaryLocation(name, dockerRun, Record(DockerType), pick, entered, exe)
      == Located(Ok(Direct(dockerRun)), None, false, false, [])
    ensures AskForBinaryLocation(name, dockerRun, Record(LocalEnvironmentType), pick, entered, exe)
      == Located(Ok(LocalEnvCommand("composer", Some(false))), None, false, false, [])
  {
    assert Get(Record(DockerType), ["type"]) == Some(Str(DockerType));
    assert Get(Record(LocalEnvironmentType), ["type"]) == Some(Str(LocalEnvironmentType));
  }

  /** Nothing is saved unless the user was asked and the answer led to a location; a thrown answer saves nothing. */
  lemma SavedOnlyOnSuccess(name: string, dockerRun: string, cached: Json, pick: Pick, entered: string, exe: set<string>)
    ensures var l := AskForBinaryLocation(name, dockerRun, cached, pick, entered, exe);
      && (l.save.Some? ==> l.result.Ok? && l.prompted)
      && (l.result.Fail? ==> l.save.None?)
      && (pick == Docker && l.prompted ==> (l.result.Fail? <==> DockerBinary !in exe))
      && (pick == LocalMachine && l.prompted && |name| > 0 ==> (l.result.Fail? <==> entered !in exe))
  {
  }

  /**
   * The path check tests the binary's name, not the entered path: with a
   * name, an empty entered path is reported as a path that does not exist, and
   * without one, even a valid path is refused. An entered "" is an answer that
   * reaches the check as a string; a blank answer without a default comes back
   * from `ask` as `null`, which `executableFilePath(string)` rejects with a
   * type error, and the model does not tell that case apart.
   */
  lemma PathCheckTestsName(name: string, dockerRun: string, exe: set<string>, entered: string)
    requires "" !in exe
    ensures |name| > 0 ==> Prompt(name, dockerRun, LocalMachine, "", exe, false).result == Fail(PathMissingMessage(""))
    ensures Prompt("", dockerRun, LocalMachine, entered, exe, false).result == Fail(PathRequiredMessage)
  {
  }

  /**
   * A saved choice is what the next lookup finds: asking again with the saved
   * record as the cached value returns the same location without a prompt.
   */
  lemma ChoiceIsRemembered(name: string, dockerRun: string, cached: Json, pick: Pick, entered: string, exe: set<string>,
                           pick2: Pick, entered2: string)
    requires !EmptyString(entered)
    ensures var l := AskForBinaryLocation(name, dockerRun, cached, pick, entered, exe);
      l.save.Some? ==>
        AskForBinaryLocation(name, dockerRun, l.save.value, pick2, entered2, exe) == Located(l.result, None, false, false, [])
  {
    var l := AskForBinaryLocation(name, dockerRun, cached, pick, entered, exe);
    if l.save.Some? {
      if pick == LocalMachine {
        CachedPathReusedOnlyIfValid(name, dockerRun, entered, pick2, entered2, exe);
      } else {
        CachedChoicesReused(name, dockerRun, pick2, entered2, exe);
      }
    }
  }

  /**
   * `askForBinaryLocation` on the configuration: the record is read from the
   * local layer and a new choice is saved there with the trait's `saveConfig`.
   * `writable` is whether the layer file can be written.
   */
  method AskForBinaryLocationIn(cfg: Config, name: string, dockerRun: string, pick: Pick, entered: string,
                                exe: set<string>, writable: bool)
    returns (result: Result<Binary>, issued: seq<Command>)
    modifies cfg
    ensures var a1 := Reload(old(cfg.active), Layer(old(cfg.files), LocalFile));
      var l := AskForBinaryLocation(name, dockerRun, Lookup(a1, FlagPath(name), Arr([])), pick, entered, exe);
      && result == l.result && issued == l.issued
      && (l.save.None? ==> cfg.active == a1 && cfg.files == old(cfg.files))
      && (l.save.Some? ==>
            && cfg.active == Set(Reload(a1, Layer(old(cfg.files), LocalFile)), FlagPath(name), l.save.value)
            && cfg.files == if writable then old(cfg.files)[LocalFile := StripOptions(cfg.active)] else old(cfg.files))
  {
    var cached := cfg.GetConfig(FlagPath(name), Arr([]), true);
    var l := AskForBinaryLocation(name, dockerRun, cached, pick, entered, exe);
    if l.save.Some? {
      var ok := cfg.SaveConfig(FlagPath(name), l.save.value, true, writable);
    }
    result, issued := l.result, l.issued;
  }

  /** `getBinaryLocation` on the configuration: the configuration is only consulted when the user may be asked. */
  method GetBinaryLocationIn(cfg: Config, localEnv: bool, localMachineAllowed: bool, name: string, dockerRun: string,
                             pick: Pick, entered: string, exe: set<string>, writable: bool)
    returns (result: Result<Binary>, issued: seq<Command>)
    modifies cfg
    ensures localEnv || !localMachineAllowed ==>
      && cfg.active == old(cfg.active) && cfg.files == old(cfg.files)
      && result == GetBinaryLocation(localEnv, localMachineAllowed, name, dockerRun, Arr([]), pick, entered, exe).result
      && issued == []
    ensures !localEnv && localMachineAllowed ==>
      var a1 := Reload(old(cfg.active), Layer(old(cfg.files), LocalFile));
      var l := GetBinaryLocation(localEnv, localMachineAllowed, name, dockerRun, Lookup(a1, FlagPath(name), Arr([])), pick, entered, exe);
      result == l.result && issued == l.issued
  {
    if localEnv {
      return Ok(LocalEnvCommand(name, None)), [];
    } else if !localMachineAllowed {
      return Ok(LocalEnvCommand(name, Some(false))), [];
    }
    result, issued := AskForBinaryLocationIn(cfg, name, dockerRun, pick, entered, exe, writable);
  }

  // ---------------------------------------------------------------------------
  // installDependencies() of the trait
  // ---------------------------------------------------------------------------

  /** The trait's `drush(...)`, which is not part of this model: it may throw, or report a result. */
  datatype DrushRun = Raised | Ran(successful: bool)

  /** One bucket's outcomes: its `composer require`, whether `commonGetDrushPath` returns, and the drush run. */
  datatype TraitBatch = TraitBatch(requireOk: bool, drushPathFound: bool, drush: DrushRun)

  /** What one bucket adds to `$success`: the require result, and the drush result unless an exception was swallowed. */
  function TraitSuccess(bucket: seq<string>, b: TraitBatch): seq<bool> {
    if bucket == [] then []
    else [b.requireOk] + (if b.drushPathFound && b.drush.Ran? then [b.drush.successful] else [])
  }

  function TraitIssued(bucket: seq<string>, dev: bool): seq<Command> {
    if bucket == [] then [] else [RequireCommand(bucket, dev)]
  }

  /** `installDependencies` of the trait, as a whole. */
  function TraitInstallRun(projects: seq<string>, installed: set<string>, c: Choices, regular: TraitBatch, dev: TraitBatch): Install {
    if Refused(c) then Install(Fail(AskDevWithoutAskMessage), [])
    else
      var missing := NotInstalled(projects, installed);
      if missing == [] then Install(Ok(true), Probes(projects))
      else
        var r := Bucket(missing, c, false);
        var d := Bucket(missing, c, true);
        Install(Ok(false !in TraitSuccess(r, regular) + TraitSuccess(d, dev)),
                Probes(projects) + TraitIssued(r, false) + TraitIssued(d, true))
  }

  /** A bucket's contribution is all true exactly when its require succeeded and no reported drush run failed. */
  lemma TraitSuccessAllTrue(bucket: seq<string>, b: TraitBatch)
    ensures false !in TraitSuccess(bucket, b) <==>
      bucket == [] || (b.requireOk && !(b.drushPathFound && b.drush == Ran(false)))
  {
  }

  /**
   * The trait's copy never throws once the first check passes: an exception
   * while finding or running drush is swallowed, so the answer is decided by
   * the requires and by drush runs that did report.
   */
  lemma TraitDrushExceptionsSwallowed(projects: seq<string>, installed: set<string>, c: Choices, regular: TraitBatch, dev: TraitBatch)
    requires !Refused(c)
    ensures var run := TraitInstallRun(projects, installed, c, regular, dev);
      var missing := NotInstalled(projects, installed);
      var r := Bucket(missing, c, false);
      var d := Bucket(missing, c, true);
      && run.result.Ok?
      && (missing != [] ==>
            (run.result.value <==>
               (r == [] || (regular.requireOk && !(regular.drushPathFound && regular.drush == Ran(false))))
               && (d == [] || (dev.requireOk && !(dev.drushPathFound && dev.drush == Ran(false))))))
  {
    var missing := NotInstalled(projects, installed);
    if missing != [] {
      var r := Bucket(missing, c, false);
      var d := Bucket(missing, c, true);
      TraitSuccessAllTrue(r, regular);
      TraitSuccessAllTrue(d, dev);
      assert false in TraitSuccess(r, regular) + TraitSuccess(d, dev) <==>
        false in TraitSuccess(r, regular) || false in TraitSuccess(d, dev);
    }
  }

  /** The same refusal and trivial success as in CommonCommands. */
  lemma TraitInstallRefusedOrTrivial(projects: seq<string>, installed: set<string>, c: Choices, regular: TraitBatch, dev: TraitBatch)
    ensures Refused(c) ==> TraitInstallRun(projects, installed, c, regular, dev) == Install(Fail(AskDevWithoutAskMessage), [])
    ensures !Refused(c) && (forall i :: 0 <= i < |projects| ==> projects[i] in installed) ==>
      TraitInstallRun(projects, installed, c, regular, dev) == Install(Ok(true), Probes(projects))
  {
    NotInstalledEmpty(projects, installed);
  }

  /** One bucket of the trait's run. */
  method TraitRunBatch(bucket: seq<string>, dev: bool, b: TraitBatch) returns (success: seq<bool>, issued: seq<Command>)
    ensures success == TraitSuccess(bucket, b) && issued == TraitIssued(bucket, dev)
  {
    success, issued := [], [];
    if bucket != [] {
      issued := [RequireCommand(bucket, dev)];
      success := [b.requireOk];
      if b.drushPathFound {
        match b.drush {
          case Raised =>
          case Ran(ok) => success := success + [ok];
        }
      }
    }
  }

  /** `installDependencies(...)` of the trait, step by step. */
  method TraitInstallDependencies(projects: seq<string>, installed: set<string>, c: Choices, regular: TraitBatch, dev: TraitBatch)
    returns (result: Result<bool>, issued: seq<Command>)
    ensures Install(result, issued) == TraitInstallRun(projects, installed, c, regular, dev)
  {
    if !c.ask && c.askDevDep {
      return Fail(AskDevWithoutAskMessage), [];
    }
    var missing;
    missing, issued := ProbeAll(projects, installed);
    if missing == [] {
      return Ok(true), issued;
    }
    var installProjects, installProjectsDev := ChooseBuckets(missing, c);
    var s1, i1 := TraitRunBatch(installProjects, false, regular);
    var s2, i2 := TraitRunBatch(installProjectsDev, true, dev);
    issued := issued + i1 + i2;
    result := Ok(false !in s1 + s2);
  }
}
