/**
 * `CommonCommands`, the base class of the orchestration commands: the
 * software requirements table, the `drush` wrapper and what is built on it,
 * and its copy of `installDependencies`, which lets a drush failure escape.
 */
module CommonCommands {
  import opened Results
  import opened Workspace
  import opened Dependencies

  const NotFoundPath := "!!! Does not exist !!!"
  const MissingSoftwareMessage := "You are missing a piece of software, please download and re-run."
  const NoDrushPathSuffix := " must implement set the property path_to_drush"
  const BootstrapSuccessful := "Drupal bootstrap : Successful"
  const NotInstalledMessage := "Drupal is not installed or the environment is not started."
  const StatusArgs: seq<string> := ["status", "--fields=bootstrap"]

  /** A row of the software table, keyed like the headers. */
  type Row = map<string, string>

  /** `softwareTableHeaders()`. */
  function Headers(): Row {
    map["name" := "Name", "bin" := "Bin Searched", "file_path" := "Found At", "download" := "Download", "requirements" := "Requirements"]
  }

  /** `executableFilePath($bin)`: the trimmed answer of `which`, for the binaries `which` finds. */
  function ExecutableFilePath(which: map<string, string>, bin: string): (r: Option<string>)
    ensures r.Some? <==> bin in which
  {
    if bin in which then Some(which[bin]) else None
  }

  /** The row `addSoftwareTableRow` builds from the headers. */
  function SoftwareRow(name: string, bin: string, download: string, requirements: string, found: Option<string>): (row: Row)
    ensures row.Keys == Headers().Keys
    ensures row["name"] == name && row["bin"] == bin
    ensures row["download"] == download && row["requirements"] == requirements
    ensures found.Some? ==> row["file_path"] == found.value
    ensures found.None? ==> row["file_path"] == NotFoundPath
  {
    var filePath := match found case Some(p) => p case None => NotFoundPath;
    Headers()["name" := name]["bin" := bin]["file_path" := filePath]["download" := download]["requirements" := requirements]
  }

  /** The rows passed by reference to `addSoftwareTableRow`. */
  class SoftwareTable {
    var rows: seq<Row>

    constructor ()
      ensures rows == []
    {
      rows := [];
    }

    /** `addSoftwareTableRow(...)`: one row appended, the others kept; true iff the binary was found. */
    method AddSoftwareTableRow(name: string, bin: string, download: string, requirements: string, which: map<string, string>)
      returns (found: bool)
      modifies this
      ensures rows == old(rows) + [SoftwareRow(name, bin, download, requirements, ExecutableFilePath(which, bin))]
      ensures found <==> bin in which
    {
      var filePath := ExecutableFilePath(which, bin);
      var row := SoftwareRow(name, bin, download, requirements, filePath);
      rows := rows + [row];
      found := filePath.Some?;
    }
  }

  /** `printSoftWareTable`: throws exactly when some software was missing. */
  function PrintSoftwareTable(rows: seq<Row>, missingSoftware: bool): (r: Result<()>)
    ensures r.Fail? <==> missingSoftware
    ensures r.Fail? ==> r.message == MissingSoftwareMessage
  {
    if missingSoftware then Fail(MissingSoftwareMessage) else Ok(())
  }

  /** What `taskExec(...)->run()` reports. */
  datatype ExecResult = ExecResult(successful: bool, message: string)

  /** A call that may throw, with the commands it issued. */
  datatype Called<T> = Called(result: Result<T>, issued: seq<Command>)

  /** The drush command line for `args`. */
  function DrushLine(pathToDrush: string, args: seq<string>): string {
    pathToDrush + " " + Implode(" ", args)
  }

  /**
   * `drush($args)`: throws without a drush path and issues nothing; otherwise
   * runs drush, and `stopOnFail()` turns an unsuccessful run into an exception.
   */
  function Drush(pathToDrush: string, calledClass: string, args: seq<string>, run: ExecResult): (c: Called<string>)
    ensures c.result.Fail? <==> EmptyString(pathToDrush) || !run.successful
    ensures EmptyString(pathToDrush) ==> c == Called(Fail(calledClass + NoDrushPathSuffix), [])
    ensures !EmptyString(pathToDrush) ==> c.issued == [Exec(DrushLine(pathToDrush, args))]
    ensures c.result.Ok? ==> c.result.value == run.message
  {
    if EmptyString(pathToDrush) then Called(Fail(calledClass + NoDrushPathSuffix), [])
    else if !run.successful then Called(Fail(run.message), [Exec(DrushLine(pathToDrush, args))])
    else Called(Ok(run.message), [Exec(DrushLine(pathToDrush, args))])
  }

  /**
   * `isDrupalInstalled($return)`: drush status must report a successful
   * bootstrap; with `$return` the answer is returned, without it a negative
   * answer throws.
   */
  function IsDrupalInstalled(pathToDrush: string, calledClass: string, giveAnswer: bool, run: ExecResult): (c: Called<bool>)
    ensures c.issued == Drush(pathToDrush, calledClass, StatusArgs, run).issued
    ensures Drush(pathToDrush, calledClass, StatusArgs, run).result.Fail? ==>
      c.result == Fail(Drush(pathToDrush, calledClass, StatusArgs, run).result.message)
  {
    var d := Drush(pathToDrush, calledClass, StatusArgs, run);
    match d.result
    case Fail(e) => Called(Fail(e), d.issued)
    case Ok(message) =>
      var installed := message == BootstrapSuccessful;
      if giveAnswer then Called(Ok(installed), d.issued)
      else if !installed then Called(Fail(NotInstalledMessage), d.issued)
      else Called(Ok(true), d.issued)
  }

  /** With `$return`, the call throws only when drush does, and otherwise answers whether the bootstrap succeeded. */
  lemma IsDrupalInstalledAnswer(pathToDrush: string, calledClass: string, run: ExecResult)
    ensures var c := IsDrupalInstalled(pathToDrush, calledClass, true, run);
      && (c.result.Ok? <==> !EmptyString(pathToDrush) && run.successful)
      && (c.result.Ok? ==> (c.result.value <==> run.message == BootstrapSuccessful))
  {
  }

  /** Without `$return`, a call that does not throw answers true, and it does not throw exactly when drush ran and reported the bootstrap. */
  lemma IsDrupalInstalledStrict(pathToDrush: string, calledClass: string, run: ExecResult)
    ensures var c := IsDrupalInstalled(pathToDrush, calledClass, false, run);
      && (c.result.Ok? ==> c.result.value)
      && (c.result.Ok? <==> !EmptyString(pathToDrush) && run.successful && run.message == BootstrapSuccessful)
      && (!EmptyString(pathToDrush) && run.successful && run.message != BootstrapSuccessful ==>
            c.result == Fail(NotInstalledMessage))
  {
  }

  /** The outcome of one bucket's `composer require` and of the drush run that enables its modules. */
  datatype Batch = Batch(requireOk: bool, drush: ExecResult)

  /** One bucket's part of a run: what it adds to `$success`, what it issues, and the exception that ends the run, if any. */
  datatype Stage = Stage(success: seq<bool>, issued: seq<Command>, failure: Option<string>)

  function BatchStage(pathToDrush: string, calledClass: string, bucket: seq<string>, dev: bool, b: Batch): Stage {
    if bucket == [] then Stage([], [], None)
    else if EmptyString(pathToDrush) then Stage([b.requireOk], [RequireCommand(bucket, dev)], None)
    else
      var d := Drush(pathToDrush, calledClass, [EnableArgs(bucket)], b.drush);
      if d.result.Fail? then Stage([b.requireOk], [RequireCommand(bucket, dev)] + d.issued, Some(d.result.message))
      else Stage([b.requireOk, true], [RequireCommand(bucket, dev)] + d.issued, None)
  }

  /** `installDependencies` of CommonCommands, as a whole. */
  function InstallRun(pathToDrush: string, calledClass: string, projects: seq<string>, installed: set<string>,
                      c: Choices, regular: Batch, dev: Batch): Install
  {
    if Refused(c) then Install(Fail(AskDevWithoutAskMessage), [])
    else
      var missing := NotInstalled(projects, installed);
      if missing == [] then Install(Ok(true), Probes(projects))
      else
        var s1 := BatchStage(pathToDrush, calledClass, Bucket(missing, c, false), false, regular);
        if s1.failure.Some? then Install(Fail(s1.failure.value), Probes(projects) + s1.issued)
        else
          var s2 := BatchStage(pathToDrush, calledClass, Bucket(missing, c, true), true, dev);
          if s2.failure.Some? then Install(Fail(s2.failure.value), Probes(projects) + s1.issued + s2.issued)
          else Install(Ok(false !in s1.success + s2.success), Probes(projects) + s1.issued + s2.issued)
  }

  /** The inconsistent call throws before a single probe. */
  lemma InstallRefused(pathToDrush: string, calledClass: string, projects: seq<string>, installed: set<string>,
                       c: Choices, regular: Batch, dev: Batch)
    ensures Refused(c) ==> InstallRun(pathToDrush, calledClass, projects, installed, c, regular, dev) == Install(Fail(AskDevWithoutAskMessage), [])
    ensures var run := InstallRun(pathToDrush, calledClass, projects, installed, c, regular, dev);
      Refused(c) <==> run.result.Fail? && run.issued == []
  {
    if !Refused(c) {
      var missing := NotInstalled(projects, installed);
      if missing != [] {
        NotInstalledMembers(projects, installed, missing[0]);
        assert |Probes(projects)| > 0;
      }
    }
  }

  /**
   * When every project is installed the call succeeds after the probes alone:
   * no `composer require` and no drush run.
   */
  lemma InstallNothingMissing(pathToDrush: string, calledClass: string, projects: seq<string>, installed: set<string>,
                              c: Choices, regular: Batch, dev: Batch)
    requires !Refused(c)
    requires forall i :: 0 <= i < |projects| ==> projects[i] in installed
    ensures InstallRun(pathToDrush, calledClass, projects, installed, c, regular, dev) == Install(Ok(true), Probes(projects))
  {
    NotInstalledEmpty(projects, installed);
  }

  /**
   * Without a drush path ("" or "0", both `empty()`) the run never throws past the first check: it
   * requires each non-empty bucket once, regular first, and succeeds exactly
   * when every `composer require` it ran succeeded.
   */
  lemma InstallWithoutDrush(pathToDrush: string, calledClass: string, projects: seq<string>, installed: set<string>,
                            c: Choices, regular: Batch, dev: Batch)
    requires !Refused(c) && EmptyString(pathToDrush)
    requires NotInstalled(projects, installed) != []
    ensures var missing := NotInstalled(projects, installed);
      var r := Bucket(missing, c, false);
      var d := Bucket(missing, c, true);
      InstallRun(pathToDrush, calledClass, projects, installed, c, regular, dev) ==
        Install(Ok((r == [] || regular.requireOk) && (d == [] || dev.requireOk)),
                Probes(projects) + (if r == [] then [] else [RequireCommand(r, false)])
                                 + (if d == [] then [] else [RequireCommand(d, true)]))
  {
  }

  /**
   * With a drush path, a drush run that fails ends the run with its
   * exception: the copy in CommonCommands does not swallow it. Otherwise the
   * run's answer is that of the `composer require`s.
   */
  lemma InstallDrushFailurePropagates(pathToDrush: string, calledClass: string, projects: seq<string>, installed: set<string>,
                                      c: Choices, regular: Batch, dev: Batch)
    requires !Refused(c) && !EmptyString(pathToDrush)
    requires NotInstalled(projects, installed) != []
    ensures var missing := NotInstalled(projects, installed);
      var r := Bucket(missing, c, false);
      var d := Bucket(missing, c, true);
      var run := InstallRun(pathToDrush, calledClass, projects, installed, c, regular, dev);
      && (r != [] && !regular.drush.successful ==> run.result == Fail(regular.drush.message))
      && (run.result.Fail? <==> (r != [] && !regular.drush.successful) || (d != [] && !dev.drush.successful))
      && (run.result.Ok? ==> run.result.value == ((r == [] || regular.requireOk) && (d == [] || dev.requireOk)))
  {
    var missing := NotInstalled(projects, installed);
    var r := Bucket(missing, c, false);
    var d := Bucket(missing, c, true);
    var s1 := BatchStage(pathToDrush, calledClass, r, false, regular);
    var s2 := BatchStage(pathToDrush, calledClass, d, true, dev);
    assert s1.failure.Some? <==> r != [] && !regular.drush.successful;
    assert s2.failure.Some? <==> d != [] && !dev.drush.successful;
    assert s1.failure.None? ==> (false !in s1.success <==> (r == [] || regular.requireOk));
    assert s2.failure.None? ==> (false !in s2.success <==> (d == [] || dev.requireOk));
    assert false in s1.success + s2.success <==> false in s1.success || false in s2.success;
  }

  /** The command object: subclasses set the drush path; `calledClass` is what `get_called_class()` answers. */
  class Commands {
    var pathToDrush: string
    var calledClass: string

    constructor (pathToDrush: string, calledClass: string)
      ensures this.pathToDrush == pathToDrush && this.calledClass == calledClass
    {
      this.pathToDrush := pathToDrush;
      this.calledClass := calledClass;
    }

    /** One bucket: its `composer require`, then, with a drush path, `drush en -y` of its modules. */
    method RunBatch(bucket: seq<string>, dev: bool, b: Batch) returns (stage: Stage)
      ensures stage == BatchStage(pathToDrush, calledClass, bucket, dev, b)
    {
      stage := Stage([], [], None);
      if bucket != [] {
        stage := Stage([b.requireOk], [RequireCommand(bucket, dev)], None);
        if !EmptyString(pathToDrush) {
          var d := Drush(pathToDrush, calledClass, [EnableArgs(bucket)], b.drush);
          if d.result.Fail? {
            return Stage(stage.success, stage.issued + d.issued, Some(d.result.message));
          }
          stage := Stage(stage.success + [true], stage.issued + d.issued, None);
        }
      }
    }

    /** `installDependencies(...)`, step by step. */
    method InstallDependencies(projects: seq<string>, installed: set<string>, c: Choices, regular: Batch, dev: Batch)
      returns (result: Result<bool>, issued: seq<Command>)
      ensures Install(result, issued) == InstallRun(pathToDrush, calledClass, projects, installed, c, regular, dev)
    {
      if !c.ask && c.askDevDep {
        return Fail(AskDevWithoutAskMessage), [];
      }
      var missing;
      missing, issued := ProbeAll(projects, installed);
      if missing == [] {
        return Ok(true), issued;
      }
      var installProjects, installProjectsDev := ChooseBuckets(missing, c);
      var first := RunBatch(installProjects, false, regular);
      issued := issued + first.issued;
      if first.failure.Some? {
        return Fail(first.failure.value), issued;
      }
      var second := RunBatch(installProjectsDev, true, dev);
      issued := issued + second.issued;
      if second.failure.Some? {
        return Fail(second.failure.value), issued;
      }
      result := Ok(false !in first.success + second.success);
    }
  }
}
