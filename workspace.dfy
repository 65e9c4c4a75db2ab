/**
 * The project directory the commands act on: composer.json (decoded), which
 * other paths exist, and the append-only record of the external commands and
 * Robo tasks issued. The external tools themselves are described by `Host`.
 */
module Workspace {
  import opened Results
  import opened Json

  /** An external process or Robo task, as issued. */
  datatype Command =
    | Exec(commandLine: string)                                   // `$this->_exec(...)`
    | ComposerRequire(composer: string, packages: seq<string>, dev: bool)
    | ComposerConfigSet(composer: string, key: string, value: string)
    | Copy(source: string, target: string)                        // `$this->_copy(...)`
    | Touch(path: string)                                         // `taskFilesystemStack()->touch(...)`
    | WriteFile(path: string)                                     // `file_put_contents(...)` of a file other than composer.json

  /**
   * What the machine and the external tools do during one run. `composerOnPath`
   * and `dockerOnPath` are the answers of `which composer` and `which docker`;
   * a successful `composer require` records `requiredConstraint` for the
   * package in composer.json, a successful `composer config` records the value;
   * `drupal:scaffold` writes the files in `scaffolded` and leaves composer.json alone.
   */
  datatype Host = Host(
    composerOnPath: bool,
    dockerOnPath: bool,
    requireSucceeds: bool,
    requiredConstraint: string,
    configSucceeds: bool,
    scaffolded: set<string>)

  /** The observable state of the project directory. */
  datatype Disk = Disk(manifest: Json, files: set<string>, log: seq<Command>)

  /** The state after a step, and whether the step threw. */
  datatype Run = Run(disk: Disk, outcome: Result<()>)

  /** The effect of `composer require <pkg>` on composer.json. */
  function AfterRequire(m: Json, h: Host, pkg: string): (r: Json)
    ensures !h.requireSucceeds ==> r == m
    ensures h.requireSucceeds ==> Get(r, ["require", pkg]) == Some(Str(h.requiredConstraint))
  {
    GetSet(m, ["require", pkg], Str(h.requiredConstraint));
    if h.requireSucceeds then Set(m, ["require", pkg], Str(h.requiredConstraint)) else m
  }

  /** The effect of `composer config <path> <value>` on composer.json. */
  function AfterConfig(m: Json, h: Host, p: Path, value: string): (r: Json)
    ensures !h.configSucceeds ==> r == m
    ensures h.configSucceeds ==> Get(r, p) == Some(Str(value))
  {
    GetSet(m, p, Str(value));
    if h.configSucceeds then Set(m, p, Str(value)) else m
  }

  /** The project directory as a mutable object: composer.json is read and saved in place. */
  class Project {
    var manifest: Json
    var files: set<string>
    var log: seq<Command>

    function State(): Disk
      reads this
    {
      Disk(manifest, files, log)
    }

    constructor (d: Disk)
      ensures State() == d
    {
      manifest, files, log := d.manifest, d.files, d.log;
    }
  }
}
