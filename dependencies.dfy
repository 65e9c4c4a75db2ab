/**
 * What the two copies of `installDependencies($io, $ask_before_install,
 * $projects, $dev_dep, $ask_dev_dep)` share: the refusal of an inconsistent
 * call, the `composer show` probe of every project, and the split of the
 * projects that are missing into a regular and a development bucket. The
 * projects are the keys of `$projects`, in order; their descriptions only
 * appear in prompts.
 */
module Dependencies {
  import opened Results
  import opened Workspace

  const ComposerWrapper := "./composer"
  const AskDevWithoutAskMessage := "You must ask before install if you want to ask for a dev dependency."

  /**
   * The flags of the call and the user's answers: `accept` are the projects
   * confirmed at "Would you like to install ...", `acceptDev` those confirmed
   * at "Would you like this to be a dev only dependency?".
   */
  datatype Choices = Choices(ask: bool, devDep: bool, askDevDep: bool, accept: set<string>, acceptDev: set<string>)

  /** The call is refused when it asks about dev dependencies without asking about installing. */
  predicate Refused(c: Choices) {
    !c.ask && c.askDevDep
  }

  /** `isDependencyInstalled($project)`: the probe as issued. */
  function ProbeCommand(project: string): Command {
    Exec(ComposerWrapper + " show " + project + "  > /dev/null 2>&1")
  }

  /** The probes `array_filter` issues, one per project in order. */
  function Probes(projects: seq<string>): seq<Command> {
    if projects == [] then [] else [ProbeCommand(projects[0])] + Probes(projects[1..])
  }

  /** The projects whose probe fails, in their order. */
  function NotInstalled(projects: seq<string>, installed: set<string>): seq<string> {
    if projects == [] then []
    else (if projects[0] in installed then [] else [projects[0]]) + NotInstalled(projects[1..], installed)
  }

  lemma {:induction false} NotInstalledMembers(projects: seq<string>, installed: set<string>, x: string)
    ensures x in NotInstalled(projects, installed) <==> x in projects && x !in installed
  {
    if projects != [] {
      NotInstalledMembers(projects[1..], installed, x);
      assert projects == [projects[0]] + projects[1..];
    }
  }

  lemma {:induction false} NotInstalledEmpty(projects: seq<string>, installed: set<string>)
    ensures NotInstalled(projects, installed) == [] <==> forall i :: 0 <= i < |projects| ==> projects[i] in installed
  {
    if projects != [] {
      NotInstalledEmpty(projects[1..], installed);
      assert forall i :: 1 <= i < |projects| ==> projects[i] == projects[1..][i - 1];
    }
  }

  /** The probes, one per project in order. */
  lemma {:induction false} ProbesAt(projects: seq<string>)
    ensures |Probes(projects)| == |projects|
    ensures forall i :: 0 <= i < |projects| ==> Probes(projects)[i] == ProbeCommand(projects[i])
  {
    if projects != [] {
      ProbesAt(projects[1..]);
      assert forall i :: 1 <= i < |projects| ==> Probes(projects)[i] == Probes(projects[1..])[i - 1];
    }
  }

  lemma {:induction false} NotInstalledAppend(a: seq<string>, b: seq<string>, installed: set<string>)
    ensures NotInstalled(a + b, installed) == NotInstalled(a, installed) + NotInstalled(b, installed)
  {
    if a == [] {
      assert a + b == b;
    } else {
      assert (a + b)[1..] == a[1..] + b;
      NotInstalledAppend(a[1..], b, installed);
    }
  }

  lemma {:induction false} ProbesAppend(a: seq<string>, b: seq<string>)
    ensures Probes(a + b) == Probes(a) + Probes(b)
  {
    if a == [] {
      assert a + b == b;
    } else {
      assert (a + b)[1..] == a[1..] + b;
      ProbesAppend(a[1..], b);
    }
  }

  /** `array_filter` over the probes: each project is probed once, in order. */
  method ProbeAll(projects: seq<string>, installed: set<string>) returns (missing: seq<string>, issued: seq<Command>)
    ensures missing == NotInstalled(projects, installed)
    ensures issued == Probes(projects)
  {
    missing, issued := [], [];
    var i := 0;
    while i < |projects|
      invariant 0 <= i <= |projects|
      invariant missing == NotInstalled(projects[..i], installed)
      invariant issued == Probes(projects[..i])
    {
      assert projects[..i + 1] == projects[..i] + [projects[i]];
      NotInstalledAppend(projects[..i], [projects[i]], installed);
      ProbesAppend(projects[..i], [projects[i]]);
      if projects[i] !in installed {
        missing := missing + [projects[i]];
      }
      issued := issued + [ProbeCommand(projects[i])];
      i := i + 1;
    }
    assert projects[..i] == projects;
  }

  /** A missing project is installed at all: always without asking, otherwise when confirmed. */
  predicate Takes(c: Choices, project: string) {
    !c.ask || project in c.accept
  }

  /**
   * An installed project goes to the dev bucket: without asking, when the call
   * says so; when asking, when the call says so and does not ask per project
   * (the " (Development only dependency)" label), or when it asks and the
   * user says yes.
   */
  predicate GoesDev(c: Choices, project: string) {
    if c.ask then (c.devDep && !c.askDevDep) || (c.askDevDep && project in c.acceptDev) else c.devDep
  }

  /** The projects of `names` that end in the dev bucket (`dev`) or in the regular one, in order. */
  function Bucket(names: seq<string>, c: Choices, dev: bool): seq<string> {
    if names == [] then []
    else (if Takes(c, names[0]) && GoesDev(c, names[0]) == dev then [names[0]] else []) + Bucket(names[1..], c, dev)
  }

  /** Buckets are built in input order: the bucket of a concatenation is the concatenation of the buckets. */
  lemma {:induction false} BucketAppend(a: seq<string>, b: seq<string>, c: Choices, dev: bool)
    ensures Bucket(a + b, c, dev) == Bucket(a, c, dev) + Bucket(b, c, dev)
  {
    if a == [] {
      assert a + b == b;
    } else {
      assert (a + b)[1..] == a[1..] + b;
      BucketAppend(a[1..], b, c, dev);
    }
  }

  /** A project is in a bucket exactly when it is among the names, is taken, and belongs to that bucket. */
  lemma {:induction false} BucketMembers(names: seq<string>, c: Choices, dev: bool, x: string)
    ensures x in Bucket(names, c, dev) <==> x in names && Takes(c, x) && GoesDev(c, x) == dev
  {
    if names != [] {
      BucketMembers(names[1..], c, dev, x);
      assert names == [names[0]] + names[1..];
    }
  }

  /**
   * Every missing project lands in exactly one bucket when it is taken and in
   * none when the user declines it.
   */
  lemma Partition(names: seq<string>, c: Choices, x: string)
    requires x in names
    ensures Takes(c, x) ==> (x in Bucket(names, c, false) <==> x !in Bucket(names, c, true))
    ensures !Takes(c, x) ==> x !in Bucket(names, c, false) && x !in Bucket(names, c, true)
  {
    BucketMembers(names, c, false, x);
    BucketMembers(names, c, true, x);
  }

  /** Without asking, every missing project goes to the bucket the call names. */
  lemma {:induction false} NotAskingTakesAll(names: seq<string>, c: Choices)
    requires !c.ask
    ensures Bucket(names, c, c.devDep) == names
    ensures Bucket(names, c, !c.devDep) == []
  {
    if names != [] {
      NotAskingTakesAll(names[1..], c);
      assert names == [names[0]] + names[1..];
    }
  }

  /** The `foreach` over the missing projects when asking, and the `array_keys` when not. */
  method ChooseBuckets(names: seq<string>, c: Choices) returns (regular: seq<string>, dev: seq<string>)
    ensures regular == Bucket(names, c, false)
    ensures dev == Bucket(names, c, true)
  {
    if c.ask {
      regular, dev := [], [];
      var i := 0;
      while i < |names|
        invariant 0 <= i <= |names|
        invariant regular == Bucket(names[..i], c, false)
        invariant dev == Bucket(names[..i], c, true)
      {
        assert names[..i + 1] == names[..i] + [names[i]];
        BucketAppend(names[..i], [names[i]], c, false);
        BucketAppend(names[..i], [names[i]], c, true);
        if names[i] in c.accept {
          if (c.devDep && !c.askDevDep) || (c.askDevDep && names[i] in c.acceptDev) {
            dev := dev + [names[i]];
          } else {
            regular := regular + [names[i]];
          }
        }
        i := i + 1;
      }
      assert names[..|names|] == names;
    } else {
      NotAskingTakesAll(names, c);
      if c.devDep {
        regular, dev := [], names;
      } else {
        regular, dev := names, [];
      }
    }
  }

  /** What a run of a copy of `installDependencies` returns or throws, and the commands it issued. */
  datatype Install = Install(result: Result<bool>, issued: seq<Command>)

  /** The composer side of one bucket: its `composer require` (with `--dev` for the dev bucket). */
  function RequireCommand(bucket: seq<string>, dev: bool): Command {
    ComposerRequire(ComposerWrapper, bucket, dev)
  }

  /** `implode(', ', $bucket)` after `en -y `: the drush arguments that enable a bucket's modules. */
  function EnableArgs(bucket: seq<string>): string {
    "en -y " + Implode(", ", bucket)
  }
}
