/**
 * DrupalEnvCommands: the concrete `drupal-env:scaffold` command for the
 * mpbixal/drupal-env package. `preScaffoldChanges()` reconciles the project
 * with what the scaffolded files need; `updateScaffolding()` brackets
 * `composer drupal:scaffold` between enabling and disabling the package.
 */
module DrupalEnvCommands {
  import opened Results
  import opened Json
  import opened Workspace
  import opened DrupalEnvCommandsBase

  const PackageName := "mpbixal/drupal-env"
  const HashSaltFile := "drupal_hash_salt.txt"
  const GitignoreFile := ".gitignore"
  const PatchesPackage := "cweagans/composer-patches"
  const RoboEnvDir := "./RoboEnv/"
  const Marker := "Allowing orchestration files to be executed"
  const PostScaffoldCmd := "echo '" + Marker + "...' & chmod -f +x ./orch/*.sh ./composer ./php ./robo ./drsh"
  const PatchesFileName := "composer.patches.json"

  const RequirePatches: Path := ["require", "cweagans/composer-patches"]
  const WebRootPath: Path := ["extra", "drupal-scaffold", "locations", "web-root"]
  const Psr4: Path := ["autoload", "psr-4"]
  const RoboEnvKey: Path := ["autoload", "psr-4", "RoboEnv\\"]
  const GitignoreFlag: Path := ["extra", "drupal-scaffold", "gitignore"]
  const PostScaffoldCmds: Path := ["scripts", "post-drupal-scaffold-cmd"]
  const PatchesFileKey: Path := ["extra", "patches-file"]

  // ---------------------------------------------------------------------------
  // Paths of composer.json that the steps read and write
  // ---------------------------------------------------------------------------

  /** Two paths that agree on their first `k` keys and differ on the next one. */
  lemma {:induction false} DivergeAt(p: Path, q: Path, k: nat)
    requires k < |p| && k < |q| && p[..k] == q[..k] && p[k] != q[k]
    ensures Diverge(p, q)
    decreases k
  {
    if k > 0 {
      assert p[0] == p[..k][0] == q[..k][0] == q[0];
      assert p[1..][..k - 1] == p[1..k] == q[1..k] == q[1..][..k - 1];
      DivergeAt(p[1..], q[1..], k - 1);
    }
  }

  /** Paths that no step of `preScaffoldChanges()` writes to, nor below. */
  predicate Untouched(q: Path) {
    && Diverge(RequirePatches, q)
    && Diverge(RoboEnvKey, q)
    && Diverge(GitignoreFlag, q)
    && Diverge(PostScaffoldCmds, q)
    && Diverge(PatchesFileKey, q)
  }

  /** The paths read by the settings step and by enable/disable lie apart from every write. */
  lemma WebRootApart()
    ensures Untouched(WebRootPath)
  {
    DivergeAt(GitignoreFlag, WebRootPath, 2);
    DivergeAt(PatchesFileKey, WebRootPath, 1);
  }

  lemma AllowedPackagesApart()
    ensures Untouched(AllowedPackages)
  {
    DivergeAt(GitignoreFlag, AllowedPackages, 2);
    DivergeAt(PatchesFileKey, AllowedPackages, 1);
  }

  /** Each written path lies apart from the other written paths, and from `autoload.psr-4`. */
  lemma RequireApart()
    ensures Diverge(RoboEnvKey, RequirePatches) && Diverge(GitignoreFlag, RequirePatches)
    ensures Diverge(PostScaffoldCmds, RequirePatches) && Diverge(PatchesFileKey, RequirePatches)
  {
  }

  lemma Psr4Apart()
    ensures Diverge(RequirePatches, Psr4) && Diverge(GitignoreFlag, Psr4)
    ensures Diverge(PostScaffoldCmds, Psr4) && Diverge(PatchesFileKey, Psr4)
  {
  }

  lemma RoboEnvKeyApart()
    ensures Diverge(GitignoreFlag, RoboEnvKey) && Diverge(PostScaffoldCmds, RoboEnvKey)
    ensures Diverge(PatchesFileKey, RoboEnvKey)
  {
  }

  lemma GitignoreFlagApart()
    ensures Diverge(RoboEnvKey, GitignoreFlag) && Diverge(PostScaffoldCmds, GitignoreFlag)
    ensures Diverge(PatchesFileKey, GitignoreFlag) && Diverge(RequirePatches, GitignoreFlag)
  {
    DivergeAt(PatchesFileKey, GitignoreFlag, 1);
  }

  lemma PostScaffoldCmdsApart()
    ensures Diverge(RoboEnvKey, PostScaffoldCmds) && Diverge(GitignoreFlag, PostScaffoldCmds)
    ensures Diverge(PatchesFileKey, PostScaffoldCmds) && Diverge(RequirePatches, PostScaffoldCmds)
  {
  }

  lemma PatchesFileKeyApart()
    ensures Diverge(RoboEnvKey, PatchesFileKey) && Diverge(GitignoreFlag, PatchesFileKey)
    ensures Diverge(PostScaffoldCmds, PatchesFileKey) && Diverge(RequirePatches, PatchesFileKey)
  {
    DivergeAt(GitignoreFlag, PatchesFileKey, 1);
  }

  /** The allowed-packages list lies apart from every path a settled manifest is judged by. */
  lemma AllowedPackagesApartFromReads()
    ensures Diverge(AllowedPackages, RequirePatches) && Diverge(AllowedPackages, Psr4)
    ensures Diverge(AllowedPackages, GitignoreFlag) && Diverge(AllowedPackages, PostScaffoldCmds)
    ensures Diverge(AllowedPackages, PatchesFileKey) && Diverge(AllowedPackages, WebRootPath)
  {
    DivergeAt(AllowedPackages, GitignoreFlag, 2);
    DivergeAt(AllowedPackages, PatchesFileKey, 1);
    DivergeAt(AllowedPackages, WebRootPath, 2);
  }

  // ---------------------------------------------------------------------------
  // String helpers
  // ---------------------------------------------------------------------------

  /** PHP's `str_contains($s, $t)`. */
  predicate Contains(s: string, t: string)
    decreases |s|
  {
    t <= s || (|s| > 0 && Contains(s[1..], t))
  }

  lemma {:induction false} ContainsInside(pre: string, t: string, post: string)
    ensures Contains(pre + t + post, t)
    decreases |pre|
  {
    if pre != [] {
      assert (pre + t + post)[1..] == pre[1..] + t + post;
      ContainsInside(pre[1..], t, post);
    }
  }

  /** PHP's `rtrim($s, '/')`. */
  function RTrimSlash(s: string): (r: string)
    ensures r <= s
    ensures r == [] || r[|r| - 1] != '/'
    ensures forall i :: |r| <= i < |s| ==> s[i] == '/'
  {
    if s != [] && s[|s| - 1] == '/' then RTrimSlash(s[..|s| - 1]) else s
  }

  /** The web root: `extra.drupal-scaffold.locations.web-root`, "web" when unset, without trailing slashes. */
  function WebRoot(m: Json): string {
    match Coalesce(m, WebRootPath, Str("web"))
    case Str(w) => RTrimSlash(w)
    case _ => "web"
  }

  function SettingsFile(web: string): string {
    web + "/sites/default/settings.php"
  }

  function DefaultSettingsFile(web: string): string {
    web + "/sites/default/default.settings.php"
  }

  // ---------------------------------------------------------------------------
  // The post-drupal-scaffold-cmd entry
  // ---------------------------------------------------------------------------

  /** An entry carrying the marker text, whatever the rest of its command is. */
  predicate Marked(x: Json) {
    x.Str? && Contains(x.s, Marker)
  }

  predicate HasMarked(xs: seq<Json>) {
    xs != [] && (Marked(xs[0]) || HasMarked(xs[1..]))
  }

  /** Every marked entry replaced by the current command. */
  function Replaced(xs: seq<Json>): (r: seq<Json>)
    ensures |r| == |xs|
  {
    if xs == [] then [] else [if Marked(xs[0]) then Str(PostScaffoldCmd) else xs[0]] + Replaced(xs[1..])
  }

  lemma {:induction false} HasMarkedAt(xs: seq<Json>)
    ensures HasMarked(xs) <==> exists i :: 0 <= i < |xs| && Marked(xs[i])
  {
    if xs != [] {
      HasMarkedAt(xs[1..]);
      if HasMarked(xs[1..]) {
        var i :| 0 <= i < |xs[1..]| && Marked(xs[1..][i]);
        assert Marked(xs[i + 1]);
      }
      if exists i :: 0 <= i < |xs| && Marked(xs[i]) {
        var i :| 0 <= i < |xs| && Marked(xs[i]);
        if i > 0 {
          assert Marked(xs[1..][i - 1]);
        }
      }
    }
  }

  lemma {:induction false} ReplacedAt(xs: seq<Json>)
    ensures forall i :: 0 <= i < |xs| ==> Replaced(xs)[i] == if Marked(xs[i]) then Str(PostScaffoldCmd) else xs[i]
  {
    if xs != [] {
      var rest := Replaced(xs[1..]);
      ReplacedAt(xs[1..]);
      assert Replaced(xs) == [if Marked(xs[0]) then Str(PostScaffoldCmd) else xs[0]] + rest;
      forall i | 1 <= i < |xs|
        ensures Replaced(xs)[i] == if Marked(xs[i]) then Str(PostScaffoldCmd) else xs[i]
      {
        assert xs[1..][i - 1] == xs[i];
      }
    }
  }

  /** The list `preScaffoldChanges()` leaves: marked entries updated in place, or the command appended. */
  function Upsert(xs: seq<Json>): seq<Json> {
    if HasMarked(xs) then Replaced(xs) else xs + [Str(PostScaffoldCmd)]
  }

  lemma CommandIsMarked()
    ensures Marked(Str(PostScaffoldCmd))
  {
    ContainsInside("echo '", Marker, "...' & chmod -f +x ./orch/*.sh ./composer ./php ./robo ./drsh");
  }

  /**
   * The upsert keeps every unmarked entry where it was, rewrites every marked
   * one, appends only when nothing is marked, and is idempotent.
   */
  lemma UpsertProperties(xs: seq<Json>)
    ensures Str(PostScaffoldCmd) in Upsert(xs)
    ensures HasMarked(xs) ==> |Upsert(xs)| == |xs|
    ensures HasMarked(xs) ==> forall i :: 0 <= i < |xs| ==>
      Upsert(xs)[i] == (if Marked(xs[i]) then Str(PostScaffoldCmd) else xs[i])
    ensures !HasMarked(xs) ==> Upsert(xs) == xs + [Str(PostScaffoldCmd)]
    ensures HasMarked(Upsert(xs)) && Replaced(Upsert(xs)) == Upsert(xs)
    ensures Upsert(Upsert(xs)) == Upsert(xs)
  {
    CommandIsMarked();
    var ys := Upsert(xs);
    HasMarkedAt(xs);
    ReplacedAt(xs);
    if HasMarked(xs) {
      var i :| 0 <= i < |xs| && Marked(xs[i]);
      assert ys[i] == Str(PostScaffoldCmd);
    } else {
      assert ys[|xs|] == Str(PostScaffoldCmd);
    }
    var k :| 0 <= k < |ys| && ys[k] == Str(PostScaffoldCmd);
    assert Marked(ys[k]);
    HasMarkedAt(ys);
    ReplacedAt(ys);
    assert forall i :: 0 <= i < |ys| && Marked(ys[i]) ==> ys[i] == Str(PostScaffoldCmd);
    assert Replaced(ys) == ys;
  }

  // ---------------------------------------------------------------------------
  // The steps of preScaffoldChanges(), in order
  // ---------------------------------------------------------------------------

  function SaltStep(d: Disk): Disk {
    if HashSaltFile in d.files then d
    else Disk(d.manifest, d.files + {HashSaltFile}, d.log + [WriteFile(HashSaltFile)])
  }

  function RequireManifest(m: Json, h: Host): Json {
    if IsEmpty(Get(m, RequirePatches)) then AfterRequire(m, h, PatchesPackage) else m
  }

  function RequirePatchesStep(d: Disk, h: Host): Run {
    if !IsEmpty(Get(d.manifest, RequirePatches)) then Run(d, Ok(()))
    else
      match GetComposerPath(h)
      case Fail(e) => Run(d, Fail(e))
      case Ok(c) =>
        Run(Disk(RequireManifest(d.manifest, h), d.files,
                 d.log + [ComposerRequire(c, [PatchesPackage], false)]), Ok(()))
  }

  function SettingsCopyStep(d: Disk): Disk {
    var web := WebRoot(d.manifest);
    if SettingsFile(web) !in d.files && DefaultSettingsFile(web) in d.files then
      Disk(d.manifest, d.files + {SettingsFile(web)}, d.log + [Copy(DefaultSettingsFile(web), SettingsFile(web))])
    else d
  }

  function AutoloadStep(m: Json): Json {
    if InValues(Str(RoboEnvDir), m, Psr4) then m else Set(m, RoboEnvKey, Str(RoboEnvDir))
  }

  function GitignoreFileStep(d: Disk): Disk {
    if GitignoreFile in d.files then d
    else Disk(d.manifest, d.files + {GitignoreFile}, d.log + [Touch(GitignoreFile)])
  }

  /**
   * The guard of the gitignore step. In PHP `$x ?? null !== false` parses as
   * `$x ?? (null !== false)`, that is `$x ?? true`: the flag is (re)written
   * unless it is present and falsy.
   */
  predicate ScaffoldMayGitignore(m: Json) {
    Truthy(Coalesce(m, GitignoreFlag, Bool(true)))
  }

  function GitignoreFlagStep(m: Json): Json {
    if ScaffoldMayGitignore(m) then Set(m, GitignoreFlag, Bool(false)) else m
  }

  function PostScaffoldCmdStep(m: Json): Json {
    var xs := List(m, PostScaffoldCmds);
    if !HasMarked(xs) then Append(m, PostScaffoldCmds, Str(PostScaffoldCmd))
    else if Replaced(xs) == xs then m
    else Set(m, PostScaffoldCmds, Arr(Replaced(xs)))
  }

  predicate PatchesFileSet(m: Json) {
    Coalesce(m, PatchesFileKey, Str("")) == Str(PatchesFileName)
  }

  function PatchesManifest(m: Json, h: Host): Json {
    if PatchesFileSet(m) then m else AfterConfig(m, h, PatchesFileKey, PatchesFileName)
  }

  function PatchesFileStep(d: Disk, h: Host): Run {
    if PatchesFileSet(d.manifest) then Run(d, Ok(()))
    else
      match GetComposerPath(h)
      case Fail(e) => Run(d, Fail(e))
      case Ok(c) =>
        Run(Disk(PatchesManifest(d.manifest, h), d.files,
                 d.log + [ComposerConfigSet(c, "extra.patches-file", PatchesFileName)]), Ok(()))
  }

  /** Steps three to seven, none of which can throw. */
  function MiddleSteps(d: Disk): Disk {
    var d3 := SettingsCopyStep(d);
    var d4 := d3.(manifest := AutoloadStep(d3.manifest));
    var d5 := GitignoreFileStep(d4);
    var d6 := d5.(manifest := GitignoreFlagStep(d5.manifest));
    d6.(manifest := PostScaffoldCmdStep(d6.manifest))
  }

  /** `preScaffoldChanges()`: each step reads the state the previous one left. */
  function PreScaffold(d: Disk, h: Host): Run {
    var r2 := RequirePatchesStep(SaltStep(d), h);
    if r2.outcome.Fail? then r2 else PatchesFileStep(MiddleSteps(r2.disk), h)
  }

  /** The composer.json steps alone. */
  function MiddleManifest(m: Json): Json {
    PostScaffoldCmdStep(GitignoreFlagStep(AutoloadStep(m)))
  }

  function PreManifest(m: Json, h: Host): Json {
    PatchesManifest(MiddleManifest(RequireManifest(m, h)), h)
  }

  // ---------------------------------------------------------------------------
  // What each write leaves alone
  // ---------------------------------------------------------------------------

  lemma RequireFrame(m: Json, h: Host, q: Path)
    requires Diverge(RequirePatches, q)
    ensures Get(RequireManifest(m, h), q) == Get(m, q)
  {
    GetSetOther(m, RequirePatches, q, Str(h.requiredConstraint));
  }

  lemma AutoloadFrame(m: Json, q: Path)
    requires Diverge(RoboEnvKey, q)
    ensures Get(AutoloadStep(m), q) == Get(m, q)
  {
    GetSetOther(m, RoboEnvKey, q, Str(RoboEnvDir));
  }

  lemma GitignoreFlagFrame(m: Json, q: Path)
    requires Diverge(GitignoreFlag, q)
    ensures Get(GitignoreFlagStep(m), q) == Get(m, q)
  {
    GetSetOther(m, GitignoreFlag, q, Bool(false));
  }

  lemma PostScaffoldCmdFrame(m: Json, q: Path)
    requires Diverge(PostScaffoldCmds, q)
    ensures Get(PostScaffoldCmdStep(m), q) == Get(m, q)
  {
    var xs := List(m, PostScaffoldCmds);
    GetSetOther(m, PostScaffoldCmds, q, Arr(xs + [Str(PostScaffoldCmd)]));
    GetSetOther(m, PostScaffoldCmds, q, Arr(Replaced(xs)));
  }

  lemma PatchesFrame(m: Json, h: Host, q: Path)
    requires Diverge(PatchesFileKey, q)
    ensures Get(PatchesManifest(m, h), q) == Get(m, q)
  {
    GetSetOther(m, PatchesFileKey, q, Str(PatchesFileName));
  }

  lemma MiddleFrame(m: Json, q: Path)
    requires Diverge(RoboEnvKey, q) && Diverge(GitignoreFlag, q) && Diverge(PostScaffoldCmds, q)
    ensures Get(MiddleManifest(m), q) == Get(m, q)
  {
    AutoloadFrame(m, q);
    GitignoreFlagFrame(AutoloadStep(m), q);
    PostScaffoldCmdFrame(GitignoreFlagStep(AutoloadStep(m)), q);
  }

  /** The post-scaffold step leaves the upserted list at its path. */
  lemma PostScaffoldCmdList(m: Json)
    ensures List(PostScaffoldCmdStep(m), PostScaffoldCmds) == Upsert(List(m, PostScaffoldCmds))
  {
    GetSet(m, PostScaffoldCmds, Arr(Replaced(List(m, PostScaffoldCmds))));
  }

  // ---------------------------------------------------------------------------
  // What a run does to composer.json
  // ---------------------------------------------------------------------------

  /** The patches plugin is required when missing, and only then. */
  lemma PreManifestRequire(m: Json, h: Host)
    ensures Get(PreManifest(m, h), RequirePatches) ==
      if IsEmpty(Get(m, RequirePatches)) && h.requireSucceeds then Some(Str(h.requiredConstraint)) else Get(m, RequirePatches)
  {
    RequireApart();
    var m2 := RequireManifest(m, h);
    MiddleFrame(m2, RequirePatches);
    PatchesFrame(MiddleManifest(m2), h, RequirePatches);
  }

  /** The RoboEnv autoload entry is present afterwards; it is added only when no psr-4 entry points at ./RoboEnv/. */
  lemma PreManifestAutoload(m: Json, h: Host)
    ensures InValues(Str(RoboEnvDir), PreManifest(m, h), Psr4)
    ensures InValues(Str(RoboEnvDir), m, Psr4) ==> Get(PreManifest(m, h), Psr4) == Get(m, Psr4)
    ensures !InValues(Str(RoboEnvDir), m, Psr4) ==> Get(PreManifest(m, h), RoboEnvKey) == Some(Str(RoboEnvDir))
  {
    Psr4Apart();
    RoboEnvKeyApart();
    var m2 := RequireManifest(m, h);
    RequireFrame(m, h, Psr4);
    var m4 := AutoloadStep(m2);
    if !InValues(Str(RoboEnvDir), m2, Psr4) {
      assert Psr4 + ["RoboEnv\\"] == RoboEnvKey;
      InValuesSet(m2, Psr4, "RoboEnv\\", Str(RoboEnvDir));
      GetSet(m2, RoboEnvKey, Str(RoboEnvDir));
    }
    var m6 := GitignoreFlagStep(m4);
    var m7 := PostScaffoldCmdStep(m6);
    GitignoreFlagFrame(m4, Psr4);
    PostScaffoldCmdFrame(m6, Psr4);
    PatchesFrame(m7, h, Psr4);
    GitignoreFlagFrame(m4, RoboEnvKey);
    PostScaffoldCmdFrame(m6, RoboEnvKey);
    PatchesFrame(m7, h, RoboEnvKey);
  }

  /** The scaffold gitignore flag is false afterwards unless it already was falsy. */
  lemma PreManifestGitignore(m: Json, h: Host)
    ensures Get(PreManifest(m, h), GitignoreFlag) ==
      if ScaffoldMayGitignore(m) then Some(Bool(false)) else Get(m, GitignoreFlag)
  {
    GitignoreFlagApart();
    var m2 := RequireManifest(m, h);
    RequireFrame(m, h, GitignoreFlag);
    var m4 := AutoloadStep(m2);
    AutoloadFrame(m2, GitignoreFlag);
    assert Get(m4, GitignoreFlag) == Get(m, GitignoreFlag);
    var m6 := GitignoreFlagStep(m4);
    GetSet(m4, GitignoreFlag, Bool(false));
    var m7 := PostScaffoldCmdStep(m6);
    PostScaffoldCmdFrame(m6, GitignoreFlag);
    PatchesFrame(m7, h, GitignoreFlag);
  }

  /** The post-drupal-scaffold-cmd list afterwards is the upsert of the list before. */
  lemma PreManifestPostScaffoldCmds(m: Json, h: Host)
    ensures List(PreManifest(m, h), PostScaffoldCmds) == Upsert(List(m, PostScaffoldCmds))
  {
    PostScaffoldCmdsApart();
    var m2 := RequireManifest(m, h);
    RequireFrame(m, h, PostScaffoldCmds);
    var m4 := AutoloadStep(m2);
    AutoloadFrame(m2, PostScaffoldCmds);
    var m6 := GitignoreFlagStep(m4);
    GitignoreFlagFrame(m4, PostScaffoldCmds);
    assert Get(m6, PostScaffoldCmds) == Get(m, PostScaffoldCmds);
    PostScaffoldCmdList(m6);
    PatchesFrame(PostScaffoldCmdStep(m6), h, PostScaffoldCmds);
  }

  /** The patches file is configured when it is not composer.patches.json already, and only then. */
  lemma PreManifestPatchesFile(m: Json, h: Host)
    ensures PatchesFileSet(MiddleManifest(RequireManifest(m, h))) == PatchesFileSet(m)
    ensures Get(PreManifest(m, h), PatchesFileKey) ==
      if !PatchesFileSet(m) && h.configSucceeds then Some(Str(PatchesFileName)) else Get(m, PatchesFileKey)
  {
    PatchesFileKeyApart();
    var m2 := RequireManifest(m, h);
    RequireFrame(m, h, PatchesFileKey);
    MiddleFrame(m2, PatchesFileKey);
  }

  /** Every path apart from the five written ones keeps its value. */
  lemma PreManifestFrame(m: Json, h: Host, q: Path)
    requires Untouched(q)
    ensures Get(PreManifest(m, h), q) == Get(m, q)
  {
    var m2 := RequireManifest(m, h);
    RequireFrame(m, h, q);
    MiddleFrame(m2, q);
    PatchesFrame(MiddleManifest(m2), h, q);
  }

  // ---------------------------------------------------------------------------
  // What a run does to the project directory
  // ---------------------------------------------------------------------------

  /** The command each guarded step issues, decided on the state the run started from. */
  function SaltPlan(files: set<string>): seq<Command> {
    if HashSaltFile in files then [] else [WriteFile(HashSaltFile)]
  }

  function RequirePlan(m: Json, composer: string): seq<Command> {
    if IsEmpty(Get(m, RequirePatches)) then [ComposerRequire(composer, [PatchesPackage], false)] else []
  }

  /** Whether settings.php is missing while default.settings.php is there to copy. */
  predicate SettingsMissing(web: string, files: set<string>) {
    SettingsFile(web) !in files && DefaultSettingsFile(web) in files
  }

  function CopyPlan(web: string, files: set<string>): seq<Command> {
    if SettingsMissing(web, files) then [Copy(DefaultSettingsFile(web), SettingsFile(web))] else []
  }

  function TouchPlan(files: set<string>): seq<Command> {
    if GitignoreFile in files then [] else [Touch(GitignoreFile)]
  }

  function PatchesPlan(m: Json, composer: string): seq<Command> {
    if PatchesFileSet(m) then [] else [ComposerConfigSet(composer, "extra.patches-file", PatchesFileName)]
  }

  /** The commands a whole run issues, in order. */
  function PreScaffoldPlan(d: Disk, composer: string): seq<Command> {
    SaltPlan(d.files) + RequirePlan(d.manifest, composer) + CopyPlan(WebRoot(d.manifest), d.files)
    + TouchPlan(d.files) + PatchesPlan(d.manifest, composer)
  }

  /** The files a run creates: the salt, the .gitignore, and settings.php when a default one is there to copy. */
  function PreScaffoldFiles(d: Disk): set<string> {
    var web := WebRoot(d.manifest);
    {HashSaltFile, GitignoreFile} + (if SettingsMissing(web, d.files) then {SettingsFile(web)} else {})
  }

  lemma SettingsPathsAreLong(web: string)
    ensures SettingsFile(web) != HashSaltFile && SettingsFile(web) != GitignoreFile
    ensures DefaultSettingsFile(web) != HashSaltFile
  {
    assert |SettingsFile(web)| >= 27 && |DefaultSettingsFile(web)| >= 35;
  }

  /** The first two steps, with composer available. */
  lemma FirstStepsEffect(d: Disk, h: Host)
    requires GetComposerPath(h).Ok?
    ensures RequirePatchesStep(SaltStep(d), h) ==
      Run(Disk(RequireManifest(d.manifest, h), d.files + {HashSaltFile},
               d.log + SaltPlan(d.files) + RequirePlan(d.manifest, GetComposerPath(h).value)), Ok(()))
  {
  }

  /** Steps three to seven: their files and commands, and composer.json as the composer.json steps leave it. */
  lemma MiddleStepsEffect(d: Disk)
    ensures var web := WebRoot(d.manifest);
      && MiddleSteps(d).manifest == MiddleManifest(d.manifest)
      && MiddleSteps(d).files == d.files + (if SettingsMissing(web, d.files) then {SettingsFile(web)} else {}) + {GitignoreFile}
      && MiddleSteps(d).log == d.log + CopyPlan(web, d.files) + TouchPlan(d.files)
  {
    SettingsPathsAreLong(WebRoot(d.manifest));
  }

  /** The last step, with composer available. */
  lemma LastStepEffect(d: Disk, h: Host)
    requires GetComposerPath(h).Ok?
    ensures PatchesFileStep(d, h) ==
      Run(Disk(PatchesManifest(d.manifest, h), d.files, d.log + PatchesPlan(d.manifest, GetComposerPath(h).value)), Ok(()))
  {
  }

  /** It throws only when composer is needed and neither composer nor docker is installed. */
  lemma PreScaffoldFailure(d: Disk, h: Host)
    ensures PreScaffold(d, h).outcome.Fail? <==>
      GetComposerPath(h).Fail? && (IsEmpty(Get(d.manifest, RequirePatches)) || !PatchesFileSet(d.manifest))
    ensures PreScaffold(d, h).outcome.Fail? ==> PreScaffold(d, h).outcome == Fail(NoComposerMessage)
  {
    var r2 := RequirePatchesStep(SaltStep(d), h);
    if r2.outcome.Ok? {
      MiddleStepsEffect(r2.disk);
      PreManifestPatchesFile(d.manifest, h);
      assert r2.disk.manifest == RequireManifest(d.manifest, h);
    }
  }

  lemma SeqAssoc5<T>(s: seq<T>, a: seq<T>, b: seq<T>, c: seq<T>, e: seq<T>, f: seq<T>)
    ensures s + a + b + c + e + f == s + (a + b + c + e + f)
  {
  }

  /** The salt is not where settings.php is looked for, so the later guards see the files the run started with. */
  lemma SaltInvisibleLater(d: Disk, web: string)
    ensures SettingsMissing(web, d.files + {HashSaltFile}) == SettingsMissing(web, d.files)
    ensures CopyPlan(web, d.files + {HashSaltFile}) == CopyPlan(web, d.files)
    ensures TouchPlan(d.files + {HashSaltFile}) == TouchPlan(d.files)
  {
    SettingsPathsAreLong(web);
  }

  /** What a run does when composer is available, written out: composer.json, the new files, the commands. */
  function PreScaffoldEffect(d: Disk, h: Host, composer: string): Disk {
    Disk(PreManifest(d.manifest, h), d.files + PreScaffoldFiles(d), d.log + PreScaffoldPlan(d, composer))
  }

  /**
   * With composer available, a run never throws, issues exactly the planned
   * commands in order, creates exactly the planned files and leaves
   * composer.json as the composer.json steps make it: every step is guarded
   * by a check of the state the run started from, so nothing is redone.
   */
  lemma PreScaffoldCommands(d: Disk, h: Host)
    requires GetComposerPath(h).Ok?
    ensures PreScaffold(d, h) == Run(PreScaffoldEffect(d, h, GetComposerPath(h).value), Ok(()))
  {
    var c := GetComposerPath(h).value;
    var m := d.manifest;
    var web := WebRoot(m);
    FirstStepsEffect(d, h);
    var d2 := Disk(RequireManifest(m, h), d.files + {HashSaltFile}, d.log + SaltPlan(d.files) + RequirePlan(m, c));
    assert WebRoot(d2.manifest) == web by {
      WebRootApart();
      RequireFrame(m, h, WebRootPath);
    }
    MiddleStepsEffect(d2);
    SaltInvisibleLater(d, web);
    var d7 := MiddleSteps(d2);
    PreManifestPatchesFile(m, h);
    LastStepEffect(d7, h);
    SeqAssoc5(d.log, SaltPlan(d.files), RequirePlan(m, c), CopyPlan(web, d.files), TouchPlan(d.files), PatchesPlan(m, c));
  }

  // ---------------------------------------------------------------------------
  // Settled projects and idempotence
  // ---------------------------------------------------------------------------

  /** A manifest that a run leaves as it is. */
  predicate Settled(m: Json) {
    && !IsEmpty(Get(m, RequirePatches))
    && InValues(Str(RoboEnvDir), m, Psr4)
    && !ScaffoldMayGitignore(m)
    && HasMarked(List(m, PostScaffoldCmds)) && Replaced(List(m, PostScaffoldCmds)) == List(m, PostScaffoldCmds)
    && PatchesFileSet(m)
  }

  /** Files that a run would not create again. */
  predicate FilesSettled(d: Disk) {
    var web := WebRoot(d.manifest);
    && HashSaltFile in d.files && GitignoreFile in d.files
    && (SettingsFile(web) in d.files || DefaultSettingsFile(web) !in d.files)
  }

  /** The composer plugin and configuration commands all take effect. */
  predicate Cooperative(h: Host) {
    GetComposerPath(h).Ok? && h.requireSucceeds && !EmptyString(h.requiredConstraint) && h.configSucceeds
  }

  /** When composer cooperates, the composer.json steps settle the manifest. */
  lemma PreManifestSettles(m: Json, h: Host)
    requires Cooperative(h)
    ensures Settled(PreManifest(m, h))
  {
    PreManifestRequire(m, h);
    PreManifestAutoload(m, h);
    PreManifestGitignore(m, h);
    PreManifestPostScaffoldCmds(m, h);
    PreManifestPatchesFile(m, h);
    UpsertProperties(List(m, PostScaffoldCmds));
  }

  /** The files are settled once the planned files exist, whatever composer.json then says outside the web root. */
  lemma FilesSettledAfter(d: Disk, m: Json, log: seq<Command>)
    requires WebRoot(m) == WebRoot(d.manifest)
    ensures FilesSettled(Disk(m, d.files + PreScaffoldFiles(d), log))
  {
  }

  /** With composer available, a run leaves no file for a later run to create. */
  lemma PreScaffoldFilesSettled(d: Disk, h: Host, composer: string)
    ensures FilesSettled(PreScaffoldEffect(d, h, composer))
  {
    WebRootApart();
    PreManifestFrame(d.manifest, h, WebRootPath);
    FilesSettledAfter(d, PreManifest(d.manifest, h), d.log + PreScaffoldPlan(d, composer));
  }

  /** When composer cooperates, one run settles the project. */
  lemma PreScaffoldSettles(d: Disk, h: Host)
    requires Cooperative(h)
    ensures Settled(PreScaffold(d, h).disk.manifest)
    ensures FilesSettled(PreScaffold(d, h).disk)
  {
    PreScaffoldCommands(d, h);
    PreManifestSettles(d.manifest, h);
    PreScaffoldFilesSettled(d, h, GetComposerPath(h).value);
  }

  /** On a settled manifest the composer.json steps change nothing. */
  lemma PreManifestSettledNoOp(m: Json, h: Host)
    requires Settled(m)
    ensures PreManifest(m, h) == m
  {
  }

  /** On a settled project a run issues no composer command and changes nothing in composer.json. */
  lemma PreScaffoldSettledNoOp(d: Disk, h: Host)
    requires Settled(d.manifest)
    ensures PreScaffold(d, h).outcome == Ok(())
    ensures PreScaffold(d, h).disk.manifest == d.manifest
    ensures FilesSettled(d) ==> PreScaffold(d, h).disk == d
  {
    var r2 := RequirePatchesStep(SaltStep(d), h);
    assert r2.outcome == Ok(()) && r2.disk == SaltStep(d);
    MiddleStepsEffect(r2.disk);
    PreManifestSettledNoOp(d.manifest, h);
    SettingsPathsAreLong(WebRoot(d.manifest));
  }

  /** On a settled project with settled files a run issues no command and creates no file. */
  lemma SettledPlanEmpty(d: Disk, composer: string)
    requires Settled(d.manifest) && FilesSettled(d)
    ensures PreScaffoldPlan(d, composer) == [] && PreScaffoldFiles(d) <= d.files
  {
  }

  /** Running the pre-scaffold changes twice is running them once. */
  lemma PreScaffoldIdempotent(d: Disk, h: Host)
    requires Cooperative(h)
    ensures PreScaffold(PreScaffold(d, h).disk, h) == PreScaffold(d, h)
  {
    PreScaffoldSettles(d, h);
    PreScaffoldCommands(d, h);
    PreScaffoldSettledNoOp(PreScaffold(d, h).disk, h);
  }

  // ---------------------------------------------------------------------------
  // preScaffoldChanges() on the project directory, one method per step
  // ---------------------------------------------------------------------------

  /** Lines 28-30: the hash salt file is written only when it does not exist. */
  method CreateHashSalt(p: Project)
    modifies p
    ensures p.State() == SaltStep(old(p.State()))
  {
    if HashSaltFile !in p.files {
      p.files := p.files + {HashSaltFile};
      p.log := p.log + [WriteFile(HashSaltFile)];
    }
  }

  /** Lines 35-38: `composer require cweagans/composer-patches` when it is not required yet. */
  method RequirePatchesPlugin(p: Project, h: Host) returns (outcome: Result<()>)
    modifies p
    ensures Run(p.State(), outcome) == RequirePatchesStep(old(p.State()), h)
  {
    var composerJson := p.manifest;
    if IsEmpty(Get(composerJson, RequirePatches)) {
      var composer := GetComposerPath(h);
      if composer.Fail? {
        return Fail(composer.message);
      }
      p.log := p.log + [ComposerRequire(composer.value, [PatchesPackage], false)];
      p.manifest := AfterRequire(p.manifest, h, PatchesPackage);
    }
    return Ok(());
  }

  /** Lines 42-47: settings.php is copied from default.settings.php when only the latter exists. */
  method CopySettings(p: Project)
    modifies p
    ensures p.State() == SettingsCopyStep(old(p.State()))
  {
    var composerJson := p.manifest;
    var webRoot := WebRoot(composerJson);
    if SettingsFile(webRoot) !in p.files && DefaultSettingsFile(webRoot) in p.files {
      p.files := p.files + {SettingsFile(webRoot)};
      p.log := p.log + [Copy(DefaultSettingsFile(webRoot), SettingsFile(webRoot))];
    }
  }

  /** Lines 50-53: the RoboEnv namespace is autoloaded from ./RoboEnv/ unless some psr-4 entry points there. */
  method AddRoboEnvAutoload(p: Project)
    modifies p
    ensures p.State() == old(p.State()).(manifest := AutoloadStep(old(p.manifest)))
  {
    var composerJson := p.manifest;
    if !InValues(Str(RoboEnvDir), composerJson, Psr4) {
      composerJson := Set(composerJson, RoboEnvKey, Str(RoboEnvDir));
      p.manifest := composerJson;
    }
  }

  /** Lines 56-58: .gitignore is touched only when it does not exist. */
  method TouchGitignore(p: Project)
    modifies p
    ensures p.State() == GitignoreFileStep(old(p.State()))
  {
    if GitignoreFile !in p.files {
      p.files := p.files + {GitignoreFile};
      p.log := p.log + [Touch(GitignoreFile)];
    }
  }

  /** Lines 62-66: the scaffold gitignore flag is set to false. */
  method DisableScaffoldGitignore(p: Project)
    modifies p
    ensures p.State() == old(p.State()).(manifest := GitignoreFlagStep(old(p.manifest)))
  {
    var composerJson := p.manifest;
    if ScaffoldMayGitignore(composerJson) {
      composerJson := Set(composerJson, GitignoreFlag, Bool(false));
      p.manifest := composerJson;
    }
  }

  /**
   * Lines 69-88: every entry carrying the marker text is rewritten in place to
   * the current command, saving after each rewrite; when none carries it, the
   * command is appended.
   */
  method UpsertPostScaffoldCmd(p: Project)
    modifies p
    ensures p.State() == old(p.State()).(manifest := PostScaffoldCmdStep(old(p.manifest)))
  {
    ghost var d := p.State();
    var composerJson := p.manifest;
    var cmds := List(composerJson, PostScaffoldCmds);
    if HasMarked(cmds) {
      assert Get(composerJson, PostScaffoldCmds) == Some(Arr(cmds));
      SetGet(composerJson, PostScaffoldCmds, Arr(cmds));
      // `foreach ($results as $key => $result)`: the marked entries, in order.
      ReplacedAt(cmds);
      var current := cmds;
      var key := 0;
      while key < |cmds|
        invariant 0 <= key <= |cmds| && |current| == |cmds|
        invariant forall j :: 0 <= j < |cmds| ==> current[j] == if j < key then Replaced(cmds)[j] else cmds[j]
        invariant composerJson == Set(d.manifest, PostScaffoldCmds, Arr(current))
        invariant p.State() == d.(manifest := composerJson)
      {
        if Marked(cmds[key]) && cmds[key] != Str(PostScaffoldCmd) {
          SetSet(d.manifest, PostScaffoldCmds, Arr(current), Arr(current[key := Str(PostScaffoldCmd)]));
          current := current[key := Str(PostScaffoldCmd)];
          composerJson := Set(composerJson, PostScaffoldCmds, Arr(current));
          p.manifest := composerJson;
        }
        key := key + 1;
      }
      assert current == Replaced(cmds);
    } else {
      composerJson := Append(composerJson, PostScaffoldCmds, Str(PostScaffoldCmd));
      p.manifest := composerJson;
    }
  }

  /** Lines 91-94: `composer config extra.patches-file composer.patches.json` unless already set. */
  method SetPatchesFile(p: Project, h: Host) returns (outcome: Result<()>)
    modifies p
    ensures Run(p.State(), outcome) == PatchesFileStep(old(p.State()), h)
  {
    var composerJson := p.manifest;
    if !PatchesFileSet(composerJson) {
      var composer := GetComposerPath(h);
      if composer.Fail? {
        return Fail(composer.message);
      }
      p.log := p.log + [ComposerConfigSet(composer.value, "extra.patches-file", PatchesFileName)];
      p.manifest := AfterConfig(p.manifest, h, PatchesFileKey, PatchesFileName);
    }
    return Ok(());
  }

  /** `preScaffoldChanges()`: the steps in order; a thrown exception ends it. */
  method PreScaffoldChanges(p: Project, h: Host) returns (outcome: Result<()>)
    modifies p
    ensures Run(p.State(), outcome) == PreScaffold(old(p.State()), h)
  {
    CreateHashSalt(p);
    outcome := RequirePatchesPlugin(p, h);
    if outcome.Fail? {
      return;
    }
    ghost var d2 := p.State();
    CopySettings(p);
    AddRoboEnvAutoload(p);
    TouchGitignore(p);
    DisableScaffoldGitignore(p);
    UpsertPostScaffoldCmd(p);
    assert p.State() == MiddleSteps(d2);
    outcome := SetPatchesFile(p, h);
  }

  // ---------------------------------------------------------------------------
  // updateScaffolding() and scaffold()
  // ---------------------------------------------------------------------------

  const ScaffoldArgs := " drupal:scaffold"
  const LockArgs := " update --lock"

  /** The project after the pre-scaffold stage, which `scaffold($package_name)` skips (composer is available here). */
  function PreStage(d: Disk, h: Host, composer: string, disablePre: bool): Disk {
    if disablePre then d else PreScaffoldEffect(d, h, composer)
  }

  /**
   * The scaffold bracket and the lock update, from the project `d1` the
   * pre-scaffold stage left: the package is enabled, `drupal:scaffold` runs
   * and writes its files, the package is disabled, and `composer update --lock`
   * runs when composer.json differs from `before`, its content when the run began.
   */
  function ScaffoldStage(d1: Disk, composer: string, scaffolded: set<string>, pkg: string, before: Json): Disk {
    var m := DisableManifest(EnableManifest(d1.manifest, pkg), pkg);
    Disk(m, d1.files + scaffolded,
         d1.log + [Exec(composer + ScaffoldArgs)] + (if m != before then [Exec(composer + LockArgs)] else []))
  }

  /**
   * `updateScaffolding()`. composer.json's hash is taken before the
   * pre-scaffold stage and compared after disabling; `_exec` reports failure
   * in its result instead of throwing, so a failing `drupal:scaffold` does not
   * stop the run; the package name is checked only in the closing message,
   * after everything else has happened. The pre-scaffold stage cannot throw
   * here (it throws only when composer is missing, which the first step has
   * already excluded), so it is taken in its written-out form.
   */
  function UpdateScaffoldingRun(d: Disk, h: Host, pkg: string, disablePre: bool): Run {
    match GetComposerPath(h)
    case Fail(e) => Run(d, Fail(e))
    case Ok(c) =>
      Run(ScaffoldStage(PreStage(d, h, c, disablePre), c, h.scaffolded, pkg, d.manifest),
          if EmptyString(pkg) then Fail(NoPackageMessage) else Ok(()))
  }

  /**
   * The failures: without composer nothing happens at all; with an empty
   * package name every step still happens and only then does the run throw.
   */
  lemma UpdateScaffoldingOutcome(d: Disk, h: Host, pkg: string, disablePre: bool)
    ensures GetComposerPath(h).Fail? ==> UpdateScaffoldingRun(d, h, pkg, disablePre) == Run(d, Fail(NoComposerMessage))
    ensures GetComposerPath(h).Ok? ==>
      UpdateScaffoldingRun(d, h, pkg, disablePre).outcome == (if EmptyString(pkg) then Fail(NoPackageMessage) else Ok(()))
  {
  }

  /** `log` extends `base` by entries none of which is an `_exec`. */
  predicate ExtendsWithoutExec(log: seq<Command>, base: seq<Command>) {
    && |log| >= |base| && log[..|base|] == base
    && forall i :: |base| <= i < |log| ==> !log[i].Exec?
  }

  /** The pre-scaffold stage only appends to the log, and nothing it appends is an `_exec`. */
  lemma PreStageLog(d: Disk, h: Host, composer: string, disablePre: bool)
    ensures ExtendsWithoutExec(PreStage(d, h, composer, disablePre).log, d.log)
  {
    if !disablePre {
      PlanHasNoExec(d, composer);
      AppendWithoutExec(d.log, PreScaffoldPlan(d, composer));
    }
  }

  lemma PlanHasNoExec(d: Disk, composer: string)
    ensures forall i :: 0 <= i < |PreScaffoldPlan(d, composer)| ==> !PreScaffoldPlan(d, composer)[i].Exec?
  {
  }

  lemma AppendWithoutExec(base: seq<Command>, plan: seq<Command>)
    requires forall i :: 0 <= i < |plan| ==> !plan[i].Exec?
    ensures ExtendsWithoutExec(base + plan, base)
  {
    assert forall i :: |base| <= i < |base + plan| ==> (base + plan)[i] == plan[i - |base|];
  }

  /** The pre-scaffold stage leaves allowed-packages as it found it. */
  lemma PreStageAllowedPackages(d: Disk, h: Host, composer: string, disablePre: bool)
    ensures Get(PreStage(d, h, composer, disablePre).manifest, AllowedPackages) == Get(d.manifest, AllowedPackages)
  {
    if !disablePre {
      AllowedPackagesApart();
      PreManifestFrame(d.manifest, h, AllowedPackages);
    }
  }

  /** The `_exec` calls of a log, in the order they were issued. */
  function Execs(log: seq<Command>): seq<Command> {
    if log == [] then [] else (if log[0].Exec? then [log[0]] else []) + Execs(log[1..])
  }

  lemma {:induction false} ExecsAppend(a: seq<Command>, b: seq<Command>)
    ensures Execs(a + b) == Execs(a) + Execs(b)
  {
    if a == [] {
      assert a + b == b;
    } else {
      assert (a + b)[1..] == a[1..] + b;
      ExecsAppend(a[1..], b);
    }
  }

  lemma {:induction false} ExecsNone(log: seq<Command>)
    requires forall i :: 0 <= i < |log| ==> !log[i].Exec?
    ensures Execs(log) == []
  {
    if log != [] {
      assert forall i :: 0 <= i < |log| - 1 ==> log[1..][i] == log[i + 1];
      ExecsNone(log[1..]);
    }
  }

  /**
   * A run that started with the log `base` kept it as a prefix, and its only
   * `_exec` calls are `drupal:scaffold` and then, when `changed`, one
   * `update --lock`; these two close the log.
   */
  predicate ClosesWithScaffold(log: seq<Command>, base: seq<Command>, composer: string, changed: bool) {
    var tail: seq<Command> := [Exec(composer + ScaffoldArgs)] + (if changed then [Exec(composer + LockArgs)] else []);
    && |log| >= |base| + |tail| && log[..|base|] == base
    && log[|log| - |tail|..] == tail
    && Execs(log[|base|..]) == tail
  }

  lemma ClosesWithScaffoldAppend(d1log: seq<Command>, base: seq<Command>, composer: string, changed: bool)
    requires ExtendsWithoutExec(d1log, base)
    ensures ClosesWithScaffold(d1log + [Exec(composer + ScaffoldArgs)] + (if changed then [Exec(composer + LockArgs)] else []),
                               base, composer, changed)
  {
    var tail: seq<Command> := [Exec(composer + ScaffoldArgs)] + (if changed then [Exec(composer + LockArgs)] else []);
    var log := d1log + tail;
    assert d1log + [Exec(composer + ScaffoldArgs)] + (if changed then [Exec(composer + LockArgs)] else []) == log;
    var mid := d1log[|base|..];
    assert log[..|base|] == d1log[..|base|];
    assert log[|base|..] == mid + tail;
    assert log[|log| - |tail|..] == tail;
    assert forall i :: 0 <= i < |mid| ==> mid[i] == d1log[|base| + i];
    ExecsNone(mid);
    ExecsAppend(mid, tail);
    assert Execs(tail) == tail by {
      if changed {
        assert tail == [tail[0]] + [tail[1]];
        ExecsAppend([tail[0]], [tail[1]]);
      }
    }
  }

  /**
   * After a stage that left no `_exec` behind, the only `_exec` calls are
   * `drupal:scaffold` and then, exactly when composer.json changed, one
   * `update --lock`; they are the last entries of the log.
   */
  lemma ScaffoldStageLock(d1: Disk, composer: string, scaffolded: set<string>, pkg: string, before: Json, base: seq<Command>)
    requires ExtendsWithoutExec(d1.log, base)
    ensures var r := ScaffoldStage(d1, composer, scaffolded, pkg, before);
      && ClosesWithScaffold(r.log, base, composer, r.manifest != before)
      && (Exec(composer + LockArgs) in r.log[|base|..] <==> r.manifest != before)
  {
    var r := ScaffoldStage(d1, composer, scaffolded, pkg, before);
    var tail: seq<Command> := [Exec(composer + ScaffoldArgs)] + (if r.manifest != before then [Exec(composer + LockArgs)] else []);
    ClosesWithScaffoldAppend(d1.log, base, composer, r.manifest != before);
    assert r.log == d1.log + tail;
    assert |composer + LockArgs| != |composer + ScaffoldArgs|;
    assert r.log[|base|..] == d1.log[|base|..] + tail;
    assert forall i :: 0 <= i < |d1.log| - |base| ==> r.log[|base|..][i] == d1.log[|base| + i];
    assert Exec(composer + LockArgs) in r.log[|base|..] ==> Exec(composer + LockArgs) in tail;
    if r.manifest != before {
      assert r.log[|base|..][|d1.log| - |base| + 1] == Exec(composer + LockArgs);
    }
  }

  /**
   * `composer update --lock` runs exactly once when composer.json ended up
   * different from where the run started, and never otherwise: the run's
   * only `_exec` calls are `drupal:scaffold` and then that lock update, and
   * they close the log.
   */
  lemma LockUpdatedIffChanged(d: Disk, h: Host, pkg: string, disablePre: bool)
    requires GetComposerPath(h).Ok?
    ensures var r := UpdateScaffoldingRun(d, h, pkg, disablePre).disk;
      && ClosesWithScaffold(r.log, d.log, GetComposerPath(h).value, r.manifest != d.manifest)
      && (Exec(GetComposerPath(h).value + LockArgs) in r.log[|d.log|..] <==> r.manifest != d.manifest)
  {
    var c := GetComposerPath(h).value;
    var d1 := PreStage(d, h, c, disablePre);
    PreStageLog(d, h, c, disablePre);
    ScaffoldStageLock(d1, c, h.scaffolded, pkg, d.manifest, d.log);
  }

  /** The bracket on an abstract stage: the scaffold `_exec` is logged, the files are written, allowed-packages loses `pkg`. */
  lemma ScaffoldStageBracket(d1: Disk, composer: string, scaffolded: set<string>, pkg: string, before: Json)
    requires NoDuplicates(List(d1.manifest, AllowedPackages))
    ensures var r := ScaffoldStage(d1, composer, scaffolded, pkg, before);
      && Exec(composer + ScaffoldArgs) in r.log
      && scaffolded <= r.files
      && Str(pkg) !in List(r.manifest, AllowedPackages)
      && List(r.manifest, AllowedPackages) == RemoveFirst(List(d1.manifest, AllowedPackages), Str(pkg))
  {
    BracketResult(d1.manifest, pkg);
    var r := ScaffoldStage(d1, composer, scaffolded, pkg, before);
    assert r.log[|d1.log|] == Exec(composer + ScaffoldArgs);
  }

  /**
   * The scaffold bracket: `drupal:scaffold` is run with the package enabled,
   * and afterwards the package is no longer allowed while every other entry of
   * a duplicate-free allowed-packages list stays, in order.
   */
  lemma ScaffoldBracket(d: Disk, h: Host, pkg: string, disablePre: bool)
    requires GetComposerPath(h).Ok?
    requires NoDuplicates(List(d.manifest, AllowedPackages))
    ensures var r := UpdateScaffoldingRun(d, h, pkg, disablePre).disk;
      && Exec(GetComposerPath(h).value + ScaffoldArgs) in r.log
      && h.scaffolded <= r.files
      && Str(pkg) !in List(r.manifest, AllowedPackages)
      && List(r.manifest, AllowedPackages) == RemoveFirst(List(d.manifest, AllowedPackages), Str(pkg))
  {
    var c := GetComposerPath(h).value;
    PreStageAllowedPackages(d, h, c, disablePre);
    var d1 := PreStage(d, h, c, disablePre);
    assert List(d1.manifest, AllowedPackages) == List(d.manifest, AllowedPackages);
    ScaffoldStageBracket(d1, c, h.scaffolded, pkg, d.manifest);
  }

  /** A bracket on a settled manifest leaves it settled. */
  lemma SettledBracket(m: Json, pkg: string)
    requires Settled(m)
    ensures Settled(DisableManifest(EnableManifest(m, pkg), pkg))
  {
    AllowedPackagesApartFromReads();
    BracketFrame(m, pkg, RequirePatches);
    BracketFrame(m, pkg, Psr4);
    BracketFrame(m, pkg, GitignoreFlag);
    BracketFrame(m, pkg, PostScaffoldCmds);
    BracketFrame(m, pkg, PatchesFileKey);
  }

  /** A bracket leaves the web root, so the settings.php check, where it was. */
  lemma WebRootBracket(m: Json, pkg: string)
    ensures WebRoot(DisableManifest(EnableManifest(m, pkg), pkg)) == WebRoot(m)
  {
    AllowedPackagesApartFromReads();
    BracketFrame(m, pkg, WebRootPath);
  }

  /** A stage after which the bracket restores composer.json and logs only the scaffold `_exec`. */
  lemma ScaffoldStageAgain(d1: Disk, composer: string, scaffolded: set<string>, pkg: string, before: Json)
    requires DisableManifest(EnableManifest(d1.manifest, pkg), pkg) == d1.manifest == before
    requires scaffolded <= d1.files
    ensures ScaffoldStage(d1, composer, scaffolded, pkg, before) == d1.(log := d1.log + [Exec(composer + ScaffoldArgs)])
  {
  }

  /** On a settled project the pre-scaffold stage changes nothing. */
  lemma PreStageSettledNoOp(e: Disk, h: Host, composer: string, disablePre: bool)
    requires disablePre || (Settled(e.manifest) && FilesSettled(e))
    ensures PreStage(e, h, composer, disablePre) == e
  {
    if !disablePre {
      PreManifestSettledNoOp(e.manifest, h);
      SettledPlanEmpty(e, composer);
      assert e.log + PreScaffoldPlan(e, composer) == e.log;
    }
  }

  /**
   * The first run of the bracket, seen from its result: the allowed-packages
   * list it leaves is one that a further bracket restores exactly.
   */
  lemma FirstRunRestorable(d: Disk, h: Host, pkg: string, disablePre: bool)
    requires GetComposerPath(h).Ok?
    requires NoDuplicates(List(d.manifest, AllowedPackages))
    ensures var e1 := UpdateScaffoldingRun(d, h, pkg, disablePre).disk;
      DisableManifest(EnableManifest(e1.manifest, pkg), pkg) == e1.manifest
  {
    var c := GetComposerPath(h).value;
    var d1 := PreStage(d, h, c, disablePre);
    PreStageAllowedPackages(d, h, c, disablePre);
    assert List(d1.manifest, AllowedPackages) == List(d.manifest, AllowedPackages);
    BracketResult(d1.manifest, pkg);
    var e1 := ScaffoldStage(d1, c, h.scaffolded, pkg, d.manifest);
    EnableDisableRestores(e1.manifest, pkg, RemoveFirst(List(d.manifest, AllowedPackages), Str(pkg)));
  }

  /** When the pre-scaffold stage runs for a cooperative host, the first run leaves composer.json settled. */
  lemma FirstRunSettled(d: Disk, h: Host, pkg: string)
    requires Cooperative(h)
    ensures Settled(UpdateScaffoldingRun(d, h, pkg, false).disk.manifest)
  {
    var c := GetComposerPath(h).value;
    PreManifestSettles(d.manifest, h);
    SettledBracket(PreStage(d, h, c, false).manifest, pkg);
  }

  /**
   * A second run changes nothing in composer.json that the first run left,
   * so it does not update the lock file, and it ends the same way.
   */
  lemma UpdateScaffoldingStable(d: Disk, h: Host, pkg: string, disablePre: bool)
    requires GetComposerPath(h).Ok? && (disablePre || Cooperative(h))
    requires NoDuplicates(List(d.manifest, AllowedPackages))
    ensures var r1 := UpdateScaffoldingRun(d, h, pkg, disablePre);
      var r2 := UpdateScaffoldingRun(r1.disk, h, pkg, disablePre);
      && r2.disk.manifest == r1.disk.manifest
      && r2.outcome == r1.outcome
      && Exec(GetComposerPath(h).value + LockArgs) !in r2.disk.log[|r1.disk.log|..]
  {
    var c := GetComposerPath(h).value;
    var e1 := UpdateScaffoldingRun(d, h, pkg, disablePre).disk;
    FirstRunRestorable(d, h, pkg, disablePre);
    var f1 := PreStage(e1, h, c, disablePre);
    if !disablePre {
      FirstRunSettled(d, h, pkg);
      PreManifestSettledNoOp(e1.manifest, h);
    }
    assert f1.manifest == e1.manifest;
    LockUpdatedIffChanged(e1, h, pkg, disablePre);
  }

  /**
   * Once the first run has left the files settled (drupal:scaffold may have
   * brought in a default.settings.php that the next run copies), a further
   * run only runs `drupal:scaffold` again.
   */
  lemma UpdateScaffoldingConverges(d: Disk, h: Host, pkg: string, disablePre: bool)
    requires GetComposerPath(h).Ok? && (disablePre || Cooperative(h))
    requires NoDuplicates(List(d.manifest, AllowedPackages))
    requires disablePre || FilesSettled(UpdateScaffoldingRun(d, h, pkg, disablePre).disk)
    ensures var r1 := UpdateScaffoldingRun(d, h, pkg, disablePre);
      UpdateScaffoldingRun(r1.disk, h, pkg, disablePre).disk ==
        r1.disk.(log := r1.disk.log + [Exec(GetComposerPath(h).value + ScaffoldArgs)])
  {
    var c := GetComposerPath(h).value;
    var e1 := UpdateScaffoldingRun(d, h, pkg, disablePre).disk;
    FirstRunRestorable(d, h, pkg, disablePre);
    ScaffoldBracket(d, h, pkg, disablePre);
    if !disablePre {
      FirstRunSettled(d, h, pkg);
    }
    PreStageSettledNoOp(e1, h, c, disablePre);
    ScaffoldStageAgain(e1, c, h.scaffolded, pkg, e1.manifest);
  }

  /** The bracket and the lock update on the project directory, `hashBefore` being composer.json when the run began. */
  method ScaffoldWithPackage(p: Project, composer: string, scaffolded: set<string>, pkg: string, hashBefore: Json)
    modifies p
    ensures p.State() == ScaffoldStage(old(p.State()), composer, scaffolded, pkg, hashBefore)
  {
    var enabled := EnableScaffolding(p, pkg);
    p.log := p.log + [Exec(composer + ScaffoldArgs)];
    p.files := p.files + scaffolded;
    var disabled := DisableScaffolding(p, pkg);
    if hashBefore != p.manifest {
      p.log := p.log + [Exec(composer + LockArgs)];
    }
  }

  /** `updateScaffolding()` on the command object and the project directory. */
  method UpdateScaffolding(cmd: ScaffoldCommand, p: Project, h: Host) returns (outcome: Result<()>)
    modifies p
    ensures Run(p.State(), outcome) == UpdateScaffoldingRun(old(p.State()), h, cmd.packageName, cmd.disablePreScaffolding)
  {
    var composerPath := GetComposerPath(h);
    if composerPath.Fail? {
      return Fail(composerPath.message);
    }
    ghost var d := p.State();
    var hashBefore := p.manifest;
    if !cmd.disablePreScaffolding {
      var preOutcome := PreScaffoldChanges(p, h);
      PreScaffoldCommands(d, h);
    }
    assert p.State() == PreStage(d, h, composerPath.value, cmd.disablePreScaffolding);
    ScaffoldWithPackage(p, composerPath.value, h.scaffolded, cmd.packageName, hashBefore);
    var name := cmd.GetPackageName();
    if name.Fail? {
      return Fail(name.message);
    }
    return Ok(());
  }

  /** `scaffold($package_name)`: a non-empty argument retargets the command and skips the pre-scaffold stage. */
  method Scaffold(cmd: ScaffoldCommand, p: Project, h: Host, packageName: string) returns (outcome: Result<()>)
    modifies cmd, p
    ensures |packageName| > 0 ==> cmd.packageName == packageName && cmd.disablePreScaffolding
    ensures |packageName| == 0 ==> cmd.packageName == old(cmd.packageName) && cmd.disablePreScaffolding == old(cmd.disablePreScaffolding)
    ensures Run(p.State(), outcome) == UpdateScaffoldingRun(old(p.State()), h, cmd.packageName, cmd.disablePreScaffolding)
  {
    cmd.Retarget(packageName);
    outcome := UpdateScaffolding(cmd, p, h);
  }
}
