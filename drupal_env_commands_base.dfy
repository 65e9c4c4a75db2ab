/**
 * DrupalEnvCommandsBase: the scaffolding bracket. A package is added to
 * composer.json's `extra.drupal-scaffold.allowed-packages` just before
 * `composer drupal:scaffold` runs and removed again right after.
 */
module DrupalEnvCommandsBase {
  import opened Results
  import opened Json
  import opened Workspace

  const AllowedPackages: Path := ["extra", "drupal-scaffold", "allowed-packages"]
  const DockerComposer := "docker run --rm -i --tty -v $PWD:/app composer:2"
  const NoComposerMessage := "Either composer or docker must be installed to continue"
  const NoPackageMessage := "$this->package_name must be set."

  /** The command object's two fields; `scaffold()` sets both. */
  class ScaffoldCommand {
    var packageName: string
    var disablePreScaffolding: bool

    constructor (packageName: string)
      ensures this.packageName == packageName && !disablePreScaffolding
    {
      this.packageName := packageName;
      disablePreScaffolding := false;
    }

    /** `getPackageName()`: throws when the name is empty in PHP's sense ("" or "0"). */
    function GetPackageName(): (r: Result<string>)
      reads this
      ensures r.Fail? <==> EmptyString(packageName)
      ensures r.Ok? ==> r.value == packageName
    {
      if EmptyString(packageName) then Fail(NoPackageMessage) else Ok(packageName)
    }

    /** The field updates at the start of `scaffold($package_name)`. */
    method Retarget(name: string)
      modifies this
      ensures |name| > 0 ==> packageName == name && disablePreScaffolding
      ensures |name| == 0 ==> packageName == old(packageName) && disablePreScaffolding == old(disablePreScaffolding)
    {
      if |name| > 0 {
        packageName := name;
        disablePreScaffolding := true;
      }
    }
  }

  /** `getComposerPath()`: native composer first, the docker image second. */
  function GetComposerPath(h: Host): (r: Result<string>)
    ensures h.composerOnPath ==> r == Ok("composer")
    ensures !h.composerOnPath && h.dockerOnPath ==> r == Ok(DockerComposer)
    ensures r.Fail? <==> !h.composerOnPath && !h.dockerOnPath
  {
    if h.composerOnPath then Ok("composer")
    else if h.dockerOnPath then Ok(DockerComposer)
    else Fail(NoComposerMessage)
  }

  predicate NoDuplicates(xs: seq<Json>) {
    forall i, j :: 0 <= i < j < |xs| ==> xs[i] != xs[j]
  }

  /** The list after `enableScaffolding`: appended at the end when absent. */
  function Enabled(xs: seq<Json>, pkg: string): (r: seq<Json>)
    ensures Str(pkg) in r
    ensures Str(pkg) in xs ==> r == xs
    ensures Str(pkg) !in xs ==> r == xs + [Str(pkg)]
  {
    if Str(pkg) in xs then xs else xs + [Str(pkg)]
  }

  /** The list after `unset($list[array_search($pkg, $list)])`: the first occurrence goes. */
  function RemoveFirst(xs: seq<Json>, x: Json): (r: seq<Json>)
  {
    if xs == [] then []
    else if xs[0] == x then xs[1..]
    else [xs[0]] + RemoveFirst(xs[1..], x)
  }

  /** `array_search`: the position of the first occurrence. */
  function FirstIndex(xs: seq<Json>, x: Json): (i: nat)
    requires x in xs
    ensures i < |xs| && xs[i] == x && x !in xs[..i]
  {
    if xs[0] == x then 0 else 1 + FirstIndex(xs[1..], x)
  }

  /** No occurrence comes before the one `array_search` finds. */
  lemma {:induction false} FirstIndexLeast(xs: seq<Json>, x: Json, i: nat)
    requires i < |xs| && xs[i] == x
    ensures FirstIndex(xs, x) <= i
  {
    if xs[0] != x {
      assert xs[1..][i - 1] == x;
      FirstIndexLeast(xs[1..], x, i - 1);
    }
  }

  /** Disabling removes exactly the first occurrence; the others keep their order. */
  lemma {:induction false} RemoveFirstAt(xs: seq<Json>, x: Json)
    requires x in xs
    ensures RemoveFirst(xs, x) == xs[..FirstIndex(xs, x)] + xs[FirstIndex(xs, x) + 1..]
  {
    if xs[0] != x {
      var j := FirstIndex(xs[1..], x);
      assert FirstIndex(xs, x) == j + 1;
      RemoveFirstAt(xs[1..], x);
      assert RemoveFirst(xs, x) == [xs[0]] + (xs[1..][..j] + xs[1..][j + 1..]);
      assert [xs[0]] + xs[1..][..j] == xs[..j + 1];
      assert xs[1..][j + 1..] == xs[j + 2..];
    }
  }

  /** Removing an absent entry changes nothing. */
  lemma {:induction false} RemoveFirstAbsent(xs: seq<Json>, x: Json)
    requires x !in xs
    ensures RemoveFirst(xs, x) == xs
  {
    if xs != [] {
      RemoveFirstAbsent(xs[1..], x);
    }
  }

  /** Enabling never creates a duplicate. */
  lemma EnabledNoDuplicates(xs: seq<Json>, pkg: string)
    requires NoDuplicates(xs)
    ensures NoDuplicates(Enabled(xs, pkg))
  {
  }

  /** Enabling twice is enabling once. */
  lemma EnabledIdempotent(xs: seq<Json>, pkg: string)
    ensures Enabled(Enabled(xs, pkg), pkg) == Enabled(xs, pkg)
  {
  }

  /** In a duplicate-free list an entry does not come back later. */
  lemma NotAfter(xs: seq<Json>, i: nat)
    requires NoDuplicates(xs) && i < |xs|
    ensures xs[i] !in xs[i + 1..]
  {
    var rest := xs[i + 1..];
    forall k | 0 <= k < |rest|
      ensures rest[k] != xs[i]
    {
      assert rest[k] == xs[i + 1 + k];
    }
  }

  /** An entry appended to a list without it is the one removed. */
  lemma {:induction false} RemoveFirstAppended(xs: seq<Json>, x: Json)
    requires x !in xs
    ensures RemoveFirst(xs + [x], x) == xs
  {
    if xs != [] {
      assert (xs + [x])[1..] == xs[1..] + [x];
      RemoveFirstAppended(xs[1..], x);
    }
  }

  /**
   * From a duplicate-free list, enable then disable leaves the package absent
   * and every other entry where it was, in the same order.
   */
  lemma EnableThenDisable(xs: seq<Json>, pkg: string)
    requires NoDuplicates(xs)
    ensures Str(pkg) !in RemoveFirst(Enabled(xs, pkg), Str(pkg))
    ensures Str(pkg) !in xs ==> RemoveFirst(Enabled(xs, pkg), Str(pkg)) == xs
    ensures Str(pkg) in xs ==> RemoveFirst(Enabled(xs, pkg), Str(pkg)) == xs[..FirstIndex(xs, Str(pkg))] + xs[FirstIndex(xs, Str(pkg)) + 1..]
  {
    var x := Str(pkg);
    if x in xs {
      var i := FirstIndex(xs, x);
      RemoveFirstAt(xs, x);
      NotAfter(xs, i);
    } else {
      RemoveFirstAppended(xs, x);
    }
  }

  /**
   * With a duplicated entry, disable leaves a copy behind: `array_search`
   * finds the first copy only, so the bracket needs a duplicate-free list.
   */
  lemma DisableKeepsSecondCopy(xs: seq<Json>, pkg: string, i: nat, j: nat)
    requires i < j < |xs| && xs[i] == Str(pkg) && xs[j] == Str(pkg)
    ensures Str(pkg) in RemoveFirst(Enabled(xs, pkg), Str(pkg))
  {
    assert Str(pkg) in xs;
    RemoveFirstAt(xs, Str(pkg));
    var k := FirstIndex(xs, Str(pkg));
    FirstIndexLeast(xs, Str(pkg), i);
    assert (xs[..k] + xs[k + 1..])[j - 1] == xs[j];
  }

  /** composer.json after `enableScaffolding()`. */
  function EnableManifest(m: Json, pkg: string): (r: Json)
    ensures List(r, AllowedPackages) == Enabled(List(m, AllowedPackages), pkg)
    ensures Str(pkg) in List(m, AllowedPackages) ==> r == m
  {
    if Str(pkg) in List(m, AllowedPackages) then m else Append(m, AllowedPackages, Str(pkg))
  }

  /** composer.json after `disableScaffolding()`. */
  function DisableManifest(m: Json, pkg: string): (r: Json)
    ensures List(r, AllowedPackages) == RemoveFirst(List(m, AllowedPackages), Str(pkg))
    ensures Str(pkg) !in List(m, AllowedPackages) ==> r == m
  {
    var xs := List(m, AllowedPackages);
    if Str(pkg) in xs then
      GetSet(m, AllowedPackages, Arr(RemoveFirst(xs, Str(pkg))));
      Set(m, AllowedPackages, Arr(RemoveFirst(xs, Str(pkg))))
    else
      RemoveFirstAbsent(xs, Str(pkg));
      m
  }

  /**
   * Scenario: with no allowed-packages key, enabling creates `[pkg]`, enabling
   * again changes nothing, and disabling leaves `[]`.
   */
  lemma EnableDisableScenario(m: Json, pkg: string)
    requires Get(m, AllowedPackages) == None
    ensures Get(EnableManifest(m, pkg), AllowedPackages) == Some(Arr([Str(pkg)]))
    ensures EnableManifest(EnableManifest(m, pkg), pkg) == EnableManifest(m, pkg)
    ensures Get(DisableManifest(EnableManifest(m, pkg), pkg), AllowedPackages) == Some(Arr([]))
  {
    assert [] + [Str(pkg)] == [Str(pkg)];
    GetSet(m, AllowedPackages, Arr([Str(pkg)]));
    var m1 := EnableManifest(m, pkg);
    assert List(m1, AllowedPackages) == [Str(pkg)];
    assert RemoveFirst([Str(pkg)], Str(pkg)) == [];
    GetSet(m1, AllowedPackages, Arr([]));
  }

  /** When composer.json holds a duplicate-free list without the package, enable then disable restores it exactly. */
  lemma EnableDisableRestores(m: Json, pkg: string, ys: seq<Json>)
    requires Get(m, AllowedPackages) == Some(Arr(ys)) && Str(pkg) !in ys
    ensures DisableManifest(EnableManifest(m, pkg), pkg) == m
  {
    var m1 := EnableManifest(m, pkg);
    assert m1 == Set(m, AllowedPackages, Arr(ys + [Str(pkg)]));
    GetSet(m, AllowedPackages, Arr(ys + [Str(pkg)]));
    RemoveFirstAt(ys + [Str(pkg)], Str(pkg));
    assert FirstIndex(ys + [Str(pkg)], Str(pkg)) == |ys|;
    assert (ys + [Str(pkg)])[..|ys|] == ys;
    assert List(m1, AllowedPackages) == ys + [Str(pkg)];
    assert RemoveFirst(ys + [Str(pkg)], Str(pkg)) == ys;
    SetSet(m, AllowedPackages, Arr(ys + [Str(pkg)]), Arr(ys));
    SetGet(m, AllowedPackages, Arr(ys));
  }

  /** What enable-then-disable leaves at allowed-packages: always a list, without the package. */
  lemma BracketResult(m: Json, pkg: string)
    requires NoDuplicates(List(m, AllowedPackages))
    ensures Get(DisableManifest(EnableManifest(m, pkg), pkg), AllowedPackages) ==
      Some(Arr(RemoveFirst(List(m, AllowedPackages), Str(pkg))))
    ensures Str(pkg) !in RemoveFirst(List(m, AllowedPackages), Str(pkg))
  {
    var xs := List(m, AllowedPackages);
    EnableThenDisable(xs, pkg);
    var m1 := EnableManifest(m, pkg);
    GetSet(m1, AllowedPackages, Arr(RemoveFirst(List(m1, AllowedPackages), Str(pkg))));
    if Str(pkg) !in xs {
      RemoveFirstAbsent(xs, Str(pkg));
    }
  }

  /** Enable-then-disable writes nothing outside allowed-packages. */
  lemma BracketFrame(m: Json, pkg: string, q: Path)
    requires Diverge(AllowedPackages, q)
    ensures Get(DisableManifest(EnableManifest(m, pkg), pkg), q) == Get(m, q)
  {
    var xs := List(m, AllowedPackages);
    GetSetOther(m, AllowedPackages, q, Arr(xs + [Str(pkg)]));
    var m1 := EnableManifest(m, pkg);
    GetSetOther(m1, AllowedPackages, q, Arr(RemoveFirst(List(m1, AllowedPackages), Str(pkg))));
  }

  /** `enableScaffolding()`: true iff composer.json had to change. */
  method EnableScaffolding(p: Project, pkg: string) returns (changed: bool)
    modifies p
    ensures changed <==> Str(pkg) !in List(old(p.manifest), AllowedPackages)
    ensures p.manifest == EnableManifest(old(p.manifest), pkg)
    ensures p.files == old(p.files) && p.log == old(p.log)
  {
    var composerJson := p.manifest;
    if Str(pkg) !in List(composerJson, AllowedPackages) {
      composerJson := Append(composerJson, AllowedPackages, Str(pkg));
      p.manifest := composerJson;
      return true;
    }
    return false;
  }

  /** `disableScaffolding()`: true iff composer.json had to change. */
  method DisableScaffolding(p: Project, pkg: string) returns (changed: bool)
    modifies p
    ensures changed <==> Str(pkg) in List(old(p.manifest), AllowedPackages)
    ensures p.manifest == DisableManifest(old(p.manifest), pkg)
    ensures p.files == old(p.files) && p.log == old(p.log)
  {
    var composerJson := p.manifest;
    var xs := List(composerJson, AllowedPackages);
    if Str(pkg) in xs {
      composerJson := Set(composerJson, AllowedPackages, Arr(RemoveFirst(xs, Str(pkg))));
      p.manifest := composerJson;
      return true;
    }
    return false;
  }
}
