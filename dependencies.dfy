/**
 * The dependency-selection rule of `getDependencies`: the runtime dependencies
 * of the manifest, plus those devDependencies whose name some requirement
 * found in the files starts with, handed to the version mapper.
 */
module Dependencies {
  import opened Wrappers

  /** A manifest dependency map: module name to version specifier. */
  type DependencyMap = map<string, string>

  /** `s.startsWith(p)`: a plain prefix test, with no path-separator boundary. */
  predicate StartsWith(s: string, p: string) {
    |p| <= |s| && s[..|p|] == p
  }

  /** Reference meaning of "the files use `key`": some requirement starts with it. */
  ghost predicate UsedIn(reqs: seq<string>, key: string) {
    exists i :: 0 <= i < |reqs| && StartsWith(reqs[i], key)
  }

  /** `reqs.some(dep => dep.startsWith(key))`, scanning from the left. */
  function SomeStartsWith(reqs: seq<string>, key: string): (b: bool)
    ensures b <==> UsedIn(reqs, key)
  {
    if reqs == [] then false
    else if StartsWith(reqs[0], key) then true
    else
      var rest := SomeStartsWith(reqs[1..], key);
      assert UsedIn(reqs, key) ==> UsedIn(reqs[1..], key) by {
        if UsedIn(reqs, key) {
          var i :| 0 <= i < |reqs| && StartsWith(reqs[i], key);
          assert i != 0 && reqs[1..][i - 1] == reqs[i];
        }
      }
      assert UsedIn(reqs[1..], key) ==> UsedIn(reqs, key) by {
        if UsedIn(reqs[1..], key) {
          var j :| 0 <= j < |reqs[1..]| && StartsWith(reqs[1..][j], key);
          assert reqs[j + 1] == reqs[1..][j];
        }
      }
      rest
  }

  /** A missing `dependencies` or `devDependencies` field defaults to `{}`. */
  function OrEmpty(m: Option<DependencyMap>): DependencyMap {
    m.GetOr(map[])
  }

  /**
   * `pickBy(devDependencies, (_, key) => reqs.some(dep => dep.startsWith(key)))`:
   * the devDependencies some requirement uses, each with its declared version.
   */
  function KeptDevDependencies(dev: DependencyMap, reqs: seq<string>): (kept: DependencyMap)
    ensures forall k :: k in kept <==> k in dev && UsedIn(reqs, k)
    ensures forall k :: k in kept ==> kept[k] == dev[k]
  {
    map k | k in dev && SomeStartsWith(reqs, k) :: dev[k]
  }

  /** Object spread `{...base, ...over}`: a key of `over` replaces the one of `base`. */
  function Spread(base: DependencyMap, over: DependencyMap): (m: DependencyMap)
    ensures m.Keys == base.Keys + over.Keys
    ensures forall k :: k in over ==> m[k] == over[k]
    ensures forall k :: k in base && k !in over ==> m[k] == base[k]
  {
    base + over
  }

  /**
   * The map `getDependencies` passes to `mapDependencies`: every runtime key,
   * every used dev key; a used dev key carries its dev version even when the
   * runtime map declares it too, every other key its runtime version.
   */
  function MergedDependencies(dependencies: Option<DependencyMap>, devDependencies: Option<DependencyMap>,
                              reqs: seq<string>): (m: DependencyMap)
    ensures forall k :: k in m <==>
      k in OrEmpty(dependencies) || (k in OrEmpty(devDependencies) && UsedIn(reqs, k))
    ensures forall k :: k in OrEmpty(devDependencies) && UsedIn(reqs, k) ==>
      m[k] == OrEmpty(devDependencies)[k]
    ensures forall k :: k in OrEmpty(dependencies) && !(k in OrEmpty(devDependencies) && UsedIn(reqs, k)) ==>
      m[k] == OrEmpty(dependencies)[k]
  {
    Spread(OrEmpty(dependencies), KeptDevDependencies(OrEmpty(devDependencies), reqs))
  }

  /**
   * `getDependencies(packageJSON, files)`: the version mapper applied to the
   * merged map, where the requirements are those the analyzer finds in `files`.
   */
  function GetDependencies<F>(dependencies: Option<DependencyMap>, devDependencies: Option<DependencyMap>,
                              files: seq<F>, requiresFromFiles: seq<F> -> seq<string>,
                              mapDependencies: DependencyMap -> DependencyMap): (r: DependencyMap)
    ensures (forall k :: k in OrEmpty(devDependencies) ==> !UsedIn(requiresFromFiles(files), k)) ==>
      r == mapDependencies(OrEmpty(dependencies))
    ensures OrEmpty(dependencies) == map[] && OrEmpty(devDependencies) == map[] ==> r == mapDependencies(map[])
  {
    var merged := MergedDependencies(dependencies, devDependencies, requiresFromFiles(files));
    assert (forall k :: k in OrEmpty(devDependencies) ==> !UsedIn(requiresFromFiles(files), k)) ==>
      merged == OrEmpty(dependencies);
    mapDependencies(MergedDependencies(dependencies, devDependencies, requiresFromFiles(files)))
  }

  /** A requirement naming exactly a devDependency keeps it. */
  lemma ExactRequirementIsUse(reqs: seq<string>, key: string)
    requires key in reqs
    ensures UsedIn(reqs, key)
  {
  }

  /** A requirement `key/sub` (a subpath import) keeps the devDependency `key`. */
  lemma SubpathRequirementIsUse(reqs: seq<string>, key: string, sub: string)
    requires key + "/" + sub in reqs
    ensures UsedIn(reqs, key)
  {
  }

  /** The prefix test has no boundary: a file requiring `react-dom` keeps the devDependency `react`. */
  lemma ReactDomKeepsReact()
    ensures KeptDevDependencies(map["react" := "^18"], ["react-dom"]) == map["react" := "^18"]
  {
  }

  /** More requirements never drop a devDependency. */
  lemma MoreRequirementsKeepMore(dev: DependencyMap, reqs1: seq<string>, reqs2: seq<string>)
    requires forall r :: r in reqs1 ==> r in reqs2
    ensures KeptDevDependencies(dev, reqs1).Keys <= KeptDevDependencies(dev, reqs2).Keys
    ensures forall k :: k in KeptDevDependencies(dev, reqs1) ==>
      KeptDevDependencies(dev, reqs2)[k] == KeptDevDependencies(dev, reqs1)[k]
  {
    forall k | k in KeptDevDependencies(dev, reqs1)
      ensures k in KeptDevDependencies(dev, reqs2)
    {
      var i :| 0 <= i < |reqs1| && StartsWith(reqs1[i], k);
      assert reqs1[i] in reqs2;
      var j :| 0 <= j < |reqs2| && reqs2[j] == reqs1[i];
    }
  }

  /**
   * The dependencies depend on the files only through which devDependencies
   * they use: the order and repetition of the requirements do not matter.
   */
  lemma SameUseSameDependencies<F>(dependencies: Option<DependencyMap>, devDependencies: Option<DependencyMap>,
                                   files1: seq<F>, files2: seq<F>, requiresFromFiles: seq<F> -> seq<string>,
                                   mapDependencies: DependencyMap -> DependencyMap)
    requires forall r :: r in requiresFromFiles(files1) <==> r in requiresFromFiles(files2)
    ensures GetDependencies(dependencies, devDependencies, files1, requiresFromFiles, mapDependencies)
         == GetDependencies(dependencies, devDependencies, files2, requiresFromFiles, mapDependencies)
  {
    var reqs1, reqs2 := requiresFromFiles(files1), requiresFromFiles(files2);
    MoreRequirementsKeepMore(OrEmpty(devDependencies), reqs1, reqs2);
    MoreRequirementsKeepMore(OrEmpty(devDependencies), reqs2, reqs1);
    assert KeptDevDependencies(OrEmpty(devDependencies), reqs1) == KeptDevDependencies(OrEmpty(devDependencies), reqs2);
  }

  /** On a name collision the used devDependency's version replaces the runtime one. */
  lemma DevVersionWinsCollision()
    ensures MergedDependencies(Some(map["react" := "^17"]), Some(map["react" := "^18"]), ["react"])
         == map["react" := "^18"]
  {
  }

  /** Absent dependency fields behave as `{}`, and with none declared the merged map is empty. */
  lemma AbsentFieldsAreEmpty(reqs: seq<string>)
    ensures MergedDependencies(None, None, reqs) == MergedDependencies(Some(map[]), Some(map[]), reqs) == map[]
  {
  }

  /**
   * Runtime `react`, devDependency `react-dom` required by a file: both reach
   * the version mapper, each with its declared version.
   */
  lemma RuntimePlusUsedDev()
    ensures MergedDependencies(Some(map["react" := "^18"]), Some(map["react-dom" := "^18"]), ["react-dom"])
         == map["react" := "^18", "react-dom" := "^18"]
  {
  }

  /** A devDependency no requirement starts with does not reach the version mapper. */
  lemma UnusedDevDropped(dependencies: Option<DependencyMap>, devDependencies: Option<DependencyMap>,
                         reqs: seq<string>, key: string)
    requires key !in OrEmpty(dependencies)
    requires forall r :: r in reqs ==> !StartsWith(r, key)
    ensures key !in MergedDependencies(dependencies, devDependencies, reqs)
  {
  }
}
