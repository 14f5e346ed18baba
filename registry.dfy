/** The check registry: the fixed, ordered table of rubric items, each
    naming its evaluator, its weight and the workshop module it belongs to. */
module Registry {
  import opened Text
  import opened Project
  import Checks

  /** One registry entry: its name, the check function it calls (which
      reads the project tree and queries the engine), its weight and the
      workshop module it belongs to. */
  datatype Check = Check(name: string, func: Env -> Outcome, points: nat, moduleNum: nat)

  /** Module 04: Containerize an Application (25 pts). */
  const ContainerizeAnApplication: seq<Check> := [
    Check("Dockerfile exists", (env: Env) => Checks.DockerfileExists(env.fs), 5, 4),
    Check("FROM node base image", (env: Env) => Checks.DockerfileFromNode(env.fs), 3, 4),
    Check("WORKDIR set to /app", (env: Env) => Checks.DockerfileWorkdir(env.fs), 2, 4),
    Check("COPY package.json first", (env: Env) => Checks.DockerfileCopyPackageFirst(env.fs), 3, 4),
    Check("RUN npm/yarn install", (env: Env) => Checks.DockerfileRunInstall(env.fs), 3, 4),
    Check("COPY source code", (env: Env) => Checks.DockerfileCopySource(env.fs), 2, 4),
    Check("EXPOSE 3000", (env: Env) => Checks.DockerfileExpose(env.fs), 2, 4),
    Check("CMD defined", (env: Env) => Checks.DockerfileCmd(env.fs), 3, 4),
    Check("Image builds successfully", (env: Env) => Checks.ImageBuilds(env.engine), 2, 4)
  ]

  /** Module 05: Update the Application (10 pts). */
  const UpdateTheApplication: seq<Check> := [
    Check("Source code modified", (env: Env) => Checks.SourceModified(env.fs), 5, 5),
    Check("Empty state text changed", (env: Env) => Checks.UpdateTextChanged(env.fs), 5, 5)
  ]

  /** Module 06: Share the Application (10 pts). */
  const ShareTheApplication: seq<Check> := [
    Check("Image tagged correctly", (env: Env) => Checks.ImageTagged(env.engine), 5, 6),
    Check("Tag format valid", (env: Env) => Checks.TagFormat(env.engine), 5, 6)
  ]

  /** Module 07: Persist the DB (10 pts). */
  const PersistTheDb: seq<Check> := [
    Check("Volume config present", (env: Env) => Checks.VolumeConfig(env.fs, env.engine), 5, 7),
    Check("Volume mount path correct", (env: Env) => Checks.VolumeMountPath(env.fs, env.engine), 5, 7)
  ]

  /** Module 08: Use Bind Mounts (10 pts). */
  const UseBindMounts: seq<Check> := [
    Check("Bind mount configured", (env: Env) => Checks.BindMountConfig(env.fs), 5, 8),
    Check("Dev workflow configured", (env: Env) => Checks.BindMountDev(env.fs), 5, 8)
  ]

  /** Module 09: Multi-Container Apps (15 pts). */
  const MultiContainerApps: seq<Check> := [
    Check("MYSQL_HOST env var", (env: Env) => Checks.MysqlHostEnv(env.fs), 5, 9),
    Check("MySQL credentials", (env: Env) => Checks.MysqlCredentials(env.fs), 5, 9),
    Check("Multi-container network", (env: Env) => Checks.MultiContainerNetwork(env.fs), 5, 9)
  ]

  /** Module 10: Use Docker Compose (15 pts). */
  const UseDockerCompose: seq<Check> := [
    Check("Compose file exists", (env: Env) => Checks.ComposeFileExists(env.fs), 3, 10),
    Check("App service defined", (env: Env) => Checks.ComposeAppService(env.fs), 3, 10),
    Check("MySQL service defined", (env: Env) => Checks.ComposeMysqlService(env.fs), 3, 10),
    Check("Volumes defined", (env: Env) => Checks.ComposeVolumes(env.fs), 3, 10),
    Check("Ports mapped", (env: Env) => Checks.ComposePorts(env.fs), 3, 10)
  ]

  /** Module 11: Image-Building Best Practices (5 pts). */
  const ImageBuildingBestPractices: seq<Check> := [
    Check("Multi-stage Dockerfile", (env: Env) => Checks.MultistageDockerfile(env.fs), 3, 11),
    Check(".dockerignore exists", (env: Env) => Checks.Dockerignore(env.fs), 2, 11)
  ]

  /** The blocks of modules 4 to 11, in the order the rubric lists them. */
  const Blocks: seq<seq<Check>> := [
    ContainerizeAnApplication, UpdateTheApplication, ShareTheApplication, PersistTheDb,
    UseBindMounts, MultiContainerApps, UseDockerCompose, ImageBuildingBestPractices
  ]

  /** The number of the first workshop module the rubric covers. */
  const FirstModule: nat := 4

  /** The blocks one after the other. */
  function Flatten(bs: seq<seq<Check>>): seq<Check> {
    if |bs| == 0 then [] else Flatten(bs[..|bs| - 1]) + bs[|bs| - 1]
  }

  /** The scoring script's rubric, in definition order. */
  const Rubric: seq<Check> := Flatten(Blocks)

  /** The sum of the weights of `checks`. */
  function Points(checks: seq<Check>): nat {
    if |checks| == 0 then 0 else checks[0].points + Points(checks[1..])
  }

  lemma {:induction false} PointsAppend(a: seq<Check>, b: seq<Check>)
    ensures Points(a + b) == Points(a) + Points(b)
  {
    if a == [] {
      assert a + b == b;
    } else {
      assert (a + b)[1..] == a[1..] + b;
      PointsAppend(a[1..], b);
    }
  }

  /** The entries of `checks` that belong to module `m`, in order: the
      module filter of a run. */
  function ModuleChecks(checks: seq<Check>, m: nat): (r: seq<Check>)
    ensures |r| <= |checks|
    ensures forall k | 0 <= k < |r| :: r[k].moduleNum == m
  {
    if |checks| == 0 then []
    else (if checks[0].moduleNum == m then [checks[0]] else []) + ModuleChecks(checks[1..], m)
  }

  /** Filtering keeps registry order: it commutes with concatenation. */
  lemma {:induction false} ModuleChecksAppend(a: seq<Check>, b: seq<Check>, m: nat)
    ensures ModuleChecks(a + b, m) == ModuleChecks(a, m) + ModuleChecks(b, m)
  {
    if a == [] {
      assert a + b == b;
    } else {
      assert (a + b)[1..] == a[1..] + b;
      ModuleChecksAppend(a[1..], b, m);
    }
  }

  /** Filtering a block that belongs wholly to module `n` keeps all of it or nothing. */
  lemma {:induction false} ModuleChecksOfBlock(block: seq<Check>, n: nat, m: nat)
    requires OfModule(block, n)
    ensures ModuleChecks(block, m) == if m == n then block else []
  {
    if block != [] {
      ModuleChecksOfBlock(block[1..], n, m);
    }
  }

  /** Consecutive entries never go down in module number. */
  predicate StepwiseOrdered(checks: seq<Check>) {
    forall k | 0 < k < |checks| :: checks[k - 1].moduleNum <= checks[k].moduleNum
  }

  /** Entries of one module stand together: nothing of another module comes
      between two entries of the same module. */
  predicate Contiguous(checks: seq<Check>) {
    forall i, j, k | 0 <= i < j < k < |checks| :: checks[i].moduleNum == checks[k].moduleNum ==> checks[j].moduleNum == checks[i].moduleNum
  }

  lemma {:induction false} StepwiseOrderedIsSorted(checks: seq<Check>, i: nat, j: nat)
    requires StepwiseOrdered(checks) && i <= j < |checks|
    ensures checks[i].moduleNum <= checks[j].moduleNum
    decreases j - i
  {
    if i < j {
      StepwiseOrderedIsSorted(checks, i, j - 1);
    }
  }

  /** Ordering by module makes the modules contiguous. */
  lemma StepwiseOrderedIsContiguous(checks: seq<Check>)
    requires StepwiseOrdered(checks)
    ensures Contiguous(checks)
  {
    forall i, j, k | 0 <= i < j < k < |checks| && checks[i].moduleNum == checks[k].moduleNum
      ensures checks[j].moduleNum == checks[i].moduleNum
    {
      StepwiseOrderedIsSorted(checks, i, j);
      StepwiseOrderedIsSorted(checks, j, k);
    }
  }

  /** Every entry of `block` belongs to module `m`. */
  predicate OfModule(block: seq<Check>, m: nat) {
    forall k | 0 <= k < |block| :: block[k].moduleNum == m
  }

  /** Block `i` of `bs` is a non-empty block of module `FirstModule + i`. */
  predicate Layout(bs: seq<seq<Check>>) {
    forall i | 0 <= i < |bs| :: bs[i] != [] && OfModule(bs[i], FirstModule + i)
  }

  /** Filtering laid-out blocks by module `m` picks the block of module `m`
      when there is one, and nothing otherwise. */
  lemma {:induction false} FlattenByModule(bs: seq<seq<Check>>, m: nat)
    requires Layout(bs)
    ensures ModuleChecks(Flatten(bs), m) == if FirstModule <= m < FirstModule + |bs| then bs[m - FirstModule] else []
    decreases |bs|
  {
    if |bs| > 0 {
      var init, last := bs[..|bs| - 1], bs[|bs| - 1];
      assert Layout(init);
      FlattenByModule(init, m);
      ModuleChecksAppend(Flatten(init), last, m);
      ModuleChecksOfBlock(last, FirstModule + |init|, m);
      if FirstModule <= m < FirstModule + |init| {
        assert init[m - FirstModule] == bs[m - FirstModule];
      }
    }
  }

  /** Appending a block of module `n` to entries of modules `lo` up to
      `n - 1` in order keeps the order. */
  lemma OrderedConcat(a: seq<Check>, b: seq<Check>, lo: nat, n: nat)
    requires StepwiseOrdered(a) && forall k | 0 <= k < |a| :: lo <= a[k].moduleNum < n
    requires lo <= n && OfModule(b, n)
    ensures StepwiseOrdered(a + b)
    ensures forall k | 0 <= k < |a + b| :: lo <= (a + b)[k].moduleNum <= n
  {
  }

  /** Laid-out blocks are ordered by module, every entry's module among theirs. */
  lemma {:induction false} FlattenOrdered(bs: seq<seq<Check>>)
    requires Layout(bs)
    ensures StepwiseOrdered(Flatten(bs))
    ensures forall k | 0 <= k < |Flatten(bs)| :: FirstModule <= Flatten(bs)[k].moduleNum < FirstModule + |bs|
    decreases |bs|
  {
    if |bs| > 0 {
      var init, last := bs[..|bs| - 1], bs[|bs| - 1];
      assert Layout(init);
      FlattenOrdered(init);
      OrderedConcat(Flatten(init), last, FirstModule, FirstModule + |init|);
    }
  }

  /** The weight of module `m` in the rubric, as its section comments announce. */
  function ModuleWeight(m: nat): nat {
    if m == 4 then 25
    else if 5 <= m <= 8 then 10
    else if m == 9 || m == 10 then 15
    else if m == 11 then 5
    else 0
  }

  /** The weights of the first `n` modules from `FirstModule` on, added up. */
  function WeightsUpTo(n: nat): nat {
    if n == 0 then 0 else WeightsUpTo(n - 1) + ModuleWeight(FirstModule + n - 1)
  }

  /** Blocks that weigh what their modules announce weigh the sum of the announcements. */
  lemma {:induction false} FlattenPoints(bs: seq<seq<Check>>)
    requires forall i | 0 <= i < |bs| :: Points(bs[i]) == ModuleWeight(FirstModule + i)
    ensures Points(Flatten(bs)) == WeightsUpTo(|bs|)
    decreases |bs|
  {
    if |bs| > 0 {
      var init, last := bs[..|bs| - 1], bs[|bs| - 1];
      FlattenPoints(init);
      PointsAppend(Flatten(init), last);
    }
  }

  lemma Module4Facts()
    ensures OfModule(ContainerizeAnApplication, 4) && Points(ContainerizeAnApplication) == 25
  {
    var b := ContainerizeAnApplication;
    assert Points(b[8..]) == 2;
    assert Points(b[6..]) == 7;
    assert Points(b[4..]) == 12;
    assert Points(b[2..]) == 17;
  }

  lemma Modules5To8Facts()
    ensures OfModule(UpdateTheApplication, 5) && Points(UpdateTheApplication) == 10
    ensures OfModule(ShareTheApplication, 6) && Points(ShareTheApplication) == 10
    ensures OfModule(PersistTheDb, 7) && Points(PersistTheDb) == 10
    ensures OfModule(UseBindMounts, 8) && Points(UseBindMounts) == 10
  {
  }

  lemma Modules9To11Facts()
    ensures OfModule(MultiContainerApps, 9) && Points(MultiContainerApps) == 15
    ensures OfModule(UseDockerCompose, 10) && Points(UseDockerCompose) == 15
    ensures OfModule(ImageBuildingBestPractices, 11) && Points(ImageBuildingBestPractices) == 5
  {
  }

  /** The rubric's blocks are laid out module by module from module 4, and
      each weighs what its section comment announces. */
  lemma BlocksLayout()
    ensures |Blocks| == 8 && Layout(Blocks)
    ensures forall i | 0 <= i < |Blocks| :: Points(Blocks[i]) == ModuleWeight(FirstModule + i)
  {
    Module4Facts();
    Modules5To8Facts();
    Modules9To11Facts();
    LayoutOfEight(ContainerizeAnApplication, UpdateTheApplication, ShareTheApplication, PersistTheDb,
      UseBindMounts, MultiContainerApps, UseDockerCompose, ImageBuildingBestPractices);
  }

  /** Eight non-empty blocks of modules 4 to 11, with the weights the
      modules announce, are laid out. */
  lemma LayoutOfEight(b4: seq<Check>, b5: seq<Check>, b6: seq<Check>, b7: seq<Check>,
                      b8: seq<Check>, b9: seq<Check>, b10: seq<Check>, b11: seq<Check>)
    requires b4 != [] && OfModule(b4, 4) && Points(b4) == ModuleWeight(4)
    requires b5 != [] && OfModule(b5, 5) && Points(b5) == ModuleWeight(5)
    requires b6 != [] && OfModule(b6, 6) && Points(b6) == ModuleWeight(6)
    requires b7 != [] && OfModule(b7, 7) && Points(b7) == ModuleWeight(7)
    requires b8 != [] && OfModule(b8, 8) && Points(b8) == ModuleWeight(8)
    requires b9 != [] && OfModule(b9, 9) && Points(b9) == ModuleWeight(9)
    requires b10 != [] && OfModule(b10, 10) && Points(b10) == ModuleWeight(10)
    requires b11 != [] && OfModule(b11, 11) && Points(b11) == ModuleWeight(11)
    ensures var bs := [b4, b5, b6, b7, b8, b9, b10, b11];
      Layout(bs) && forall i | 0 <= i < |bs| :: Points(bs[i]) == ModuleWeight(FirstModule + i)
  {
  }

  /** The block of module `m`, or nothing when the rubric has no such module. */
  function Block(m: nat): seq<Check> {
    if FirstModule <= m < FirstModule + |Blocks| then Blocks[m - FirstModule] else []
  }

  /** Every entry of a block belongs to the block's module, and the block
      weighs what the module's section comment announces. */
  lemma BlockFacts(m: nat)
    ensures OfModule(Block(m), m)
    ensures Points(Block(m)) == ModuleWeight(m)
    ensures Block(m) == [] <==> ModuleWeight(m) == 0
  {
    BlocksLayout();
  }

  /** The module filter applied to the rubric picks exactly the block of that
      module; each module weighs what its section comment announces, modules
      outside 4 to 11 have no checks, and the whole rubric is worth 100. */
  lemma RubricByModule(m: nat)
    ensures ModuleChecks(Rubric, m) == Block(m)
    ensures Points(ModuleChecks(Rubric, m)) == ModuleWeight(m)
    ensures ModuleChecks(Rubric, m) == [] <==> ModuleWeight(m) == 0
    ensures Points(Rubric) == 100
  {
    BlocksLayout();
    FlattenByModule(Blocks, m);
    BlockFacts(m);
    RubricTotal();
  }

  /** The rubric is worth 100 points. */
  lemma RubricTotal()
    ensures Points(Rubric) == 100
  {
    BlocksLayout();
    FlattenPoints(Blocks);
    assert WeightsUpTo(8) == 100;
  }

  /** The sum of a list of numbers. */
  function Sum(xs: seq<nat>): nat {
    if |xs| == 0 then 0 else Sum(xs[..|xs| - 1]) + xs[|xs| - 1]
  }

  /** Blocks of the given sizes hold the sum of the sizes together. */
  lemma {:induction false} FlattenSize(bs: seq<seq<Check>>, sizes: seq<nat>)
    requires |sizes| == |bs| && forall i | 0 <= i < |bs| :: |bs[i]| == sizes[i]
    ensures |Flatten(bs)| == Sum(sizes)
    decreases |bs|
  {
    if |bs| > 0 {
      FlattenSize(bs[..|bs| - 1], sizes[..|sizes| - 1]);
    }
  }

  /** The rubric has 27 entries. */
  lemma RubricSize()
    ensures |Rubric| == 27
  {
    var sizes := [9, 2, 2, 2, 2, 3, 5, 2];
    FlattenSize(Blocks, sizes);
    assert sizes[..0] == [];
    assert Sum(sizes[..1]) == 9 by { assert sizes[..1][..0] == sizes[..0]; }
    assert Sum(sizes[..2]) == 11 by { assert sizes[..2][..1] == sizes[..1]; }
    assert Sum(sizes[..3]) == 13 by { assert sizes[..3][..2] == sizes[..2]; }
    assert Sum(sizes[..4]) == 15 by { assert sizes[..4][..3] == sizes[..3]; }
    assert Sum(sizes[..5]) == 17 by { assert sizes[..5][..4] == sizes[..4]; }
    assert Sum(sizes[..6]) == 20 by { assert sizes[..6][..5] == sizes[..5]; }
    assert Sum(sizes[..7]) == 25 by { assert sizes[..7][..6] == sizes[..6]; }
    assert sizes[..8] == sizes;
  }

  /** The rubric never goes back to an earlier module. */
  lemma RubricOrdered()
    ensures StepwiseOrdered(Rubric)
  {
    BlocksLayout();
    FlattenOrdered(Blocks);
  }

  /** The rubric keeps each module's entries together. */
  lemma RubricContiguous()
    ensures Contiguous(Rubric)
  {
    RubricOrdered();
    StepwiseOrderedIsContiguous(Rubric);
  }
}
