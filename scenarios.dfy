/** Whole runs on particular projects: what the scoring script reports for a
    project with nothing in it, and when an evaluator can raise at all. */
module Scenarios {
  import opened Text
  import opened Pattern
  import opened Project
  import opened Checks
  import opened Registry
  import opened Scoring
  import CheckProperties

  /** An empty project tree, on a machine where the `docker` executable is missing. */
  predicate Bare(env: Env) {
    && env.fs == map[]
    && env.engine.build.NotFound? && env.engine.cleanup.NotFound?
    && env.engine.images.NotFound? && env.engine.volumes.NotFound?
  }

  /** A property that holds for the outcome of every check of every block
      holds for every check of the blocks one after the other. */
  lemma {:induction false} EveryCheck(bs: seq<seq<Check>>, env: Env, p: Outcome -> bool)
    requires forall i, k | 0 <= i < |bs| && 0 <= k < |bs[i]| :: p(bs[i][k].func(env))
    ensures forall k | 0 <= k < |Flatten(bs)| :: p(Flatten(bs)[k].func(env))
    decreases |bs|
  {
    if |bs| > 0 {
      var init, last := bs[..|bs| - 1], bs[|bs| - 1];
      EveryCheck(init, env, p);
      forall k | 0 <= k < |Flatten(bs)| ensures p(Flatten(bs)[k].func(env)) {
        if k >= |Flatten(init)| {
          assert Flatten(bs)[k] == last[k - |Flatten(init)|];
        } else {
          assert Flatten(bs)[k] == Flatten(init)[k];
        }
      }
    }
  }

  /** A run in which no check passes earns nothing. */
  lemma {:induction false} NothingPassedNothingEarned(cs: seq<Check>, outs: seq<Outcome>)
    requires |outs| == |cs| && forall k | 0 <= k < |outs| :: !outs[k].Pass?
    ensures Earned(cs, outs) == 0
  {
    if |cs| > 0 {
      NothingPassedNothingEarned(cs[1..], outs[1..]);
    }
  }

  // ---------------------------------------------------------------- the empty project

  /** The empty text has no instruction lines. */
  lemma NoInstructionsInEmpty()
    ensures Instructions("") == [] && CopyLines([]) == []
  {
    SplitOfEmpty("\n");
    assert Strip("") == "";
    assert KeepInstructions([""]) == [];
  }

  /** Without a Dockerfile, the checks that search it find nothing. */
  lemma EmptyDockerfileSearchesFail(fs: FileSystem)
    requires fs == map[]
    ensures DockerfileFromNode(fs).Fail? && DockerfileWorkdir(fs).Fail?
    ensures DockerfileRunInstall(fs).Fail? && DockerfileExpose(fs).Fail? && DockerfileCmd(fs).Fail?
  {
    NoMatchInEmpty(FromNode);
    NoMatchInEmpty(WorkdirApp);
    NoMatchInEmpty(RunNpmInstall);
    NoMatchInEmpty(RunYarnInstall);
    NoMatchInEmpty(Expose3000);
    NoMatchInEmpty(CmdInstruction);
  }

  /** Without a Dockerfile, the checks on its COPY lines fail: one lemma per
      check keeps each proof to the one check it is about. */
  lemma EmptyCopyPackageFirstFails(fs: FileSystem)
    requires fs == map[]
    ensures DockerfileCopyPackageFirst(fs).Fail?
  {
    NoInstructionsInEmpty();
  }

  lemma EmptyCopySourceFails(fs: FileSystem)
    requires fs == map[]
    ensures DockerfileCopySource(fs).Fail?
  {
    NoInstructionsInEmpty();
  }

  /** Entry by entry, module 04's checks fail on the empty project: one
      lemma per entry keeps each proof to the one check that entry calls. */
  lemma EmptyFailsEntry0(env: Env)
    requires Bare(env)
    ensures ContainerizeAnApplication[0].func(env).Fail?
  {
  }

  lemma EmptyFailsEntry1(env: Env)
    requires Bare(env)
    ensures ContainerizeAnApplication[1].func(env).Fail?
  {
    EmptyDockerfileSearchesFail(env.fs);
  }

  lemma EmptyFailsEntry2(env: Env)
    requires Bare(env)
    ensures ContainerizeAnApplication[2].func(env).Fail?
  {
    EmptyDockerfileSearchesFail(env.fs);
  }

  lemma EmptyFailsEntry3(env: Env)
    requires Bare(env)
    ensures ContainerizeAnApplication[3].func(env).Fail?
  {
    EmptyCopyPackageFirstFails(env.fs);
  }

  lemma EmptyFailsEntry4(env: Env)
    requires Bare(env)
    ensures ContainerizeAnApplication[4].func(env).Fail?
  {
    EmptyDockerfileSearchesFail(env.fs);
  }

  lemma EmptyFailsEntry5(env: Env)
    requires Bare(env)
    ensures ContainerizeAnApplication[5].func(env).Fail?
  {
    EmptyCopySourceFails(env.fs);
  }

  lemma EmptyFailsEntry6(env: Env)
    requires Bare(env)
    ensures ContainerizeAnApplication[6].func(env).Fail?
  {
    EmptyDockerfileSearchesFail(env.fs);
  }

  lemma EmptyFailsEntry7(env: Env)
    requires Bare(env)
    ensures ContainerizeAnApplication[7].func(env).Fail?
  {
    EmptyDockerfileSearchesFail(env.fs);
  }

  lemma EmptyFailsEntry8(env: Env)
    requires Bare(env)
    ensures ContainerizeAnApplication[8].func(env).Fail?
  {
  }

  /** Nine entries each of which fails make a block all of which fails. */
  lemma NineFail(b: seq<Check>, env: Env)
    requires |b| == 9
    requires b[0].func(env).Fail? && b[1].func(env).Fail? && b[2].func(env).Fail?
    requires b[3].func(env).Fail? && b[4].func(env).Fail? && b[5].func(env).Fail?
    requires b[6].func(env).Fail? && b[7].func(env).Fail? && b[8].func(env).Fail?
    ensures forall k | 0 <= k < |b| :: b[k].func(env).Fail?
  {
  }

  lemma EmptyFailsModule4(env: Env)
    requires Bare(env)
    ensures forall k | 0 <= k < |ContainerizeAnApplication| :: ContainerizeAnApplication[k].func(env).Fail?
  {
    EmptyFailsEntry0(env);
    EmptyFailsEntry1(env);
    EmptyFailsEntry2(env);
    EmptyFailsEntry3(env);
    EmptyFailsEntry4(env);
    EmptyFailsEntry5(env);
    EmptyFailsEntry6(env);
    EmptyFailsEntry7(env);
    EmptyFailsEntry8(env);
    NineFail(ContainerizeAnApplication, env);
  }

  lemma EmptyFailsModule5(env: Env)
    requires Bare(env)
    ensures forall k | 0 <= k < |UpdateTheApplication| :: UpdateTheApplication[k].func(env).Fail?
  {
  }

  lemma EmptyFailsModule6(env: Env)
    requires Bare(env)
    ensures forall k | 0 <= k < |ShareTheApplication| :: ShareTheApplication[k].func(env).Fail?
  {
  }

  lemma EmptyFailsModule7(env: Env)
    requires Bare(env)
    ensures forall k | 0 <= k < |PersistTheDb| :: PersistTheDb[k].func(env).Fail?
  {
  }

  lemma EmptyFailsModule8(env: Env)
    requires Bare(env)
    ensures forall k | 0 <= k < |UseBindMounts| :: UseBindMounts[k].func(env).Fail?
  {
    assert Lower("") == "";
  }

  lemma EmptyFailsModule9(env: Env)
    requires Bare(env)
    ensures forall k | 0 <= k < |MultiContainerApps| :: MultiContainerApps[k].func(env).Fail?
  {
    CheckProperties.MysqlCredentialsPasses("");
    NoMatchInEmpty(AppService);
    NoMatchInEmpty(MysqlService);
  }

  lemma EmptyFailsModule10(env: Env)
    requires Bare(env)
    ensures forall k | 0 <= k < |UseDockerCompose| :: UseDockerCompose[k].func(env).Fail?
  {
    NoMatchInEmpty(AppService);
    NoMatchInEmpty(WebService);
    NoMatchInEmpty(MysqlService);
    NoMatchInEmpty(PortsEntry);
    SplitOfEmpty("\n");
  }

  lemma EmptyFailsModule11(env: Env)
    requires Bare(env)
    ensures forall k | 0 <= k < |ImageBuildingBestPractices| :: ImageBuildingBestPractices[k].func(env).Fail?
  {
    NoMatchInEmpty(FromStage);
  }

  /** Every check of every module fails on the empty project. */
  lemma EmptyFailsEveryBlock(env: Env)
    requires Bare(env)
    ensures forall i, k | 0 <= i < |Blocks| && 0 <= k < |Blocks[i]| :: Blocks[i][k].func(env).Fail?
  {
    EmptyFailsModule4(env);
    EmptyFailsModule5(env);
    EmptyFailsModule6(env);
    EmptyFailsModule7(env);
    EmptyFailsModule8(env);
    EmptyFailsModule9(env);
    EmptyFailsModule10(env);
    EmptyFailsModule11(env);
  }

  /** On an empty project every check fails: the run scores 0 of 100 points
      and does not pass. */
  lemma EmptyProjectScoresNothing(env: Env)
    requires Bare(env)
    ensures var r := MakeReport(Rubric, Outcomes(Rubric, env));
      && r.earnedPoints == 0 && r.totalPoints == 100 && !Passed(r)
      && forall k | 0 <= k < |r.results| :: !r.results[k].passed
  {
    EmptyFailsEveryBlock(env);
    EveryCheck(Blocks, env, (o: Outcome) => o.Fail?);
    RubricTotal();
    NothingPassedNothingEarned(Rubric, Outcomes(Rubric, env));
  }

  // ---------------------------------------------------------------- where exceptions come from

  /** Every entry of the tree is a readable or a locked file: nothing is a
      directory or undecodable. */
  predicate Readable(fs: FileSystem) {
    forall p | p in fs :: fs[p].TextFile? || fs[p].LockedFile?
  }

  /** Reading any of the files the checks read returns text. */
  predicate ChecksRead(fs: FileSystem) {
    && ReadFile(fs, DockerfilePath).Read?
    && ReadFile(fs, DockerignorePath).Read?
    && ReadFile(fs, IndexPath).Read?
    && ReadFile(fs, PackagePath).Read?
    && ReadFile(fs, ComposePath).Read?
  }

  lemma ReadableNeverRaises(fs: FileSystem, path: string)
    requires Readable(fs)
    ensures ReadFile(fs, path).Read?
  {
  }

  /** On a tree whose every entry reads, no check of any module raises:
      `Error:` records come only from undecodable files and directories. */
  lemma ReadableTreeNeverFaults(env: Env)
    requires Readable(env.fs)
    ensures forall k | 0 <= k < |Rubric| :: !Rubric[k].func(env).Fault?
  {
    ReadableNeverRaises(env.fs, DockerfilePath);
    ReadableNeverRaises(env.fs, DockerignorePath);
    ReadableNeverRaises(env.fs, IndexPath);
    ReadableNeverRaises(env.fs, PackagePath);
    ReadableNeverRaises(env.fs, ComposePath);
    NoFaultInBlocks(env);
    EveryCheck(Blocks, env, (o: Outcome) => !o.Fault?);
  }

  lemma NoFaultInBlocks(env: Env)
    requires ChecksRead(env.fs)
    ensures forall i, k | 0 <= i < |Blocks| && 0 <= k < |Blocks[i]| :: !Blocks[i][k].func(env).Fault?
  {
    NoFaultInModule4(env);
    NoFaultInModules5And6(env);
    NoFaultInModules7And8(env);
    NoFaultInModule9(env);
    NoFaultInModule10(env);
    NoFaultInModule11(env);
  }

  lemma NoFaultInModule4(env: Env)
    requires ChecksRead(env.fs)
    ensures forall k | 0 <= k < |ContainerizeAnApplication| :: !ContainerizeAnApplication[k].func(env).Fault?
  {
  }

  lemma NoFaultInModules5And6(env: Env)
    requires ChecksRead(env.fs)
    ensures forall k | 0 <= k < |UpdateTheApplication| :: !UpdateTheApplication[k].func(env).Fault?
    ensures forall k | 0 <= k < |ShareTheApplication| :: !ShareTheApplication[k].func(env).Fault?
  {
  }

  lemma NoFaultInModules7And8(env: Env)
    requires ChecksRead(env.fs)
    ensures forall k | 0 <= k < |PersistTheDb| :: !PersistTheDb[k].func(env).Fault?
    ensures forall k | 0 <= k < |UseBindMounts| :: !UseBindMounts[k].func(env).Fault?
  {
  }

  lemma NoFaultInModule9(env: Env)
    requires ChecksRead(env.fs)
    ensures forall k | 0 <= k < |MultiContainerApps| :: !MultiContainerApps[k].func(env).Fault?
  {
  }

  lemma NoFaultInModule10(env: Env)
    requires ChecksRead(env.fs)
    ensures forall k | 0 <= k < |UseDockerCompose| :: !UseDockerCompose[k].func(env).Fault?
  {
  }

  lemma NoFaultInModule11(env: Env)
    requires ChecksRead(env.fs)
    ensures forall k | 0 <= k < |ImageBuildingBestPractices| :: !ImageBuildingBestPractices[k].func(env).Fault?
  {
  }
}
