/** The scoring script's check functions. Each reads files of the project tree
    and, for some, the output of engine commands, and returns whether the
    rubric item is met with a message; a read that raises becomes a
    `Fault`. All inspection is substring tests, line splitting and the
    regular-expression fragment of module `Pattern`. */
module Checks {
  import opened Text
  import opened Pattern
  import opened Project

  // ---------------------------------------------------------------- Dockerfile

  /** The Dockerfile's instruction lines: every newline-separated line
      stripped, keeping those that are neither empty nor comments, in order. */
  function Instructions(content: string): seq<string> {
    KeepInstructions(StripAll(Split(content, "\n")))
  }

  /** Every instruction line is a stripped line of the text that is neither
      empty nor a comment, and every such stripped line is an instruction line. */
  lemma InstructionsMembers(content: string)
    ensures var lines := Instructions(content);
      forall k | 0 <= k < |lines| :: IsInstruction(lines[k]) && lines[k] in StripAll(Split(content, "\n"))
    ensures forall q | 0 <= q < |Split(content, "\n")| ::
      IsInstruction(Strip(Split(content, "\n")[q])) ==> Strip(Split(content, "\n")[q]) in Instructions(content)
  {
  }

  /** A stripped line the Dockerfile checks look at: neither empty nor a comment. */
  predicate IsInstruction(l: string) {
    l != [] && !StartsWith(l, "#")
  }

  /** Every line stripped. */
  function StripAll(raw: seq<string>): (stripped: seq<string>)
    ensures |stripped| == |raw| && forall q | 0 <= q < |raw| :: stripped[q] == Strip(raw[q])
  {
    seq(|raw|, q requires 0 <= q < |raw| => Strip(raw[q]))
  }

  /** The instruction lines among already stripped lines. */
  function KeepInstructions(stripped: seq<string>): (lines: seq<string>)
    ensures |lines| <= |stripped|
    ensures forall k | 0 <= k < |lines| :: IsInstruction(lines[k]) && lines[k] in stripped
    ensures forall q | 0 <= q < |stripped| :: IsInstruction(stripped[q]) ==> stripped[q] in lines
  {
    if stripped == [] then []
    else
      var l := stripped[0];
      (if IsInstruction(l) then [l] else []) + KeepInstructions(stripped[1..])
  }

  /** Keeping the instruction lines is a filter: it works line by line and
      keeps the order of the lines it keeps. */
  lemma {:induction false} KeepInstructionsAppend(a: seq<string>, b: seq<string>)
    ensures KeepInstructions(a + b) == KeepInstructions(a) + KeepInstructions(b)
  {
    if a != [] {
      assert (a + b)[0] == a[0] && (a + b)[1..] == a[1..] + b;
      KeepInstructionsAppend(a[1..], b);
    } else {
      assert a + b == b;
    }
  }

  /** No lines keep nothing; a single line is kept alone or dropped. */
  lemma KeepInstructionsSingle(l: string)
    ensures KeepInstructions([]) == []
    ensures KeepInstructions([l]) == if IsInstruction(l) then [l] else []
  {
    assert [l][1..] == [];
  }

  /** A line starting with COPY in any letter case. */
  predicate IsCopy(line: string) {
    StartsWith(Upper(line), "COPY")
  }

  /** The COPY lines among `lines`, in order. */
  function CopyLines(lines: seq<string>): (copies: seq<string>)
    ensures |copies| <= |lines|
    ensures forall k | 0 <= k < |copies| :: IsCopy(copies[k])
  {
    if lines == [] then []
    else
      var last := lines[|lines| - 1];
      CopyLines(lines[..|lines| - 1]) + if IsCopy(last) then [last] else []
  }

  /** `Dockerfile` is still the starter template: it has a `# TODO:` marker,
      at most one `FROM`, and no `COPY` between the last `FROM` before the
      first `# TODO` and that marker. */
  predicate IsStarterTemplate(content: string) {
    && Contains(content, "# TODO:")
    && Count(content, "FROM") <= 1
    && var beforeTodo := Split(content, "# TODO")[0];
       var afterFrom := Split(beforeTodo, "FROM");
       !Contains(afterFrom[|afterFrom| - 1], "COPY")
  }

  function DockerfileExists(fs: FileSystem): (o: Outcome)
    ensures o.Fault? <==> DockerfilePath in fs && fs[DockerfilePath].UndecodableFile?
  {
    if FileExists(fs, DockerfilePath) then
      var content :- ReadFile(fs, DockerfilePath);
      if IsStarterTemplate(content) then
        Fail("Dockerfile exists but appears to be the starter template. Complete the TODO items.")
      else Pass("Dockerfile found in app/")
    else Fail("No Dockerfile found in app/ directory")
  }

  /** FROM\s+node: */
  const FromNode: seq<Token> := [Lit("FROM", true), Plus(Space), Lit("node:", true)]
  /** WORKDIR\s+/app */
  const WorkdirApp: seq<Token> := [Lit("WORKDIR", true), Plus(Space), Lit("/app", true)]
  /** RUN\s+(npm|yarn)\s+install, one pattern per alternative */
  const RunNpmInstall: seq<Token> := [Lit("RUN", true), Plus(Space), Lit("npm", true), Plus(Space), Lit("install", true)]
  const RunYarnInstall: seq<Token> := [Lit("RUN", true), Plus(Space), Lit("yarn", true), Plus(Space), Lit("install", true)]
  /** COPY\s+\.\s+\. (case-sensitive) */
  const CopyAll: seq<Token> := [Lit("COPY", false), Plus(Space), Lit(".", false), Plus(Space), Lit(".", false)]
  /** EXPOSE\s+3000 */
  const Expose3000: seq<Token> := [Lit("EXPOSE", true), Plus(Space), Lit("3000", true)]
  /** CMD\s+ */
  const CmdInstruction: seq<Token> := [Lit("CMD", true), Plus(Space)]
  /** ^FROM\s+ under re.MULTILINE */
  const FromStage: seq<Token> := [Lit("FROM", true), Plus(Space)]

  function DockerfileFromNode(fs: FileSystem): (o: Outcome)
    ensures o.Fault? <==> ReadFile(fs, DockerfilePath).Raised?
  {
    var content :- ReadFile(fs, DockerfilePath);
    if Search(content, FromNode) then Pass("Dockerfile uses node base image")
    else Fail("Dockerfile should use a node base image (e.g., FROM node:18-alpine)")
  }

  function DockerfileWorkdir(fs: FileSystem): (o: Outcome)
    ensures o.Fault? <==> ReadFile(fs, DockerfilePath).Raised?
  {
    var content :- ReadFile(fs, DockerfilePath);
    if Search(content, WorkdirApp) then Pass("WORKDIR set to /app")
    else Fail("Dockerfile should set WORKDIR to /app")
  }

  /** The verdict on the COPY order, as a function of the Dockerfile text. */
  function CopyPackageFirstVerdict(content: string): (o: Outcome)
    ensures !o.Fault?
  {
    var copies := CopyLines(Instructions(content));
    if |copies| >= 2 && Contains(Lower(copies[0]), "package") then
      Pass("package.json is copied before source code (good for layer caching)")
    else if |copies| == 1 then
      Fail("Use two COPY instructions: copy package.json first, then the rest")
    else
      Fail("Dockerfile should COPY package.json before COPY . .")
  }

  /** The lines of a list of (index, line) pairs. */
  function LinesOf(entries: seq<(nat, string)>): (lines: seq<string>)
    ensures |lines| == |entries| && forall k | 0 <= k < |entries| :: lines[k] == entries[k].1
  {
    if entries == [] then [] else LinesOf(entries[..|entries| - 1]) + [entries[|entries| - 1].1]
  }

  lemma CopyLinesStep(lines: seq<string>, i: nat)
    requires i < |lines|
    ensures CopyLines(lines[..i + 1]) == CopyLines(lines[..i]) + if IsCopy(lines[i]) then [lines[i]] else []
  {
    assert lines[..i + 1][..i] == lines[..i];
  }

  lemma LinesOfStep(entries: seq<(nat, string)>, e: (nat, string))
    ensures LinesOf(entries + [e]) == LinesOf(entries) + [e.1]
  {
    assert (entries + [e])[..|entries|] == entries;
  }

  /** The pairs the loop has collected after the first `i` lines. */
  function Collect(lines: seq<string>, i: nat): seq<(nat, string)>
    requires i <= |lines|
  {
    if i == 0 then []
    else Collect(lines, i - 1) + (if IsCopy(lines[i - 1]) then [(i - 1, lines[i - 1])] else [])
  }

  /** The collected lines are the COPY lines so far. */
  lemma {:induction false} CollectLines(lines: seq<string>, i: nat)
    requires i <= |lines|
    ensures LinesOf(Collect(lines, i)) == CopyLines(lines[..i])
  {
    if i > 0 {
      CollectLines(lines, i - 1);
      CopyLinesStep(lines, i - 1);
      if IsCopy(lines[i - 1]) {
        LinesOfStep(Collect(lines, i - 1), (i - 1, lines[i - 1]));
      } else {
        assert Collect(lines, i) == Collect(lines, i - 1);
      }
    } else {
      assert lines[..0] == [];
    }
  }

  /** Each collected pair holds a line and its index, and the indices increase. */
  lemma {:induction false} CollectIndices(lines: seq<string>, i: nat)
    requires i <= |lines|
    ensures forall k | 0 <= k < |Collect(lines, i)| ::
      Collect(lines, i)[k].0 < i && lines[Collect(lines, i)[k].0] == Collect(lines, i)[k].1
    ensures forall a, b | 0 <= a < b < |Collect(lines, i)| :: Collect(lines, i)[a].0 < Collect(lines, i)[b].0
  {
    if i > 0 {
      CollectIndices(lines, i - 1);
      var prev := Collect(lines, i - 1);
      var c := Collect(lines, i);
      if IsCopy(lines[i - 1]) {
        assert c == prev + [(i - 1, lines[i - 1])];
        assert forall k | 0 <= k < |prev| :: c[k] == prev[k] && c[k].0 < i - 1;
        assert c[|prev|] == (i - 1, lines[i - 1]);
      } else {
        assert c == prev;
      }
    }
  }

  /** Every COPY line so far is collected with its index. */
  lemma {:induction false} CollectComplete(lines: seq<string>, i: nat)
    requires i <= |lines|
    ensures forall q | 0 <= q < i && IsCopy(lines[q]) :: (q, lines[q]) in Collect(lines, i)
  {
    if i > 0 {
      CollectComplete(lines, i - 1);
      var prev := Collect(lines, i - 1);
      if IsCopy(lines[i - 1]) {
        var c := prev + [(i - 1, lines[i - 1])];
        assert c[|prev|] == (i - 1, lines[i - 1]);
        assert forall q | 0 <= q < i - 1 && IsCopy(lines[q]) :: (q, lines[q]) in c;
      }
    }
  }

  /** The loop of the COPY-order check: every COPY line paired with its
      index among the instruction lines. */
  method CollectCopies(lines: seq<string>) returns (copyIndices: seq<(nat, string)>)
    ensures LinesOf(copyIndices) == CopyLines(lines)
    ensures forall k | 0 <= k < |copyIndices| ::
      copyIndices[k].0 < |lines| && lines[copyIndices[k].0] == copyIndices[k].1
    ensures forall a, b | 0 <= a < b < |copyIndices| :: copyIndices[a].0 < copyIndices[b].0
    ensures forall q | 0 <= q < |lines| && IsCopy(lines[q]) :: (q, lines[q]) in copyIndices
  {
    copyIndices := [];
    var i := 0;
    while i < |lines|
      invariant i <= |lines| && copyIndices == Collect(lines, i)
      decreases |lines| - i
    {
      if IsCopy(lines[i]) {
        copyIndices := copyIndices + [(i, lines[i])];
      }
      i := i + 1;
    }
    CollectLines(lines, |lines|);
    CollectIndices(lines, |lines|);
    CollectComplete(lines, |lines|);
    assert lines[..|lines|] == lines;
  }

  /** The COPY-order check as the script runs it. */
  method CheckCopyPackageFirst(content: string) returns (o: Outcome)
    ensures o == CopyPackageFirstVerdict(content)
  {
    var lines := Instructions(content);
    var copyIndices := CollectCopies(lines);
    if |copyIndices| >= 2 {
      var firstCopy := Lower(copyIndices[0].1);
      if Contains(firstCopy, "package") {
        return Pass("package.json is copied before source code (good for layer caching)");
      }
    }
    if |copyIndices| == 1 {
      return Fail("Use two COPY instructions: copy package.json first, then the rest");
    }
    return Fail("Dockerfile should COPY package.json before COPY . .");
  }

  function DockerfileCopyPackageFirst(fs: FileSystem): (o: Outcome)
    ensures o.Fault? <==> ReadFile(fs, DockerfilePath).Raised?
  {
    var content :- ReadFile(fs, DockerfilePath);
    CopyPackageFirstVerdict(content)
  }

  function DockerfileRunInstall(fs: FileSystem): (o: Outcome)
    ensures o.Fault? <==> ReadFile(fs, DockerfilePath).Raised?
  {
    var content :- ReadFile(fs, DockerfilePath);
    if Search(content, RunNpmInstall) || Search(content, RunYarnInstall) then
      Pass("Dependencies are installed with npm/yarn install")
    else Fail("Dockerfile should RUN npm install (or yarn install)")
  }

  /** The verdict on copying the source, as a function of the Dockerfile text. */
  function CopySourceVerdict(content: string): (o: Outcome)
    ensures !o.Fault?
  {
    var copyCount := |CopyLines(Instructions(content))|;
    if copyCount >= 2 then Pass("Source code is copied into the image")
    else if copyCount == 1 && Search(content, CopyAll) then Pass("Source code is copied (single COPY . .)")
    else Fail("Dockerfile should COPY source code into the image")
  }

  function DockerfileCopySource(fs: FileSystem): (o: Outcome)
    ensures o.Fault? <==> ReadFile(fs, DockerfilePath).Raised?
  {
    var content :- ReadFile(fs, DockerfilePath);
    CopySourceVerdict(content)
  }

  function DockerfileExpose(fs: FileSystem): (o: Outcome)
    ensures o.Fault? <==> ReadFile(fs, DockerfilePath).Raised?
  {
    var content :- ReadFile(fs, DockerfilePath);
    if Search(content, Expose3000) then Pass("Port 3000 is exposed")
    else Fail("Dockerfile should EXPOSE 3000")
  }

  function DockerfileCmd(fs: FileSystem): (o: Outcome)
    ensures o.Fault? <==> ReadFile(fs, DockerfilePath).Raised?
  {
    var content :- ReadFile(fs, DockerfilePath);
    if Search(content, CmdInstruction) then Pass("CMD instruction is defined")
    else Fail("Dockerfile should have a CMD instruction to start the app")
  }

  function MultistageDockerfile(fs: FileSystem): (o: Outcome)
    ensures o.Fault? <==> ReadFile(fs, DockerfilePath).Raised?
  {
    var content :- ReadFile(fs, DockerfilePath);
    var fromCount := CountLineMatches(content, FromStage);
    if fromCount >= 2 then Pass("Multi-stage build detected (" + NatToString(fromCount) + " stages)")
    else Fail("Use multiple FROM statements for a multi-stage build (Module 11)")
  }

  function Dockerignore(fs: FileSystem): (o: Outcome)
    ensures o.Fault? <==> DockerignorePath in fs && fs[DockerignorePath].UndecodableFile?
  {
    if FileExists(fs, DockerignorePath) then
      var content :- ReadFile(fs, DockerignorePath);
      if Contains(content, "node_modules") then Pass(".dockerignore found with node_modules excluded")
      else Pass(".dockerignore found")
    else Fail("Create app/.dockerignore to exclude unnecessary files from build context")
  }

  // ---------------------------------------------------------------- engine

  /** Building the image, then removing the test image. An exception from
      the removal is caught by the same handler as one from the build. */
  function ImageBuilds(engine: Engine): (o: Outcome)
    ensures !o.Fault?
  {
    match engine.build
    case NotFound => Fail("Docker is not installed or not in PATH")
    case TimedOut => Fail("Docker build timed out (>120 seconds)")
    case Crashed(e) => Fail("Could not test Docker build: " + e)
    case Exited(code, _, stderr) =>
      if code != 0 then Fail("Docker build failed: " + Take(stderr, 200))
      else match engine.cleanup
        case NotFound => Fail("Docker is not installed or not in PATH")
        case TimedOut => Fail("Docker build timed out (>120 seconds)")
        case Crashed(e) => Fail("Could not test Docker build: " + e)
        case Exited(_, _, _) => Pass("Docker image builds successfully")
  }

  /** The lines of a command's output: `stdout.strip().split("\n")`. */
  function OutputLines(stdout: string): (lines: seq<string>)
    ensures |lines| >= 1
  {
    Split(Strip(stdout), "\n")
  }

  /** The index of the first element of `lines` that satisfies `p`. */
  function FirstWhere(lines: seq<string>, p: string -> bool): (r: Option<nat>)
    ensures r.Some? ==> r.value < |lines| && p(lines[r.value])
    ensures r.Some? ==> forall j | 0 <= j < r.value :: !p(lines[j])
    ensures r.None? <==> forall k | 0 <= k < |lines| :: !p(lines[k])
  {
    if lines == [] then None
    else if p(lines[0]) then Some(0)
    else match FirstWhere(lines[1..], p)
      case None => None
      case Some(k) => Some(k + 1)
  }

  /** The elements of `lines` that satisfy `p`, in order. */
  function Where(lines: seq<string>, p: string -> bool): (r: seq<string>)
    ensures |r| <= |lines|
    ensures forall k | 0 <= k < |r| :: p(r[k]) && r[k] in lines
    ensures forall k | 0 <= k < |lines| :: p(lines[k]) ==> lines[k] in r
  {
    if lines == [] then []
    else (if p(lines[0]) then [lines[0]] else []) + Where(lines[1..], p)
  }

  /** Filtering works line by line and keeps the order and repetitions of
      the lines it keeps. */
  lemma {:induction false} WhereAppend(a: seq<string>, b: seq<string>, p: string -> bool)
    ensures Where(a + b, p) == Where(a, p) + Where(b, p)
  {
    if a != [] {
      assert (a + b)[0] == a[0] && (a + b)[1..] == a[1..] + b;
      WhereAppend(a[1..], b, p);
    } else {
      assert a + b == b;
    }
  }

  /** The comprehension keeps something exactly when some line satisfies the test. */
  lemma WhereNonEmpty(lines: seq<string>, p: string -> bool)
    ensures Where(lines, p) != [] <==> exists k | 0 <= k < |lines| :: p(lines[k])
  {
    var r := Where(lines, p);
    if r != [] {
      assert p(r[0]) && r[0] in lines;
      var k :| 0 <= k < |lines| && lines[k] == r[0];
    }
    if exists k | 0 <= k < |lines| :: p(lines[k]) {
      var k :| 0 <= k < |lines| && p(lines[k]);
      assert lines[k] in r;
    }
  }

  /** An empty list keeps nothing; a single line is kept alone or dropped. */
  lemma WhereSingle(x: string, p: string -> bool)
    ensures Where([], p) == []
    ensures Where([x], p) == if p(x) then [x] else []
  {
    assert [x][1..] == [];
  }

  predicate MentionsTodo(line: string) {
    Contains(Lower(line), "todo")
  }

  /** A `user/repository` image name mentioning todo. */
  predicate IsTodoRepository(line: string) {
    Contains(line, "/") && MentionsTodo(line)
  }

  /** ^[\w\-]+/[\w\-]+:\w+ */
  const RepositoryTag: seq<Token> := [Plus(WordOrDash), Lit("/", false), Plus(WordOrDash), Lit(":", false), Plus(Word)]

  /** A well-formed `user/repository:tag` line mentioning todo. */
  predicate IsTodoTag(line: string) {
    MatchAt(line, 0, RepositoryTag) && MentionsTodo(line)
  }

  function ImageTagged(engine: Engine): (o: Outcome)
    ensures !o.Fault?
    ensures o.Pass? <==> (engine.images.Exited? &&
      exists k | 0 <= k < |OutputLines(engine.images.stdout)| :: IsTodoRepository(OutputLines(engine.images.stdout)[k]))
  {
    match engine.images
    case Exited(_, stdout, _) =>
      var lines := OutputLines(stdout);
      (match FirstWhere(lines, IsTodoRepository)
       case Some(k) => Pass("Image tagged correctly: " + lines[k])
       case None => Fail("No image found with username/repository format containing 'todo'"))
    case _ => Fail("Could not check Docker images (is Docker running?)")
  }

  function TagFormat(engine: Engine): (o: Outcome)
    ensures !o.Fault?
    ensures o.Pass? <==> (engine.images.Exited? &&
      exists k | 0 <= k < |OutputLines(engine.images.stdout)| :: IsTodoTag(OutputLines(engine.images.stdout)[k]))
  {
    match engine.images
    case Exited(_, stdout, _) =>
      var lines := OutputLines(stdout);
      (match FirstWhere(lines, IsTodoTag)
       case Some(k) => Pass("Tag format is valid: " + lines[k])
       case None => Fail("Tag should follow format: username/repository:tag"))
    case _ => Fail("Could not check Docker images")
  }

  /** A named volume in the compose file, or else any engine volume whose
      name mentions todo. The Dockerfile is read, so it can raise, but its
      text is not consulted. */
  function VolumeConfig(fs: FileSystem, engine: Engine): (o: Outcome)
    ensures o.Fault? <==> ReadFile(fs, ComposePath).Raised? || ReadFile(fs, DockerfilePath).Raised?
  {
    var compose :- ReadFile(fs, ComposePath);
    var dockerfile :- ReadFile(fs, DockerfilePath);
    if (Contains(compose, "todo-db") || Contains(compose, "todo-mysql-data")) && Contains(compose, "volumes:") then
      Pass("Volume configuration found in docker-compose.yml")
    else if engine.volumes.Exited? && MentionsTodo(engine.volumes.stdout) then
      Pass("Docker volume found for todo app")
    else Fail("Configure a named volume for data persistence (Module 07)")
  }

  function VolumeMountPath(fs: FileSystem, engine: Engine): (o: Outcome)
    ensures o.Fault? <==> ReadFile(fs, ComposePath).Raised?
  {
    var compose :- ReadFile(fs, ComposePath);
    if Contains(compose, "/var/lib/mysql") || Contains(compose, "/app/data") then
      Pass("Volume mount path is correctly configured")
    else if engine.volumes.Exited? && Where(OutputLines(engine.volumes.stdout), MentionsTodo) != [] then
      Pass("Volume(s) found: " + Join(Where(OutputLines(engine.volumes.stdout), MentionsTodo), ", "))
    else Fail("Mount path should point to the database data directory")
  }

  // ---------------------------------------------------------------- app sources

  const EmptyStateText: string := "No todos yet! Add one above to get started."

  function SourceModified(fs: FileSystem): (o: Outcome)
    ensures o.Fault? <==> ReadFile(fs, IndexPath).Raised?
  {
    var content :- ReadFile(fs, IndexPath);
    if content != "" && !Contains(content, EmptyStateText) then
      Pass("Source code has been modified from the original")
    else if content == "" then Fail("Could not read app/src/static/index.html")
    else Fail("Modify the empty state text in app/src/static/index.html (Module 05)")
  }

  function UpdateTextChanged(fs: FileSystem): (o: Outcome)
    ensures o.Fault? <==> ReadFile(fs, IndexPath).Raised?
  {
    var content :- ReadFile(fs, IndexPath);
    if content == "" then Fail("Could not read app/src/static/index.html")
    else if Contains(content, "id=\"empty-state\"") then
      if !Contains(content, EmptyStateText) then Pass("Empty state text has been updated")
      else Fail("Change the text inside the empty-state paragraph")
    else Fail("The empty-state element should still exist in index.html")
  }

  function BindMountConfig(fs: FileSystem): (o: Outcome)
    ensures o.Fault? <==>
      || ReadFile(fs, ComposePath).Raised?
      || (&& !(Contains(ReadFile(fs, ComposePath).text, "./") && Contains(ReadFile(fs, ComposePath).text, ":/app"))
          && ReadFile(fs, DockerfilePath).Raised?)
  {
    var compose :- ReadFile(fs, ComposePath);
    if Contains(compose, "./") && Contains(compose, ":/app") then Pass("Bind mount configuration found")
    else
      var dockerfile :- ReadFile(fs, DockerfilePath);
      if Contains(Lower(dockerfile), "nodemon") || Contains(Lower(dockerfile), "dev") then
        Pass("Development configuration found")
      else if Contains(compose, "build:") && Contains(compose, "./app") then
        Pass("Build context configured (implies understanding of bind mounts)")
      else Fail("Set up a bind mount for development workflow (Module 08)")
  }

  function BindMountDev(fs: FileSystem): (o: Outcome)
    ensures o.Fault? <==> ReadFile(fs, PackagePath).Raised?
  {
    var pkg :- ReadFile(fs, PackagePath);
    if Contains(pkg, "\"dev\"") && Contains(pkg, "nodemon") then Pass("Development script with nodemon is configured")
    else Fail("package.json should have a 'dev' script using nodemon")
  }

  // ---------------------------------------------------------------- compose file

  function MysqlHostEnv(fs: FileSystem): (o: Outcome)
    ensures o.Fault? <==> ReadFile(fs, ComposePath).Raised?
  {
    var compose :- ReadFile(fs, ComposePath);
    if Contains(compose, "MYSQL_HOST") then Pass("MYSQL_HOST environment variable is set")
    else Fail("Set MYSQL_HOST environment variable in docker-compose.yml")
  }

  /** A group of environment variables, any one of which satisfies it, and
      the label the failure message uses for it. */
  datatype CredentialGroup = CredentialGroup(title: string, names: seq<string>)

  /** The user, password and database groups, in the order they are reported. */
  const CredentialGroups: seq<CredentialGroup> := [
    CredentialGroup("MYSQL_USER", ["MYSQL_USER"]),
    CredentialGroup("MYSQL_PASSWORD/MYSQL_ROOT_PASSWORD", ["MYSQL_PASSWORD", "MYSQL_ROOT_PASSWORD"]),
    CredentialGroup("MYSQL_DB/MYSQL_DATABASE", ["MYSQL_DB", "MYSQL_DATABASE"])
  ]

  predicate GroupPresent(compose: string, g: CredentialGroup) {
    exists k | 0 <= k < |g.names| :: Contains(compose, g.names[k])
  }

  /** The labels of the groups absent from the compose file, in group order. */
  function MissingLabels(compose: string, groups: seq<CredentialGroup>): (labels: seq<string>)
    ensures |labels| <= |groups|
  {
    if groups == [] then []
    else
      var head := if GroupPresent(compose, groups[0]) then [] else [groups[0].title];
      head + MissingLabels(compose, groups[1..])
  }

  lemma MissingLabelsOfThree(compose: string, groups: seq<CredentialGroup>)
    requires |groups| == 3
    ensures MissingLabels(compose, groups) ==
      (if GroupPresent(compose, groups[0]) then [] else [groups[0].title]) +
      (if GroupPresent(compose, groups[1]) then [] else [groups[1].title]) +
      (if GroupPresent(compose, groups[2]) then [] else [groups[2].title])
  {
    var h0 := if GroupPresent(compose, groups[0]) then [] else [groups[0].title];
    var h1 := if GroupPresent(compose, groups[1]) then [] else [groups[1].title];
    var h2 := if GroupPresent(compose, groups[2]) then [] else [groups[2].title];
    assert groups[1..][0] == groups[1] && groups[1..][1..][0] == groups[2];
    assert groups[1..][1..][1..] == [];
    assert MissingLabels(compose, groups[1..][1..]) == h2 + [];
    assert MissingLabels(compose, groups[1..]) == h1 + h2;
    assert MissingLabels(compose, groups) == h0 + (h1 + h2);
  }

  /** The verdict on the MySQL credentials, as a function of the compose text. */
  function MysqlCredentialsVerdict(compose: string): (o: Outcome)
    ensures !o.Fault?
  {
    var missing := MissingLabels(compose, CredentialGroups);
    if missing == [] then Pass("MySQL credentials are configured")
    else Fail("Missing MySQL env vars: " + Join(missing, ", "))
  }

  /** The credentials check as the script runs it: three tests, then a list
      of the missing groups built by appending. */
  method CheckMysqlCredentials(compose: string) returns (o: Outcome)
    ensures o == MysqlCredentialsVerdict(compose)
  {
    var hasUser := Contains(compose, "MYSQL_USER");
    var hasPassword := Contains(compose, "MYSQL_PASSWORD") || Contains(compose, "MYSQL_ROOT_PASSWORD");
    var hasDb := Contains(compose, "MYSQL_DB") || Contains(compose, "MYSQL_DATABASE");
    ghost var groups := CredentialGroups;
    assert groups[0].names[0] == "MYSQL_USER";
    assert groups[1].names[0] == "MYSQL_PASSWORD" && groups[1].names[1] == "MYSQL_ROOT_PASSWORD";
    assert groups[2].names[0] == "MYSQL_DB" && groups[2].names[1] == "MYSQL_DATABASE";
    assert hasUser == GroupPresent(compose, groups[0]);
    assert hasPassword == GroupPresent(compose, groups[1]);
    assert hasDb == GroupPresent(compose, groups[2]);
    MissingLabelsOfThree(compose, groups);
    if hasUser && hasPassword && hasDb {
      return Pass("MySQL credentials are configured");
    }
    var missing: seq<string> := [];
    if !hasUser {
      missing := missing + ["MYSQL_USER"];
    }
    if !hasPassword {
      missing := missing + ["MYSQL_PASSWORD/MYSQL_ROOT_PASSWORD"];
    }
    if !hasDb {
      missing := missing + ["MYSQL_DB/MYSQL_DATABASE"];
    }
    MissingLabelsOfThree(compose, groups);
    assert missing == MissingLabels(compose, groups);
    return Fail("Missing MySQL env vars: " + Join(missing, ", "));
  }

  function MysqlCredentials(fs: FileSystem): (o: Outcome)
    ensures o.Fault? <==> ReadFile(fs, ComposePath).Raised?
  {
    var compose :- ReadFile(fs, ComposePath);
    MysqlCredentialsVerdict(compose)
  }

  /** ^\s+app: and its relatives under re.MULTILINE */
  const AppService: seq<Token> := [Plus(Space), Lit("app:", false)]
  const WebService: seq<Token> := [Plus(Space), Lit("web:", false)]
  const MysqlService: seq<Token> := [Plus(Space), Lit("mysql:", false)]

  function MultiContainerNetwork(fs: FileSystem): (o: Outcome)
    ensures o.Fault? <==> ReadFile(fs, ComposePath).Raised?
  {
    var compose :- ReadFile(fs, ComposePath);
    var hasApp := SearchLines(compose, AppService);
    var hasMysql := SearchLines(compose, MysqlService);
    if hasApp && hasMysql then Pass("Multi-container setup with app and mysql services")
    else if hasApp then Fail("Add a 'mysql' service to docker-compose.yml")
    else Fail("Configure both app and mysql services in docker-compose.yml")
  }

  /** The compose file holds `services:` and no `# TODO:` in the first 100
      characters after its first `services:` (up to the next one). */
  predicate ServicesWithoutTodo(content: string) {
    Contains(content, "services:")
    && !Contains(Take(Split(content, "services:")[1], 100), "# TODO:")
  }

  function ComposeFileExists(fs: FileSystem): (o: Outcome)
    ensures o.Fault? <==> ComposePath in fs && fs[ComposePath].UndecodableFile?
  {
    if FileExists(fs, ComposePath) then
      var content :- ReadFile(fs, ComposePath);
      if ServicesWithoutTodo(content) then Pass("docker-compose.yml found with service definitions")
      else if Contains(content, "services:") then Pass("docker-compose.yml found (may still have TODOs to complete)")
      else Fail("docker-compose.yml exists but doesn't define any services")
    else Fail("No docker-compose.yml found in project root")
  }

  function ComposeAppService(fs: FileSystem): (o: Outcome)
    ensures o.Fault? <==> ReadFile(fs, ComposePath).Raised?
  {
    var compose :- ReadFile(fs, ComposePath);
    var hasApp := SearchLines(compose, AppService) || SearchLines(compose, WebService);
    var hasBuild := Contains(compose, "build:");
    if hasApp && hasBuild then Pass("App service with build configuration defined")
    else if hasApp then Fail("App service exists but needs 'build:' directive")
    else Fail("Define a 'web' (or 'app') service in docker-compose.yml")
  }

  function ComposeMysqlService(fs: FileSystem): (o: Outcome)
    ensures o.Fault? <==> ReadFile(fs, ComposePath).Raised?
  {
    var compose :- ReadFile(fs, ComposePath);
    var hasMysql := SearchLines(compose, MysqlService);
    var hasImage := Contains(compose, "mysql:8") || Contains(compose, "mysql:latest");
    if hasMysql && hasImage then Pass("MySQL service with image defined")
    else if hasMysql then Pass("MySQL service defined")
    else Fail("Define a 'mysql' service using the mysql:8.0 image")
  }

  /** A line that opens the top-level `volumes:` key. */
  predicate IsTopLevelVolumes(line: string) {
    StartsWith(line, "volumes:") && !StartsWith(line, "  ")
  }

  /** The verdict on named volumes, as a function of the compose text. */
  function ComposeVolumesVerdict(compose: string): (o: Outcome)
    ensures !o.Fault?
  {
    var lines := Split(compose, "\n");
    if exists k | 0 <= k < |lines| :: IsTopLevelVolumes(lines[k]) then
      Pass("Named volumes defined at top level")
    else Fail("Define named volumes at the top level of docker-compose.yml")
  }

  /** The volumes check as the script runs it: a scan of the lines that
      stops at the first top-level `volumes:`. */
  method CheckComposeVolumes(compose: string) returns (o: Outcome)
    ensures o == ComposeVolumesVerdict(compose)
  {
    var lines := Split(compose, "\n");
    var i := 0;
    while i < |lines|
      invariant 0 <= i <= |lines|
      invariant forall k | 0 <= k < i :: !IsTopLevelVolumes(lines[k])
    {
      if StartsWith(lines[i], "volumes:") && !StartsWith(lines[i], "  ") {
        return Pass("Named volumes defined at top level");
      }
      i := i + 1;
    }
    return Fail("Define named volumes at the top level of docker-compose.yml");
  }

  function ComposeVolumes(fs: FileSystem): (o: Outcome)
    ensures o.Fault? <==> ReadFile(fs, ComposePath).Raised?
  {
    var compose :- ReadFile(fs, ComposePath);
    ComposeVolumesVerdict(compose)
  }

  /** ports:\s*\n\s+-\s*["']?3000:3000 */
  const PortsEntry: seq<Token> := [
    Lit("ports:", false), Star(Space), Lit("\n", false), Plus(Space), Lit("-", false),
    Star(Space), Opt(Quote), Lit("3000:3000", false)
  ]

  function ComposePorts(fs: FileSystem): (o: Outcome)
    ensures o.Fault? <==> ReadFile(fs, ComposePath).Raised?
  {
    var compose :- ReadFile(fs, ComposePath);
    if Search(compose, PortsEntry) then Pass("Port 3000:3000 mapped for app service")
    else if Contains(compose, "3000:3000") then Pass("Port 3000 mapping found")
    else Fail("Map port 3000:3000 in the app service")
  }
}
