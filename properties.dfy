/** What the individual checks promise, stated independently of how they
    compute it: which inputs make them pass, which message a particular
    failure gets, and which checks imply others. */
module CheckProperties {
  import opened Text
  import opened Pattern
  import opened Project
  import opened Checks

  // ---------------------------------------------------------------- COPY order

  /** There is a COPY line among the COPY lines exactly when some line is a COPY. */
  lemma {:induction false} CopyLinesSome(lines: seq<string>)
    ensures |CopyLines(lines)| >= 1 <==> exists i | 0 <= i < |lines| :: IsCopy(lines[i])
  {
    if lines != [] {
      var n := |lines| - 1;
      var prefix := lines[..n];
      CopyLinesSome(prefix);
      if !IsCopy(lines[n]) && exists i | 0 <= i < |lines| :: IsCopy(lines[i]) {
        var i :| 0 <= i < |lines| && IsCopy(lines[i]);
        assert IsCopy(prefix[i]);
      }
      if |CopyLines(prefix)| >= 1 {
        var i :| 0 <= i < n && IsCopy(prefix[i]);
        assert IsCopy(lines[i]);
      }
    }
  }

  /** Two of the lines are COPY lines. */
  predicate TwoCopies(lines: seq<string>) {
    exists i, j | 0 <= i < j < |lines| :: IsCopy(lines[i]) && IsCopy(lines[j])
  }

  lemma {:induction false} TwoCopiesCounted(lines: seq<string>, i: nat, j: nat)
    requires i < j < |lines| && IsCopy(lines[i]) && IsCopy(lines[j])
    ensures |CopyLines(lines)| >= 2
  {
    var n := |lines| - 1;
    var prefix := lines[..n];
    assert IsCopy(prefix[i]);
    if j < n {
      assert IsCopy(prefix[j]);
      TwoCopiesCounted(prefix, i, j);
    } else {
      CopyLinesSome(prefix);
    }
  }

  lemma {:induction false} CountedTwoCopies(lines: seq<string>)
    requires |CopyLines(lines)| >= 2
    ensures TwoCopies(lines)
  {
    var n := |lines| - 1;
    var prefix := lines[..n];
    if IsCopy(lines[n]) {
      CopyLinesSome(prefix);
      var i :| 0 <= i < n && IsCopy(prefix[i]);
      assert IsCopy(lines[i]) && IsCopy(lines[n]);
    } else {
      CountedTwoCopies(prefix);
      var i, j :| 0 <= i < j < n && IsCopy(prefix[i]) && IsCopy(prefix[j]);
      assert IsCopy(lines[i]) && IsCopy(lines[j]);
    }
  }

  /** There are two COPY lines exactly when two of the lines are COPY lines. */
  lemma CopyLinesTwo(lines: seq<string>)
    ensures |CopyLines(lines)| >= 2 <==> TwoCopies(lines)
  {
    if TwoCopies(lines) {
      var i, j :| 0 <= i < j < |lines| && IsCopy(lines[i]) && IsCopy(lines[j]);
      TwoCopiesCounted(lines, i, j);
    }
    if |CopyLines(lines)| >= 2 {
      CountedTwoCopies(lines);
    }
  }

  /** The first of the COPY lines is the first line that is a COPY. */
  lemma {:induction false} CopyLinesFirst(lines: seq<string>, i: nat)
    requires i < |lines| && IsCopy(lines[i]) && forall k | 0 <= k < i :: !IsCopy(lines[k])
    ensures |CopyLines(lines)| >= 1 && CopyLines(lines)[0] == lines[i]
  {
    var n := |lines| - 1;
    var prefix := lines[..n];
    assert CopyLines(lines) == CopyLines(prefix) + if IsCopy(lines[n]) then [lines[n]] else [];
    if i < n {
      assert forall k | 0 <= k < i :: prefix[k] == lines[k];
      CopyLinesFirst(prefix, i);
      assert prefix[i] == lines[i];
    } else {
      assert forall k | 0 <= k < n :: !IsCopy(prefix[k]);
      CopyLinesSome(prefix);
      assert CopyLines(prefix) == [];
    }
  }

  /** Two of the lines are COPY lines and the first COPY line mentions
      `package` in any letter case. */
  predicate PackageCopiedFirst(lines: seq<string>) {
    exists i, j | 0 <= i < j < |lines| ::
      && IsCopy(lines[i]) && IsCopy(lines[j])
      && (forall k | 0 <= k < i :: !IsCopy(lines[k]))
      && Contains(Lower(lines[i]), "package")
  }

  /** Exactly one of the lines is a COPY line. */
  predicate SingleCopy(lines: seq<string>) {
    exists i | 0 <= i < |lines| :: IsCopy(lines[i]) && forall j | 0 <= j < |lines| && j != i :: !IsCopy(lines[j])
  }

  lemma CopiesOfPackageFirst(lines: seq<string>)
    ensures PackageCopiedFirst(lines) <==>
      |CopyLines(lines)| >= 2 && Contains(Lower(CopyLines(lines)[0]), "package")
  {
    CopyLinesTwo(lines);
    if |CopyLines(lines)| >= 2 {
      var i0, j0 :| 0 <= i0 < j0 < |lines| && IsCopy(lines[i0]) && IsCopy(lines[j0]);
      var i := FirstCopy(lines, i0);
      CopyLinesFirst(lines, i);
    }
    if PackageCopiedFirst(lines) {
      var i, j :| 0 <= i < j < |lines|
          && IsCopy(lines[i]) && IsCopy(lines[j])
          && (forall k | 0 <= k < i :: !IsCopy(lines[k]))
          && Contains(Lower(lines[i]), "package");
      CopyLinesFirst(lines, i);
    }
  }

  lemma CopiesOfSingle(lines: seq<string>)
    ensures SingleCopy(lines) ==> |CopyLines(lines)| == 1
  {
    CopyLinesTwo(lines);
    CopyLinesSome(lines);
    if SingleCopy(lines) {
      var i :| 0 <= i < |lines| && IsCopy(lines[i]) && forall j | 0 <= j < |lines| && j != i :: !IsCopy(lines[j]);
      assert forall a, b | 0 <= a < b < |lines| :: !(IsCopy(lines[a]) && IsCopy(lines[b]));
    }
  }

  /** The COPY-order check passes exactly when, among the instruction lines,
      there are two COPY lines and the first COPY line mentions `package` in
      any letter case; a Dockerfile with exactly one COPY line gets the
      message asking for two. */
  lemma CopyPackageFirstPasses(content: string)
    ensures CopyPackageFirstVerdict(content).Pass? <==> PackageCopiedFirst(Instructions(content))
    ensures SingleCopy(Instructions(content)) ==>
      CopyPackageFirstVerdict(content) == Fail("Use two COPY instructions: copy package.json first, then the rest")
  {
    CopyPackageFirstPassIff(content);
    CopyPackageFirstSingle(content);
  }

  lemma CopyPackageFirstPassIff(content: string)
    ensures CopyPackageFirstVerdict(content).Pass? <==> PackageCopiedFirst(Instructions(content))
  {
    var copies := CopyLines(Instructions(content));
    assert CopyPackageFirstVerdict(content).Pass? <==> |copies| >= 2 && Contains(Lower(copies[0]), "package");
    CopiesOfPackageFirst(Instructions(content));
  }

  lemma CopyPackageFirstSingle(content: string)
    ensures SingleCopy(Instructions(content)) ==>
      CopyPackageFirstVerdict(content) == Fail("Use two COPY instructions: copy package.json first, then the rest")
  {
    CopiesOfSingle(Instructions(content));
  }

  /** The index of the first COPY line at or before `i`. */
  function FirstCopy(lines: seq<string>, i: nat): (f: nat)
    requires i < |lines| && IsCopy(lines[i])
    ensures f <= i && IsCopy(lines[f]) && forall k | 0 <= k < f :: !IsCopy(lines[k])
  {
    if exists k | 0 <= k < i :: IsCopy(lines[k]) then
      var k :| 0 <= k < i && IsCopy(lines[k]);
      FirstCopy(lines, k)
    else i
  }

  // ---------------------------------------------------------------- MySQL credentials

  /** The credentials check passes exactly when the compose file names the
      user, a password and a database; otherwise its message lists the
      missing groups in the order user, password, database. */
  lemma MysqlCredentialsPasses(compose: string)
    ensures var user := Contains(compose, "MYSQL_USER");
      var password := Contains(compose, "MYSQL_PASSWORD") || Contains(compose, "MYSQL_ROOT_PASSWORD");
      var database := Contains(compose, "MYSQL_DB") || Contains(compose, "MYSQL_DATABASE");
      var missing := (if user then [] else ["MYSQL_USER"])
        + (if password then [] else ["MYSQL_PASSWORD/MYSQL_ROOT_PASSWORD"])
        + (if database then [] else ["MYSQL_DB/MYSQL_DATABASE"]);
      && (MysqlCredentialsVerdict(compose).Pass? <==> user && password && database)
      && (!(user && password && database) ==>
            MysqlCredentialsVerdict(compose) == Fail("Missing MySQL env vars: " + Join(missing, ", ")))
  {
    var groups := CredentialGroups;
    assert groups[0].names[0] == "MYSQL_USER";
    assert groups[1].names[0] == "MYSQL_PASSWORD" && groups[1].names[1] == "MYSQL_ROOT_PASSWORD";
    assert groups[2].names[0] == "MYSQL_DB" && groups[2].names[1] == "MYSQL_DATABASE";
    MissingLabelsOfThree(compose, groups);
  }

  // ---------------------------------------------------------------- compose volumes

  /** A line of `s` that starts with `w` puts `w` at a line start of `s`. */
  lemma {:induction false} LineStartOfPiece(s: string, w: string, k: nat)
    requires k < |Split(s, "\n")| && StartsWith(Split(s, "\n")[k], w)
    ensures exists i | 0 <= i <= |s| :: AtLineStart(s, i) && OccursAt(s, w, i)
    decreases |s|
  {
    SplitStep(s, "\n");
    match Find(s, "\n")
    case None =>
      assert AtLineStart(s, 0) && OccursAt(s, w, 0);
    case Some(n) =>
      if k == 0 {
        OccursInPrefix(s, w, n, 0);
        assert AtLineStart(s, 0) && OccursAt(s, w, 0);
      } else {
        LineStartOfPiece(s[n + 1..], w, k - 1);
        LineStartAfterNewline(s, w, n, s[n + 1..]);
      }
  }

  /** A line start of the text after a newline is a line start of the whole. */
  lemma LineStartAfterNewline(s: string, w: string, n: nat, rest: string)
    requires n < |s| && OccursAt(s, "\n", n) && rest == s[n + 1..]
    requires exists j | 0 <= j <= |rest| :: AtLineStart(rest, j) && OccursAt(rest, w, j)
    ensures exists i | 0 <= i <= |s| :: AtLineStart(s, i) && OccursAt(s, w, i)
  {
    var j :| 0 <= j <= |rest| && AtLineStart(rest, j) && OccursAt(rest, w, j);
    NewlineAt(s, n);
    OccursInSuffix(s, w, n + 1, j);
    if j > 0 {
      assert rest[j - 1] == s[n + j];
    }
    assert AtLineStart(s, n + 1 + j);
  }

  /** A word without line breaks at a line start of `s` starts one of its lines. */
  lemma {:induction false} PieceOfLineStart(s: string, w: string, i: nat)
    requires forall k | 0 <= k < |w| :: w[k] != '\n'
    requires i <= |s| && AtLineStart(s, i) && OccursAt(s, w, i)
    ensures exists k | 0 <= k < |Split(s, "\n")| :: StartsWith(Split(s, "\n")[k], w)
    decreases |s|
  {
    SplitStep(s, "\n");
    FindNewline(s);
    match Find(s, "\n")
    case None =>
      assert i == 0;
      assert StartsWith(Split(s, "\n")[0], w);
    case Some(n) =>
      if i <= n {
        FirstLineStart(s, w, i, n);
        assert StartsWith(Split(s, "\n")[0], w);
      } else {
        var rest := s[n + 1..];
        LineStartInRest(s, w, i, n, rest);
        PieceOfLineStart(rest, w, i - n - 1);
        LaterPiece(Split(s, "\n"), s[..n], Split(rest, "\n"), w);
      }
  }

  /** A line start after the first newline is a line start of the text after it. */
  lemma LineStartInRest(s: string, w: string, i: nat, n: nat, rest: string)
    requires n < i <= |s| && rest == s[n + 1..]
    requires AtLineStart(s, i) && OccursAt(s, w, i)
    ensures AtLineStart(rest, i - n - 1) && OccursAt(rest, w, i - n - 1)
  {
    var j := i - n - 1;
    assert rest[j..j + |w|] == s[i..i + |w|];
    if j > 0 {
      assert rest[j - 1] == s[i - 1];
    }
  }

  /** A line of the text after the first newline is a line of the whole. */
  lemma LaterPiece(lines: seq<string>, head: string, tail: seq<string>, w: string)
    requires lines == [head] + tail
    requires exists k | 0 <= k < |tail| :: StartsWith(tail[k], w)
    ensures exists k | 0 <= k < |lines| :: StartsWith(lines[k], w)
  {
    var k :| 0 <= k < |tail| && StartsWith(tail[k], w);
    assert lines[k + 1] == tail[k];
  }

  /** A word without line breaks at a line start before the first newline
      starts the first line. */
  lemma FirstLineStart(s: string, w: string, i: nat, n: nat)
    requires forall k | 0 <= k < |w| :: w[k] != '\n'
    requires n < |s| && s[n] == '\n' && forall j | 0 <= j < n :: s[j] != '\n'
    requires i <= n && AtLineStart(s, i) && OccursAt(s, w, i)
    ensures StartsWith(s[..n], w)
  {
    assert i == 0;
    assert forall k | 0 <= k < |w| :: s[k] == w[k];
    assert |w| <= n;
    assert s[..n][..|w|] == w;
  }

  /** The volumes check passes exactly when `volumes:` stands at the start of
      some line of the compose file. */
  lemma ComposeVolumesPasses(compose: string)
    ensures ComposeVolumesVerdict(compose).Pass? <==>
      exists i | 0 <= i <= |compose| :: AtLineStart(compose, i) && OccursAt(compose, "volumes:", i)
  {
    if ComposeVolumesVerdict(compose).Pass? {
      TopLevelVolumesAtLineStart(compose);
    }
    if exists i | 0 <= i <= |compose| :: AtLineStart(compose, i) && OccursAt(compose, "volumes:", i) {
      LineStartIsTopLevelVolumes(compose);
    }
  }

  lemma TopLevelVolumesAtLineStart(compose: string)
    requires exists k | 0 <= k < |Split(compose, "\n")| :: IsTopLevelVolumes(Split(compose, "\n")[k])
    ensures exists i | 0 <= i <= |compose| :: AtLineStart(compose, i) && OccursAt(compose, "volumes:", i)
  {
    var lines := Split(compose, "\n");
    var k :| 0 <= k < |lines| && IsTopLevelVolumes(lines[k]);
    LineStartOfPiece(compose, "volumes:", k);
  }

  lemma LineStartIsTopLevelVolumes(compose: string)
    requires exists i | 0 <= i <= |compose| :: AtLineStart(compose, i) && OccursAt(compose, "volumes:", i)
    ensures exists k | 0 <= k < |Split(compose, "\n")| :: IsTopLevelVolumes(Split(compose, "\n")[k])
  {
    var w := "volumes:";
    var i :| 0 <= i <= |compose| && AtLineStart(compose, i) && OccursAt(compose, w, i);
    assert forall k | 0 <= k < |w| :: w[k] != '\n';
    PieceOfLineStart(compose, w, i);
    var lines := Split(compose, "\n");
    var k :| 0 <= k < |lines| && StartsWith(lines[k], w);
    VolumesLineIsTopLevel(lines[k]);
  }

  lemma VolumesLineIsTopLevel(line: string)
    requires StartsWith(line, "volumes:")
    ensures IsTopLevelVolumes(line)
  {
    assert line[0] == "volumes:"[0];
  }

  // ---------------------------------------------------------------- compose file and ports

  /** With a readable compose file, the compose-file check passes exactly
      when the file contains `services:`; a leftover `# TODO:` changes only
      the message. A missing compose file fails. */
  lemma ComposeFileExistsPasses(fs: FileSystem)
    ensures ComposePath !in fs ==> ComposeFileExists(fs) == Fail("No docker-compose.yml found in project root")
    ensures ComposePath in fs && fs[ComposePath].TextFile? ==>
      (ComposeFileExists(fs).Pass? <==> Contains(fs[ComposePath].text, "services:"))
  {
  }

  /** Once the compose file reads as some text (a locked file reads as
      empty), the ports check passes exactly when that text contains
      `3000:3000`. */
  lemma ComposePortsPasses(fs: FileSystem, compose: string)
    requires ReadFile(fs, ComposePath) == Read(compose)
    ensures ComposePorts(fs).Pass? <==> Contains(compose, "3000:3000")
  {
    if Search(compose, PortsEntry) {
      var i :| 0 <= i <= |compose| && MatchAt(compose, i, PortsEntry);
      MatchedLiteralOccurs(compose, i, PortsEntry, 7);
    }
  }

  // ---------------------------------------------------------------- implications between checks

  /** A valid `user/repository:tag` line is also a `user/repository` line, so
      the tag-format check never passes without the tagging check. */
  lemma TagFormatImpliesTagged(engine: Engine)
    ensures TagFormat(engine).Pass? ==> ImageTagged(engine).Pass?
  {
    if TagFormat(engine).Pass? {
      var lines := OutputLines(engine.images.stdout);
      var k := FirstWhere(lines, IsTodoTag).value;
      TagIsRepository(lines[k]);
    }
  }

  /** `re.match(r"^[\w\-]+/[\w\-]+:\w+", line)`: a non-empty run of word
      characters or dashes, a slash, another such run, a colon, and a word
      character; whatever follows is not looked at. */
  predicate WellFormedTag(line: string) {
    exists a, b | 0 < a && a + 1 < b && b + 1 < |line| ::
      && RunOf(line, WordOrDash, 0, a) && line[a] == '/'
      && RunOf(line, WordOrDash, a + 1, b) && line[b] == ':' && IsWordChar(line[b + 1])
  }

  /** The part of the tag after the slash: `[\w\-]+:\w+`. */
  predicate TagTail(line: string, m: nat) {
    exists b | m < b && b + 1 < |line| ::
      RunOf(line, WordOrDash, m, b) && line[b] == ':' && IsWordChar(line[b + 1])
  }

  lemma RepositoryTagShape(line: string)
    ensures MatchAt(line, 0, RepositoryTag) <==> WellFormedTag(line)
  {
    var tail := [Plus(WordOrDash), Lit(":", false), Plus(Word)];
    var afterRun := [Lit("/", false)] + tail;
    assert RepositoryTag == [Plus(WordOrDash)] + afterRun;
    PlusThenRest(line, 0, WordOrDash, afterRun);
    forall a | 0 < a <= |line|
      ensures MatchAt(line, a, afterRun) <==> a < |line| && line[a] == '/' && TagTail(line, a + 1)
    {
      LitThenRest(line, a, "/", false, tail);
      if a < |line| {
        assert LitAt(line, a, "/", false) <==> line[a] == '/' by {
          assert line[a..a + 1] == [line[a]];
        }
        TagTailMatch(line, a + 1);
      }
    }
  }

  lemma TagTailMatch(line: string, m: nat)
    requires m <= |line|
    ensures MatchAt(line, m, [Plus(WordOrDash), Lit(":", false), Plus(Word)]) <==> TagTail(line, m)
  {
    var rest := [Lit(":", false), Plus(Word)];
    assert [Plus(WordOrDash), Lit(":", false), Plus(Word)] == [Plus(WordOrDash)] + rest;
    PlusThenRest(line, m, WordOrDash, rest);
    forall b | m < b <= |line|
      ensures MatchAt(line, b, rest) <==> b + 1 < |line| && line[b] == ':' && IsWordChar(line[b + 1])
    {
      ColonThenWord(line, b);
    }
  }

  /** `:\w` at a place: a colon followed by a word character. */
  lemma ColonThenWord(line: string, b: nat)
    requires b <= |line|
    ensures MatchAt(line, b, [Lit(":", false), Plus(Word)]) <==> b + 1 < |line| && line[b] == ':' && IsWordChar(line[b + 1])
  {
    LitThenRest(line, b, ":", false, [Plus(Word)]);
    if b < |line| {
      assert line[b..b + 1] == [line[b]];
      PlusThenRest(line, b + 1, Word, []);
      if b + 1 < |line| && IsWordChar(line[b + 1]) {
        assert RunOf(line, Word, b + 1, b + 2) && MatchAt(line, b + 2, []);
      }
    }
  }

  lemma TagIsRepository(line: string)
    requires IsTodoTag(line)
    ensures IsTodoRepository(line)
  {
    var pat := RepositoryTag;
    assert pat[1] == Lit("/", false);
    MatchedLiteralOccurs(line, 0, pat, 1);
  }

  /** Updating the empty-state text is a modification of the page. */
  lemma UpdateTextImpliesModified(fs: FileSystem)
    ensures UpdateTextChanged(fs).Pass? ==> SourceModified(fs).Pass?
  {
  }

  /** The multi-container check needs the mysql service the compose check looks for. */
  lemma NetworkImpliesMysqlService(fs: FileSystem)
    ensures MultiContainerNetwork(fs).Pass? ==> ComposeMysqlService(fs).Pass?
  {
  }

  /** The build check passes exactly when the build exits with status 0 and
      the removal of the test image returns; an exception from the removal
      fails the check with the message of the same exception from the build. */
  lemma ImageBuildsPasses(engine: Engine)
    ensures ImageBuilds(engine).Pass? <==>
      engine.build.Exited? && engine.build.code == 0 && engine.cleanup.Exited?
    ensures engine.build.Exited? && engine.build.code == 0 && !engine.cleanup.Exited? ==>
      ImageBuilds(engine) == ImageBuilds(engine.(build := engine.cleanup))
  {
  }

  /** The outcome of the `.dockerignore` check for each kind of entry at its path. */
  lemma DockerignoreByEntry(fs: FileSystem)
    ensures DockerignorePath !in fs ==> Dockerignore(fs).Fail?
    ensures DockerignorePath in fs ==> match fs[DockerignorePath]
      case TextFile(_) => Dockerignore(fs).Pass?
      case LockedFile => Dockerignore(fs) == Pass(".dockerignore found")
      case UndecodableFile(e) => Dockerignore(fs) == Fault(e)
      case Folder(_) => Dockerignore(fs).Fail?
  {
  }

  // ---------------------------------------------------------------- Dockerfile existence

  /** The Dockerfile check passes exactly when the Dockerfile exists as a
      file and is not the starter template; a readable Dockerfile without a
      `# TODO:` comment always passes. */
  lemma DockerfileExistsPasses(fs: FileSystem)
    ensures !FileExists(fs, DockerfilePath) ==> DockerfileExists(fs) == Fail("No Dockerfile found in app/ directory")
    ensures DockerfilePath in fs && fs[DockerfilePath].TextFile? ==>
      (DockerfileExists(fs).Pass? <==> !IsStarterTemplate(fs[DockerfilePath].text))
    ensures DockerfilePath in fs && fs[DockerfilePath].TextFile? && !Contains(fs[DockerfilePath].text, "# TODO:") ==>
      DockerfileExists(fs) == Pass("Dockerfile found in app/")
  {
  }

  /** Copying package.json first takes two COPY instructions, so it also
      passes the source-copy check. */
  lemma PackageFirstImpliesSourceCopied(fs: FileSystem)
    ensures DockerfileCopyPackageFirst(fs).Pass? ==> DockerfileCopySource(fs).Pass?
  {
  }

  // ---------------------------------------------------------------- compose services

  /** The volume-configuration check reads the Dockerfile but does not look
      at it: any two readable Dockerfiles give the same verdict. */
  lemma VolumeConfigIgnoresDockerfile(fs: FileSystem, engine: Engine, other: string)
    requires DockerfilePath in fs && fs[DockerfilePath].TextFile?
    ensures VolumeConfig(fs, engine) == VolumeConfig(fs[DockerfilePath := TextFile(other)], engine)
  {
    var fs' := fs[DockerfilePath := TextFile(other)];
    assert ReadFile(fs', ComposePath) == ReadFile(fs, ComposePath);
  }

  // ---------------------------------------------------------------- pass conditions of the searches

  /** The source-copy check passes exactly when two instruction lines are
      COPY lines, or exactly one is and `COPY . .` appears in the text. */
  lemma CopySourcePasses(content: string)
    ensures var lines := Instructions(content);
      CopySourceVerdict(content).Pass? <==> TwoCopies(lines) || (SingleCopy(lines) && Search(content, CopyAll))
  {
    var lines := Instructions(content);
    CopyLinesTwo(lines);
    CopiesOfSingle(lines);
    if |CopyLines(lines)| == 1 {
      CountedSingle(lines);
    }
  }

  lemma CountedSingle(lines: seq<string>)
    requires |CopyLines(lines)| == 1
    ensures SingleCopy(lines)
  {
    CopyLinesSome(lines);
    CopyLinesTwo(lines);
    var i :| 0 <= i < |lines| && IsCopy(lines[i]);
    assert forall a, b | 0 <= a < b < |lines| :: !(IsCopy(lines[a]) && IsCopy(lines[b]));
    assert forall j | 0 <= j < |lines| && j != i :: !IsCopy(lines[j]);
  }

  /** `FROM` cannot overlap itself, so `count("FROM") <= 1` holds exactly when
      `FROM` does not occur at two different places. */
  lemma AtMostOneFrom(content: string)
    ensures Count(content, "FROM") <= 1 <==>
      forall i, j | 0 <= i < j <= |content| :: !(OccursAt(content, "FROM", i) && OccursAt(content, "FROM", j))
  {
    forall i, j | 0 <= i < j <= |content| && OccursAt(content, "FROM", i) && OccursAt(content, "FROM", j)
      ensures i + 4 <= j
    {
      FromApart(content, i, j);
    }
  }

  lemma FromApart(content: string, i: nat, j: nat)
    requires i < j && OccursAt(content, "FROM", i) && OccursAt(content, "FROM", j)
    ensures i + 4 <= j
  {
    assert content[j] == content[j..j + 4][0] == 'F';
    forall k | i < k < i + 4 ensures content[k] != 'F' {
      assert content[k] == content[i..i + 4][k - i];
    }
  }

  /** The base-image check passes exactly when `FROM`, whitespace and `node:`
      follow each other somewhere in the Dockerfile, in any letter case. */
  lemma FromNodePasses(fs: FileSystem, content: string)
    requires ReadFile(fs, DockerfilePath) == Read(content)
    ensures DockerfileFromNode(fs).Pass? <==> KeywordThenArg(content, "FROM", "node:")
  {
    SearchKeywordThenArg(content, "FROM", "node:");
  }

  /** The working-directory check passes exactly when `WORKDIR`, whitespace
      and `/app` follow each other somewhere, in any letter case. */
  lemma WorkdirPasses(fs: FileSystem, content: string)
    requires ReadFile(fs, DockerfilePath) == Read(content)
    ensures DockerfileWorkdir(fs).Pass? <==> KeywordThenArg(content, "WORKDIR", "/app")
  {
    SearchKeywordThenArg(content, "WORKDIR", "/app");
  }

  /** The port check passes exactly when `EXPOSE`, whitespace and `3000`
      follow each other somewhere, in any letter case. */
  lemma ExposePasses(fs: FileSystem, content: string)
    requires ReadFile(fs, DockerfilePath) == Read(content)
    ensures DockerfileExpose(fs).Pass? <==> KeywordThenArg(content, "EXPOSE", "3000")
  {
    SearchKeywordThenArg(content, "EXPOSE", "3000");
  }

  /** The command check passes exactly when `CMD` in any letter case is
      followed by whitespace somewhere. */
  lemma CmdPasses(fs: FileSystem, content: string)
    requires ReadFile(fs, DockerfilePath) == Read(content)
    ensures DockerfileCmd(fs).Pass? <==> exists i | 0 <= i <= |content| :: KeywordThenSpace(content, i, "CMD")
  {
    forall i | 0 <= i <= |content|
      ensures MatchAt(content, i, CmdInstruction) <==> KeywordThenSpace(content, i, "CMD")
    {
      KeywordThenSpaceAt(content, i, "CMD");
    }
  }

  /** `RUN\s+tool\s+install` under `re.IGNORECASE`, somewhere in the text. */
  predicate InstallCommand(s: string, tool: string) {
    exists i, j | 0 <= i && i + 3 < j <= |s| ::
      LitAt(s, i, "RUN", true) && RunOf(s, Space, i + 3, j) && ArgAfter(s, j, tool, "install")
  }

  lemma SearchInstallCommand(s: string, tool: string)
    ensures Search(s, [Lit("RUN", true), Plus(Space), Lit(tool, true), Plus(Space), Lit("install", true)]) <==>
      InstallCommand(s, tool)
  {
    var tail := [Lit(tool, true), Plus(Space), Lit("install", true)];
    var pat := [Lit("RUN", true), Plus(Space), Lit(tool, true), Plus(Space), Lit("install", true)];
    assert pat == [Lit("RUN", true)] + ([Plus(Space)] + tail);
    forall i | 0 <= i <= |s|
      ensures MatchAt(s, i, pat) <==>
        exists j | i + 3 < j <= |s| :: LitAt(s, i, "RUN", true) && RunOf(s, Space, i + 3, j) && ArgAfter(s, j, tool, "install")
    {
      LitThenRest(s, i, "RUN", true, [Plus(Space)] + tail);
      if i + 3 <= |s| {
        PlusThenRest(s, i + 3, Space, tail);
        forall j | i + 3 < j <= |s| ensures MatchAt(s, j, tail) <==> ArgAfter(s, j, tool, "install") {
          KeywordThenArgAt(s, j, tool, "install");
        }
      }
    }
  }

  /** The install check passes exactly when `RUN npm install` or
      `RUN yarn install`, with any whitespace runs and in any letter case,
      appears somewhere. */
  lemma RunInstallPasses(fs: FileSystem, content: string)
    requires ReadFile(fs, DockerfilePath) == Read(content)
    ensures DockerfileRunInstall(fs).Pass? <==> InstallCommand(content, "npm") || InstallCommand(content, "yarn")
  {
    SearchInstallCommand(content, "npm");
    SearchInstallCommand(content, "yarn");
  }

  /** A line that opens a build stage: `FROM` in any letter case at a line
      start, followed by whitespace. */
  predicate StageLine(s: string, i: nat) {
    AtLineStart(s, i) && KeywordThenSpace(s, i, "FROM")
  }

  /** The multi-stage check passes exactly when two different lines open a
      build stage. */
  lemma MultistagePasses(fs: FileSystem, content: string)
    requires ReadFile(fs, DockerfilePath) == Read(content)
    ensures MultistageDockerfile(fs).Pass? <==>
      exists i, j | 0 <= i < j <= |content| :: StageLine(content, i) && StageLine(content, j)
  {
    CountTwoLineMatches(content, FromStage, 0);
    forall i | 0 <= i <= |content| ensures LineMatch(content, FromStage, i) <==> StageLine(content, i) {
      KeywordThenSpaceAt(content, i, "FROM");
    }
  }

  /** The app-service check passes exactly when `app:` or `web:` stands
      indented at a line start and the file mentions `build:`. */
  lemma AppServicePasses(fs: FileSystem, compose: string)
    requires ReadFile(fs, ComposePath) == Read(compose)
    ensures ComposeAppService(fs).Pass? <==>
      (IndentedKey(compose, "app:") || IndentedKey(compose, "web:")) && Contains(compose, "build:")
  {
    SearchIndentedKey(compose, "app:");
    SearchIndentedKey(compose, "web:");
  }

  /** The mysql-service check passes exactly when `mysql:` stands indented at
      a line start; the image only changes the message. */
  lemma MysqlServicePasses(fs: FileSystem, compose: string)
    requires ReadFile(fs, ComposePath) == Read(compose)
    ensures ComposeMysqlService(fs).Pass? <==> IndentedKey(compose, "mysql:")
  {
    SearchIndentedKey(compose, "mysql:");
  }

  /** The multi-container check passes exactly when both `app:` and `mysql:`
      stand indented at line starts (`web:` does not count here). */
  lemma NetworkPasses(fs: FileSystem, compose: string)
    requires ReadFile(fs, ComposePath) == Read(compose)
    ensures MultiContainerNetwork(fs).Pass? <==> IndentedKey(compose, "app:") && IndentedKey(compose, "mysql:")
  {
    SearchIndentedKey(compose, "app:");
    SearchIndentedKey(compose, "mysql:");
  }

  // ---------------------------------------------------------------- pass conditions of the substring checks

  /** The modified-source check passes exactly when `index.html` has some
      text and the original empty-state sentence is gone from it. */
  lemma SourceModifiedPasses(fs: FileSystem, content: string)
    requires ReadFile(fs, IndexPath) == Read(content)
    ensures SourceModified(fs).Pass? <==> content != "" && !Contains(content, EmptyStateText)
  {
  }

  /** The empty-state check passes exactly when `index.html` has some text,
      still holds the `empty-state` element, and no longer holds the
      original sentence. */
  lemma UpdateTextChangedPasses(fs: FileSystem, content: string)
    requires ReadFile(fs, IndexPath) == Read(content)
    ensures UpdateTextChanged(fs).Pass? <==>
      content != "" && Contains(content, "id=\"empty-state\"") && !Contains(content, EmptyStateText)
  {
  }

  /** The volume-configuration check passes exactly when the compose file
      names the todo volume and has a `volumes:` key, or else `docker volume
      ls` ran and its output mentions todo in any letter case. */
  lemma VolumeConfigPasses(fs: FileSystem, engine: Engine, compose: string, dockerfile: string)
    requires ReadFile(fs, ComposePath) == Read(compose) && ReadFile(fs, DockerfilePath) == Read(dockerfile)
    ensures VolumeConfig(fs, engine).Pass? <==>
      || ((Contains(compose, "todo-db") || Contains(compose, "todo-mysql-data")) && Contains(compose, "volumes:"))
      || (engine.volumes.Exited? && MentionsTodo(engine.volumes.stdout))
  {
  }

  /** The mount-path check passes exactly when the compose file names a
      database data directory, or else some line of `docker volume ls`
      mentions todo in any letter case. */
  lemma VolumeMountPathPasses(fs: FileSystem, engine: Engine, compose: string)
    requires ReadFile(fs, ComposePath) == Read(compose)
    ensures VolumeMountPath(fs, engine).Pass? <==>
      || Contains(compose, "/var/lib/mysql") || Contains(compose, "/app/data")
      || (engine.volumes.Exited? &&
          exists k | 0 <= k < |OutputLines(engine.volumes.stdout)| :: MentionsTodo(OutputLines(engine.volumes.stdout)[k]))
  {
    if engine.volumes.Exited? {
      WhereNonEmpty(OutputLines(engine.volumes.stdout), MentionsTodo);
    }
  }

  /** The bind-mount check passes exactly when the compose file has a
      relative path and a mount on `/app`, or the lower-cased Dockerfile
      mentions `nodemon` or `dev`, or the compose file builds from `./app`. */
  lemma BindMountConfigPasses(fs: FileSystem, compose: string)
    requires ReadFile(fs, ComposePath) == Read(compose)
    ensures BindMountConfig(fs).Pass? <==>
      || (Contains(compose, "./") && Contains(compose, ":/app"))
      || (&& ReadFile(fs, DockerfilePath).Read?
          && (|| Contains(Lower(ReadFile(fs, DockerfilePath).text), "nodemon")
              || Contains(Lower(ReadFile(fs, DockerfilePath).text), "dev")
              || (Contains(compose, "build:") && Contains(compose, "./app"))))
  {
  }

  /** The development-script check passes exactly when `package.json`
      contains both `"dev"` and `nodemon`. */
  lemma BindMountDevPasses(fs: FileSystem, pkg: string)
    requires ReadFile(fs, PackagePath) == Read(pkg)
    ensures BindMountDev(fs).Pass? <==> Contains(pkg, "\"dev\"") && Contains(pkg, "nodemon")
  {
  }

  /** The `MYSQL_HOST` check passes exactly when the compose file contains it. */
  lemma MysqlHostEnvPasses(fs: FileSystem, compose: string)
    requires ReadFile(fs, ComposePath) == Read(compose)
    ensures MysqlHostEnv(fs).Pass? <==> Contains(compose, "MYSQL_HOST")
  {
  }
}
