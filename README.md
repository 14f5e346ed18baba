# Workshop scoring script, modelled in Dafny

This project models the scoring script of the Docker "zero to hero" workshop (`run.py`).
The script inspects a learner's project tree — `app/Dockerfile`, `app/.dockerignore`,
`app/package.json`, `app/src/static/index.html` and `docker-compose.yml` — and the output of a
few `docker` commands. It runs a fixed registry of 27 checks, each worth some points and
belonging to one workshop module (04 to 11), and adds up the points. It records one result per
check and declares the learner passed at 70 points.

The model has eight modules:

- `Text`: the Python string operations the checks use, such as `in`, `split`, `join`, `strip`,
  `count`, `lower`/`upper` and slicing.
- `Pattern`: the fragment of `re` the checks use, a backtracking token matcher with `re.search`,
  `re.search(..., re.MULTILINE)` anchored at `^`, and a `re.findall` count.
- `Project`: the project tree as a map from path to entry, `read_file`, `file_exists`, the
  evaluator outcome `Pass | Fail | Fault`, and the observed engine commands.
- `Checks`: every `check_*` function. The three checks that collect by a loop or by appends are
  also kept as methods, each proved equal to its specification function:
  - `check_dockerfile_copy_package_first` as `CheckCopyPackageFirst`, with its loop `CollectCopies`;
  - `check_compose_volumes` as `CheckComposeVolumes`;
  - `check_mysql_credentials` as `CheckMysqlCredentials`.

  The first-match loops of `check_image_tagged` and `check_tag_format` are the recursive
  function `FirstWhere`. The list comprehension of `check_volume_mount_path` is `Where`.
- `Registry`: the `CHECKS` table as eight module blocks, and the module filter.
- `Scoring`: the loop of `run_checks` as the method `ScoreAll`, and `run_checks` itself as
  `RunChecks`. Both are proved against the specification functions `MakeReport` and `Headers`.
- `CheckProperties`: what each check promises, stated independently of its body.
- `Scenarios`: whole runs on an empty project, and where the `Error:` records can come from.

Some facts about `run.py` that the model keeps:

- The registry's weights add up to 100 (run.py:446-489).
- The image removal (`docker rmi`) runs inside the same `try` as the build, so an exception from
  it fails the build check, with the same message the build's own exception would give
  (run.py:158-173).
- `read_file` turns only a missing file or a permission error into the empty text
  (run.py:50-54). An undecodable file or a directory raises, and the exception boundary of
  `run_checks` records that as `Error: ...` (run.py:562-565). This is where the `Fault` outcome
  comes from.
- When a module filter selects nothing, `run_checks` returns `None` (run.py:546-549), and
  `main` then fails to unpack it (run.py:608). The model returns "no report" explicitly
  (`RunChecks` with `report == None`).

## Model

| member | source | states |
|---|---|---|
| Project.ReadFile | run.py:50-56 | a missing path reads as the empty text, as does a permission error; the read raises exactly when the entry is undecodable or a directory; a readable file reads as its text |
| Project.MissingReadsAsEmpty | run.py:50-61 | a missing file and an empty file read alike, and only `file_exists` tells them apart |
| Text.JoinSplit | run.py:99 | joining the pieces of `split(sep)` with `sep` gives back the text |
| Text.SplitPiecesAvoidSeparator | run.py:99 | no piece of `split(sep)` contains the separator |
| Text.Strip | run.py:99 | `strip()` is a slice of its input with only whitespace removed on either side, and it neither starts nor ends with whitespace |
| Text.Count | run.py:74 | `count(sub)` is zero exactly when `sub` does not occur, and at least two exactly when `sub` occurs at two places that do not overlap |
| Text.SplitThree | run.py:74 | `split(sep)` has at least three pieces exactly when `sep` occurs at two places that do not overlap |
| Pattern.MatchedLiteralOccurs | run.py:83 | a text a pattern matches contains each literal of the pattern, lower-cased under `re.IGNORECASE` |
| Pattern.CountLineMatches | run.py:426 | the number of line starts where the pattern matches is positive exactly when the anchored multiline search succeeds |
| Pattern.CountTwoLineMatches | run.py:426 | `findall` finds at least two matches exactly when the pattern matches at two different line starts |
| Pattern.StarThenRest | run.py:83 | `x*` followed by the rest matches exactly when some run of `x` characters, possibly empty, is followed by a match of the rest |
| Pattern.PlusThenRest | run.py:83 | `x+` followed by the rest matches exactly when some non-empty run of `x` characters is followed by a match of the rest |
| Pattern.LitThenRest | run.py:83 | a literal followed by the rest matches exactly when the literal stands there, in any letter case under `re.IGNORECASE`, and the rest matches after it |
| Pattern.KeywordThenSpaceAt | run.py:151 | `KEYWORD\s+` matches at a place exactly when the keyword stands there in any letter case and whitespace follows it |
| Pattern.KeywordThenArgAt | run.py:83 | `KEYWORD\s+ARG` matches at a place exactly when the keyword, a run of whitespace and the argument follow each other there, in any letter case |
| Pattern.SearchKeywordThenArg | run.py:83 | `re.search` for `KEYWORD\s+ARG` succeeds exactly when the keyword, whitespace and the argument follow each other somewhere |
| Pattern.SearchIndentedKey | run.py:376 | `re.search(r"^\s+key", ..., re.MULTILINE)` succeeds exactly when the key follows a non-empty run of whitespace at some line start |
| Checks.DockerfileExists | run.py:68-77 | raises exactly when the Dockerfile is undecodable; a missing file or a directory is a failure, not an error |
| Checks.DockerfileFromNode | run.py:80-85 | raises exactly when reading the Dockerfile raises |
| Checks.DockerfileWorkdir | run.py:88-93 | raises exactly when reading the Dockerfile raises |
| Checks.InstructionsMembers | run.py:99 | every instruction line is the stripped form of a line of the text, non-empty and not a comment; every stripped line that is non-empty and not a comment is an instruction line |
| Checks.KeepInstructions | run.py:99 | keeps exactly the lines that are non-empty and not comments, and never more lines than it is given |
| Checks.KeepInstructionsAppend | run.py:99 | the filter keeps the order of the lines: filtering a concatenation is concatenating the filtered parts |
| Checks.KeepInstructionsSingle | run.py:99 | no lines keep nothing, and a single line is kept alone exactly when it is non-empty and not a comment |
| Checks.CopyLines | run.py:101-104 | keeps only COPY lines (any letter case), never more than there are lines |
| Checks.CollectCopies | run.py:101-104 | the loop pairs every COPY line, in order and in any letter case, with its index among the instruction lines; the indices strictly increase, and every COPY line's index is collected |
| Checks.CheckCopyPackageFirst | run.py:96-114 | the imperative check yields the COPY-order verdict on the Dockerfile text |
| Checks.CopyPackageFirstVerdict | run.py:99-114 | the verdict on the Dockerfile text never raises |
| Checks.DockerfileCopyPackageFirst | run.py:96-114 | raises exactly when reading the Dockerfile raises |
| Checks.DockerfileRunInstall | run.py:117-122 | raises exactly when reading the Dockerfile raises |
| Checks.CopySourceVerdict | run.py:128-137 | the verdict on the Dockerfile text never raises |
| Checks.DockerfileCopySource | run.py:125-137 | raises exactly when reading the Dockerfile raises |
| Checks.DockerfileExpose | run.py:140-145 | raises exactly when reading the Dockerfile raises |
| Checks.DockerfileCmd | run.py:148-153 | raises exactly when reading the Dockerfile raises |
| Checks.MultistageDockerfile | run.py:423-430 | raises exactly when reading the Dockerfile raises |
| Checks.Dockerignore | run.py:433-441 | raises exactly when `.dockerignore` is undecodable |
| Checks.ImageBuilds | run.py:156-173 | never raises: every engine failure is caught inside the check |
| Checks.OutputLines | run.py:210 | `stdout.strip().split("\n")` has at least one line |
| Checks.FirstWhere | run.py:210-213 | the first line that satisfies the test, or none when no line does |
| Checks.Where | run.py:272-273 | the comprehension keeps exactly the lines that satisfy the test, never more lines than it is given |
| Checks.WhereAppend | run.py:272-273 | the comprehension keeps order and repetitions: filtering a concatenation is concatenating the filtered parts |
| Checks.WhereSingle | run.py:272-273 | an empty list keeps nothing, and a single line is kept alone exactly when it satisfies the test |
| Checks.WhereNonEmpty | run.py:273-274 | the comprehension keeps something exactly when some line satisfies the test |
| Checks.ImageTagged | run.py:203-215 | never raises; passes exactly when `docker images` ran and some line of its output contains `/` and mentions todo in any letter case |
| Checks.TagFormat | run.py:218-231 | never raises; passes exactly when `docker images` ran and some line of its output is a well-formed `user/repository:tag` that mentions todo in any letter case |
| Checks.VolumeConfig | run.py:234-255 | raises exactly when reading the compose file or the Dockerfile raises: both are read first |
| Checks.VolumeMountPath | run.py:258-279 | raises exactly when reading the compose file raises |
| Checks.SourceModified | run.py:176-184 | raises exactly when reading `index.html` raises |
| Checks.UpdateTextChanged | run.py:187-200 | raises exactly when reading `index.html` raises |
| Checks.BindMountConfig | run.py:282-300 | raises exactly when the compose file raises, or when the compose file has no bind mount (`./` and `:/app`) and the Dockerfile, read only then, raises |
| Checks.BindMountDev | run.py:303-309 | raises exactly when reading `package.json` raises |
| Checks.MysqlHostEnv | run.py:312-317 | raises exactly when reading the compose file raises |
| Checks.MissingLabels | run.py:329-336 | at most one label for each group |
| Checks.MysqlCredentialsVerdict | run.py:323-338 | the verdict on the compose text never raises |
| Checks.CheckMysqlCredentials | run.py:320-338 | the imperative check, building the list of missing groups by appends, yields the credentials verdict |
| Checks.MysqlCredentials | run.py:320-338 | raises exactly when reading the compose file raises |
| Checks.MultiContainerNetwork | run.py:341-355 | raises exactly when reading the compose file raises |
| Checks.ComposeFileExists | run.py:358-368 | raises exactly when the compose file is undecodable |
| Checks.ComposeAppService | run.py:371-382 | raises exactly when reading the compose file raises |
| Checks.ComposeMysqlService | run.py:385-396 | raises exactly when reading the compose file raises |
| Checks.ComposeVolumesVerdict | run.py:404-409 | the verdict on the compose text never raises |
| Checks.CheckComposeVolumes | run.py:399-409 | the scanning loop with its early return yields the top-level-volumes verdict |
| Checks.ComposeVolumes | run.py:399-409 | raises exactly when reading the compose file raises |
| Checks.ComposePorts | run.py:412-420 | raises exactly when reading the compose file raises |
| CheckProperties.CopyPackageFirstPasses | run.py:96-114 | passes exactly when at least two instruction lines start with COPY (any case) and the first of them contains `package` (any case); exactly one COPY line gives the "Use two COPY instructions" failure |
| CheckProperties.CopyLinesSome | run.py:101-110 | there is a collected COPY line exactly when some instruction line is a COPY line |
| CheckProperties.CopyLinesTwo | run.py:101-107 | there are two collected COPY lines exactly when two instruction lines are COPY lines |
| CheckProperties.CopyLinesFirst | run.py:107-109 | the first collected COPY line is the first instruction line that is a COPY |
| CheckProperties.PackageFirstImpliesSourceCopied | run.py:96-137 | passing the COPY-order check implies passing the source-copy check |
| CheckProperties.CopySourcePasses | run.py:125-137 | passes exactly when two instruction lines are COPY lines, or exactly one is and `COPY . .` appears in the Dockerfile |
| CheckProperties.CountedSingle | run.py:130-134 | one collected COPY line means exactly one instruction line is a COPY line |
| CheckProperties.AtMostOneFrom | run.py:74 | `count("FROM") <= 1` holds exactly when `FROM` does not occur at two different places |
| CheckProperties.MysqlCredentialsPasses | run.py:320-338 | passes exactly when the user, a password and a database variable are all named; otherwise the message lists exactly the missing groups, in the order user, password, database |
| CheckProperties.ComposeVolumesPasses | run.py:399-409 | passes exactly when `volumes:` stands at the start of some line of the compose file |
| CheckProperties.VolumesLineIsTopLevel | run.py:406 | a line that starts with `volumes:` never starts with two spaces, so the indentation test never rejects it |
| CheckProperties.ComposeFileExistsPasses | run.py:358-368 | a missing compose file fails; a readable one passes exactly when it contains `services:`, and `# TODO:` changes only the message |
| CheckProperties.ComposePortsPasses | run.py:412-420 | once the compose file reads as text (a locked file reads as empty), the check passes exactly when that text contains `3000:3000` |
| CheckProperties.AppServicePasses | run.py:371-382 | passes exactly when `app:` or `web:` stands after indentation at a line start and the file contains `build:` |
| CheckProperties.MysqlServicePasses | run.py:385-396 | passes exactly when `mysql:` stands after indentation at a line start; the image only changes the message |
| CheckProperties.NetworkPasses | run.py:341-355 | passes exactly when both `app:` and `mysql:` stand after indentation at line starts |
| CheckProperties.NetworkImpliesMysqlService | run.py:341-396 | passing the multi-container check implies passing the mysql-service check |
| CheckProperties.TagFormatImpliesTagged | run.py:203-231 | passing the tag-format check implies passing the image-tagged check |
| CheckProperties.TagIsRepository | run.py:210-228 | a well-formed `user/repository:tag` line mentioning todo is a `user/repository` line mentioning todo |
| CheckProperties.RepositoryTagShape | run.py:226 | `re.match(r"^[\w\-]+/[\w\-]+:\w+", line)` succeeds exactly when the line starts with a non-empty run of word characters or dashes, a slash, another such run, a colon and a word character |
| CheckProperties.TagTailMatch | run.py:226 | `[\w\-]+:\w+` matches at a place exactly when a non-empty run of word characters or dashes, a colon and a word character follow each other there |
| CheckProperties.UpdateTextImpliesModified | run.py:176-200 | passing the empty-state check implies passing the modified-source check |
| CheckProperties.ImageBuildsPasses | run.py:156-173 | passes exactly when the build exits with status 0 and the image removal runs; a removal that raises fails the check exactly as the same exception from the build would |
| CheckProperties.DockerignoreByEntry | run.py:433-441 | the outcome for each kind of entry at `.dockerignore`: missing or directory fails, readable passes, locked passes with the plain message, undecodable raises |
| CheckProperties.DockerfileExistsPasses | run.py:68-77 | a missing Dockerfile fails with its message; a readable one passes exactly when it is not the starter template, and always when it has no `# TODO:` |
| CheckProperties.MultistagePasses | run.py:423-430 | passes exactly when two different lines start with `FROM` (any case) followed by whitespace |
| CheckProperties.FromNodePasses | run.py:80-85 | passes exactly when `FROM`, whitespace and `node:` follow each other somewhere, in any letter case |
| CheckProperties.WorkdirPasses | run.py:88-93 | passes exactly when `WORKDIR`, whitespace and `/app` follow each other somewhere, in any letter case |
| CheckProperties.ExposePasses | run.py:140-145 | passes exactly when `EXPOSE`, whitespace and `3000` follow each other somewhere, in any letter case |
| CheckProperties.CmdPasses | run.py:148-153 | passes exactly when `CMD` in any letter case is followed by whitespace somewhere |
| CheckProperties.SearchInstallCommand | run.py:120 | the install pattern for one tool matches exactly when `RUN`, whitespace, the tool, whitespace and `install` follow each other somewhere, in any letter case |
| CheckProperties.RunInstallPasses | run.py:117-122 | passes exactly when `RUN npm install` or `RUN yarn install`, with any runs of whitespace and in any letter case, appears somewhere |
| CheckProperties.VolumeConfigIgnoresDockerfile | run.py:234-255 | the volume check reads the Dockerfile but its outcome does not depend on the text |
| CheckProperties.SourceModifiedPasses | run.py:176-184 | passes exactly when `index.html` has some text and the original empty-state sentence is not in it |
| CheckProperties.UpdateTextChangedPasses | run.py:187-200 | passes exactly when `index.html` has some text, holds `id="empty-state"` and no longer holds the original sentence |
| CheckProperties.VolumeConfigPasses | run.py:234-255 | passes exactly when the compose file names `todo-db` or `todo-mysql-data` and has `volumes:`, or `docker volume ls` ran and its output mentions todo in any letter case |
| CheckProperties.VolumeMountPathPasses | run.py:258-279 | passes exactly when the compose file names `/var/lib/mysql` or `/app/data`, or some line of `docker volume ls` output mentions todo in any letter case |
| CheckProperties.BindMountConfigPasses | run.py:282-300 | passes exactly when the compose file has `./` and `:/app`, whatever the Dockerfile is; otherwise the Dockerfile must read as text and either its lower-cased text has `nodemon` or `dev` or the compose file has `build:` and `./app` |
| CheckProperties.BindMountDevPasses | run.py:303-309 | passes exactly when `package.json` contains `"dev"` and `nodemon` |
| CheckProperties.MysqlHostEnvPasses | run.py:312-317 | passes exactly when the compose file contains `MYSQL_HOST` |
| Registry.RubricByModule | run.py:446-489 | filtering the registry by a module gives exactly that module's block; the block weighs what its header comment announces (25, 10, 10, 10, 10, 15, 15, 5); modules outside 4 to 11 have no checks; the whole registry is worth 100 |
| Registry.BlockFacts | run.py:446-489 | every entry of a module's block belongs to that module, and the block weighs the announced points |
| Registry.RubricTotal | run.py:446-489 | the registry is worth 100 points |
| Registry.RubricSize | run.py:446-489 | the registry has 27 entries |
| Registry.RubricOrdered | run.py:446-489 | module numbers never decrease along the registry |
| Registry.RubricContiguous | run.py:446-489 | entries of the same module stand together |
| Registry.ModuleChecks | run.py:546 | the filter keeps only entries of the requested module |
| Registry.ModuleChecksAppend | run.py:546 | filtering keeps registry order: it commutes with concatenation |
| Scoring.Record | run.py:562-586 | a record carries the check's name, module and points; it passed exactly when the outcome passed; it earned all of its points or none; an exception's record has message `Error: ` plus the exception's text |
| Scoring.Earned | run.py:567-568 | the earned points never exceed the total |
| Scoring.ScoreAll | run.py:551-586 | the loop's total, earned points and records are those of the report of the selected checks, and the headers it shows are the module changes |
| Scoring.RunChecks | run.py:536-599 | no report exactly when a filter selects nothing; otherwise the report of the selected checks, run in registry order |
| Scoring.ReportConsistent | run.py:560-586 | the earned points are the sum of the records' earned points; the total is the sum of their points; earned is at most total; each record earned its points or nothing |
| Scoring.ReplaceOutcome | run.py:562-586 | changing one check's outcome changes that record alone, leaves the total alone and moves earned by the difference in what that outcome is worth |
| Scoring.FaultIsolation | run.py:562-565 | a check that raises is recorded as failed with `Error: ` and the text; it still counts its full weight in the total and earns nothing; every other record is unchanged |
| Scoring.FilteredRunNeverPasses | run.py:544-592 | a run filtered to one module never reaches the absolute passing score of 70 |
| Scoring.FullRunTotal | run.py:544-599 | an unfiltered run has 27 records and a total of 100 |
| Scoring.FullRunHeaders | run.py:551-558 | an unfiltered run shows the headers of modules 4 to 11 once each, in order |
| Scoring.FilteredRunHeaders | run.py:544-558 | a run filtered to a module that has checks shows just that module's header |
| Scenarios.EmptyProjectScoresNothing | run.py:536-599 | on an empty tree, with the `docker` executable missing, every check fails; the run earns 0 of 100 and does not pass |
| Scenarios.EmptyFailsEveryBlock | run.py:446-489 | on an empty tree without the `docker` executable, every check of every module block fails, and none raises |
| Scenarios.ReadableTreeNeverFaults | run.py:50-56 | when every entry of the tree is a readable or locked file, no check of the registry raises |
| Scenarios.ReadableNeverRaises | run.py:50-56 | in a tree of readable or locked files, every read returns text |
| Scenarios.NoFaultInBlocks | run.py:446-489 | when the five files the checks read can all be read, no check of any module block raises |

## Left out

- Running the `docker` commands (`build`, `rmi`, `images`, `volume ls`), their timeouts and their exceptions are not modelled as processes. Each command is one observed `Process` value: it exited with a status and output, was not found, timed out, or failed otherwise.
- The file system is a map from path to entry: a readable text, a locked file, an undecodable file, or a directory. `open` and `os.path.isfile` are not modelled beyond that.
- Console output is not modelled: colours, `print_header`, the progress bar with its floating-point percentage, and the pass/fail lines. The module headers are modelled only as the sequence of module numbers shown.
- `main` is not modelled: `argparse`, writing `results.json`, and the console setup on Windows. The run with no report is stated instead.
- The Node.js application under `app/` is not part of this model. It is what the learner containerises, not part of the scoring script.
- `Text.Lower`, `Text.Upper`: letter case is changed for ASCII letters only. Python's Unicode case mapping is not modelled.
- `Pattern.IsWordChar`: `\w` is the ASCII word characters only. Python's Unicode `\w` is not modelled.
- `Pattern.MatchAt`: only the regular-expression fragment the checks use is modelled: literals, `\s`, `\w`, `[\w\-]`, `["']`, and `+`, `*`, `?`. The alternations `(npm|yarn)` and `(app|web)` are written as two patterns whose searches are joined with "or".
- Checks.DockerfileFromNode, Checks.DockerfileWorkdir, Checks.DockerfileRunInstall, Checks.DockerfileExpose, Checks.DockerfileCmd, Checks.MultistageDockerfile, Checks.ComposeAppService, Checks.ComposeMysqlService, Checks.MultiContainerNetwork, Checks.CopySourceVerdict, Checks.SourceModified, Checks.UpdateTextChanged, Checks.VolumeConfig, Checks.VolumeMountPath, Checks.BindMountConfig, Checks.BindMountDev, Checks.MysqlHostEnv: their own contracts state only when they raise. When they pass is stated both ways by the `...Passes` lemmas of `CheckProperties`.
- Pattern.CountLineMatches: equals the `findall` count only for patterns whose matches cannot swallow a later matching line start, such as `^FROM\s+`. The argument is given in the doc comment and is not stated as a lemma.
- Text.Count: states only the thresholds the checks compare against (zero, at least two). The exact number of non-overlapping occurrences is not stated.
- CheckProperties.TagFormatImpliesTagged: `docker images` runs once in each of the two image checks (run.py:206, 221), and `docker volume ls` once in each of the two volume checks (run.py:246, 268). The model gives each command one shared `Process` value for the whole run, so both checks see the same output. The lemma depends on that. Two real runs could differ if images change between them.
- Project.ReadFile: a `TextFile` holds the text after Python's universal-newline translation, so `\r\n` already reads as `\n`. On Windows, opening a directory raises `PermissionError`, so `read_file` returns the empty text. The model follows the POSIX behaviour, where it raises `IsADirectoryError`.
- Scoring.RunChecks: with an empty list of checks and no filter, the model gives a report of 0 of 0 points. `run.py` would divide by zero in the progress bar (run.py:504). The registry is never empty, so this does not arise for `CHECKS`. A negative `--module` value is excluded by the type `Option<nat>`. It would select no checks, like any module without checks.
