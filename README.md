# ci/test.py, modelled in Dafny

`ci/test.py` is the MXNet helper script that builds a Docker test container
for a platform and runs that platform's tests in it. From the Dockerfiles
named `docker/Dockerfile.build.test.<platform>` it discovers the platforms.
For each platform it builds an image tagged `<registry>/build.test.<platform>`.
It then runs either a command, the default test entry point
`/work/runtime_test_functions.sh test_<platform>`, or an interactive shell in
the container. As an alternative to running, it can print the `docker run`
line that opens such a shell.

The model covers this logic:

- platform discovery (`get_platforms`);
- the two name builders (`get_docker_tag`, `get_dockerfile`);
- `build_docker` and `container_run`, with their outside calls abstracted;
- `list_platforms`;
- the decision logic of `main`, from the parsed flags on, including the
  `--all` loop.

Everything outside the script is an input, collected in the `Host` record:

- the user and group ids;
- whether `JOB_NAME` is set;
- the paths the Dockerfile glob returns;
- the binary `get_docker_binary` picks;
- the exit status of each program run;
- the image id of each tag.

What the script does to the outside world is recorded as a sequence of
`Effect`s: programs executed, cache loads, build-directory removal, printed
text. A `Trace` pairs those effects with an `Outcome`: either a returned value
or one of the exceptions the script can raise.

The files:

- `strings.dfy` (`Strings`): Python's string order and `sorted`, `str.join`
  and `str.split` with a one-character separator, and `str(int)`.
- `paths.dfy` (`Paths`): `os.path.split(p)[1]` and POSIX `os.path.join`.
- `catalog.dfy` (`Catalog`): `get_platforms`, `get_docker_tag` and
  `get_dockerfile`.
- `runner.dfy` (`Runner`): the host, effects and exceptions, `build_docker`,
  and `container_run`. `container_run` is both a specification function and
  an imperative method proved equal to it.
- `cli.dfy` (`Cli`): the flag record, the dispatch of `main`, the
  specification of each branch, and the imperative methods for `main` and its
  `--all` loop, each proved equal to its specification.

Notes on the source:

- Line 40 imports `get_platforms` from `build`. Lines 42-48 then define it
  again, and the local definition is the one that is modelled.
- The regex at line 46 has unescaped dots. Each dot matches any character
  except a newline, and the greedy group runs to the end of the line. Because
  of this, a directory name that itself matches the pattern is rewritten too.
  The lemmas about a shared directory therefore require a directory name
  without a `D`.
- Sorting happens on the rewritten full paths, before the basenames are taken
  (line 47). `UnsortedAcrossDirectories` shows that paths from two
  directories can give platform names out of order.
- Two defects are modelled as written rather than corrected:
  - In into-container mode, `ret` is assigned only on the other branch
    (line 101). A shell that exits with status 0 therefore reaches line 110
    and raises `UnboundLocalError`, so `--into-container` never returns from
    `main`.
  - In the `--all` loop without `--build-only`, line 234 calls the undefined
    name `get_mxnet_root`. The first platform whose test run passes therefore
    ends `main` with `NameError`, and `--all` never gets past its first
    platform.

## Model

| member | source | states |
|---|---|---|
| Strings.StrLe | ci/test.py:47 | the order `sorted` uses on `str`: a prefix comes first, otherwise the smaller code point at the first difference decides; `StrLeTotal`, `StrLeAntisymmetric` and `StrLeTransitive` show it is a total order |
| Strings.StrLeTotal | ci/test.py:47 | any two strings are comparable under Python's code-point order |
| Strings.StrLeAntisymmetric | ci/test.py:47 | strings that are each `<=` the other are equal |
| Strings.StrLeTransitive | ci/test.py:47 | the string order is transitive |
| Strings.StrLeCommonPrefix | ci/test.py:47 | a common prefix does not change how two strings compare |
| Strings.SortStrings | ci/test.py:47 | `sorted` returns a sorted permutation of its input |
| Strings.SortedUnique | ci/test.py:47 | two sorted permutations of the same list are equal, so any correct sort gives the same result |
| Strings.SortStringsIsTheSortedPermutation | ci/test.py:47 | every sorted permutation of a list is the result of sorting it |
| Strings.SortPrefix | ci/test.py:47 | sorting paths that share a prefix is sorting their suffixes |
| Strings.SplitJoin | ci/test.py:97 | tokens joined with a separator they do not contain split back into the same tokens |
| Strings.Join | ci/test.py:97 | `str.join` with a one-character separator, used for the command lines (lines 97, 106) and the listing (line 120); `SplitJoin` shows that splitting undoes it for tokens free of the separator |
| Strings.Decimal | ci/test.py:94 | `str(n)` is a non-empty string of digits with no leading zero |
| Strings.DecimalRoundTrip | ci/test.py:94 | reading the decimal string back gives n |
| Paths.Basename | ci/test.py:47 | the tail after `os.path.split` contains no `/`, and when shorter than the path it follows a `/` |
| Paths.BasenameIsSuffix | ci/test.py:47 | the tail is a suffix of the path |
| Paths.BasenameAfterDir | ci/test.py:47 | the tail of a directory part followed by a file name is that file name |
| Paths.PathJoin | ci/test.py:54 | `os.path.join(a, b)` ends in b; for a relative b it is a's directory part followed by b, and its tail is b when b has no `/` |
| Catalog.LineEnd | ci/test.py:46 | the greedy `(.*)` stops at the first newline or at the end of the string |
| Catalog.Substitute | ci/test.py:46 | the regex substitution of line 46, a match starting wherever the stem pattern matches and running to the end of the line; its own contract bounds only the length, and `SubstitutePlainPrefix`, `SubstituteStem` and `SubstituteDockerfile` state what it does on Dockerfile-shaped paths |
| Catalog.SubstitutePlainPrefix | ci/test.py:46 | the rewrite leaves text without a `D` unchanged |
| Catalog.SubstituteStem | ci/test.py:46 | a file name made of the stem and a one-line suffix is rewritten to the suffix |
| Catalog.DropBackups | ci/test.py:45 | the result holds exactly the inputs that do not end in `~`: each as often as in the input, no backup, and in the input's order (a subsequence) |
| Catalog.DropBackupsUnique | ci/test.py:45 | any subsequence of the input with those multiplicities is the filtered list, so the contract of `DropBackups` determines it |
| Catalog.SubsequenceMultiset | ci/test.py:45 | a subsequence holds no element more often than the whole list |
| Catalog.RewriteAll | ci/test.py:46 | each path is replaced by its rewrite, position by position |
| Catalog.Basenames | ci/test.py:47 | each path is replaced by its tail, position by position |
| Catalog.GetPlatforms | ci/test.py:42-48 | one platform per input not ending in `~`, and the platforms are the tails of the rewritten kept paths, as a multiset |
| Catalog.PlatformsFromInputs | ci/test.py:45-47 | every platform is the rewritten tail of some input that does not end in `~` |
| Catalog.PlatformOrigins | ci/test.py:45-47 | every rewritten tail comes from an input that does not end in `~` |
| Catalog.GetDockerTag | ci/test.py:50-51 | the tag `<registry>/build.test.<platform>`; `TagRoundTrip` and `TagInjective` state that the tag determines the platform |
| Catalog.TagRoundTrip | ci/test.py:50-51 | the platform can be read back from its tag `<registry>/build.test.<platform>` |
| Catalog.TagInjective | ci/test.py:50-51 | different platforms get different tags in one registry |
| Catalog.GetDockerfile | ci/test.py:53-54 | the Dockerfile path is the directory part, then `Dockerfile.build.test.`, then the platform |
| Catalog.Dockerfiles | ci/test.py:53-54 | the Dockerfile path of each name, position by position |
| Catalog.DropBackupsOfDockerfiles | ci/test.py:45 | dropping backups from the Dockerfile paths of some names is taking the Dockerfile paths of the names that are not backups |
| Catalog.RewriteDockerfiles | ci/test.py:46 | the rewrite turns each Dockerfile of a directory into the directory part followed by the name |
| Catalog.SubstituteDockerfile | ci/test.py:46 | one Dockerfile path is rewritten to its directory part followed by the platform |
| Catalog.BasenamesOfPrefixed | ci/test.py:47 | names without `/` under one directory part have those names as tails |
| Catalog.PlatformsOfDockerfiles | ci/test.py:44-47 | for the Dockerfiles of one directory, the platforms are the non-backup names in sorted order |
| Catalog.DockerfileRoundTrip | ci/test.py:44-54 | discovery on the single Dockerfile of a platform gives back exactly that platform |
| Catalog.CatalogExample | ci/test.py:42-48 | Dockerfiles for `rpi`, `armv7` and a backup `rpi~` give `["armv7", "rpi"]` |
| Catalog.ExampleNamesSorted | ci/test.py:45-47 | the backup is dropped and the other two names are sorted |
| Catalog.SortedByFullPath | ci/test.py:47 | a platform in directory `a` is listed before one in `b`, whatever their names |
| Catalog.TwoDirectoriesSorted | ci/test.py:47 | the full paths sort by directory, and their tails are the names |
| Catalog.TwoDirectoriesRewritten | ci/test.py:46 | Dockerfiles from two directories are all kept, and each is rewritten to its directory followed by its name |
| Catalog.UnsortedAcrossDirectories | ci/test.py:47 | when the name in directory `a` sorts after the name in directory `b`, the platforms come out unsorted |
| Catalog.UnsortedExample | ci/test.py:47 | `b/Dockerfile.build.test.x` and `a/Dockerfile.build.test.y` give unsorted platforms |
| Catalog.SortTwo | ci/test.py:47 | two strings out of order are swapped by the sort |
| Catalog.BasenamesInsert | ci/test.py:47 | inserting a path adds its tail to the multiset of tails |
| Catalog.BasenamesSort | ci/test.py:47 | sorting paths does not change the multiset of their tails |
| Runner.BuildCommand | ci/test.py:67-72 | the eleven-token build command; `BuildCommandNamesPlatform` states what its file and tag arguments name, and `BuildDocker` that it is what the build runs |
| Runner.BuildCommandNamesPlatform | ci/test.py:67-72 | the build command's `-f` file is discovered as the platform, its `--cache-from` and `-t` values are the same tag, and that tag reads back as the platform |
| Runner.BuildDocker | ci/test.py:56-81 | the build command is run once; the build returns exactly when it exits with 0 and the image id is non-empty, and then returns that id; a non-zero exit raises `CalledProcessError` with that status and argument list; an empty id raises `FileNotFoundError` |
| Runner.RunList | ci/test.py:92-96 | the `docker run` token list followed by the command; `InteractiveCommandShape` and `InteractiveLineSplits` state its shape |
| Runner.UserSpec | ci/test.py:94 | the `-u` value, user id and group id in decimal around a colon; `DecimalRoundTrip` shows each number reads back, and `InteractiveLineSplits` uses that it holds no space |
| Runner.FirstIndex | ci/test.py:104 | `list.index` returns the position of the first occurrence |
| Runner.InsertAt | ci/test.py:105 | the slice assignment `l[i:i] = t` with i clamped to the length; `InsertAtSlices`, `InsertAtRemovable` and `InsertAtTokens` state its result |
| Runner.InsertAtSlices | ci/test.py:105 | after `l[i:i] = t`, with i clamped to the length, the elements before i are unchanged, t follows, then the rest |
| Runner.InsertAtRemovable | ci/test.py:105 | taking the inserted tokens out gives back the original list |
| Runner.InsertAtTokens | ci/test.py:105 | inserting tokens free of a character keeps every token free of it |
| Runner.WithShell | ci/test.py:103-105 | the interactive variant, the shell tokens inserted two places after the first `-u`; `InteractiveCommandShape`, `InteractiveCommandWhenBinaryIsDashU` and `ShellTokensRemovable` state where they land and what stays |
| Runner.InteractiveCommandShape | ci/test.py:92-106 | the interactive command is `[bin, run, --rm, -t, --shm-size=S, -u, uid:gid, -ti, --entrypoint, /bin/bash, tag] + command`, three tokens longer than the run list |
| Runner.InteractiveCommandWhenBinaryIsDashU | ci/test.py:104-105 | the search for `-u` finds the first one, so a binary named `-u` moves the shell tokens to after `run` |
| Runner.ShellTokensRemovable | ci/test.py:103-105 | the interactive command holds the three shell tokens, and removing them gives back the run list in its order |
| Runner.ContainerRunSpec | ci/test.py:84-116 | the trace of `container_run` for each mode; `DryRunRunsNothing`, `RunReportsFailure` and `ShellModeNeverReturns` state each mode, and `ContainerRun` is the imperative code proved to produce it |
| Runner.ContainerRun | ci/test.py:84-116 | the imperative `container_run` (list extension, copy, slice insertion, the run and error branches) produces exactly the trace of its specification |
| Runner.DryRunRunsNothing | ci/test.py:98-116 | a dry run executes nothing and returns the interactive command line joined with spaces |
| Runner.RunReportsFailure | ci/test.py:98-116 | outside dry-run and shell mode the run list is executed once; a non-zero exit raises `CalledProcessError` with that status and the plain command line; exit 0 returns the interactive line |
| Runner.ShellModeNeverReturns | ci/test.py:107-114 | in shell mode only the interactive command is executed, and the call always raises: `UnboundLocalError` for `ret` when the shell exits with 0 |
| Runner.InteractiveLineSplits | ci/test.py:106 | when no token contains a space, the printed interactive line splits back into its argument list |
| Cli.Flatten | ci/test.py:187 | the flattened command is empty exactly when every appended list is, and a single list flattens to itself |
| Cli.FlattenAppend | ci/test.py:187 | flattening distributes over concatenation of the appended lists |
| Cli.Binary | ci/test.py:188 | the engine binary `get_docker_binary` picks for the `--nvidiadocker` flag, taken from the host |
| Cli.Truthy | ci/test.py:193 | the truth value of the `--platform` string: neither absent nor empty; `Dispatch` states where it decides |
| Cli.DefaultTestCommand | ci/test.py:213 | the default test command `/work/runtime_test_functions.sh test_<platform>`; `NextStep` and `DefaultTestRunsTestEntryPoint` state when it runs |
| Cli.CacheEffects | ci/test.py:196-197 | the cache load of the platform's tag when the cache is in use; `BuildOnlyPass` and `BuildOnlyStopsAfterBuild` state it comes before the build |
| Cli.NextStep | ci/test.py:199-216 | under `--platform`: build-only, then a non-empty command, then print-docker-run, then into-container, then the default test `/work/runtime_test_functions.sh test_<platform>`, each exactly under its condition |
| Cli.Dispatch | ci/test.py:184-218 | list, then a truthy platform, then all, then help, each exactly under its condition; the cache is used when `--cache` is given or `JOB_NAME` is set |
| Cli.NoArgumentsShowsHelp | ci/test.py:238-240 | a command line with no arguments shows the help |
| Cli.Listing | ci/test.py:119-120 | the text `list_platforms` prints; `ListingLines` states its lines |
| Cli.ListingLines | ci/test.py:119-120 | the listing is an empty line, the heading, then one line per platform; with no platforms, the heading followed by one empty line |
| Cli.AfterRun | ci/test.py:203-216 | an exception from `container_run` leaves `main`; otherwise `main` returns 0, after printing the returned line when asked to |
| Cli.BuildPlatformSpec | ci/test.py:193-216 | the trace of the `--platform` branch: cache, build, then the step; `BuildOnlyStopsAfterBuild`, `PrintDockerRunOnlyBuilds`, `IntoContainerNeverReturns` and `DefaultTestRunsTestEntryPoint` state what each step does, and `BuildPlatformBranch` is the imperative code proved to produce it |
| Cli.StepSpec | ci/test.py:203-216 | the trace of the chosen `container_run` call after the build, through `AfterRun`; `RunAfterBuild` is the imperative code proved to produce it |
| Cli.PlatformStep | ci/test.py:223-236 | the trace of one pass of the `--all` loop; `BuildOnlyPass` and `TestingAllStopsAtFirstPlatform` state what it does, and `PlatformPass` is the imperative code proved to produce it |
| Cli.AllSpec | ci/test.py:222-236 | the trace of the `--all` loop over the remaining platforms, stopping at the first exception; `BuildOnlyBuildsEveryPlatform` and `FirstFailedBuildStops` state what it does, and `BuildAllBranch` is the imperative loop proved to produce it |
| Cli.MainSpec | ci/test.py:184-267 | the trace of `main` for each branch of `Dispatch`; `ListWins` and `BuildOnlyAllFollowsSortedNames` state whole runs, and `Run` is the imperative code proved to produce it |
| Cli.BuildPlatformBranch | ci/test.py:193-216 | the imperative `--platform` branch equals its specification |
| Cli.RunAfterBuild | ci/test.py:203-216 | after the build, the chosen `container_run` call and the print equal the specification of that step |
| Cli.PlatformPass | ci/test.py:222-236 | one imperative pass of the `--all` loop equals its specification |
| Cli.BuildAllBranch | ci/test.py:218-236 | the imperative `--all` loop equals its specification: passes in order, stopping at the first exception |
| Cli.Run | ci/test.py:184-267 | the imperative `main` equals its specification for every flag combination |
| Cli.ListWins | ci/test.py:191-192 | with `--list`, `main` prints the listing, builds nothing and returns 0 |
| Cli.BuildOnlyPass | ci/test.py:222-228 | a build-only pass loads the cache if in use, builds, and goes on exactly when the build succeeds |
| Cli.BuildOnlyBuildsEveryPlatform | ci/test.py:222-228 | with every build succeeding, `--all --build-only` builds every platform in order and returns 0 |
| Cli.FirstFailedBuildStops | ci/test.py:222-228 | `--all --build-only` stops at the first failing build, with its exception, after building exactly the platforms up to it |
| Cli.FirstPlatformBuildFails | ci/test.py:222-226 | a failing first build ends the loop with that build's exception |
| Cli.TestingAllStopsAtFirstPlatform | ci/test.py:229-234 | without `--build-only`, `--all` raises during its first platform, never with `UnboundLocalError` |
| Cli.BuildOnlyAllFollowsSortedNames | ci/test.py:218-228 | `--all --build-only` on one directory's Dockerfiles builds the non-backup platforms in sorted order and returns 0 |
| Cli.DockerfilesNonEmpty | ci/test.py:45 | no Dockerfile path is empty |
| Cli.BuildOnlyStopsAfterBuild | ci/test.py:198-201 | `--platform --build-only` returns 0 exactly when the build succeeds, and does nothing after it |
| Cli.PrintDockerRunOnlyBuilds | ci/test.py:206-208 | `--print-docker-run` builds, executes nothing else, prints the interactive line and returns 0 |
| Cli.IntoContainerNeverReturns | ci/test.py:209-211 | `--into-container` always ends `main` with an exception; after a good build it runs only the interactive shell |
| Cli.DefaultTestRunsTestEntryPoint | ci/test.py:212-216 | with no command, the platform's test entry point runs once after the build, and `main` returns 0 exactly when it exits with 0 |

## Left out

- Argument parsing, logging setup, `os.chdir` to the script's directory and the `realpath` lookup (lines 126-183) are not modelled: `Flags` is the parsed namespace.
- `glob.glob` (line 44) is not modelled: its result is the input list of paths, in any order.
- `build.py` is not part of this model, so `load_docker_cache`, `get_docker_binary`, `_get_local_image_id` and `buildir` are abstracted. A cache load is recorded as an effect, and it never fails. The binary and the image id come from the host.
- `call` and `check_call` are abstracted as one exit-status function of the argument list, shared by every program run. Two runs of the same list get the same status.
- The `OSError` that `call` and `check_call` raise when the binary cannot be started is not modelled: every run yields an exit status.
- Python strings may hold lone surrogates, which a glob returns for file names that are not valid in the file-system encoding. Dafny's `char` cannot hold them, so such paths are not modelled.
- `shutil.rmtree` (line 231) is an effect. `shutil.move` and the relocation at lines 234-236 are not modelled beyond the `NameError` that line 234 raises.
- The texts of the argparse help and of the examples (lines 239, 241-265) are effects without content. Logging output is not modelled.
- Catalog.GetPlatforms: requires every globbed path to be non-empty. The backup test at line 45 reads the last character and would raise on an empty path, but a glob never returns one.
- Catalog.GetPlatforms: Python's `sorted` (Timsort) is modelled by insertion sort. `Strings.SortedUnique` shows that both give the same list.
- Catalog.Substitute: its own contract bounds only the length of the result. Its behaviour is stated only on Dockerfile-shaped paths: text without a `D` passes through, and the stem followed by a one-line suffix becomes the suffix.
- Catalog.PlatformsOfDockerfiles: requires a directory name without `D`, because the regex could otherwise match inside the directory part.
- Runner.ContainerRun: the run list is a sequence value, so the deep copy at line 103 and the in-place extension at line 96 keep no aliasing.
