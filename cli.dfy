/** The command-line driver of ci/test.py: from the parsed flags to what
    `main` does. Argument parsing itself is not modelled; `Flags` is the
    namespace argparse would hand back. */
module Cli {
  import opened Wrappers
  import opened Strings
  import opened Catalog
  import opened Runner

  /** The parsed arguments. */
  datatype Flags = Flags(
    platform: Option<string>,       // -p / --platform
    buildOnly: bool,                // --build-only
    all: bool,                      // -a / --all
    nvidiadocker: bool,             // -n / --nvidiadocker
    sharedMemorySize: string,       // --shm-size, default "2g"
    list: bool,                     // -l / --list
    printDockerRun: bool,           // --print-docker-run
    intoContainer: bool,            // -i / --into-container
    dockerRegistry: string,         // -d / --docker-registry, default "mxnetci"
    cache: bool,                    // -c / --cache
    command: seq<seq<string>>)      // positional, nargs='*' with action='append'

  /** The engine binary `main` uses: `get_docker_binary` of the
      `--nvidiadocker` flag. */
  function Binary(flags: Flags, host: Host): string
  {
    host.dockerBinary(flags.nvidiadocker)
  }

  /** The namespace for a command line with no arguments. */
  const NoArguments: Flags :=
    Flags(None, false, false, false, "2g", false, false, false, "mxnetci", false, [[]])

  /** The positional argument lists, concatenated in order. */
  function Flatten(lists: seq<seq<string>>): (r: seq<string>)
    ensures r == [] <==> forall i :: 0 <= i < |lists| ==> lists[i] == []
    ensures |lists| == 1 ==> r == lists[0]
  {
    if lists == [] then [] else lists[0] + Flatten(lists[1..])
  }

  lemma {:induction false} FlattenAppend(a: seq<seq<string>>, b: seq<seq<string>>)
    ensures Flatten(a + b) == Flatten(a) + Flatten(b)
  {
    if a != [] {
      assert (a + b)[0] == a[0] && (a + b)[1..] == a[1..] + b;
      FlattenAppend(a[1..], b);
    } else {
      assert a + b == b;
    }
  }

  /** Python truthiness of an optional string: None and "" are both false. */
  predicate Truthy(o: Option<string>)
  {
    o.Some? && o.value != ""
  }

  /** What happens after the build of a single platform. */
  datatype Step =
    | StopAfterBuild
    | RunCommand(command: seq<string>)
    | PrintRunCommand
    | OpenShell
    | RunDefaultTest(command: seq<string>)

  /** Which branch of `main` runs. */
  datatype Action =
    | ListPlatforms
    | BuildPlatform(platform: string, useCache: bool, step: Step)
    | BuildAll(useCache: bool, buildOnly: bool)
    | ShowHelp

  /** The test entry point run when no command is given. */
  function DefaultTestCommand(platform: string): seq<string>
  {
    ["/work/runtime_test_functions.sh", "test_" + platform]
  }

  /** The precedence inside `--platform`: build-only, then a non-empty
      command, then print-docker-run, then into-container, then the
      default test. */
  function NextStep(flags: Flags, platform: string): (s: Step)
    ensures s == StopAfterBuild <==> flags.buildOnly
    ensures s.RunCommand? <==> !flags.buildOnly && Flatten(flags.command) != []
    ensures s == PrintRunCommand <==>
              !flags.buildOnly && Flatten(flags.command) == [] && flags.printDockerRun
    ensures s == OpenShell <==>
              !flags.buildOnly && Flatten(flags.command) == [] && !flags.printDockerRun
              && flags.intoContainer
    ensures s.RunDefaultTest? <==>
              !flags.buildOnly && Flatten(flags.command) == [] && !flags.printDockerRun
              && !flags.intoContainer
    ensures s.RunCommand? ==> s.command == Flatten(flags.command)
    ensures s.RunDefaultTest? ==> s.command == DefaultTestCommand(platform)
  {
    var command := Flatten(flags.command);
    if flags.buildOnly then StopAfterBuild
    else if command != [] then RunCommand(command)
    else if flags.printDockerRun then PrintRunCommand
    else if flags.intoContainer then OpenShell
    else RunDefaultTest(DefaultTestCommand(platform))
  }

  /** The precedence of `main`: list, then a truthy platform, then all,
      then help; the cache is used when asked for or when running under
      Jenkins (JOB_NAME set). */
  function Dispatch(flags: Flags, jobName: bool): (a: Action)
    ensures a == ListPlatforms <==> flags.list
    ensures a.BuildPlatform? <==> !flags.list && Truthy(flags.platform)
    ensures a.BuildAll? <==> !flags.list && !Truthy(flags.platform) && flags.all
    ensures a == ShowHelp <==> !flags.list && !Truthy(flags.platform) && !flags.all
    ensures a.BuildPlatform? ==>
              a.platform == flags.platform.value
              && a.useCache == (flags.cache || jobName)
              && a.step == NextStep(flags, a.platform)
    ensures a.BuildAll? ==> a.useCache == (flags.cache || jobName) && a.buildOnly == flags.buildOnly
  {
    var useCache := flags.cache || jobName;
    if flags.list then ListPlatforms
    else if Truthy(flags.platform) then
      BuildPlatform(flags.platform.value, useCache, NextStep(flags, flags.platform.value))
    else if flags.all then BuildAll(useCache, flags.buildOnly)
    else ShowHelp
  }

  /** A command line with no arguments shows the help. */
  lemma NoArgumentsShowsHelp(jobName: bool)
    ensures Dispatch(NoArguments, jobName) == ShowHelp
  {
  }

  const ListingHeading: string := "Supported platforms:"

  /** The text `list_platforms` prints: an empty line, the heading, and the
      platforms one per line. */
  function Listing(platforms: seq<string>): string
  {
    "\n" + ListingHeading + "\n" + Join('\n', platforms)
  }

  /** The listing is an empty line, the heading, then one line per platform;
      with no platforms (no Dockerfile found), the heading line ends the text
      and an empty last line follows it. */
  lemma ListingLines(platforms: seq<string>)
    requires forall i :: 0 <= i < |platforms| ==> '\n' !in platforms[i]
    ensures Split('\n', Listing(platforms))
            == ["", ListingHeading] + (if platforms == [] then [""] else platforms)
  {
    var tail := if platforms == [] then [""] else platforms;
    var lines := ["", ListingHeading] + tail;
    assert Join('\n', tail) == Join('\n', platforms);
    assert lines[0] == "" && lines[1..][0] == ListingHeading && lines[1..][1..] == tail;
    assert Join('\n', lines[1..]) == ListingHeading + "\n" + Join('\n', tail);
    assert Join('\n', lines) == Listing(platforms);
    forall i | 0 <= i < |lines| ensures '\n' !in lines[i] {
      if i >= 2 { assert lines[i] == tail[i - 2]; }
    }
    SplitJoin('\n', lines);
  }

  /** The effects of a trace, preceded by earlier ones. */
  function Prepend<T>(effects: seq<Effect>, t: Trace<T>): Trace<T>
  {
    Trace(t.outcome, effects + t.effects)
  }

  /** How `main` goes on after `container_run`, whose trace follows the
      effects so far: an exception leaves `main`; otherwise the returned
      line is printed if asked for, and `main` returns 0. */
  function AfterRun(before: seq<Effect>, t: Trace<string>, show: bool): (r: Trace<int>)
    ensures r.outcome.Raise? <==> t.outcome.Raise?
    ensures t.outcome.Raise? ==> r.outcome == Raise(t.outcome.error)
    ensures t.outcome.Return? ==> r.outcome == Return(0)
    ensures t.outcome.Return? && show ==> r.effects == before + t.effects + [Printed(t.outcome.value)]
    ensures !(t.outcome.Return? && show) ==> r.effects == before + t.effects
  {
    if t.outcome.Raise? then Trace(Raise(t.outcome.error), before + t.effects)
    else if show then Trace(Return(0), before + t.effects + [Printed(t.outcome.value)])
    else Trace(Return(0), before + t.effects)
  }

  /** Loading the registry cache for the platform's tag, when the cache is in use. */
  function CacheEffects(useCache: bool, platform: string, registry: string): seq<Effect>
  {
    if useCache then [CacheLoaded(GetDockerTag(platform, registry), registry)] else []
  }

  /** The `container_run` arguments each step after the build passes:
      the command, `dry_run` and `into_container`. */
  datatype RunArgs = RunArgs(command: seq<string>, dryRun: bool, intoContainer: bool)

  function RunArguments(step: Step): RunArgs
    requires step != StopAfterBuild
  {
    match step
    case RunCommand(c) => RunArgs(c, false, false)
    case PrintRunCommand => RunArgs([], true, false)
    case OpenShell => RunArgs([], false, true)
    case RunDefaultTest(c) => RunArgs(c, false, false)
  }

  /** The `--platform` branch of `main`. */
  function BuildPlatformSpec(platform: string, useCache: bool, step: Step, flags: Flags,
                             host: Host): Trace<int>
  {
    var binary := Binary(flags, host);
    var registry := flags.dockerRegistry;
    var b := BuildDocker(platform, binary, registry, host);
    var built := CacheEffects(useCache, platform, registry) + b.effects;
    if b.outcome.Raise? then Trace(Raise(b.outcome.error), built)
    else if step == StopAfterBuild then Trace(Return(0), built)
    else StepSpec(built, platform, step, flags, host)
  }

  /** The `--platform` branch after a successful build, other than build-only. */
  function StepSpec(built: seq<Effect>, platform: string, step: Step, flags: Flags,
                    host: Host): Trace<int>
    requires step != StopAfterBuild
  {
    var args := RunArguments(step);
    AfterRun(built,
             ContainerRunSpec(platform, Binary(flags, host), flags.dockerRegistry,
                              flags.sharedMemorySize, args.command, args.dryRun, args.intoContainer,
                              host),
             step == PrintRunCommand)
  }

  /** One pass of the `--all` loop; `Return(0)` means the loop goes on.
      When testing, the relocation of the build directory that follows
      `container_run` calls `get_mxnet_root`, a name the script never
      defines, so a pass that gets that far raises `NameError`. */
  function PlatformStep(platform: string, useCache: bool, buildOnly: bool, flags: Flags,
                        host: Host): Trace<int>
  {
    var binary := Binary(flags, host);
    var registry := flags.dockerRegistry;
    var b := BuildDocker(platform, binary, registry, host);
    var built := CacheEffects(useCache, platform, registry) + b.effects;
    if b.outcome.Raise? then Trace(Raise(b.outcome.error), built)
    else if buildOnly then Trace(Return(0), built)
    else
      var r := ContainerRunSpec(platform, binary, registry, flags.sharedMemorySize,
                                DefaultTestCommand(platform), false, false, host);
      Trace(if r.outcome.Raise? then Raise(r.outcome.error) else Raise(NameError("get_mxnet_root")),
            built + [BuildDirRemoved] + r.effects)
  }

  /** The `--all` loop over the remaining platforms: it stops at the first
      exception. */
  function AllSpec(platforms: seq<string>, useCache: bool, buildOnly: bool, flags: Flags,
                   host: Host): Trace<int>
  {
    if platforms == [] then Trace(Return(0), [])
    else
      var s := PlatformStep(platforms[0], useCache, buildOnly, flags, host);
      if s.outcome.Raise? then s
      else Prepend(s.effects, AllSpec(platforms[1..], useCache, buildOnly, flags, host))
  }

  /** What `main` does, branch by branch. */
  function MainSpec(flags: Flags, host: Host): Trace<int>
    requires HostValid(host)
  {
    match Dispatch(flags, host.jobName)
    case ListPlatforms => Trace(Return(0), [Printed(Listing(GetPlatforms(host.dockerfiles)))])
    case BuildPlatform(p, u, s) => BuildPlatformSpec(p, u, s, flags, host)
    case BuildAll(u, b) => AllSpec(GetPlatforms(host.dockerfiles), u, b, flags, host)
    case ShowHelp =>
      Trace(Return(0), [HelpPrinted, Printed(Listing(GetPlatforms(host.dockerfiles))), ExamplesPrinted])
  }

  /** The `--platform` branch of `main`. */
  method BuildPlatformBranch(platform: string, useCache: bool, flags: Flags, host: Host)
    returns (t: Trace<int>)
    ensures t == BuildPlatformSpec(platform, useCache, NextStep(flags, platform), flags, host)
  {
    var binary := Binary(flags, host);
    var registry := flags.dockerRegistry;
    var effects: seq<Effect> := [];
    var tag := GetDockerTag(platform, registry);
    if useCache {
      effects := effects + [CacheLoaded(tag, registry)];
    }
    assert effects == CacheEffects(useCache, platform, registry);
    var b := BuildDocker(platform, binary, registry, host);
    effects := effects + b.effects;
    if b.outcome.Raise? {
      return Trace(Raise(b.outcome.error), effects);
    }
    if flags.buildOnly {
      return Trace(Return(0), effects);
    }
    t := RunAfterBuild(effects, platform, flags, host);
  }

  /** The `--platform` branch after the build, given the effects so far: the
      command given, the printed command line, the shell, or the default test. */
  method RunAfterBuild(effects: seq<Effect>, platform: string, flags: Flags, host: Host)
    returns (t: Trace<int>)
    requires !flags.buildOnly
    ensures t == StepSpec(effects, platform, NextStep(flags, platform), flags, host)
  {
    var command := Flatten(flags.command);
    var runCommand: seq<string>, dryRun: bool, intoContainer: bool;
    if command != [] {
      runCommand, dryRun, intoContainer := command, false, false;
    } else if flags.printDockerRun {
      runCommand, dryRun, intoContainer := [], true, false;
    } else if flags.intoContainer {
      runCommand, dryRun, intoContainer := [], false, true;
    } else {
      runCommand, dryRun, intoContainer := DefaultTestCommand(platform), false, false;
    }
    var r := ContainerRun(platform, Binary(flags, host), flags.dockerRegistry,
                          flags.sharedMemorySize, runCommand, dryRun, intoContainer, host);
    var after := effects + r.effects;
    if r.outcome.Raise? {
      return Trace(Raise(r.outcome.error), after);
    }
    if dryRun {
      after := after + [Printed(r.outcome.value)];
    }
    return Trace(Return(0), after);
  }

  /** One pass of the `--all` loop: load the cache if in use, build, and
      unless only building, clear the build directory, run the default test
      and go on to the relocation of the build directory. */
  method PlatformPass(platform: string, useCache: bool, flags: Flags, host: Host)
    returns (t: Trace<int>)
    ensures t == PlatformStep(platform, useCache, flags.buildOnly, flags, host)
  {
    var binary := Binary(flags, host);
    var registry := flags.dockerRegistry;
    var effects: seq<Effect> := [];
    var tag := GetDockerTag(platform, registry);
    if useCache {
      effects := effects + [CacheLoaded(tag, registry)];
    }
    assert effects == CacheEffects(useCache, platform, registry);
    var b := BuildDocker(platform, binary, registry, host);
    effects := effects + b.effects;
    if b.outcome.Raise? {
      return Trace(Raise(b.outcome.error), effects);
    }
    if flags.buildOnly {
      return Trace(Return(0), effects);
    }
    var cmd := DefaultTestCommand(platform);
    effects := effects + [BuildDirRemoved];
    var r := ContainerRun(platform, binary, registry, flags.sharedMemorySize, cmd, false, false, host);
    effects := effects + r.effects;
    if r.outcome.Raise? {
      return Trace(Raise(r.outcome.error), effects);
    }
    return Trace(Raise(NameError("get_mxnet_root")), effects);
  }

  /** The `--all` branch of `main`: the loop over the platforms, left at
      the first exception. */
  method BuildAllBranch(platforms: seq<string>, useCache: bool, flags: Flags, host: Host)
    returns (t: Trace<int>)
    ensures t == AllSpec(platforms, useCache, flags.buildOnly, flags, host)
  {
    var effects: seq<Effect> := [];
    var remaining := platforms;
    while remaining != []
      invariant AllSpec(platforms, useCache, flags.buildOnly, flags, host)
                == Prepend(effects, AllSpec(remaining, useCache, flags.buildOnly, flags, host))
      decreases |remaining|
    {
      var s := PlatformPass(remaining[0], useCache, flags, host);
      effects := effects + s.effects;
      if s.outcome.Raise? {
        return Trace(s.outcome, effects);
      }
      remaining := remaining[1..];
    }
    return Trace(Return(0), effects);
  }

  /** `main`, from the parsed flags on. */
  method Run(flags: Flags, host: Host) returns (t: Trace<int>)
    requires HostValid(host)
    ensures t == MainSpec(flags, host)
  {
    var useCache := flags.cache || host.jobName;
    if flags.list {
      t := Trace(Return(0), [Printed(Listing(GetPlatforms(host.dockerfiles)))]);
    } else if Truthy(flags.platform) {
      t := BuildPlatformBranch(flags.platform.value, useCache, flags, host);
    } else if flags.all {
      var platforms := GetPlatforms(host.dockerfiles);
      t := BuildAllBranch(platforms, useCache, flags, host);
    } else {
      var listing := Listing(GetPlatforms(host.dockerfiles));
      t := Trace(Return(0), [HelpPrinted, Printed(listing), ExamplesPrinted]);
    }
  }

  /** `--list` wins over every other flag: the listing is printed and
      nothing is built. */
  lemma ListWins(flags: Flags, host: Host)
    requires HostValid(host)
    requires flags.list
    ensures MainSpec(flags, host) == Trace(Return(0), [Printed(Listing(GetPlatforms(host.dockerfiles)))])
  {
  }

  /** `build_docker` succeeds for this platform. */
  predicate BuildSucceeds(platform: string, flags: Flags, host: Host)
  {
    BuildDocker(platform, Binary(flags, host), flags.dockerRegistry, host).outcome.Return?
  }

  /** What building each platform in turn does: the cache load, if in use,
      then the build command. */
  function BuildEffects(platforms: seq<string>, useCache: bool, flags: Flags, host: Host): seq<Effect>
  {
    if platforms == [] then []
    else
      CacheEffects(useCache, platforms[0], flags.dockerRegistry)
      + [Executed(BuildCommand(platforms[0], Binary(flags, host), flags.dockerRegistry, host.uid))]
      + BuildEffects(platforms[1..], useCache, flags, host)
  }

  /** A build-only pass of the `--all` loop loads the cache if in use and
      builds; it goes on exactly when the build succeeds. */
  lemma BuildOnlyPass(platform: string, useCache: bool, flags: Flags, host: Host)
    ensures PlatformStep(platform, useCache, true, flags, host)
            == Trace(if BuildSucceeds(platform, flags, host) then Return(0)
                     else Raise(BuildDocker(platform, Binary(flags, host), flags.dockerRegistry, host).outcome.error),
                     BuildEffects([platform], useCache, flags, host))
  {
    assert [platform][1..] == [];
  }

  /** `--all --build-only` with every build succeeding builds every platform,
      in the order given, and returns 0. */
  lemma {:induction false} BuildOnlyBuildsEveryPlatform(platforms: seq<string>, useCache: bool,
                                                        flags: Flags, host: Host)
    requires forall i :: 0 <= i < |platforms| ==> BuildSucceeds(platforms[i], flags, host)
    ensures AllSpec(platforms, useCache, true, flags, host)
            == Trace(Return(0), BuildEffects(platforms, useCache, flags, host))
  {
    if platforms != [] {
      assert BuildSucceeds(platforms[0], flags, host);
      BuildOnlyPass(platforms[0], useCache, flags, host);
      assert [platforms[0]][1..] == [];
      BuildOnlyBuildsEveryPlatform(platforms[1..], useCache, flags, host);
    }
  }

  /** `--all --build-only` stops at the first failing build: the platforms
      before it were built, it was attempted, and its exception ends `main`. */
  lemma {:induction false} FirstFailedBuildStops(platforms: seq<string>, k: nat, useCache: bool,
                                                 flags: Flags, host: Host)
    requires k < |platforms|
    requires forall i :: 0 <= i < k ==> BuildSucceeds(platforms[i], flags, host)
    requires !BuildSucceeds(platforms[k], flags, host)
    ensures var t := AllSpec(platforms, useCache, true, flags, host);
            t.outcome
              == Raise(BuildDocker(platforms[k], Binary(flags, host), flags.dockerRegistry, host).outcome.error)
            && t.effects == BuildEffects(platforms[..k + 1], useCache, flags, host)
    decreases k
  {
    if k == 0 {
      FirstPlatformBuildFails(platforms, useCache, flags, host);
    } else {
      var p := platforms[0];
      var built := CacheEffects(useCache, p, flags.dockerRegistry)
                   + [Executed(BuildCommand(p, Binary(flags, host), flags.dockerRegistry, host.uid))];
      assert BuildSucceeds(p, flags, host);
      assert AllSpec(platforms, useCache, true, flags, host)
             == Prepend(built, AllSpec(platforms[1..], useCache, true, flags, host));
      assert platforms[..k + 1][0] == p && platforms[..k + 1][1..] == platforms[1..][..k];
      assert BuildEffects(platforms[..k + 1], useCache, flags, host)
             == built + BuildEffects(platforms[1..][..k], useCache, flags, host);
      forall i | 0 <= i < k - 1 ensures BuildSucceeds(platforms[1..][i], flags, host) {
        assert platforms[1..][i] == platforms[i + 1];
      }
      assert platforms[1..][k - 1] == platforms[k];
      FirstFailedBuildStops(platforms[1..], k - 1, useCache, flags, host);
    }
  }

  lemma FirstPlatformBuildFails(platforms: seq<string>, useCache: bool, flags: Flags, host: Host)
    requires platforms != [] && !BuildSucceeds(platforms[0], flags, host)
    ensures var t := AllSpec(platforms, useCache, true, flags, host);
            t.outcome
              == Raise(BuildDocker(platforms[0], Binary(flags, host), flags.dockerRegistry, host).outcome.error)
            && t.effects == BuildEffects(platforms[..1], useCache, flags, host)
  {
    assert platforms[..1][1..] == [];
  }

  /** Without `--build-only`, `--all` never gets past the first platform:
      either its build or test raises, or the relocation of its build
      directory raises `NameError`. */
  lemma TestingAllStopsAtFirstPlatform(platforms: seq<string>, useCache: bool, flags: Flags, host: Host)
    requires platforms != []
    ensures var t := AllSpec(platforms, useCache, false, flags, host);
            t == PlatformStep(platforms[0], useCache, false, flags, host)
            && t.outcome.Raise?
            && !t.outcome.error.UnboundLocalError?
  {
  }

  /** `--all --build-only` run on the Dockerfiles of one directory builds the
      platforms in sorted order, backups left out. */
  lemma BuildOnlyAllFollowsSortedNames(names: seq<string>, flags: Flags, host: Host)
    requires host.dockerfiles == Dockerfiles(names, "docker")
    requires forall i :: 0 <= i < |names| ==> '/' !in names[i] && '\n' !in names[i]
    requires !flags.list && !Truthy(flags.platform) && flags.all && flags.buildOnly
    requires forall p :: p in DropBackups(names) ==> BuildSucceeds(p, flags, host)
    ensures HostValid(host)
    ensures MainSpec(flags, host)
            == Trace(Return(0), BuildEffects(SortStrings(DropBackups(names)), flags.cache || host.jobName,
                                             flags, host))
  {
    DockerfilesNonEmpty(names, "docker");
    PlatformsOfDockerfiles(names, "docker");
    var sorted := SortStrings(DropBackups(names));
    SortedNamesBuild(names, flags, host);
    BuildOnlyBuildsEveryPlatform(sorted, flags.cache || host.jobName, flags, host);
  }

  /** Sorting keeps the names, so if every kept name builds, every sorted one does. */
  lemma SortedNamesBuild(names: seq<string>, flags: Flags, host: Host)
    requires forall p :: p in DropBackups(names) ==> BuildSucceeds(p, flags, host)
    ensures var sorted := SortStrings(DropBackups(names));
            forall i :: 0 <= i < |sorted| ==> BuildSucceeds(sorted[i], flags, host)
  {
    var kept := DropBackups(names);
    var sorted := SortStrings(kept);
    forall i | 0 <= i < |sorted| ensures BuildSucceeds(sorted[i], flags, host) {
      assert sorted[i] in multiset(kept);
    }
  }

  lemma DockerfilesNonEmpty(names: seq<string>, dir: string)
    ensures forall i :: 0 <= i < |names| ==> Dockerfiles(names, dir)[i] != []
  {
    forall i | 0 <= i < |names| ensures Dockerfiles(names, dir)[i] != [] {
      assert |Stem| > 0;
      assert |GetDockerfile(names[i], dir)| > 0;
    }
  }

  /** `--build-only` with `--platform` returns right after the build. */
  lemma BuildOnlyStopsAfterBuild(platform: string, useCache: bool, flags: Flags, host: Host)
    ensures var t := BuildPlatformSpec(platform, useCache, StopAfterBuild, flags, host);
            (t.outcome == Return(0) <==> BuildSucceeds(platform, flags, host))
            && t.effects == BuildEffects([platform], useCache, flags, host)
  {
  }

  /** `--print-docker-run` runs only the build, then prints the interactive
      command line. */
  lemma PrintDockerRunOnlyBuilds(platform: string, useCache: bool, flags: Flags, host: Host)
    requires BuildSucceeds(platform, flags, host)
    ensures var runlist := RunList(Binary(flags, host), flags.sharedMemorySize, host.uid, host.gid,
                                   GetDockerTag(platform, flags.dockerRegistry), []);
            "-u" in runlist
            && BuildPlatformSpec(platform, useCache, PrintRunCommand, flags, host)
               == Trace(Return(0), BuildEffects([platform], useCache, flags, host)
                                   + [Printed(Join(' ', WithShell(runlist)))])
  {
    DryRunRunsNothing(platform, Binary(flags, host), flags.dockerRegistry, flags.sharedMemorySize,
                      [], false, host);
  }

  /** `--into-container` never lets `main` return: a failed build or shell
      raises, and a successful shell hits the unbound `ret`. */
  lemma IntoContainerNeverReturns(platform: string, useCache: bool, flags: Flags, host: Host)
    ensures var runlist := RunList(Binary(flags, host), flags.sharedMemorySize, host.uid, host.gid,
                                   GetDockerTag(platform, flags.dockerRegistry), []);
            var t := BuildPlatformSpec(platform, useCache, OpenShell, flags, host);
            "-u" in runlist
            && t.outcome.Raise?
            && (BuildSucceeds(platform, flags, host) ==>
                  t.effects == BuildEffects([platform], useCache, flags, host) + [Executed(WithShell(runlist))])
  {
    ShellModeNeverReturns(platform, Binary(flags, host), flags.dockerRegistry, flags.sharedMemorySize,
                          [], host);
  }

  /** With no command, `--platform` builds, then runs the platform's test
      entry point; `main` returns 0 exactly when that run exits with 0. */
  lemma DefaultTestRunsTestEntryPoint(platform: string, useCache: bool, flags: Flags, host: Host)
    requires BuildSucceeds(platform, flags, host)
    ensures var runlist := RunList(Binary(flags, host), flags.sharedMemorySize, host.uid, host.gid,
                                   GetDockerTag(platform, flags.dockerRegistry),
                                   DefaultTestCommand(platform));
            var t := BuildPlatformSpec(platform, useCache, RunDefaultTest(DefaultTestCommand(platform)),
                                       flags, host);
            t.effects == BuildEffects([platform], useCache, flags, host) + [Executed(runlist)]
            && (t.outcome == Return(0) <==> host.status(runlist) == 0)
  {
    RunReportsFailure(platform, Binary(flags, host), flags.dockerRegistry, flags.sharedMemorySize,
                      DefaultTestCommand(platform), host);
  }
}
