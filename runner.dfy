/** The two routines of ci/test.py that run the container engine:
    `build_docker` and `container_run`.

    Nothing is executed. Every effect the script would have on the world is
    recorded as an `Effect`, and what the world answers (the exit status of
    a program, the image id the engine reports, the user and group ids) is
    read from a `Host` value supplied by the caller. */
module Runner {
  import opened Wrappers
  import opened Strings
  import opened Catalog

  /** What a `CalledProcessError` reports as its command: the joined string
      `container_run` passes, or the argument list `check_call` ran. */
  datatype Command = Line(text: string) | Argv(tokens: seq<string>)

  /** The exceptions that can leave the modelled code. */
  datatype Error =
    | CalledProcessError(returncode: int, cmd: Command)
    | FileNotFoundError(message: string)
    | UnboundLocalError(name: string)
    | NameError(name: string)

  datatype Outcome<+T> = Return(value: T) | Raise(error: Error)

  /** Effects on the world, in the order they happen. */
  datatype Effect =
    | Executed(argv: seq<string>)                  // a program run with this argument list
    | CacheLoaded(tag: string, registry: string)   // the registry cache loaded for a tag
    | BuildDirRemoved                              // the build directory deleted, errors ignored
    | Printed(text: string)                        // text written to standard output
    | HelpPrinted                                  // the argument parser's help text
    | ExamplesPrinted                              // the usage examples after the help

  /** How a call ended, and the effects it had before that. */
  datatype Trace<+T> = Trace(outcome: Outcome<T>, effects: seq<Effect>)

  /** What the script reads from its surroundings. */
  datatype Host = Host(
    uid: nat,                              // the user id of the process
    gid: nat,                              // the group id of the process
    jobName: bool,                         // the JOB_NAME environment variable is set
    dockerfiles: seq<string>,              // the paths the Dockerfile glob returns
    dockerBinary: bool -> string,          // the engine binary for the nvidia-docker flag
    status: seq<string> -> int,            // exit status of running an argument list
    imageId: (string, string) -> string)   // the local image id of a tag, "" if none

  /** A glob only returns non-empty paths. */
  predicate HostValid(host: Host)
  {
    forall i :: 0 <= i < |host.dockerfiles| ==> host.dockerfiles[i] != []
  }

  /** The argument list `build_docker` passes to `check_call`. */
  function BuildCommand(platform: string, binary: string, registry: string, uid: nat): seq<string>
  {
    var tag := GetDockerTag(platform, registry);
    [binary, "build",
     "-f", GetDockerfile(platform, "docker"),
     "--build-arg", "USER_ID=" + Decimal(uid),
     "--cache-from", tag,
     "-t", tag,
     "docker"]
  }

  /** The build command names the platform's own Dockerfile, which platform
      discovery maps back to the platform, and tags the image with the
      platform's tag. */
  lemma BuildCommandNamesPlatform(platform: string, binary: string, registry: string, uid: nat)
    requires '/' !in platform && '\n' !in platform && !EndsWithTilde(platform)
    ensures var cmd := BuildCommand(platform, binary, registry, uid);
            GetPlatforms([cmd[3]]) == [platform]
            && TagPlatform(cmd[7], registry) == Some(platform)
            && cmd[9] == cmd[7]
  {
    var cmd := BuildCommand(platform, binary, registry, uid);
    assert cmd[3] == GetDockerfile(platform, "docker");
    TagRoundTrip(platform, registry);
    assert cmd[7] == cmd[9] == GetDockerTag(platform, registry);
    DockerfileRoundTrip(platform);
  }

  /** `build_docker`: run the build; a non-zero exit raises from `check_call`;
      an empty image id raises `FileNotFoundError`; otherwise the id is returned. */
  function BuildDocker(platform: string, binary: string, registry: string, host: Host): (t: Trace<string>)
    ensures t.effects == [Executed(BuildCommand(platform, binary, registry, host.uid))]
    ensures var code := host.status(BuildCommand(platform, binary, registry, host.uid));
            var id := host.imageId(binary, GetDockerTag(platform, registry));
            (t.outcome.Return? <==> code == 0 && id != "")
            && (t.outcome.Return? ==> t.outcome.value == id)
            && (code != 0 ==> t.outcome.error == CalledProcessError(code, Argv(BuildCommand(platform, binary, registry, host.uid))))
            && (code == 0 && id == "" ==> t.outcome.error.FileNotFoundError?)
  {
    var tag := GetDockerTag(platform, registry);
    var cmd := BuildCommand(platform, binary, registry, host.uid);
    var code := host.status(cmd);
    if code != 0 then
      Trace(Raise(CalledProcessError(code, Argv(cmd))), [Executed(cmd)])
    else
      var id := host.imageId(binary, tag);
      if id == "" then
        Trace(Raise(FileNotFoundError("Unable to find docker image id matching with " + tag)), [Executed(cmd)])
      else
        Trace(Return(id), [Executed(cmd)])
  }

  /** The `-u` value: the user id and the group id in decimal, separated by a colon. */
  function UserSpec(uid: nat, gid: nat): string
  {
    Decimal(uid) + ":" + Decimal(gid)
  }

  /** The argument list `container_run` builds before running it. */
  function RunList(binary: string, shmSize: string, uid: nat, gid: nat, tag: string,
                   command: seq<string>): seq<string>
  {
    [binary, "run", "--rm", "-t", "--shm-size=" + shmSize, "-u", UserSpec(uid, gid), tag] + command
  }

  /** The tokens that turn the run into an interactive shell. */
  const ShellTokens: seq<string> := ["-ti", "--entrypoint", "/bin/bash"]

  /** `s.index(x)`: the position of the first occurrence. */
  function FirstIndex(s: seq<string>, x: string): (i: nat)
    requires x in s
    ensures i < |s| && s[i] == x
    ensures forall j :: 0 <= j < i ==> s[j] != x
  {
    if s[0] == x then 0 else 1 + FirstIndex(s[1..], x)
  }

  /** Python's slice assignment `s[i:i] = t`: t goes in front of position i,
      or at the end when i is past the end. */
  function InsertAt(s: seq<string>, i: nat, t: seq<string>): seq<string>
  {
    var j := if i <= |s| then i else |s|;
    s[..j] + t + s[j..]
  }

  /** After `s[i:i] = t`, with i clamped to the length: the tokens before
      position i are unchanged, t follows, then the rest of s. */
  lemma InsertAtSlices(s: seq<string>, i: nat, t: seq<string>)
    ensures var j := if i <= |s| then i else |s|;
            var r := InsertAt(s, i, t);
            |r| == |s| + |t| && r[..j] == s[..j] && r[j..j + |t|] == t && r[j + |t|..] == s[j..]
  {
    var j := if i <= |s| then i else |s|;
    var r := InsertAt(s, i, t);
    assert r[..j] == s[..j] && r[j..j + |t|] == t && r[j + |t|..] == s[j..];
  }

  /** The interactive variant: the shell tokens go in two places after the
      first "-u", that is right after the user:group value. */
  function WithShell(runlist: seq<string>): seq<string>
    requires "-u" in runlist
  {
    InsertAt(runlist, FirstIndex(runlist, "-u") + 2, ShellTokens)
  }

  /** The interactive command is the run list with exactly the three shell
      tokens between the user:group value and the image tag. */
  lemma {:induction false} InteractiveCommandShape(binary: string, shmSize: string, uid: nat, gid: nat,
                                                   tag: string, command: seq<string>)
    requires binary != "-u"
    ensures var runlist := RunList(binary, shmSize, uid, gid, tag, command);
            "-u" in runlist
            && WithShell(runlist)
               == [binary, "run", "--rm", "-t", "--shm-size=" + shmSize, "-u", UserSpec(uid, gid),
                   "-ti", "--entrypoint", "/bin/bash", tag] + command
            && |WithShell(runlist)| == |runlist| + 3
  {
    var runlist := RunList(binary, shmSize, uid, gid, tag, command);
    assert runlist[5] == "-u";
    var i := FirstIndex(runlist, "-u");
    assert |runlist[4]| >= 11;
    assert runlist[0] != "-u" && runlist[1] != "-u" && runlist[2] != "-u" && runlist[3] != "-u";
    assert runlist[4] != "-u";
    assert i == 5;
    var r := WithShell(runlist);
    assert r == runlist[..7] + ShellTokens + runlist[7..];
    assert runlist[..7] == [binary, "run", "--rm", "-t", "--shm-size=" + shmSize, "-u", UserSpec(uid, gid)];
    assert runlist[7..] == [tag] + command;
  }

  /** The search for "-u" finds the first one: if the engine binary itself were
      called "-u", the shell tokens would land after "run" instead. */
  lemma InteractiveCommandWhenBinaryIsDashU(shmSize: string, uid: nat, gid: nat,
                                            tag: string, command: seq<string>)
    ensures var runlist := RunList("-u", shmSize, uid, gid, tag, command);
            "-u" in runlist
            && WithShell(runlist)
               == ["-u", "run", "-ti", "--entrypoint", "/bin/bash", "--rm", "-t",
                   "--shm-size=" + shmSize, "-u", UserSpec(uid, gid), tag] + command
  {
    var runlist := RunList("-u", shmSize, uid, gid, tag, command);
    assert runlist[0] == "-u";
    var r := WithShell(runlist);
    assert r == runlist[..2] + ShellTokens + runlist[2..];
    assert runlist[..2] == ["-u", "run"];
    assert runlist[2..] == ["--rm", "-t", "--shm-size=" + shmSize, "-u", UserSpec(uid, gid), tag] + command;
  }

  /** Taking the inserted tokens out again gives back the original list. */
  lemma InsertAtRemovable(s: seq<string>, i: nat, t: seq<string>)
    ensures var j := if i <= |s| then i else |s|;
            var r := InsertAt(s, i, t);
            r[j..j + |t|] == t && r[..j] + r[j + |t|..] == s
  {
    InsertAtSlices(s, i, t);
    var j := if i <= |s| then i else |s|;
    assert s == s[..j] + s[j..];
  }

  /** Inserting tokens free of a character into a list of tokens free of it
      gives a list of tokens free of it. */
  lemma InsertAtTokens(s: seq<string>, i: nat, t: seq<string>, c: char)
    requires forall k :: 0 <= k < |s| ==> c !in s[k]
    requires forall k :: 0 <= k < |t| ==> c !in t[k]
    ensures var r := InsertAt(s, i, t); forall k :: 0 <= k < |r| ==> c !in r[k]
  {
    InsertAtSlices(s, i, t);
    var j := if i <= |s| then i else |s|;
    var r := InsertAt(s, i, t);
    forall k | 0 <= k < |r| ensures c !in r[k] {
      if k < j {
        assert r[k] == r[..j][k] == s[..j][k];
      } else if k < j + |t| {
        assert r[k] == r[j..j + |t|][k - j];
      } else {
        assert r[k] == r[j + |t|..][k - j - |t|] == s[j..][k - j - |t|];
      }
    }
  }

  /** Taking the three shell tokens out of the interactive command gives
      back the run list: the original tokens keep their order. */
  lemma ShellTokensRemovable(runlist: seq<string>)
    requires "-u" in runlist
    ensures var r := WithShell(runlist);
            var j := FirstIndex(runlist, "-u") + 2;
            var k := if j <= |runlist| then j else |runlist|;
            r[k..k + 3] == ShellTokens && r[..k] + r[k + 3..] == runlist
  {
    var i := FirstIndex(runlist, "-u") + 2;
    assert WithShell(runlist) == InsertAt(runlist, i, ShellTokens);
    InsertAtRemovable(runlist, i, ShellTokens);
  }

  /** What `container_run` does, as a function of its arguments and the host. */
  function ContainerRunSpec(platform: string, binary: string, registry: string, shmSize: string,
                            command: seq<string>, dryRun: bool, intoContainer: bool,
                            host: Host): Trace<string>
  {
    var runlist := RunList(binary, shmSize, host.uid, host.gid, GetDockerTag(platform, registry), command);
    assert runlist[5] == "-u";
    var intoCmd := WithShell(runlist);
    if dryRun then
      Trace(Return(Join(' ', intoCmd)), [])
    else if !intoContainer then
      var ret := host.status(runlist);
      Trace(if ret != 0 then Raise(CalledProcessError(ret, Line(Join(' ', runlist))))
            else Return(Join(' ', intoCmd)),
            [Executed(runlist)])
    else
      var code := host.status(intoCmd);
      Trace(if code != 0 then Raise(CalledProcessError(code, Argv(intoCmd)))
            else Raise(UnboundLocalError("ret")),
            [Executed(intoCmd)])
  }

  /** `container_run`: build the run list in place, run it unless this is a
      dry run or a shell session, build the interactive variant by slice
      assignment, open the shell if asked, then decide between raising and
      returning the interactive command line. */
  method ContainerRun(platform: string, dockerBinary: string, dockerRegistry: string,
                      sharedMemorySize: string, command: seq<string>, dryRun: bool,
                      intoContainer: bool, host: Host)
    returns (t: Trace<string>)
    ensures t == ContainerRunSpec(platform, dockerBinary, dockerRegistry, sharedMemorySize,
                                  command, dryRun, intoContainer, host)
  {
    var tag := GetDockerTag(platform, dockerRegistry);
    var runlist := [dockerBinary, "run", "--rm", "-t", "--shm-size=" + sharedMemorySize,
                    "-u", UserSpec(host.uid, host.gid), tag];
    runlist := runlist + command;
    var cmd := Join(' ', runlist);
    var effects: seq<Effect> := [];
    var ret: Option<int> := None;  // `ret` is bound only on this branch
    if !dryRun && !intoContainer {
      effects := effects + [Executed(runlist)];
      ret := Some(host.status(runlist));
    }
    var intoCmd := runlist;
    assert intoCmd[5] == "-u";
    var idx := FirstIndex(intoCmd, "-u") + 2;
    intoCmd := intoCmd[..idx] + ShellTokens + intoCmd[idx..];
    var dockerRunCmd := Join(' ', intoCmd);
    if !dryRun && intoContainer {
      effects := effects + [Executed(intoCmd)];
      var code := host.status(intoCmd);
      if code != 0 {
        return Trace(Raise(CalledProcessError(code, Argv(intoCmd))), effects);
      }
    }
    if !dryRun {
      if ret.None? {
        return Trace(Raise(UnboundLocalError("ret")), effects);
      }
      if ret.value != 0 {
        return Trace(Raise(CalledProcessError(ret.value, Line(cmd))), effects);
      }
    }
    return Trace(Return(dockerRunCmd), effects);
  }

  /** A dry run runs nothing and always returns the interactive command line. */
  lemma DryRunRunsNothing(platform: string, binary: string, registry: string, shmSize: string,
                          command: seq<string>, intoContainer: bool, host: Host)
    ensures var t := ContainerRunSpec(platform, binary, registry, shmSize, command, true, intoContainer, host);
            var runlist := RunList(binary, shmSize, host.uid, host.gid, GetDockerTag(platform, registry), command);
            "-u" in runlist && t.effects == [] && t.outcome == Return(Join(' ', WithShell(runlist)))
  {
  }

  /** Outside dry-run and shell mode the run list is run once; a non-zero exit
      raises with that exit status and the plain command line, exit 0
      returns the interactive command line. */
  lemma RunReportsFailure(platform: string, binary: string, registry: string, shmSize: string,
                          command: seq<string>, host: Host)
    ensures var t := ContainerRunSpec(platform, binary, registry, shmSize, command, false, false, host);
            var runlist := RunList(binary, shmSize, host.uid, host.gid, GetDockerTag(platform, registry), command);
            "-u" in runlist
            && t.effects == [Executed(runlist)]
            && (host.status(runlist) != 0 ==>
                  t.outcome == Raise(CalledProcessError(host.status(runlist), Line(Join(' ', runlist)))))
            && (host.status(runlist) == 0 ==> t.outcome == Return(Join(' ', WithShell(runlist))))
  {
  }

  /** In shell mode `container_run` never returns: a failing shell raises from
      `check_call`, and a successful one reaches the test of `ret`, which was
      never bound. */
  lemma ShellModeNeverReturns(platform: string, binary: string, registry: string, shmSize: string,
                              command: seq<string>, host: Host)
    ensures var t := ContainerRunSpec(platform, binary, registry, shmSize, command, false, true, host);
            var runlist := RunList(binary, shmSize, host.uid, host.gid, GetDockerTag(platform, registry), command);
            "-u" in runlist
            && t.effects == [Executed(WithShell(runlist))]
            && t.outcome.Raise?
            && (host.status(WithShell(runlist)) == 0 ==> t.outcome.error == UnboundLocalError("ret"))
  {
  }

  /** When no token contains a space, the printed interactive command line
      splits back into exactly the argument list it stands for. */
  lemma InteractiveLineSplits(binary: string, shmSize: string, uid: nat, gid: nat,
                              tag: string, command: seq<string>)
    requires ' ' !in binary && ' ' !in shmSize && ' ' !in tag
    requires forall i :: 0 <= i < |command| ==> ' ' !in command[i]
    ensures var runlist := RunList(binary, shmSize, uid, gid, tag, command);
            "-u" in runlist && Split(' ', Join(' ', WithShell(runlist))) == WithShell(runlist)
  {
    var runlist := RunList(binary, shmSize, uid, gid, tag, command);
    assert runlist[5] == "-u";
    var r := WithShell(runlist);
    assert ' ' !in UserSpec(uid, gid) by {
      var u := UserSpec(uid, gid);
      assert u == Decimal(uid) + ":" + Decimal(gid);
      forall k | 0 <= k < |u| ensures u[k] != ' ' {
        if k < |Decimal(uid)| { assert u[k] == Decimal(uid)[k]; }
        else if k > |Decimal(uid)| { assert u[k] == Decimal(gid)[k - |Decimal(uid)| - 1]; }
      }
    }
    assert ' ' !in "--shm-size=" + shmSize by {
      var s := "--shm-size=" + shmSize;
      forall k | 0 <= k < |s| ensures s[k] != ' ' {
        if k >= 11 { assert s[k] == shmSize[k - 11]; }
      }
    }
    forall i | 0 <= i < |runlist| ensures ' ' !in runlist[i] {
      if i >= 8 { assert runlist[i] == command[i - 8]; }
    }
    InsertAtTokens(runlist, FirstIndex(runlist, "-u") + 2, ShellTokens, ' ');
    SplitJoin(' ', r);
  }
}
