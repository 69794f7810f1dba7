/** Where the MSBuild executable lives (lib/msbuild-finder.js). `find` reads the
    platform, the tools version, the architecture and the Windows directory
    from the options, the version table from the plugin's constants and two
    environment variables; here all of them are parameters, and the function
    returns either the executable path or the error `find` throws. */
module MsbuildFinder {
  import opened Wrappers
  import opened Strings
  import opened Paths

  /** The environment variables the finder reads (`process.env`). */
  datatype Environment = Environment(programFilesX86: Option<string>, programFiles: Option<string>)

  /** What the finder and the command builder throw. */
  datatype Error =
    | PluginError(message: string)  // a gulp PluginError with this message
    | PathTypeError                 // `path.join` handed an undefined segment

  const Xbuild := "xbuild"
  const Executable := "MSBuild.exe"
  const NoVersionMessage := "No MSBuild Version was supplied!"

  /** `platform.match(/^win/)`. */
  predicate IsWindows(platform: string) {
    StartsWith(platform, "win")
  }

  /** Only the exact architecture "x64" selects the 64-bit tools. */
  predicate Is64Bit(architecture: Option<string>) {
    architecture == Some("x64")
  }

  /** `MSBUILD_VERSIONS[toolsVersion]`, when it is truthy. */
  function LookupVersion(versions: map<string, string>, toolsVersion: string): Option<string> {
    if toolsVersion in versions && versions[toolsVersion] != "" then Some(versions[toolsVersion]) else None
  }

  /** The install root of MSBuild 12.0 and 14.0: `ProgramFiles(x86)`, else
      `ProgramFiles`, else the conventional directory for the architecture. */
  function ProgramFilesRoot(env: Environment, is64: bool): (root: string)
    ensures root != ""
    ensures Truthy(env.programFilesX86) ==> root == env.programFilesX86.value
    ensures !Truthy(env.programFilesX86) && Truthy(env.programFiles) ==> root == env.programFiles.value
    ensures !Truthy(env.programFilesX86) && !Truthy(env.programFiles) ==>
              root == "C:/" + if is64 then "Program Files (x86)" else "Program Files"
  {
    var envDir := Or(env.programFilesX86, env.programFiles);
    var folder := if is64 then "Program Files (x86)" else "Program Files";
    JoinPathPair("C:", folder);
    assert "C:" + [Separator] == "C:/";
    if Truthy(envDir) then envDir.value else JoinPath(["C:", folder])
  }

  function ModernSegments(root: string, version: string, is64: bool): seq<string> {
    [root, "MSBuild", version, "Bin", if is64 then "amd64" else "", Executable]
  }

  function FrameworkSegments(windir: string, version: string, is64: bool): seq<string> {
    [windir, "Microsoft.Net", if is64 then "Framework64" else "Framework", version, Executable]
  }

  function Find(platform: string, toolsVersion: string, architecture: Option<string>, windir: Option<string>,
                versions: map<string, string>, env: Environment): (r: Result<string, Error>)
    ensures !IsWindows(platform) ==> r == Success(Xbuild)
    ensures r == Failure(PluginError(NoVersionMessage)) <==>
              IsWindows(platform) && LookupVersion(versions, toolsVersion).None?
    ensures r.Success? && IsWindows(platform) ==> EndsWith(r.value, "/" + Executable)
    ensures r.Success? ==> r.value != ""
  {
    if !IsWindows(platform) then Success(Xbuild)
    else
      match LookupVersion(versions, toolsVersion)
      case None => Failure(PluginError(NoVersionMessage))
      case Some(version) =>
        var is64 := Is64Bit(architecture);
        if version == "12.0" || version == "14.0" then
          var segments := ModernSegments(ProgramFilesRoot(env, is64), version, is64);
          assert "MSBuild" in NonEmpty(segments[..5]);
          JoinPathEndsWithLast(segments);
          Success(JoinPath(segments))
        else
          match windir
          case None => Failure(PathTypeError)
          case Some(dir) =>
            var segments := FrameworkSegments(dir, version, is64);
            assert "Microsoft.Net" in NonEmpty(segments[..4]);
            JoinPathEndsWithLast(segments);
            Success(JoinPath(segments))
  }

  /** On Windows the finder throws "No MSBuild Version was supplied!" exactly
      when the version table has no entry for the tools version, or an empty
      one. */
  lemma VersionRequired(platform: string, toolsVersion: string, architecture: Option<string>, windir: Option<string>,
                        versions: map<string, string>, env: Environment)
    ensures Find(platform, toolsVersion, architecture, windir, versions, env) == Failure(PluginError(NoVersionMessage))
            <==> IsWindows(platform) && (toolsVersion !in versions || versions[toolsVersion] == "")
  {
  }

  /** MSBuild 12.0 and 14.0 live at `<root>/MSBuild/<version>/Bin/MSBuild.exe`,
      with `amd64` before the executable exactly for the 64-bit tools. */
  lemma ModernToolsPath(platform: string, toolsVersion: string, architecture: Option<string>, windir: Option<string>,
                        versions: map<string, string>, env: Environment)
    requires IsWindows(platform)
    requires toolsVersion in versions && versions[toolsVersion] in {"12.0", "14.0"}
    ensures var is64 := Is64Bit(architecture);
      Find(platform, toolsVersion, architecture, windir, versions, env) ==
        Success(ProgramFilesRoot(env, is64) + "/MSBuild/" + versions[toolsVersion] + "/Bin/"
                + (if is64 then "amd64/" else "") + Executable)
  {
    var is64 := Is64Bit(architecture);
    ModernPathString(ProgramFilesRoot(env, is64), versions[toolsVersion], is64);
  }

  lemma ModernPathString(root: string, version: string, is64: bool)
    requires root != "" && version != ""
    ensures JoinPath(ModernSegments(root, version, is64)) ==
            root + "/MSBuild/" + version + "/Bin/" + (if is64 then "amd64/" else "") + Executable
  {
    var segments := ModernSegments(root, version, is64);
    var rest := if is64 then ["amd64", Executable] else [Executable];
    var kept := [root, "MSBuild", version, "Bin"] + rest;
    if is64 {
      assert kept == segments;
      JoinPathOfNonEmpty(segments);
    } else {
      NonEmptyConcat(segments[..4], segments[4..]);
      NonEmptyKeepsAll(segments[..4]);
      assert segments[..4] + segments[4..] == segments;
      assert segments[4..] == ["", Executable];
      assert NonEmpty(["", Executable]) == NonEmpty([Executable]) == [Executable];
      assert segments[..4] == [root, "MSBuild", version, "Bin"];
      assert NonEmpty(segments) == kept;
    }
    var tail := Join(rest, Separator);
    assert tail == (if is64 then "amd64/" else "") + Executable by {
      if is64 { JoinCons("amd64", [Executable], Separator); }
    }
    JoinFour(root, "MSBuild", version, "Bin", rest, Separator);
    MergeModern(root, version, tail);
  }

  lemma MergeModern(root: string, version: string, tail: string)
    ensures root + ("/" + ("MSBuild" + ("/" + (version + ("/" + ("Bin" + ("/" + tail))))))) ==
            root + "/MSBuild/" + version + "/Bin/" + tail
  {
    assert "/" + ("MSBuild" + ("/" + version)) == "/MSBuild/" + version;
  }

  /** Every other mapped version is a .NET Framework MSBuild under the Windows
      directory, in `Framework64` exactly for the 64-bit tools; an undefined
      Windows directory makes `path.join` throw. */
  lemma FrameworkToolsPath(platform: string, toolsVersion: string, architecture: Option<string>, windir: Option<string>,
                           versions: map<string, string>, env: Environment)
    requires IsWindows(platform)
    requires toolsVersion in versions && versions[toolsVersion] != "" && versions[toolsVersion] !in {"12.0", "14.0"}
    ensures windir.None? ==> Find(platform, toolsVersion, architecture, windir, versions, env) == Failure(PathTypeError)
    ensures Truthy(windir) ==>
      Find(platform, toolsVersion, architecture, windir, versions, env) ==
        Success(windir.value + "/Microsoft.Net/" + (if Is64Bit(architecture) then "Framework64" else "Framework")
                + "/" + versions[toolsVersion] + "/" + Executable)
    ensures windir == Some("") ==>
      Find(platform, toolsVersion, architecture, windir, versions, env) ==
        Success("Microsoft.Net/" + (if Is64Bit(architecture) then "Framework64" else "Framework")
                + "/" + versions[toolsVersion] + "/" + Executable)
  {
    if windir == Some("") {
      RelativeFrameworkPath(versions[toolsVersion], Is64Bit(architecture));
    }
    if Truthy(windir) {
      var version := versions[toolsVersion];
      var framework := if Is64Bit(architecture) then "Framework64" else "Framework";
      var segments := FrameworkSegments(windir.value, version, Is64Bit(architecture));
      JoinPathOfNonEmpty(segments);
      assert Find(platform, toolsVersion, architecture, windir, versions, env) == Success(Join(segments, Separator));
      assert segments == [windir.value, "Microsoft.Net", framework, version] + [Executable];
      JoinFour(windir.value, "Microsoft.Net", framework, version, [Executable], Separator);
      MergeFramework(windir.value, framework, version, Executable);
    }
  }

  lemma MergeFramework(windir: string, framework: string, version: string, tail: string)
    ensures windir + ("/" + ("Microsoft.Net" + ("/" + (framework + ("/" + (version + ("/" + tail))))))) ==
            windir + "/Microsoft.Net/" + framework + "/" + version + "/" + tail
  {
  }

  /** With an empty Windows directory, `path.join` drops it, and the path is
      relative. */
  lemma RelativeFrameworkPath(version: string, is64: bool)
    requires version != ""
    ensures JoinPath(FrameworkSegments("", version, is64)) ==
            "Microsoft.Net/" + (if is64 then "Framework64" else "Framework") + "/" + version + "/" + Executable
  {
    var framework := if is64 then "Framework64" else "Framework";
    var segments := FrameworkSegments("", version, is64);
    var tail := ["Microsoft.Net", framework] + [version, Executable];
    assert segments[1..] == tail;
    NonEmptyKeepsAll(tail);
    assert NonEmpty(segments) == tail;
    JoinTwo("Microsoft.Net", framework, [version, Executable], Separator);
    JoinCons(version, [Executable], Separator);
    assert [version] + [Executable] == [version, Executable];
    MergeRelativeFramework(framework, version, Executable);
  }

  lemma MergeRelativeFramework(framework: string, version: string, tail: string)
    ensures "Microsoft.Net" + ("/" + (framework + ("/" + (version + "/" + tail)))) ==
            "Microsoft.Net/" + framework + "/" + version + "/" + tail
  {
  }

  /** Any architecture other than "x64", given or not, finds the same
      executable as an absent one. */
  lemma OnlyX64Is64Bit(platform: string, toolsVersion: string, architecture: Option<string>, windir: Option<string>,
                       versions: map<string, string>, env: Environment)
    requires architecture != Some("x64")
    ensures Find(platform, toolsVersion, architecture, windir, versions, env) ==
            Find(platform, toolsVersion, None, windir, versions, env)
  {
  }
}
