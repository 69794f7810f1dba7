/** The MSBuild command line (lib/msbuild-command-builder.js).
    `buildArguments` pushes the switches onto an array one by one and, when a
    configuration is set, overwrites `options.properties` with the merged
    properties; `construct` fills in `options.msbuildPath` from the finder when
    it is unset and returns the executable and the full argument vector. The
    options object is the class `Options`; `Arguments` is the argument list as
    a function of the options' values, which the methods are proved against. */
module MsbuildCommandBuilder {
  import opened Wrappers
  import opened Strings
  import opened Properties
  import opened MsbuildFinder

  const TargetSwitch := "/target:"
  const VerbositySwitch := "/verbosity:"
  const ToolsVersionSwitch := "/toolsversion:"
  const NologoSwitch := "/nologo"
  const FileLoggerSwitch := "/flp:"
  const ConsoleLoggerSwitch := "/clp:"
  const LoggerSwitch := "/logger:"
  const MaxCpuSwitch := "/maxcpucount"
  const NodeReuseSwitch := "/nodeReuse:False"
  const PropertySwitch := "/property:"
  const ConfigurationProperty := "Configuration"
  const NoOptionsMessage := "No options specified!"
  const TargetSeparator := ';'

  /** The values of the options the builder and the finder read. A value that
      may be `undefined` is an `Option`; `toolsVersion` is spelled as the
      version table's key, `verbosity` as JavaScript prints it. */
  datatype OptionsRecord = OptionsRecord(
    platform: string,
    architecture: Option<string>,
    windir: Option<string>,
    toolsVersion: string,
    targets: seq<string>,
    verbosity: string,
    nologo: bool,
    fileLoggerParameters: Option<string>,
    consoleLoggerParameters: Option<string>,
    loggerParameters: Option<string>,
    maxcpucount: Option<int>,
    msbuildPath: Option<string>,
    nodeReuse: Option<bool>,
    configuration: Option<string>,
    properties: seq<Property>,
    customArgs: seq<string>)

  /** The options object handed to `buildArguments` and `construct`.
      `keys` is the set of its own keys (`Object.keys(options)`). */
  class Options {
    var keys: set<string>
    var platform: string
    var architecture: Option<string>
    var windir: Option<string>
    var toolsVersion: string
    var targets: seq<string>
    var verbosity: string
    var nologo: bool
    var fileLoggerParameters: Option<string>
    var consoleLoggerParameters: Option<string>
    var loggerParameters: Option<string>
    var maxcpucount: Option<int>
    var msbuildPath: Option<string>
    var nodeReuse: Option<bool>
    var configuration: Option<string>
    var properties: seq<Property>
    var customArgs: seq<string>

    ghost predicate Valid()
      reads this
    {
      DistinctNames(properties)
    }

    function Record(): OptionsRecord
      reads this
    {
      OptionsRecord(platform, architecture, windir, toolsVersion, targets, verbosity, nologo,
                    fileLoggerParameters, consoleLoggerParameters, loggerParameters,
                    maxcpucount, msbuildPath, nodeReuse, configuration, properties, customArgs)
    }

    constructor (record: OptionsRecord, keys: set<string>)
      requires DistinctNames(record.properties)
      ensures Valid() && Record() == record && this.keys == keys
    {
      this.keys := keys;
      platform, architecture, windir := record.platform, record.architecture, record.windir;
      toolsVersion, targets, verbosity := record.toolsVersion, record.targets, record.verbosity;
      nologo := record.nologo;
      fileLoggerParameters := record.fileLoggerParameters;
      consoleLoggerParameters := record.consoleLoggerParameters;
      loggerParameters := record.loggerParameters;
      maxcpucount, msbuildPath, nodeReuse := record.maxcpucount, record.msbuildPath, record.nodeReuse;
      configuration, properties, customArgs := record.configuration, record.properties, record.customArgs;
    }
  }

  /** The command `construct` returns. */
  datatype Command = Command(executable: string, args: seq<string>)

  // ---------------------------------------------------------------------
  // The argument list as a function of the options

  function TargetArgument(targets: seq<string>): string {
    TargetSwitch + Join(targets, TargetSeparator)
  }

  /** A switch carrying a string option, present when the option is truthy. */
  function OptionalSwitch(switch: string, value: Option<string>): seq<string> {
    if Truthy(value) then [switch + value.value] else []
  }

  /** `maxcpucount >= 0 && msbuildPath !== 'xbuild'`: xbuild rejects the switch. */
  predicate MaxCpuEmitted(maxcpucount: Option<int>, msbuildPath: Option<string>) {
    maxcpucount.Some? && maxcpucount.value >= 0 && msbuildPath != Some(Xbuild)
  }

  function MaxCpuArguments(maxcpucount: Option<int>, msbuildPath: Option<string>): seq<string> {
    if !MaxCpuEmitted(maxcpucount, msbuildPath) then []
    else if maxcpucount.value == 0 then [MaxCpuSwitch]
    else [MaxCpuSwitch + ":" + DecimalString(maxcpucount.value)]
  }

  /** Only the literal `false` turns node reuse off. */
  function NodeReuseArguments(nodeReuse: Option<bool>): seq<string> {
    if nodeReuse == Some(false) then [NodeReuseSwitch] else []
  }

  /** The properties after the merge: `_.extend({Configuration: c}, properties)`
      when the configuration is truthy. */
  function MergedProperties(configuration: Option<string>, props: seq<Property>): (r: seq<Property>)
    ensures !Truthy(configuration) ==> r == props
    ensures Truthy(configuration) ==> NameSet(r) == NameSet(props) + {ConfigurationProperty}
    ensures DistinctNames(props) ==> DistinctNames(r)
  {
    if Truthy(configuration) then
      var first := Property(ConfigurationProperty, configuration.value);
      NameSetCons(first, []);
      assert [first] + [] == [first];
      Extend([first], props)
    else props
  }

  /** After the merge, every property the caller set keeps its value, and
      `Configuration`, when the caller did not set it, is the configuration. */
  lemma MergedLookup(configuration: Option<string>, props: seq<Property>, name: string)
    requires DistinctNames(props)
    ensures Lookup(MergedProperties(configuration, props), name) ==
            if name in NameSet(props) then Lookup(props, name)
            else if Truthy(configuration) && name == ConfigurationProperty then Some(configuration.value)
            else None
  {
    if Truthy(configuration) {
      var first := Property(ConfigurationProperty, configuration.value);
      ExtendLookup([first], props, name);
      assert [first][1..] == [];
    }
  }

  function PropertyArgument(p: Property): string {
    PropertySwitch + p.name + "=" + p.value
  }

  function PropertyArguments(props: seq<Property>): (r: seq<string>)
    ensures |r| == |props|
  {
    seq(|props|, i requires 0 <= i < |props| => PropertyArgument(props[i]))
  }

  /** The switches before the properties, in the order they are pushed. */
  function LeadingSwitches(r: OptionsRecord, fixed1: string -> string): seq<string> {
    [TargetArgument(r.targets), VerbositySwitch + r.verbosity, ToolsVersionSwitch + fixed1(r.toolsVersion)]
    + (if r.nologo then [NologoSwitch] else [])
    + OptionalSwitch(FileLoggerSwitch, r.fileLoggerParameters)
    + OptionalSwitch(ConsoleLoggerSwitch, r.consoleLoggerParameters)
    + OptionalSwitch(LoggerSwitch, r.loggerParameters)
    + MaxCpuArguments(r.maxcpucount, r.msbuildPath)
    + NodeReuseArguments(r.nodeReuse)
  }

  /** Everything `buildArguments` derives from the options, before the
      custom arguments. */
  function SwitchArguments(r: OptionsRecord, fixed1: string -> string): seq<string> {
    LeadingSwitches(r, fixed1) + PropertyArguments(MergedProperties(r.configuration, r.properties))
  }

  /** The list `buildArguments` returns; `fixed1` stands for
      `parseFloat(v).toFixed(1)`. */
  function Arguments(r: OptionsRecord, fixed1: string -> string): seq<string> {
    SwitchArguments(r, fixed1) + r.customArgs
  }

  /** The list opens with the targets, the verbosity and the tools version,
      and ends with the custom arguments as given; with none, it is the
      switches alone. */
  lemma ArgumentsShape(r: OptionsRecord, fixed1: string -> string)
    ensures var a := Arguments(r, fixed1);
      && |a| == |LeadingSwitches(r, fixed1)| + |MergedProperties(r.configuration, r.properties)| + |r.customArgs|
      && a[0] == TargetSwitch + Join(r.targets, TargetSeparator)
      && a[1] == VerbositySwitch + r.verbosity
      && a[2] == ToolsVersionSwitch + fixed1(r.toolsVersion)
      && a[|a| - |r.customArgs|..] == r.customArgs
      && (r.customArgs == [] ==> a == SwitchArguments(r, fixed1))
  {
  }

  /** The options' values after `buildArguments` has run. */
  function AfterBuild(r: OptionsRecord): OptionsRecord {
    r.(properties := MergedProperties(r.configuration, r.properties))
  }

  // ---------------------------------------------------------------------
  // The two operations

  /** The pushes of `buildArguments` before the properties. */
  method PushSwitches(o: Options, fixed1: string -> string) returns (args: seq<string>)
    ensures args == LeadingSwitches(o.Record(), fixed1)
  {
    args := [];
    args := args + [TargetSwitch + Join(o.targets, TargetSeparator)];
    args := args + [VerbositySwitch + o.verbosity];
    args := args + [ToolsVersionSwitch + fixed1(o.toolsVersion)];
    ghost var expected := [TargetArgument(o.targets), VerbositySwitch + o.verbosity, ToolsVersionSwitch + fixed1(o.toolsVersion)];
    assert args == expected;

    if o.nologo {
      args := args + [NologoSwitch];
    }
    expected := expected + (if o.nologo then [NologoSwitch] else []);
    assert args == expected;
    if Truthy(o.fileLoggerParameters) {
      args := args + [FileLoggerSwitch + o.fileLoggerParameters.value];
    }
    expected := expected + OptionalSwitch(FileLoggerSwitch, o.fileLoggerParameters);
    assert args == expected;
    args := PushLaterSwitches(o, args);
    assert args == LeadingSwitches(o.Record(), fixed1);
  }

  /** The pushes of the console logger, logger, maxcpucount and node reuse
      switches. */
  method PushLaterSwitches(o: Options, start: seq<string>) returns (args: seq<string>)
    ensures args == start
      + OptionalSwitch(ConsoleLoggerSwitch, o.consoleLoggerParameters)
      + OptionalSwitch(LoggerSwitch, o.loggerParameters)
      + MaxCpuArguments(o.maxcpucount, o.msbuildPath)
      + NodeReuseArguments(o.nodeReuse)
  {
    args := start;
    ghost var expected := start;
    if Truthy(o.consoleLoggerParameters) {
      args := args + [ConsoleLoggerSwitch + o.consoleLoggerParameters.value];
    }
    expected := expected + OptionalSwitch(ConsoleLoggerSwitch, o.consoleLoggerParameters);
    assert args == expected;
    if Truthy(o.loggerParameters) {
      args := args + [LoggerSwitch + o.loggerParameters.value];
    }
    expected := expected + OptionalSwitch(LoggerSwitch, o.loggerParameters);
    assert args == expected;

    // xbuild does not accept /maxcpucount
    if o.maxcpucount.Some? && o.maxcpucount.value >= 0 && o.msbuildPath != Some(Xbuild) {
      if o.maxcpucount.value == 0 {
        args := args + [MaxCpuSwitch];
      } else {
        args := args + [MaxCpuSwitch + ":" + DecimalString(o.maxcpucount.value)];
      }
    }
    expected := expected + MaxCpuArguments(o.maxcpucount, o.msbuildPath);
    assert args == expected;

    if o.nodeReuse == Some(false) {
      args := args + [NodeReuseSwitch];
    }
    expected := expected + NodeReuseArguments(o.nodeReuse);
    assert args == expected;
  }

  method BuildArguments(o: Options, fixed1: string -> string) returns (args: seq<string>)
    requires o.Valid()
    modifies o
    ensures o.Valid()
    ensures args == Arguments(old(o.Record()), fixed1)
    ensures o.Record() == AfterBuild(old(o.Record()))
    ensures o.keys == if Truthy(old(o.configuration)) then old(o.keys) + {"properties"} else old(o.keys)
  {
    ghost var before := o.Record();
    args := PushSwitches(o, fixed1);

    if Truthy(o.configuration) {
      o.properties := Extend([Property(ConfigurationProperty, o.configuration.value)], o.properties);
      o.keys := o.keys + {"properties"};
    }
    assert o.Record() == AfterBuild(before);
    assert o.Valid() by { MergeConfiguration(before.configuration, before.properties); }

    args := PushProperties(args, o.properties);
    args := args + o.customArgs;
  }

  /** The loop of `buildArguments` over the properties' keys. */
  method PushProperties(start: seq<string>, props: seq<Property>) returns (args: seq<string>)
    ensures args == start + PropertyArguments(props)
  {
    args := start;
    var i := 0;
    while i < |props|
      invariant 0 <= i <= |props|
      invariant args == start + PropertyArguments(props[..i])
    {
      assert PropertyArguments(props[..i + 1]) == PropertyArguments(props[..i]) + [PropertyArgument(props[i])];
      args := args + [PropertyArgument(props[i])];
      i := i + 1;
    }
    assert props[..i] == props;
  }

  /** The step of `construct` that fills in an unset `msbuildPath` from the
      finder; `Some(e)` when the finder throws `e`. */
  method Locate(o: Options, versions: map<string, string>, env: Environment) returns (failure: Option<Error>)
    requires o.Valid()
    modifies o
    ensures o.Valid()
    ensures failure.None? ==> Truthy(o.msbuildPath)
    ensures Truthy(old(o.msbuildPath)) ==> failure.None? && unchanged(o)
    ensures !Truthy(old(o.msbuildPath)) ==>
      var found := Find(old(o.platform), old(o.toolsVersion), old(o.architecture), old(o.windir), versions, env);
      && (found.Failure? ==> failure == Some(found.error) && unchanged(o))
      && (found.Success? ==>
            && failure.None?
            && o.Record() == old(o.Record()).(msbuildPath := Some(found.value))
            && o.keys == old(o.keys) + {"msbuildPath"})
  {
    failure := None;
    if !Truthy(o.msbuildPath) {
      var found := Find(o.platform, o.toolsVersion, o.architecture, o.windir, versions, env);
      if found.Failure? {
        return Some(found.error);
      }
      o.msbuildPath := Some(found.value);
      o.keys := o.keys + {"msbuildPath"};
    }
  }

  method Construct(filePath: string, o: Options?, fixed1: string -> string, normalize: string -> string,
                   versions: map<string, string>, env: Environment) returns (r: Result<Command, Error>)
    requires o != null ==> o.Valid()
    modifies o
    ensures o != null ==> o.Valid()
    ensures o == null ==> r == Failure(PluginError(NoOptionsMessage))
    ensures o != null && |old(o.keys)| == 0 ==> r == Failure(PluginError(NoOptionsMessage)) && unchanged(o)
    ensures o != null && |old(o.keys)| > 0 && Truthy(old(o.msbuildPath)) ==>
      && r == Success(Command(normalize(old(o.msbuildPath).value), [filePath] + Arguments(old(o.Record()), fixed1)))
      && o.Record() == AfterBuild(old(o.Record()))
    ensures o != null && |old(o.keys)| > 0 && !Truthy(old(o.msbuildPath)) ==>
      var found := Find(old(o.platform), old(o.toolsVersion), old(o.architecture), old(o.windir), versions, env);
      && (found.Failure? ==> r == Failure(found.error) && unchanged(o))
      && (found.Success? ==>
            var located := old(o.Record()).(msbuildPath := Some(found.value));
            && r == Success(Command(normalize(found.value), [filePath] + Arguments(located, fixed1)))
            && o.Record() == AfterBuild(located)
            && "msbuildPath" in o.keys)
    ensures o != null && r.Success? ==>
      o.keys == old(o.keys) + (if Truthy(old(o.msbuildPath)) then {} else {"msbuildPath"})
                + (if Truthy(old(o.configuration)) then {"properties"} else {})
  {
    if o == null || |o.keys| == 0 {
      return Failure(PluginError(NoOptionsMessage));
    }

    var failure := Locate(o, versions, env);
    if failure.Some? {
      return Failure(failure.value);
    }

    var args := BuildArguments(o, fixed1);
    return Success(Command(normalize(o.msbuildPath.value), [filePath] + args));
  }

  // ---------------------------------------------------------------------
  // What the argument list promises

  /** Merging the configuration puts a `Configuration` entry first, whose
      value is the caller's own `Configuration` property when there is one,
      followed by the caller's other properties in order. */
  lemma MergeConfiguration(configuration: Option<string>, props: seq<Property>)
    requires DistinctNames(props)
    ensures var merged := MergedProperties(configuration, props);
      && DistinctNames(merged)
      && (!Truthy(configuration) ==> merged == props)
      && (Truthy(configuration) ==>
            merged == [Property(ConfigurationProperty,
                                match Lookup(props, ConfigurationProperty)
                                case Some(v) => v
                                case None => configuration.value)]
                      + Without(props, ConfigurationProperty))
  {
    if Truthy(configuration) {
      var first := Property(ConfigurationProperty, configuration.value);
      assert [first] + [] == [first];
      ExtendAfterFirst(ConfigurationProperty, configuration.value, [], props);
      var w := Without(props, ConfigurationProperty);
      var v := match Lookup(props, ConfigurationProperty) case Some(v) => v case None => configuration.value;
      DistinctCons(Property(ConfigurationProperty, v), w);
      assert [Property(ConfigurationProperty, v)] + [] + w == [Property(ConfigurationProperty, v)] + w;
    }
  }

  /** Running `buildArguments` a second time on the same options changes
      neither the options nor the list it returns. */
  lemma BuildArgumentsTwice(r: OptionsRecord, fixed1: string -> string)
    requires DistinctNames(r.properties)
    ensures AfterBuild(AfterBuild(r)) == AfterBuild(r)
    ensures Arguments(AfterBuild(r), fixed1) == Arguments(r, fixed1)
  {
    var c := r.configuration;
    MergeConfiguration(c, r.properties);
    if Truthy(c) {
      var merged := MergedProperties(c, r.properties);
      MergeConfiguration(c, merged);
      var w := Without(r.properties, ConfigurationProperty);
      var first := merged[0];
      assert merged == [first] + w;
      NameSetCons(first, w);
      assert Lookup(merged, ConfigurationProperty) == Some(first.value);
      assert Without(merged, ConfigurationProperty) == Without(w, ConfigurationProperty) by {
        assert merged[1..] == w;
      }
    }
  }
}
