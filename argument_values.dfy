/** The values the switches of `buildArguments` carry, read back the way
    MSBuild reads them: the targets split at ';', the processor count as a
    decimal number, each property split at its first '='. Each reading is
    the inverse of how the builder writes the value. */
module ArgumentValues {
  import opened Wrappers
  import opened Strings
  import opened Properties
  import opened MsbuildFinder
  import opened MsbuildCommandBuilder
  import opened SwitchKinds
  import opened ArgumentLayout

  /** The text after the switch an argument starts with. */
  function ValueAfter(a: string, switch: string): (v: string)
    requires StartsWith(a, switch)
    ensures a == switch + v
  {
    assert a[..|switch|] == switch;
    a[|switch|..]
  }

  lemma ValueAfterSwitch(switch: string, v: string)
    ensures StartsWith(switch + v, switch)
    ensures ValueAfter(switch + v, switch) == v
  {
  }

  // ---------------------------------------------------------------------
  // Targets

  /** The targets a `/target:` argument names. */
  function TargetsOf(a: string): seq<string>
    requires StartsWith(a, TargetSwitch)
  {
    Split(ValueAfter(a, TargetSwitch), TargetSeparator)
  }

  /** The first argument names the targets, in order, when there is at least
      one and none holds ';'. */
  lemma TargetsReadBack(r: OptionsRecord, fixed1: string -> string)
    requires |r.targets| >= 1
    requires forall i :: 0 <= i < |r.targets| ==> TargetSeparator !in r.targets[i]
    ensures var args := Arguments(r, fixed1);
      |args| >= 1 && StartsWith(args[0], TargetSwitch) && TargetsOf(args[0]) == r.targets
  {
    var joined := Join(r.targets, TargetSeparator);
    ValueAfterSwitch(TargetSwitch, joined);
    SplitJoin(r.targets, TargetSeparator);
    assert Arguments(r, fixed1)[0] == TargetArgument(r.targets);
  }

  // ---------------------------------------------------------------------
  // Processor count

  /** The processor count a `/maxcpucount` argument asks for: the bare
      switch reads as 0, `:<digits>` as the number the digits spell. */
  function MaxCpuOf(a: string): Option<nat>
    requires StartsWith(a, MaxCpuSwitch)
  {
    var v := ValueAfter(a, MaxCpuSwitch);
    if v == "" then Some(0)
    else if |v| >= 2 && v[0] == ':' && IsDigits(v[1..]) then Some(ParseDecimal(v[1..]))
    else None
  }

  /** When the switch is written, it is one argument carrying the count. */
  lemma MaxCpuReadBack(maxcpucount: Option<int>, msbuildPath: Option<string>)
    requires MaxCpuEmitted(maxcpucount, msbuildPath)
    ensures var args := MaxCpuArguments(maxcpucount, msbuildPath);
      |args| == 1 && StartsWith(args[0], MaxCpuSwitch) && MaxCpuOf(args[0]) == Some(maxcpucount.value)
    ensures var args := MaxCpuArguments(maxcpucount, msbuildPath);
      |args| == 1 && (maxcpucount.value == 0 <==> args[0] == MaxCpuSwitch)
    ensures var args := MaxCpuArguments(maxcpucount, msbuildPath);
      |args| == 1 && (maxcpucount.value > 0 ==>
        |args[0]| >= |MaxCpuSwitch| + 2 && args[0][|MaxCpuSwitch|] == ':' && args[0][|MaxCpuSwitch| + 1] != '0')
  {
    var n := maxcpucount.value;
    if n == 0 {
      ValueAfterSwitch(MaxCpuSwitch, "");
      assert MaxCpuSwitch + "" == MaxCpuSwitch;
    } else {
      var digits := DecimalString(n);
      ValueAfterSwitch(MaxCpuSwitch, ":" + digits);
      assert MaxCpuSwitch + ":" + digits == MaxCpuSwitch + (":" + digits);
      assert (":" + digits)[1..] == digits;
      ParseDecimalString(n);
      var a := MaxCpuSwitch + ":" + digits;
      assert a[|MaxCpuSwitch|] == ':' && a[|MaxCpuSwitch| + 1] == digits[0];
    }
  }

  /** Off Windows with no executable given, `construct` fills in `xbuild`,
      and the list then carries no `/maxcpucount` switch whatever count the
      options ask for. */
  lemma XbuildOmitsMaxCpu(r: OptionsRecord, fixed1: string -> string, versions: map<string, string>, env: Environment)
    requires !IsWindows(r.platform) && !Truthy(r.msbuildPath)
    ensures var found := Find(r.platform, r.toolsVersion, r.architecture, r.windir, versions, env);
      && found == Success(Xbuild)
      && MaxCpuKind !in Kinds(SwitchArguments(r.(msbuildPath := Some(found.value)), fixed1))
  {
    SwitchPresence(r.(msbuildPath := Some(Xbuild)), fixed1, MaxCpuKind);
  }

  // ---------------------------------------------------------------------
  // Properties

  /** The property a `/property:` argument sets: the name up to the first
      '=', the value after it. */
  function PropertyOf(a: string): Option<Property>
    requires StartsWith(a, PropertySwitch)
  {
    match SplitAtFirst(ValueAfter(a, PropertySwitch), '=')
    case None => None
    case Some((name, value)) => Some(Property(name, value))
  }

  /** The properties a list of `/property:` arguments sets, in order; `None`
      when some argument is not one. */
  function PropertiesOf(args: seq<string>): (r: Option<seq<Property>>)
    ensures r.Some? ==> |r.value| == |args|
  {
    if args == [] then Some([])
    else if !StartsWith(args[0], PropertySwitch) then None
    else
      match (PropertyOf(args[0]), PropertiesOf(args[1..]))
      case (Some(p), Some(ps)) => Some([p] + ps)
      case _ => None
  }

  lemma PropertyReadBack(p: Property)
    requires '=' !in p.name
    ensures StartsWith(PropertyArgument(p), PropertySwitch)
    ensures PropertyOf(PropertyArgument(p)) == Some(p)
  {
    var v := p.name + "=" + p.value;
    assert PropertyArgument(p) == PropertySwitch + v;
    ValueAfterSwitch(PropertySwitch, v);
    SplitAtFirstConcat(p.name, '=', p.value);
  }

  lemma PropertiesOfCons(a: string, rest: seq<string>)
    requires StartsWith(a, PropertySwitch) && PropertyOf(a).Some? && PropertiesOf(rest).Some?
    ensures PropertiesOf([a] + rest) == Some([PropertyOf(a).value] + PropertiesOf(rest).value)
  {
    assert ([a] + rest)[1..] == rest;
  }

  lemma PropertyArgumentsCons(p: Property, ps: seq<Property>)
    ensures PropertyArguments([p] + ps) == [PropertyArgument(p)] + PropertyArguments(ps)
  {
    var lhs := PropertyArguments([p] + ps);
    var rhs := [PropertyArgument(p)] + PropertyArguments(ps);
    forall i | 0 <= i < |lhs| ensures lhs[i] == rhs[i] {
      if i > 0 { assert ([p] + ps)[i] == ps[i - 1]; }
    }
  }

  lemma {:induction false} PropertiesListReadBack(props: seq<Property>)
    requires forall i :: 0 <= i < |props| ==> '=' !in props[i].name
    ensures PropertiesOf(PropertyArguments(props)) == Some(props)
  {
    if props != [] {
      var p, ps := props[0], props[1..];
      assert props == [p] + ps;
      PropertyReadBack(p);
      PropertiesListReadBack(ps);
      PropertyArgumentsCons(p, ps);
      PropertiesOfCons(PropertyArgument(p), PropertyArguments(ps));
    }
  }

  /** The `/property:` arguments, read back, set exactly the merged
      properties in order, when no property name holds '='. */
  lemma PropertiesReadBack(r: OptionsRecord, fixed1: string -> string)
    requires DistinctNames(r.properties)
    requires forall name | name in NameSet(r.properties) :: '=' !in name
    ensures var switches := SwitchArguments(r, fixed1);
      var n := |LeadingSwitches(r, fixed1)|;
      n <= |switches| && PropertiesOf(switches[n..]) == Some(MergedProperties(r.configuration, r.properties))
  {
    var merged := MergedProperties(r.configuration, r.properties);
    MergeConfiguration(r.configuration, r.properties);
    forall i | 0 <= i < |merged| ensures '=' !in merged[i].name {
      assert merged[i].name in NameSet(merged);
      if Truthy(r.configuration) {
        var w := Without(r.properties, ConfigurationProperty);
        NameSetCons(merged[0], w);
      }
    }
    PropertiesListReadBack(merged);
    var switches := SwitchArguments(r, fixed1);
    assert switches[|LeadingSwitches(r, fixed1)|..] == PropertyArguments(merged);
  }
}
