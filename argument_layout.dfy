/** The argument vector of `buildArguments` read from the outside: which
    switch each argument is, and the order the switches come in. */
module ArgumentLayout {
  import opened Wrappers
  import opened Strings
  import opened Properties
  import opened MsbuildFinder
  import opened MsbuildCommandBuilder
  import opened SwitchKinds

  function SwitchOf(k: Kind): string
    requires k != OtherKind
  {
    match k
    case TargetKind => TargetSwitch
    case VerbosityKind => VerbositySwitch
    case ToolsVersionKind => ToolsVersionSwitch
    case NologoKind => NologoSwitch
    case FileLoggerKind => FileLoggerSwitch
    case ConsoleLoggerKind => ConsoleLoggerSwitch
    case LoggerKind => LoggerSwitch
    case MaxCpuKind => MaxCpuSwitch
    case NodeReuseKind => NodeReuseSwitch
    case PropertyKind => PropertySwitch
  }

  /** The switch an argument starts with. */
  function KindOf(a: string): Kind {
    if StartsWith(a, TargetSwitch) then TargetKind
    else if StartsWith(a, VerbositySwitch) then VerbosityKind
    else if StartsWith(a, ToolsVersionSwitch) then ToolsVersionKind
    else if StartsWith(a, NologoSwitch) then NologoKind
    else if StartsWith(a, FileLoggerSwitch) then FileLoggerKind
    else if StartsWith(a, ConsoleLoggerSwitch) then ConsoleLoggerKind
    else if StartsWith(a, LoggerSwitch) then LoggerKind
    else if StartsWith(a, MaxCpuSwitch) then MaxCpuKind
    else if StartsWith(a, NodeReuseSwitch) then NodeReuseKind
    else if StartsWith(a, PropertySwitch) then PropertyKind
    else OtherKind
  }

  function Kinds(args: seq<string>): (ks: seq<Kind>)
    ensures |ks| == |args|
    ensures forall i :: 0 <= i < |args| ==> ks[i] == KindOf(args[i])
  {
    seq(|args|, i requires 0 <= i < |args| => KindOf(args[i]))
  }

  function TogglesOf(r: OptionsRecord): Toggles {
    Toggles(r.nologo, Truthy(r.fileLoggerParameters), Truthy(r.consoleLoggerParameters),
            Truthy(r.loggerParameters), MaxCpuEmitted(r.maxcpucount, r.msbuildPath), r.nodeReuse == Some(false))
  }

  function LeadingLayout(r: OptionsRecord): seq<Kind> {
    Shape(TogglesOf(r))
  }

  /** The kinds of the switch arguments, as the options decide them. */
  function Layout(r: OptionsRecord): seq<Kind> {
    LeadingLayout(r) + Repeat(PropertyKind, |MergedProperties(r.configuration, r.properties)|)
  }

  // ---------------------------------------------------------------------
  // Classifying one argument

  /** No switch is a prefix of another, so an argument that starts with a
      switch is classified as that switch. */
  lemma KindOfSwitch(k: Kind, v: string)
    requires k != OtherKind
    ensures KindOf(SwitchOf(k) + v) == k
  {
    var a := SwitchOf(k) + v;
    StartsWithConcat(SwitchOf(k), v);
    match k
    case TargetKind =>
    case VerbosityKind =>
      assert a[1] == 'v';
    case ToolsVersionKind =>
      assert a[1] == 't' && a[2] == 'o';
    case NologoKind =>
      assert a[1] == 'n' && a[3] == 'l';
    case FileLoggerKind =>
      assert a[1] == 'f';
    case ConsoleLoggerKind =>
      assert a[1] == 'c';
    case LoggerKind =>
      assert a[1] == 'l';
    case MaxCpuKind =>
      assert a[1] == 'm';
    case NodeReuseKind =>
      assert a[1] == 'n' && a[3] == 'd';
    case PropertyKind =>
      assert a[1] == 'p';
  }

  lemma KindsConcat(a: seq<string>, b: seq<string>)
    ensures Kinds(a + b) == Kinds(a) + Kinds(b)
  {
  }

  lemma OptionalSwitchKinds(k: Kind, value: Option<string>)
    requires k != OtherKind
    ensures Kinds(OptionalSwitch(SwitchOf(k), value)) == When(Truthy(value), k)
  {
    if Truthy(value) {
      KindOfSwitch(k, value.value);
    }
  }

  lemma MaxCpuKinds(maxcpucount: Option<int>, msbuildPath: Option<string>)
    ensures Kinds(MaxCpuArguments(maxcpucount, msbuildPath)) == When(MaxCpuEmitted(maxcpucount, msbuildPath), MaxCpuKind)
  {
    if MaxCpuEmitted(maxcpucount, msbuildPath) {
      if maxcpucount.value == 0 {
        KindOfSwitch(MaxCpuKind, "");
        assert MaxCpuSwitch + "" == MaxCpuSwitch;
      } else {
        var digits := DecimalString(maxcpucount.value);
        KindOfSwitch(MaxCpuKind, ":" + digits);
        assert MaxCpuSwitch + ":" + digits == MaxCpuSwitch + (":" + digits);
      }
    }
  }

  lemma PropertyKinds(props: seq<Property>)
    ensures Kinds(PropertyArguments(props)) == Repeat(PropertyKind, |props|)
  {
    forall i | 0 <= i < |props| ensures KindOf(PropertyArgument(props[i])) == PropertyKind {
      var p := props[i];
      KindOfSwitch(PropertyKind, p.name + "=" + p.value);
      assert PropertyArgument(p) == PropertySwitch + (p.name + "=" + p.value);
    }
  }

  // ---------------------------------------------------------------------
  // The layout of the switch arguments

  lemma KindsStep(a: seq<string>, b: seq<string>, ka: seq<Kind>, kb: seq<Kind>)
    requires Kinds(a) == ka && Kinds(b) == kb
    ensures Kinds(a + b) == ka + kb
  {
    KindsConcat(a, b);
  }

  /** The target, verbosity, tools version, nologo and file logger switches. */
  function FrontSwitches(r: OptionsRecord, fixed1: string -> string): seq<string> {
    [TargetArgument(r.targets), VerbositySwitch + r.verbosity, ToolsVersionSwitch + fixed1(r.toolsVersion)]
    + (if r.nologo then [NologoSwitch] else [])
    + OptionalSwitch(FileLoggerSwitch, r.fileLoggerParameters)
  }

  /** The console logger, logger, maxcpucount and node reuse switches. */
  function BackSwitches(r: OptionsRecord): seq<string> {
    OptionalSwitch(ConsoleLoggerSwitch, r.consoleLoggerParameters)
    + OptionalSwitch(LoggerSwitch, r.loggerParameters)
    + MaxCpuArguments(r.maxcpucount, r.msbuildPath)
    + NodeReuseArguments(r.nodeReuse)
  }

  lemma FrontKinds(r: OptionsRecord, fixed1: string -> string)
    ensures Kinds(FrontSwitches(r, fixed1)) == Front(TogglesOf(r))
  {
    var t := TogglesOf(r);
    var first := [TargetArgument(r.targets), VerbositySwitch + r.verbosity, ToolsVersionSwitch + fixed1(r.toolsVersion)];
    assert Kinds(first) == [TargetKind, VerbosityKind, ToolsVersionKind] by {
      KindOfSwitch(TargetKind, Join(r.targets, TargetSeparator));
      KindOfSwitch(VerbosityKind, r.verbosity);
      KindOfSwitch(ToolsVersionKind, fixed1(r.toolsVersion));
    }
    var nologo := if r.nologo then [NologoSwitch] else [];
    assert Kinds(nologo) == When(t.nologo, NologoKind) by {
      KindOfSwitch(NologoKind, "");
      assert NologoSwitch + "" == NologoSwitch;
    }
    KindsStep(first, nologo, [TargetKind, VerbosityKind, ToolsVersionKind], When(t.nologo, NologoKind));
    OptionalSwitchKinds(FileLoggerKind, r.fileLoggerParameters);
    KindsStep(first + nologo, OptionalSwitch(FileLoggerSwitch, r.fileLoggerParameters),
              [TargetKind, VerbosityKind, ToolsVersionKind] + When(t.nologo, NologoKind), When(t.fileLogger, FileLoggerKind));
  }

  lemma BackKinds(r: OptionsRecord)
    ensures Kinds(BackSwitches(r)) == Back(TogglesOf(r))
  {
    var t := TogglesOf(r);
    var clp := OptionalSwitch(ConsoleLoggerSwitch, r.consoleLoggerParameters);
    var logger := OptionalSwitch(LoggerSwitch, r.loggerParameters);
    var maxCpu := MaxCpuArguments(r.maxcpucount, r.msbuildPath);
    var nodeReuse := NodeReuseArguments(r.nodeReuse);
    OptionalSwitchKinds(ConsoleLoggerKind, r.consoleLoggerParameters);
    OptionalSwitchKinds(LoggerKind, r.loggerParameters);
    KindsStep(clp, logger, When(t.consoleLogger, ConsoleLoggerKind), When(t.logger, LoggerKind));
    MaxCpuKinds(r.maxcpucount, r.msbuildPath);
    KindsStep(clp + logger, maxCpu, When(t.consoleLogger, ConsoleLoggerKind) + When(t.logger, LoggerKind),
              When(t.maxCpu, MaxCpuKind));
    assert Kinds(nodeReuse) == When(t.nodeReuse, NodeReuseKind) by {
      KindOfSwitch(NodeReuseKind, "");
      assert NodeReuseSwitch + "" == NodeReuseSwitch;
    }
    KindsStep(clp + logger + maxCpu, nodeReuse,
              When(t.consoleLogger, ConsoleLoggerKind) + When(t.logger, LoggerKind) + When(t.maxCpu, MaxCpuKind),
              When(t.nodeReuse, NodeReuseKind));
  }

  /** The switches before the properties are those the options call for, in
      the order `buildArguments` pushes them. */
  lemma LeadingKinds(r: OptionsRecord, fixed1: string -> string)
    ensures Kinds(LeadingSwitches(r, fixed1)) == LeadingLayout(r)
  {
    var t := TogglesOf(r);
    FrontKinds(r, fixed1);
    BackKinds(r);
    KindsStep(FrontSwitches(r, fixed1), BackSwitches(r), Front(t), Back(t));
    RegroupFour(FrontSwitches(r, fixed1), OptionalSwitch(ConsoleLoggerSwitch, r.consoleLoggerParameters),
            OptionalSwitch(LoggerSwitch, r.loggerParameters), MaxCpuArguments(r.maxcpucount, r.msbuildPath),
            NodeReuseArguments(r.nodeReuse));
    RegroupFour(Front(t), When(t.consoleLogger, ConsoleLoggerKind), When(t.logger, LoggerKind),
            When(t.maxCpu, MaxCpuKind), When(t.nodeReuse, NodeReuseKind));
  }

  lemma RegroupFour<T>(f: seq<T>, a: seq<T>, b: seq<T>, c: seq<T>, d: seq<T>)
    ensures f + a + b + c + d == f + (a + b + c + d)
  {
  }

  /** Each switch argument is the switch the options call for, in the order
      `buildArguments` pushes them. */
  lemma SwitchLayout(r: OptionsRecord, fixed1: string -> string)
    ensures Kinds(SwitchArguments(r, fixed1)) == Layout(r)
  {
    var merged := MergedProperties(r.configuration, r.properties);
    LeadingKinds(r, fixed1);
    PropertyKinds(merged);
    KindsStep(LeadingSwitches(r, fixed1), PropertyArguments(merged), LeadingLayout(r), Repeat(PropertyKind, |merged|));
  }

  /** `buildArguments` writes its switches in a fixed order: target,
      verbosity, tools version, nologo, file logger, console logger, logger,
      maxcpucount, node reuse, then the properties; each switch other than
      `/property:` at most once; the custom arguments follow all of them. */
  lemma SwitchOrder(r: OptionsRecord, fixed1: string -> string)
    ensures var args := Arguments(r, fixed1);
      var n := |SwitchArguments(r, fixed1)|;
      && n <= |args| && args[n..] == r.customArgs
      && forall i, j :: 0 <= i < j < n ==>
           Rank(KindOf(args[i])) < Rank(KindOf(args[j]))
           || (KindOf(args[i]) == PropertyKind && KindOf(args[j]) == PropertyKind)
  {
    SwitchLayout(r, fixed1);
    ShapeThenPropertiesInOrder(TogglesOf(r), |MergedProperties(r.configuration, r.properties)|);
    var args := Arguments(r, fixed1);
    var switches := SwitchArguments(r, fixed1);
    forall i | 0 <= i < |switches| ensures KindOf(args[i]) == Kinds(switches)[i] {
      assert args[i] == switches[i];
    }
  }

  /** Each switch other than `/property:` appears exactly when the options
      call for it, and never twice; a `/property:` switch appears exactly
      when there is a merged property; nothing else is a switch argument. */
  lemma SwitchPresence(r: OptionsRecord, fixed1: string -> string, k: Kind)
    ensures var ks := Kinds(SwitchArguments(r, fixed1));
      && (k != PropertyKind ==> (k in ks <==> Wanted(TogglesOf(r), k)))
      && (PropertyKind in ks <==> MergedProperties(r.configuration, r.properties) != [])
      && forall i, j :: 0 <= i < j < |ks| && ks[i] == ks[j] ==> ks[i] == PropertyKind
  {
    SwitchLayout(r, fixed1);
    ShapeThenPropertiesInOrder(TogglesOf(r), |MergedProperties(r.configuration, r.properties)|);
    ShapeMember(TogglesOf(r), k);
    var n := |MergedProperties(r.configuration, r.properties)|;
    var props := Repeat(PropertyKind, n);
    assert Layout(r) == LeadingLayout(r) + props;
    assert k in props <==> k == PropertyKind && n > 0 by {
      if k == PropertyKind && n > 0 { assert props[0] == k; }
    }
    assert PropertyKind in props <==> n > 0 by {
      if n > 0 { assert props[0] == PropertyKind; }
    }
    ShapeMember(TogglesOf(r), PropertyKind);
  }
}
