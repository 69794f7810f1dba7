/** The kinds of switch on the MSBuild command line and the shape the
    builder gives them: a fixed rank order, and which optional switches are
    on. */
module SwitchKinds {
  /** The switches the builder writes, in the order it pushes them; anything
      else (a custom argument, say) is `Other`. */
  datatype Kind =
    | TargetKind | VerbosityKind | ToolsVersionKind | NologoKind | FileLoggerKind
    | ConsoleLoggerKind | LoggerKind | MaxCpuKind | NodeReuseKind | PropertyKind | OtherKind

  function Rank(k: Kind): nat {
    match k
    case TargetKind => 0
    case VerbosityKind => 1
    case ToolsVersionKind => 2
    case NologoKind => 3
    case FileLoggerKind => 4
    case ConsoleLoggerKind => 5
    case LoggerKind => 6
    case MaxCpuKind => 7
    case NodeReuseKind => 8
    case PropertyKind => 9
    case OtherKind => 10
  }

  function Repeat(k: Kind, n: nat): seq<Kind> {
    seq(n, _ => k)
  }

  function When(b: bool, k: Kind): seq<Kind> {
    if b then [k] else []
  }

  /** Which optional switches before the properties are on. */
  datatype Toggles = Toggles(nologo: bool, fileLogger: bool, consoleLogger: bool, logger: bool,
                             maxCpu: bool, nodeReuse: bool)

  /** The kinds of the switches before the properties. */
  function Shape(t: Toggles): seq<Kind> {
    [TargetKind, VerbosityKind, ToolsVersionKind]
    + When(t.nologo, NologoKind)
    + When(t.fileLogger, FileLoggerKind)
    + When(t.consoleLogger, ConsoleLoggerKind)
    + When(t.logger, LoggerKind)
    + When(t.maxCpu, MaxCpuKind)
    + When(t.nodeReuse, NodeReuseKind)
  }

  /** Kinds in the builder's order: strictly increasing rank, except that
      property switches repeat. */
  predicate InOrder(ks: seq<Kind>) {
    forall i, j :: 0 <= i < j < |ks| ==> Precedes(ks[i], ks[j])
  }

  /** Whether the toggles call for a switch of kind `k` before the
      properties. */
  predicate Wanted(t: Toggles, k: Kind) {
    match k
    case TargetKind | VerbosityKind | ToolsVersionKind => true
    case NologoKind => t.nologo
    case FileLoggerKind => t.fileLogger
    case ConsoleLoggerKind => t.consoleLogger
    case LoggerKind => t.logger
    case MaxCpuKind => t.maxCpu
    case NodeReuseKind => t.nodeReuse
    case PropertyKind | OtherKind => false
  }

  /** Two neighbouring kinds in the builder's order. */
  predicate Precedes(a: Kind, b: Kind) {
    Rank(a) < Rank(b) || (a == PropertyKind && b == PropertyKind)
  }

  /** Every kind precedes its right neighbour. */
  predicate Ascending(ks: seq<Kind>) {
    |ks| <= 1 || (Precedes(ks[0], ks[1]) && Ascending(ks[1..]))
  }

  lemma {:induction false} AscendingInOrder(ks: seq<Kind>)
    requires Ascending(ks)
    ensures InOrder(ks)
  {
    if |ks| > 1 {
      AscendingInOrder(ks[1..]);
      forall j | 0 < j < |ks| ensures Precedes(ks[0], ks[j]) {
        if j > 1 {
          assert Precedes(ks[1..][0], ks[1..][j - 1]);
        }
      }
      forall i, j | 0 < i < j < |ks| ensures Precedes(ks[i], ks[j]) {
        assert Precedes(ks[1..][i - 1], ks[1..][j - 1]);
      }
    }
  }

  lemma {:induction false} AscendingConcat(a: seq<Kind>, b: seq<Kind>)
    requires Ascending(a) && Ascending(b)
    requires a != [] && b != [] ==> Precedes(a[|a| - 1], b[0])
    ensures Ascending(a + b)
  {
    if a == [] {
      assert a + b == b;
    } else if |a| == 1 {
      if b != [] {
        assert (a + b)[1..] == b;
      }
    } else {
      AscendingConcat(a[1..], b);
      assert (a + b)[1..] == a[1..] + b;
    }
  }

  lemma {:induction false} RepeatAscending(k: Kind, n: nat)
    requires k == PropertyKind
    ensures Ascending(Repeat(k, n))
  {
    if n > 1 {
      RepeatAscending(k, n - 1);
      assert Repeat(k, n)[1..] == Repeat(k, n - 1);
    }
  }

  /** Appending a switch of higher rank than the last keeps the order. */
  lemma WhenAscending(ks: seq<Kind>, b: bool, k: Kind)
    requires Ascending(ks) && ks != [] && Rank(ks[|ks| - 1]) < Rank(k)
    ensures var ks' := ks + When(b, k);
      Ascending(ks') && ks' != [] && Rank(ks'[|ks'| - 1]) <= Rank(k)
  {
    if b {
      AscendingConcat(ks, [k]);
    } else {
      assert ks + [] == ks;
    }
  }

  /** The kinds up to the file logger switch. */
  function Front(t: Toggles): seq<Kind> {
    [TargetKind, VerbosityKind, ToolsVersionKind] + When(t.nologo, NologoKind) + When(t.fileLogger, FileLoggerKind)
  }

  /** The kinds from the console logger switch on. */
  function Back(t: Toggles): seq<Kind> {
    When(t.consoleLogger, ConsoleLoggerKind) + When(t.logger, LoggerKind) + When(t.maxCpu, MaxCpuKind)
    + When(t.nodeReuse, NodeReuseKind)
  }

  lemma FrontAscending(t: Toggles)
    ensures var ks := Front(t);
      Ascending(ks) && ks != [] && Rank(ks[|ks| - 1]) <= Rank(FileLoggerKind)
  {
    var ks0 := [TargetKind, VerbosityKind, ToolsVersionKind];
    assert Ascending(ks0) by {
      assert ks0[1..] == [VerbosityKind, ToolsVersionKind] && ks0[1..][1..] == [ToolsVersionKind];
    }
    WhenAscending(ks0, t.nologo, NologoKind);
    WhenAscending(ks0 + When(t.nologo, NologoKind), t.fileLogger, FileLoggerKind);
  }

  /** Two optional switches of increasing rank appended after the last. */
  lemma WhenTwoAscending(ks: seq<Kind>, b1: bool, k1: Kind, b2: bool, k2: Kind)
    requires Ascending(ks) && ks != [] && Rank(ks[|ks| - 1]) < Rank(k1) < Rank(k2)
    ensures var ks' := ks + When(b1, k1) + When(b2, k2);
      Ascending(ks') && ks' != [] && Rank(ks'[|ks'| - 1]) <= Rank(k2)
  {
    WhenAscending(ks, b1, k1);
    WhenAscending(ks + When(b1, k1), b2, k2);
  }

  /** The switches before the properties are in strictly increasing rank,
      the last of them below the properties'. */
  lemma ShapeAscending(t: Toggles)
    ensures Ascending(Shape(t)) && Rank(Shape(t)[|Shape(t)| - 1]) <= Rank(NodeReuseKind)
  {
    FrontAscending(t);
    WhenTwoAscending(Front(t), t.consoleLogger, ConsoleLoggerKind, t.logger, LoggerKind);
    var ks := Front(t) + When(t.consoleLogger, ConsoleLoggerKind) + When(t.logger, LoggerKind);
    WhenTwoAscending(ks, t.maxCpu, MaxCpuKind, t.nodeReuse, NodeReuseKind);
  }

  /** The switches before the properties and then the properties, in the
      builder's order. */
  lemma ShapeThenPropertiesInOrder(t: Toggles, n: nat)
    ensures InOrder(Shape(t) + Repeat(PropertyKind, n))
  {
    ShapeAscending(t);
    RepeatAscending(PropertyKind, n);
    AscendingConcat(Shape(t), Repeat(PropertyKind, n));
    AscendingInOrder(Shape(t) + Repeat(PropertyKind, n));
  }

  lemma FrontMember(t: Toggles, k: Kind)
    ensures k in Front(t) <==> k == TargetKind || k == VerbosityKind || k == ToolsVersionKind
                               || (t.nologo && k == NologoKind) || (t.fileLogger && k == FileLoggerKind)
  {
  }

  lemma BackMember(t: Toggles, k: Kind)
    ensures k in Back(t) <==> (t.consoleLogger && k == ConsoleLoggerKind) || (t.logger && k == LoggerKind)
                              || (t.maxCpu && k == MaxCpuKind) || (t.nodeReuse && k == NodeReuseKind)
  {
  }

  /** A switch is among those before the properties exactly when the
      toggles call for it. */
  lemma ShapeMember(t: Toggles, k: Kind)
    ensures k in Shape(t) <==> Wanted(t, k)
  {
    assert Shape(t) == Front(t) + Back(t);
    FrontMember(t, k);
    BackMember(t, k);
  }
}
