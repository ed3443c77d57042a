/** The print configuration written for pcbnew: the requested layer names are looked up in the
    layer table to mark 50 plot flags, and the flags follow a fixed header as `PlotLayer_<x>=<f>`
    lines. */
module PrintConfig {
  import opened Text
  import opened PcbLayers

  // ---------------------------------------------------------------------------------------------
  // Marking the requested layers.

  /** `names.index(x)`: the first slot holding `x`, or `None` where `list.index` raises. */
  function IndexOf(names: seq<string>, x: string): (r: Option<nat>)
    ensures r.Some? ==> r.value < |names| && names[r.value] == x
    ensures r.Some? ==> forall j :: 0 <= j < r.value ==> names[j] != x
    ensures r.None? <==> x !in names
    decreases |names|
  {
    if names == [] then None
    else if names[0] == x then Some(0)
    else
      match IndexOf(names[1..], x)
      case None => None
      case Some(k) => Some(k + 1)
  }

  /** No layer requested yet: every flag is 0. */
  function NoFlags(): (flags: seq<nat>)
    ensures |flags| == TableSize && forall x :: 0 <= x < TableSize ==> flags[x] == 0
  {
    seq(TableSize, _ => 0)
  }

  /** The flags after handling the requests in order: a known name sets the flag of its first slot,
      an unknown one leaves the flags as they are. */
  function Flags(names: seq<string>, requested: seq<string>): (flags: seq<nat>)
    requires |names| == TableSize
    ensures |flags| == TableSize
  {
    if requested == [] then NoFlags()
    else
      var before := Flags(names, requested[..|requested| - 1]);
      match IndexOf(names, requested[|requested| - 1])
      case None => before
      case Some(j) => before[j := 1]
  }

  /** The names reported as unknown, in request order. */
  function Unknown(names: seq<string>, requested: seq<string>): (unknown: seq<string>)
  {
    if requested == [] then []
    else
      var r := requested[|requested| - 1];
      Unknown(names, requested[..|requested| - 1]) + (if r in names then [] else [r])
  }

  /** A request that finds its first occurrence in slot `x` sets that flag, whatever follows. */
  lemma {:induction false} FoundSetsFlag(names: seq<string>, requested: seq<string>, x: nat, k: nat)
    requires |names| == TableSize && x < TableSize
    requires k < |requested| && IndexOf(names, requested[k]) == Some(x)
    ensures Flags(names, requested)[x] == 1
    decreases |requested|
  {
    var n := |requested| - 1;
    if k < n {
      var init := requested[..n];
      assert init[k] == requested[k];
      FoundSetsFlag(names, init, x, k);
    }
  }

  /** A flag that is not 0 is 1, set by a request that found its first occurrence in that slot. */
  lemma {:induction false} FlagSetByRequest(names: seq<string>, requested: seq<string>, x: nat)
    requires |names| == TableSize && x < TableSize
    ensures Flags(names, requested)[x] <= 1
    ensures Flags(names, requested)[x] == 1 ==>
              exists k :: 0 <= k < |requested| && IndexOf(names, requested[k]) == Some(x)
    decreases |requested|
  {
    if requested != [] {
      var n := |requested| - 1;
      var init := requested[..n];
      FlagSetByRequest(names, init, x);
      if IndexOf(names, requested[n]) != Some(x) && Flags(names, init)[x] == 1 {
        var k :| 0 <= k < |init| && IndexOf(names, init[k]) == Some(x);
        assert requested[k] == init[k];
      }
    }
  }

  /** The flag of slot `x` is set exactly when some request finds its first occurrence there; every
      flag is 0 or 1. */
  lemma FlagsSetIff(names: seq<string>, requested: seq<string>, x: nat)
    requires |names| == TableSize && x < TableSize
    ensures Flags(names, requested)[x] == 1 <==>
              exists k :: 0 <= k < |requested| && IndexOf(names, requested[k]) == Some(x)
    ensures Flags(names, requested)[x] <= 1
  {
    FlagSetByRequest(names, requested, x);
    if k :| 0 <= k < |requested| && IndexOf(names, requested[k]) == Some(x) {
      FoundSetsFlag(names, requested, x, k);
    }
  }

  /** The flags depend only on which names were requested, not on their order or repetition. */
  lemma FlagsDependOnNamesOnly(names: seq<string>, r1: seq<string>, r2: seq<string>)
    requires |names| == TableSize
    requires forall n :: n in r1 <==> n in r2
    ensures Flags(names, r1) == Flags(names, r2)
  {
    forall x | 0 <= x < TableSize ensures Flags(names, r1)[x] == Flags(names, r2)[x] {
      FlagsSetIff(names, r1, x);
      FlagsSetIff(names, r2, x);
      if Flags(names, r1)[x] == 1 {
        var k :| 0 <= k < |r1| && IndexOf(names, r1[k]) == Some(x);
        assert r1[k] in r2;
        var k2 :| 0 <= k2 < |r2| && r2[k2] == r1[k];
      }
      if Flags(names, r2)[x] == 1 {
        var k :| 0 <= k < |r2| && IndexOf(names, r2[k]) == Some(x);
        assert r2[k] in r1;
        var k1 :| 0 <= k1 < |r1| && r1[k1] == r2[k];
      }
    }
  }

  /** Requesting a name again changes nothing. */
  lemma RepeatIdempotent(names: seq<string>, requested: seq<string>, r: string)
    requires |names| == TableSize && r in requested
    ensures Flags(names, requested + [r]) == Flags(names, requested)
  {
    FlagsDependOnNamesOnly(names, requested + [r], requested);
  }

  /** An unknown name is reported and leaves every flag unchanged; processing goes on. */
  lemma UnknownLeavesFlags(names: seq<string>, requested: seq<string>, r: string)
    requires |names| == TableSize && r !in names
    ensures Flags(names, requested + [r]) == Flags(names, requested)
    ensures Unknown(names, requested + [r]) == Unknown(names, requested) + [r]
  {
    assert (requested + [r])[..|requested|] == requested;
  }

  /** Requesting `-` sets the flag of the lowest slot no entry has named, and only that flag. */
  lemma DashMarksLowestUnnamed(names: seq<string>, x: nat)
    requires |names| == TableSize && x < TableSize
    ensures Flags(names, [Unnamed])[x] == 1 <==>
              names[x] == Unnamed && forall j :: 0 <= j < x ==> names[j] != Unnamed
  {
    FlagsSetIff(names, [Unnamed], x);
    if names[x] == Unnamed && forall j :: 0 <= j < x ==> names[j] != Unnamed {
      assert IndexOf(names, Unnamed) == Some(x);
      assert [Unnamed][0] == Unnamed;
    }
  }

  /** Marks the requested layers in a 50-flag array, as the request loop does: a name found in the
      table sets the flag of its first slot, and a name not found is reported. */
  method MarkLayers(names: seq<string>, requested: seq<string>) returns (flags: seq<nat>, unknown: seq<string>)
    requires |names| == TableSize
    ensures flags == Flags(names, requested)
    ensures unknown == Unknown(names, requested)
  {
    var used := new nat[TableSize](_ => 0);
    unknown := [];
    for k := 0 to |requested|
      invariant used[..] == Flags(names, requested[..k])
      invariant unknown == Unknown(names, requested[..k])
    {
      assert requested[..k + 1][..k] == requested[..k];
      var layer := requested[k];
      var slot := IndexOf(names, layer);
      if slot.Some? {
        used[slot.value] := 1;
      } else {
        unknown := unknown + [layer];
      }
    }
    assert requested[..|requested|] == requested;
    flags := used[..];
  }

  // ---------------------------------------------------------------------------------------------
  // The configuration text.

  /** The fixed settings written before the layer flags. */
  const Header: seq<string> := [
    "canvas_type=2",
    "RefillZonesBeforeDrc=1",
    "PcbFrameFirstRunShown=1",
    "PrintMonochrome=0",
    "PrintPageFrame=1",
    "PrintPadsDrillOpt=2",
    "PrintSinglePage=1"
  ]

  const PlotPrefix: string := "PlotLayer_"

  /** `'PlotLayer_%d=%d' % (x, f)`. */
  function PlotLine(x: nat, f: nat): string {
    PlotPrefix + Decimal(x) + "=" + Decimal(f)
  }

  /** One `PlotLayer_` line per flag, for slots 0, 1, ... in order. */
  function PlotLines(flags: seq<nat>): (lines: seq<string>)
    ensures |lines| == |flags|
  {
    if flags == [] then []
    else PlotLines(flags[..|flags| - 1]) + [PlotLine(|flags| - 1, flags[|flags| - 1])]
  }

  /** Line `x` of the plot lines is slot `x`'s line with its flag. */
  lemma {:induction false} PlotLinesAt(flags: seq<nat>, x: nat)
    requires x < |flags|
    ensures PlotLines(flags)[x] == PlotLine(x, flags[x])
    decreases |flags|
  {
    if x < |flags| - 1 {
      PlotLinesAt(flags[..|flags| - 1], x);
    }
  }

  /** The lines of the configuration: the header, then the `PlotLayer_` lines. */
  function ConfigLines(flags: seq<nat>): (lines: seq<string>)
    requires |flags| == TableSize
    ensures |lines| == |Header| + TableSize
  {
    Header + PlotLines(flags)
  }

  lemma PrefixSnoc<T>(s: seq<T>, k: nat)
    requires k < |s|
    ensures s[..k + 1] == s[..k] + [s[k]]
  {
  }

  /** The lines written once slot `x` is done: those before it, then slot `x`'s line. */
  lemma ConfigPrefixSnoc(flags: seq<nat>, x: nat)
    requires x < |flags|
    ensures Header + PlotLines(flags[..x + 1]) == (Header + PlotLines(flags[..x])) + [PlotLine(x, flags[x])]
  {
    assert flags[..x + 1][..x] == flags[..x];
  }

  /** Writes the configuration text line by line, each line ended by `\n`. */
  method WriteConfig(flags: seq<nat>) returns (text: string)
    requires |flags| == TableSize
    ensures text == Terminated(ConfigLines(flags))
  {
    text := "";
    for k := 0 to |Header|
      invariant text == Terminated(Header[..k])
    {
      TerminatedSnoc(Header[..k], Header[k]);
      PrefixSnoc(Header, k);
      text := text + Header[k] + "\n";
    }
    assert Header[..|Header|] == Header;
    assert flags[..0] == [];
    assert Header + PlotLines(flags[..0]) == Header;
    for x := 0 to TableSize
      invariant text == Terminated(Header + PlotLines(flags[..x]))
    {
      var line := PlotLine(x, flags[x]);
      ConfigPrefixSnoc(flags, x);
      TerminatedSnoc(Header + PlotLines(flags[..x]), line);
      text := text + line + "\n";
    }
    assert flags[..TableSize] == flags;
  }

  // ---------------------------------------------------------------------------------------------
  // Reading the flags back.

  /** The first index of `c` in `s`, or `|s|`. */
  function Find(s: string, c: char): (k: nat)
    ensures k <= |s| && (k < |s| ==> s[k] == c)
    ensures forall j :: 0 <= j < k ==> s[j] != c
    decreases |s|
  {
    if s == [] then 0 else if s[0] == c then 0 else 1 + Find(s[1..], c)
  }

  /** Reads `PlotLayer_<x>=<f>` back into the slot and the flag. */
  function ParsePlotLine(line: string): (r: Option<(nat, nat)>)
  {
    if |line| < |PlotPrefix| || line[..|PlotPrefix|] != PlotPrefix then None
    else
      var rest := line[|PlotPrefix|..];
      var k := Find(rest, '=');
      if k == |rest| then None
      else Some((DecimalValue(rest[..k]), DecimalValue(rest[k + 1..])))
  }

  /** A line made of the prefix, digits, `=` and a value reads back as those two numbers. */
  lemma ParseOfParts(dx: string, df: string)
    requires AllDigits(dx)
    ensures ParsePlotLine(PlotPrefix + dx + "=" + df) == Some((DecimalValue(dx), DecimalValue(df)))
  {
    var line := PlotPrefix + dx + "=" + df;
    var rest := dx + "=" + df;
    assert line[..|PlotPrefix|] == PlotPrefix;
    assert line[|PlotPrefix|..] == rest;
    assert rest[|dx|] == '=';
    forall j | 0 <= j < |dx| ensures rest[j] != '=' {
      assert rest[j] == dx[j];
    }
    assert Find(rest, '=') == |dx|;
    assert rest[..|dx|] == dx;
    assert rest[|dx| + 1..] == df;
  }

  lemma PlotLineRoundTrip(x: nat, f: nat)
    ensures ParsePlotLine(PlotLine(x, f)) == Some((x, f))
  {
    ParseOfParts(Decimal(x), Decimal(f));
    DecimalRoundTrip(x);
    DecimalRoundTrip(f);
  }

  /** The flags read from `PlotLayer_` lines that name slots 0, 1, ... in order. */
  function ParsePlotLines(lines: seq<string>): (flags: Option<seq<nat>>)
    ensures flags.Some? ==> |flags.value| == |lines|
  {
    if lines == [] then Some([])
    else
      match ParsePlotLines(lines[..|lines| - 1])
      case None => None
      case Some(fs) =>
        match ParsePlotLine(lines[|lines| - 1])
        case Some((x, f)) => if x == |lines| - 1 then Some(fs + [f]) else None
        case None => None
  }

  /** The flags read back from configuration text: the header, then a `PlotLayer_` line for each
      slot in order. */
  function ReadFlags(text: string): (flags: Option<seq<nat>>)
  {
    var lines := SplitLines(text);
    if |lines| != |Header| + TableSize || lines[..|Header|] != Header then None
    else ParsePlotLines(lines[|Header|..])
  }

  lemma AppendParts<T>(a: seq<T>, b: seq<T>)
    ensures (a + b)[..|a|] == a && (a + b)[|a|..] == b
  {
  }

  /** One more line naming the next slot adds its flag to what was read. */
  lemma ParsePlotLinesSnoc(lines: seq<string>, line: string, fs: seq<nat>, f: nat)
    requires ParsePlotLines(lines) == Some(fs)
    requires ParsePlotLine(line) == Some((|lines|, f))
    ensures ParsePlotLines(lines + [line]) == Some(fs + [f])
  {
    AppendParts(lines, [line]);
  }

  lemma LastBack<T>(s: seq<T>)
    requires |s| > 0
    ensures s[..|s| - 1] + [s[|s| - 1]] == s
  {
  }

  lemma {:induction false} PlotLinesRoundTrip(flags: seq<nat>)
    ensures ParsePlotLines(PlotLines(flags)) == Some(flags)
    decreases |flags|
  {
    if flags != [] {
      var n := |flags| - 1;
      var init := flags[..n];
      PlotLinesRoundTrip(init);
      PlotLineRoundTrip(n, flags[n]);
      ParsePlotLinesSnoc(PlotLines(init), PlotLine(n, flags[n]), init, flags[n]);
      LastBack(flags);
    }
  }

  lemma PlotLineNoBreak(x: nat, f: nat)
    ensures NoBreak(PlotLine(x, f))
  {
    var s := PlotLine(x, f);
    var dx := Decimal(x);
    forall i | 0 <= i < |s| ensures !IsBreak(s[i]) {
      if i < |PlotPrefix| {
        assert s[i] == PlotPrefix[i];
      } else if i < |PlotPrefix| + |dx| {
        assert s[i] == dx[i - |PlotPrefix|];
      } else if i > |PlotPrefix| + |dx| {
        assert s[i] == Decimal(f)[i - |PlotPrefix| - |dx| - 1];
      }
    }
  }

  lemma NoBreakWithout(s: string)
    requires '\n' !in s && '\r' !in s
    ensures NoBreak(s)
  {
    forall i | 0 <= i < |s| ensures !IsBreak(s[i]) {
      assert s[i] in s;
    }
  }

  // The header lines are checked two at a time: the verifier evaluates each string literal
  // character by character, and the cost of one proof over all seven literals grows much faster
  // than the cost of the four small ones together. `HeaderNoBreak` combines them.

  lemma HeaderNoBreak01(k: nat)
    requires 0 <= k <= 1
    ensures NoBreak(Header[k])
  {
    if k == 0 {
      NoBreakWithout("canvas_type=2");
    } else {
      NoBreakWithout("RefillZonesBeforeDrc=1");
    }
  }

  lemma HeaderNoBreak23(k: nat)
    requires 2 <= k <= 3
    ensures NoBreak(Header[k])
  {
    if k == 2 {
      NoBreakWithout("PcbFrameFirstRunShown=1");
    } else {
      NoBreakWithout("PrintMonochrome=0");
    }
  }

  lemma HeaderNoBreak45(k: nat)
    requires 4 <= k <= 5
    ensures NoBreak(Header[k])
  {
    if k == 4 {
      NoBreakWithout("PrintPageFrame=1");
    } else {
      NoBreakWithout("PrintPadsDrillOpt=2");
    }
  }

  lemma HeaderNoBreak6(k: nat)
    requires 6 <= k <= 6
    ensures NoBreak(Header[k])
  {
    NoBreakWithout("PrintSinglePage=1");
  }

  /** No header line holds a line break. */
  lemma HeaderNoBreak(k: nat)
    requires k < |Header|
    ensures NoBreak(Header[k])
  {
    if k < 2 {
      HeaderNoBreak01(k);
    } else if k < 4 {
      HeaderNoBreak23(k);
    } else if k < 6 {
      HeaderNoBreak45(k);
    } else {
      HeaderNoBreak6(k);
    }
  }

  /** The written configuration gives back exactly the flags it was written from. */
  lemma ConfigRoundTrip(flags: seq<nat>)
    requires |flags| == TableSize
    ensures ReadFlags(Terminated(ConfigLines(flags))) == Some(flags)
  {
    var plots := PlotLines(flags);
    var lines := Header + plots;
    forall k | 0 <= k < |lines| ensures NoBreak(lines[k]) {
      if k >= |Header| {
        assert lines[k] == plots[k - |Header|];
        PlotLinesAt(flags, k - |Header|);
        PlotLineNoBreak(k - |Header|, flags[k - |Header|]);
      } else {
        assert lines[k] == Header[k];
        HeaderNoBreak(k);
      }
    }
    SplitTerminated(lines);
    AppendParts(Header, plots);
    PlotLinesRoundTrip(flags);
  }

  // ---------------------------------------------------------------------------------------------
  // From the PCB file to the configuration.

  /** Reads the layer table from the PCB file's lines, marks the requested layers and writes the
      configuration; a collected entry past the table stops everything before the configuration
      is written. */
  method GenerateConfig(pcb: seq<string>, requested: seq<string>) returns (r: Result<string>, unknown: seq<string>)
    ensures LayerTable(pcb).Err? ==> r == Err(LayerTable(pcb).error) && unknown == []
    ensures LayerTable(pcb).Ok? ==>
              && r == Ok(Terminated(ConfigLines(Flags(LayerTable(pcb).value, requested))))
              && unknown == Unknown(LayerTable(pcb).value, requested)
  {
    ScanIsLayerTable(pcb);
    var table := ReadLayerNames(pcb);
    if table.Err? {
      return Err(table.error), [];
    }
    var flags;
    flags, unknown := MarkLayers(table.value, requested);
    var text := WriteConfig(flags);
    r := Ok(text);
  }

  // ---------------------------------------------------------------------------------------------
  // An example.

  /** The example table: `F.Cu` in slot 0, `B.Cu` in slot 31, every other slot unnamed. */
  function ExampleTable(): (t: seq<string>)
    ensures |t| == TableSize
  {
    Blank()[0 := "F.Cu"][31 := "B.Cu"]
  }

  lemma StoreExample()
    ensures Store(Blank(), [Entry(0, "F.Cu"), Entry(31, "B.Cu")]) == Ok(ExampleTable())
  {
    var es := [Entry(0, "F.Cu"), Entry(31, "B.Cu")];
    assert es[..1] == [Entry(0, "F.Cu")] && es[..1][..0] == [];
  }

  lemma FlagsExample()
    ensures Flags(ExampleTable(), ["F.Cu"]) == NoFlags()[0 := 1]
  {
    var t := ExampleTable();
    assert t[0] == "F.Cu";
    assert IndexOf(t, "F.Cu") == Some(0);
    assert ["F.Cu"][..0] == [];
  }

  lemma ConfigExample()
    ensures var lines := ConfigLines(NoFlags()[0 := 1]);
      && lines[|Header|] == "PlotLayer_0=1"
      && forall x :: 1 <= x < TableSize ==> lines[|Header| + x] == PlotLine(x, 0)
  {
    var flags := NoFlags()[0 := 1];
    var lines := ConfigLines(flags);
    assert lines == Header + PlotLines(flags);
    forall x | 1 <= x < TableSize ensures lines[|Header| + x] == PlotLine(x, 0) {
      PlotLinesAt(flags, x);
    }
    PlotLinesAt(flags, 0);
    assert lines[|Header|] == PlotLines(flags)[0];
    assert PlotLine(0, 1) == "PlotLayer_0=1" by {
      assert Decimal(0) == "0" && Decimal(1) == "1";
    }
  }

  /** A file whose layers block holds the entries of slots 0 (`F.Cu`) and 31 (`B.Cu`): requesting
      `F.Cu` sets `PlotLayer_0` to 1 and every other `PlotLayer_` line to 0. */
  lemma FrontCopperOnly(pcb: seq<string>)
    requires Entries(Block(Kinds(pcb))) == [Entry(0, "F.Cu"), Entry(31, "B.Cu")]
    ensures LayerTable(pcb) == Ok(ExampleTable())
    ensures var lines := ConfigLines(Flags(LayerTable(pcb).value, ["F.Cu"]));
      && lines[|Header|] == "PlotLayer_0=1"
      && forall x :: 1 <= x < TableSize ==> lines[|Header| + x] == PlotLine(x, 0)
  {
    StoreExample();
    FlagsExample();
    ConfigExample();
  }
}
