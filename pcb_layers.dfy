/** Reading the layer table of a PCB text file: the three regular expressions that classify a line,
    and the scan that fills a fixed table of 50 layer names from the file's `(layers ...)` block. */
module PcbLayers {
  import opened Text

  /** Slots in the layer table, and flags in the print configuration. */
  const TableSize: nat := 50

  /** The name of a slot no entry has named. */
  const Unnamed: string := "-"

  /** The table before any entry is read: every slot unnamed. */
  function Blank(): (t: seq<string>)
    ensures |t| == TableSize && forall i :: 0 <= i < TableSize ==> t[i] == Unnamed
  {
    Fill(TableSize)
  }

  function Fill(n: nat): (t: seq<string>)
    ensures |t| == n && forall i :: 0 <= i < n ==> t[i] == Unnamed
  {
    if n == 0 then [] else Fill(n - 1) + [Unnamed]
  }

  /** An entry line `(<index> <name> ...)` of the layers block, as read by the entry pattern. */
  datatype Entry = Entry(index: nat, name: string)

  /** An entry whose index is past the end of the table (Python's IndexError). */
  datatype ScanError = IndexError(index: nat)

  datatype Result<+T> = Ok(value: T) | Err(error: ScanError)

  // ---------------------------------------------------------------------------------------------
  // The opening pattern `\s+\(layers`, searched anywhere in the line.

  const LayersTag: string := "(layers"

  /** The opening pattern matches `s` with its `(layers` starting at index `i`. */
  ghost predicate OpensAt(s: string, i: int) {
    1 <= i && i + |LayersTag| <= |s| && IsSpace(s[i - 1]) && s[i..i + |LayersTag|] == LayersTag
  }

  /** The search for the opening pattern from index `i` on. */
  function OpensFrom(s: string, i: nat): bool
    requires 1 <= i
    decreases |s| - i
  {
    if i + |LayersTag| > |s| then false
    else if IsSpace(s[i - 1]) && s[i..i + |LayersTag|] == LayersTag then true
    else OpensFrom(s, i + 1)
  }

  lemma {:induction false} OpensFromIff(s: string, i: nat)
    requires 1 <= i
    ensures OpensFrom(s, i) <==> exists j :: i <= j && OpensAt(s, j)
    decreases |s| - i
  {
    if i + |LayersTag| > |s| {
      assert forall j :: i <= j ==> !OpensAt(s, j);
    } else if IsSpace(s[i - 1]) && s[i..i + |LayersTag|] == LayersTag {
      assert OpensAt(s, i);
    } else {
      OpensFromIff(s, i + 1);
      assert !OpensAt(s, i);
    }
  }

  /** `re.search('\s+\(layers', s)`. */
  function OpensLayers(s: string): bool
  {
    OpensFrom(s, 1)
  }

  /** The opening pattern is found exactly when some white space character is followed by
      `(layers`. */
  lemma OpensLayersIff(s: string)
    ensures OpensLayers(s) <==> exists i :: OpensAt(s, i)
  {
    OpensFromIff(s, 1);
  }

  // ---------------------------------------------------------------------------------------------
  // The closing pattern `^\s+\)$`.

  /** `re.search('^\s+\)$', s)`: one or more white space characters, then `)`, then the end of
      the line; as `$` also matches just before a final newline, that newline may follow. */
  predicate IsBareClose(s: string) {
    if s != [] && s[|s| - 1] == '\n' then IsSpacedParen(s[..|s| - 1]) else IsSpacedParen(s)
  }

  /** One or more white space characters, then `)`: the white space run from the start ends just
      before a final `)`. */
  predicate IsSpacedParen(s: string) {
    |s| >= 2 && s[|s| - 1] == ')' && Skip(s, 0, IsSpace) == |s| - 1
  }

  lemma IsSpacedParenIff(s: string)
    ensures IsSpacedParen(s) <==> |s| >= 2 && s[|s| - 1] == ')' && forall i :: 0 <= i < |s| - 1 ==> IsSpace(s[i])
  {
    SkipStops(s, 0, IsSpace);
    if |s| >= 2 && s[|s| - 1] == ')' && forall i :: 0 <= i < |s| - 1 ==> IsSpace(s[i]) {
      SkipUnique(s, 0, IsSpace, |s| - 1);
    }
  }

  // ---------------------------------------------------------------------------------------------
  // The entry pattern `\s+\((\d+)\s+(\S+)`, matched at the start of the line.

  /** The first index at or after `i` whose character fails `p`, or `|s|`. */
  function Skip(s: string, i: nat, p: char -> bool): (k: nat)
    requires i <= |s|
    ensures i <= k <= |s|
    decreases |s| - i
  {
    if i < |s| && p(s[i]) then Skip(s, i + 1, p) else i
  }

  /** Every character skipped satisfies `p`, and the one it stops at does not. */
  lemma {:induction false} SkipStops(s: string, i: nat, p: char -> bool)
    requires i <= |s|
    ensures forall j :: i <= j < Skip(s, i, p) ==> p(s[j])
    ensures Skip(s, i, p) < |s| ==> !p(s[Skip(s, i, p)])
    decreases |s| - i
  {
    if i < |s| && p(s[i]) {
      SkipStops(s, i + 1, p);
    }
  }

  /** The stopping point is determined by the characters. */
  lemma {:induction false} SkipUnique(s: string, i: nat, p: char -> bool, k: nat)
    requires i <= k <= |s|
    requires forall j :: i <= j < k ==> p(s[j])
    requires k < |s| ==> !p(s[k])
    ensures Skip(s, i, p) == k
    decreases |s| - i
  {
    if i < k {
      SkipUnique(s, i + 1, p, k);
    }
  }

  predicate NotSpace(c: char) {
    !IsSpace(c)
  }

  predicate AllSpace(s: string) {
    forall i :: 0 <= i < |s| ==> IsSpace(s[i])
  }

  predicate NoSpace(s: string) {
    forall i :: 0 <= i < |s| ==> !IsSpace(s[i])
  }

  /** The entry pattern matches `s` with `(` at `a`, the index digits in `s[a+1..b]`, white space in
      `s[b..c]` and the name, a maximal run of non-white-space characters, in `s[c..d]`. */
  ghost predicate EntryShape(s: string, a: int, b: int, c: int, d: int) {
    && 0 < a && a + 1 < b < c < d <= |s|
    && (forall j :: 0 <= j < a ==> IsSpace(s[j]))
    && s[a] == '('
    && (forall j :: a < j < b ==> IsDigit(s[j]))
    && (forall j :: b <= j < c ==> IsSpace(s[j]))
    && (forall j :: c <= j < d ==> !IsSpace(s[j]))
    && (d < |s| ==> IsSpace(s[d]))
  }

  /** `re.match('\s+\((\d+)\s+(\S+)', s)`, with the index group read by `int`. */
  function MatchEntry(s: string): (r: Option<Entry>)
  {
    var a := Skip(s, 0, IsSpace);
    if a == 0 || a == |s| || s[a] != '(' then None
    else
      var b := Skip(s, a + 1, IsDigit);
      var c := Skip(s, b, IsSpace);
      var d := Skip(s, c, NotSpace);
      if b == a + 1 || c == b || d == c then None
      else
        Some(Entry(DigitsValue(s, a + 1, b), s[c..d]))
  }

  lemma DigitsBetween(s: string, a: nat, b: nat)
    requires a < b <= |s|
    requires forall j :: a < j < b ==> IsDigit(s[j])
    ensures AllDigits(s[a + 1..b])
  {
    var t := s[a + 1..b];
    forall k | 0 <= k < |t| ensures IsDigit(t[k]) {
      assert t[k] == s[a + 1 + k];
    }
  }

  lemma MatchEntryOfParts(s: string, a: int, b: int, c: int, d: int, digits: string, name: string)
    requires EntryShape(s, a, b, c, d)
    requires s[a + 1..b] == digits && s[c..d] == name
    ensures AllDigits(digits) && MatchEntry(s) == Some(Entry(DecimalValue(digits), name))
  {
    MatchEntryOfShape(s, a, b, c, d);
  }

  lemma MatchEntryOfShape(s: string, a: int, b: int, c: int, d: int)
    requires EntryShape(s, a, b, c, d)
    ensures AllDigits(s[a + 1..b]) && MatchEntry(s) == Some(Entry(DecimalValue(s[a + 1..b]), s[c..d]))
  {
    SkipUnique(s, 0, IsSpace, a);
    SkipUnique(s, a + 1, IsDigit, b);
    SkipUnique(s, b, IsSpace, c);
    SkipUnique(s, c, NotSpace, d);
    DigitsBetween(s, a, b);
    DigitsValueIsDecimal(s, a + 1, b);
  }

  /** The entry pattern matches exactly the lines of the entry shape, and then yields the decimal
      value of the digits and the whole non-white-space run after them. */
  lemma MatchEntryIff(s: string)
    ensures MatchEntry(s).Some? <==> exists a, b, c, d :: EntryShape(s, a, b, c, d)
    ensures forall a, b, c, d :: EntryShape(s, a, b, c, d) ==>
              AllDigits(s[a + 1..b]) && MatchEntry(s) == Some(Entry(DecimalValue(s[a + 1..b]), s[c..d]))
  {
    forall a, b, c, d | EntryShape(s, a, b, c, d)
      ensures AllDigits(s[a + 1..b]) && MatchEntry(s) == Some(Entry(DecimalValue(s[a + 1..b]), s[c..d]))
    {
      MatchEntryOfShape(s, a, b, c, d);
    }
    if MatchEntry(s).Some? {
      var a := Skip(s, 0, IsSpace);
      var b := Skip(s, a + 1, IsDigit);
      var c := Skip(s, b, IsSpace);
      var d := Skip(s, c, NotSpace);
      SkipStops(s, 0, IsSpace);
      SkipStops(s, a + 1, IsDigit);
      SkipStops(s, b, IsSpace);
      SkipStops(s, c, NotSpace);
      assert EntryShape(s, a, b, c, d);
    }
  }

  lemma Within(s: string, lo: nat, hi: nat, p: char -> bool)
    requires lo <= hi <= |s|
    requires forall k :: 0 <= k < hi - lo ==> p(s[lo..hi][k])
    ensures forall j :: lo <= j < hi ==> p(s[j])
  {
    forall j | lo <= j < hi ensures p(s[j]) {
      assert s[j] == s[lo..hi][j - lo];
    }
  }

  lemma EntryLineShape(s: string, lead: string, digits: string, gap: string, name: string, rest: string)
    requires s == lead + "(" + digits + gap + name + rest
    requires |lead| > 0 && AllSpace(lead)
    requires |digits| > 0 && AllDigits(digits)
    requires |gap| > 0 && AllSpace(gap)
    requires |name| > 0 && NoSpace(name)
    requires rest == [] || IsSpace(rest[0])
    ensures EntryShape(s, |lead|, |lead| + 1 + |digits|, |lead| + 1 + |digits| + |gap|, |lead| + 1 + |digits| + |gap| + |name|)
    ensures s[|lead| + 1..|lead| + 1 + |digits|] == digits
    ensures s[|lead| + 1 + |digits| + |gap|..|lead| + 1 + |digits| + |gap| + |name|] == name
  {
    var p1 := lead + "(";
    var p2 := p1 + digits;
    var p3 := p2 + gap;
    var p4 := p3 + name;
    assert s == p4 + rest;
    var a, b, c, d := |lead|, |p2|, |p3|, |p4|;
    assert s[..d] == p4;
    assert p4[..c] == p3;
    assert p3[..b] == p2;
    assert p2[..a + 1] == p1;
    assert s[..a] == lead by { assert s[..a] == p1[..a]; }
    assert s[a] == '(' by { assert s[a] == p1[a]; }
    assert s[a + 1..b] == digits by { assert s[a + 1..b] == p2[a + 1..b]; }
    assert s[b..c] == gap by { assert s[b..c] == p3[b..c]; }
    assert s[c..d] == name;
    assert s[d..] == rest;
    Within(s, 0, a, IsSpace);
    Within(s, a + 1, b, IsDigit);
    Within(s, b, c, IsSpace);
    Within(s, c, d, NotSpace);
  }

  /** An entry line built from its parts is read back as that entry. */
  lemma EntryLineRoundTrip(lead: string, digits: string, gap: string, name: string, rest: string)
    requires |lead| > 0 && AllSpace(lead)
    requires |digits| > 0 && AllDigits(digits)
    requires |gap| > 0 && AllSpace(gap)
    requires |name| > 0 && NoSpace(name)
    requires rest == [] || IsSpace(rest[0])
    ensures MatchEntry(lead + "(" + digits + gap + name + rest) == Some(Entry(DecimalValue(digits), name))
  {
    var s := lead + "(" + digits + gap + name + rest;
    var b := |lead| + 1 + |digits|;
    var c := b + |gap|;
    EntryLineShape(s, lead, digits, gap, name, rest);
    MatchEntryOfParts(s, |lead|, b, c, c + |name|, digits, name);
  }

  /** No line is both an entry and a closing line. */
  lemma EntryIsNotClose(s: string)
    requires MatchEntry(s).Some?
    ensures !IsBareClose(s)
  {
    var a := Skip(s, 0, IsSpace);
    assert a + 1 < |s| by {
      assert Skip(s, a + 1, IsDigit) != a + 1;
    }
    SkipStops(s, 0, IsSpace);
    var body := if s[|s| - 1] == '\n' then s[..|s| - 1] else s;
    assert body[..a + 1] == s[..a + 1];
    SkipUnique(body, 0, IsSpace, a);
    assert body[a] == '(' by {
      assert body[a] == body[..a + 1][a];
    }
  }

  // ---------------------------------------------------------------------------------------------
  // What the three patterns find in each line.

  /** What the patterns find in one line: whether the opening pattern is found, the entry the
      entry pattern reads, if any, and whether it is a closing line. */
  datatype LineKind = LineKind(opens: bool, entry: Option<Entry>, closes: bool)

  function Classify(s: string): LineKind {
    LineKind(OpensLayers(s), MatchEntry(s), IsBareClose(s))
  }

  /** The kinds of the lines of a file, in order. */
  function Kinds(lines: seq<string>): (ks: seq<LineKind>)
    ensures |ks| == |lines|
  {
    if lines == [] then [] else Kinds(lines[..|lines| - 1]) + [Classify(lines[|lines| - 1])]
  }

  lemma {:induction false} KindAt(lines: seq<string>, i: nat)
    requires i < |lines|
    ensures Kinds(lines)[i] == Classify(lines[i])
    decreases |lines|
  {
    if i < |lines| - 1 {
      KindAt(lines[..|lines| - 1], i);
    }
  }

  lemma KindsAppend(a: seq<string>, b: seq<string>)
    ensures Kinds(a + b) == Kinds(a) + Kinds(b)
  {
    var ab := a + b;
    forall i | 0 <= i < |ab| ensures Kinds(ab)[i] == (Kinds(a) + Kinds(b))[i] {
      KindAt(ab, i);
      if i < |a| {
        KindAt(a, i);
      } else {
        KindAt(b, i - |a|);
      }
    }
  }

  /** No line both holds an entry and closes the block. */
  ghost predicate Consistent(ks: seq<LineKind>) {
    forall i :: 0 <= i < |ks| && ks[i].entry.Some? ==> !ks[i].closes
  }

  lemma KindsConsistent(lines: seq<string>)
    ensures Consistent(Kinds(lines))
  {
    forall i | 0 <= i < |lines| && Kinds(lines)[i].entry.Some? ensures !Kinds(lines)[i].closes {
      KindAt(lines, i);
      EntryIsNotClose(lines[i]);
    }
  }

  /** A line laid out as an entry (indent, `(`, digits, space, name, rest) is read as exactly that
      entry and never closes the block; it opens one only if it also holds `(layers` after white
      space, as the opening pattern is searched anywhere in the line. */
  lemma EntryLineKind(s: string, lead: string, digits: string, gap: string, name: string, rest: string)
    requires s == lead + "(" + digits + gap + name + rest
    requires |lead| > 0 && AllSpace(lead)
    requires |digits| > 0 && AllDigits(digits)
    requires |gap| > 0 && AllSpace(gap)
    requires |name| > 0 && NoSpace(name)
    requires rest == [] || IsSpace(rest[0])
    ensures Classify(s) == LineKind(OpensLayers(s), Some(Entry(DecimalValue(digits), name)), false)
  {
    EntryLineRoundTrip(lead, digits, gap, name, rest);
    EntryIsNotClose(s);
  }

  // ---------------------------------------------------------------------------------------------
  // The layers block and the table it produces.

  /** The two patterns that delimit the block. */
  datatype Mark = Opening | Closing

  predicate Has(k: LineKind, m: Mark) {
    match m
    case Opening => k.opens
    case Closing => k.closes
  }

  /** The first index at or after `from` whose line has mark `m`, or `|ks|`. */
  function FirstWith(ks: seq<LineKind>, from: nat, m: Mark): (k: nat)
    requires from <= |ks|
    ensures from <= k <= |ks|
    decreases |ks| - from
  {
    if from == |ks| || Has(ks[from], m) then from else FirstWith(ks, from + 1, m)
  }

  /** The line found has the mark and none before it does. */
  lemma {:induction false} FirstWithStops(ks: seq<LineKind>, from: nat, m: Mark)
    requires from <= |ks|
    ensures FirstWith(ks, from, m) < |ks| ==> Has(ks[FirstWith(ks, from, m)], m)
    ensures forall j :: from <= j < FirstWith(ks, from, m) ==> !Has(ks[j], m)
    decreases |ks| - from
  {
    if from < |ks| && !Has(ks[from], m) {
      FirstWithStops(ks, from + 1, m);
    }
  }

  lemma FirstWithMisses(ks: seq<LineKind>, from: nat, m: Mark, j: nat)
    requires from <= |ks| && from <= j < FirstWith(ks, from, m)
    ensures !Has(ks[j], m)
  {
    FirstWithStops(ks, from, m);
  }

  lemma FirstWithHits(ks: seq<LineKind>, from: nat, m: Mark)
    requires from <= |ks| && FirstWith(ks, from, m) < |ks|
    ensures Has(ks[FirstWith(ks, from, m)], m)
  {
    FirstWithStops(ks, from, m);
  }

  /** A line with the mark bounds the search from above. */
  lemma FirstWithAtMost(ks: seq<LineKind>, from: nat, m: Mark, j: nat)
    requires from <= j < |ks| && Has(ks[j], m)
    ensures FirstWith(ks, from, m) <= j
  {
    if j < FirstWith(ks, from, m) {
      FirstWithMisses(ks, from, m, j);
    }
  }

  /** Lines without the mark can be passed over without changing what is found. */
  lemma {:induction false} FirstWithSkips(ks: seq<LineKind>, from: nat, to: nat, m: Mark)
    requires from <= to <= |ks|
    requires forall j :: from <= j < to ==> !Has(ks[j], m)
    ensures FirstWith(ks, from, m) == FirstWith(ks, to, m)
    decreases |ks| - from
  {
    if from < to {
      FirstWithSkips(ks, from + 1, to, m);
    }
  }

  /** Searching after a prefix finds the same line as searching without it, shifted. */
  lemma {:induction false} FirstWithOffset(before: seq<LineKind>, ks: seq<LineKind>, from: nat, m: Mark)
    requires from <= |ks|
    ensures FirstWith(before + ks, |before| + from, m) == |before| + FirstWith(ks, from, m)
    decreases |ks| - from
  {
    var all := before + ks;
    if from < |ks| {
      assert all[|before| + from] == ks[from];
      FirstWithOffset(before, ks, from + 1, m);
    }
  }

  /** A line found in `ks` is still the first one found once more lines follow. */
  lemma {:induction false} FirstWithExtend(ks: seq<LineKind>, more: seq<LineKind>, from: nat, m: Mark)
    requires from <= |ks|
    requires FirstWith(ks, from, m) < |ks|
    ensures FirstWith(ks + more, from, m) == FirstWith(ks, from, m)
    decreases |ks| - from
  {
    var all := ks + more;
    assert all[from] == ks[from];
    if !Has(ks[from], m) {
      FirstWithExtend(ks, more, from + 1, m);
    }
  }

  /** The lines collected: those after the first opening line, up to but excluding the first
      closing line after it (or to the end of the file); none when no line opens the block. */
  function Block(ks: seq<LineKind>): seq<LineKind>
  {
    var o := FirstWith(ks, 0, Opening);
    if o == |ks| then [] else ks[o + 1..FirstWith(ks, o + 1, Closing)]
  }

  /** The entries of the entry lines of `block`, in file order; other lines give none. */
  function Entries(block: seq<LineKind>): seq<Entry>
  {
    if block == [] then []
    else
      var last := block[|block| - 1].entry;
      Entries(block[..|block| - 1]) + (if last.Some? then [last.value] else [])
  }

  /** Writing each entry's name into its slot, in order; the first entry past the table fails. */
  function Store(table: seq<string>, es: seq<Entry>): (r: Result<seq<string>>)
    requires |table| == TableSize
    ensures r.Ok? ==> |r.value| == TableSize
  {
    if es == [] then Ok(table)
    else
      match Store(table, es[..|es| - 1])
      case Err(e) => Err(e)
      case Ok(t) =>
        var e := es[|es| - 1];
        if e.index < TableSize then Ok(t[e.index := e.name]) else Err(IndexError(e.index))
  }

  /** The table made from the block of lines of kinds `ks`. */
  function TableOf(ks: seq<LineKind>): Result<seq<string>>
  {
    Store(Blank(), Entries(Block(ks)))
  }

  /** The layer table read from the lines of a PCB file. */
  function LayerTable(lines: seq<string>): Result<seq<string>>
  {
    TableOf(Kinds(lines))
  }

  /** `es[k]` is the last entry naming slot `i`. */
  ghost predicate LastFor(es: seq<Entry>, k: int, i: int) {
    0 <= k < |es| && es[k].index == i && forall j :: k < j < |es| ==> es[j].index != i
  }

  ghost predicate Untouched(es: seq<Entry>, i: nat) {
    forall k :: 0 <= k < |es| ==> es[k].index != i
  }

  /** `es[k]` is the first entry whose index is past the table. */
  ghost predicate FirstOutOfRange(es: seq<Entry>, k: int) {
    0 <= k < |es| && es[k].index >= TableSize && forall j :: 0 <= j < k ==> es[j].index < TableSize
  }

  lemma {:induction false} EntriesAppend(a: seq<LineKind>, b: seq<LineKind>)
    ensures Entries(a + b) == Entries(a) + Entries(b)
    decreases |b|
  {
    if b == [] {
      assert a + b == a;
    } else {
      var ab := a + b;
      assert ab[..|ab| - 1] == a + b[..|b| - 1];
      assert ab[|ab| - 1] == b[|b| - 1];
      EntriesAppend(a, b[..|b| - 1]);
    }
  }

  /** A table store fails exactly when some entry is past the table, and then with the first such
      entry's index; otherwise each slot holds the name of the last entry naming it, and a slot no
      entry names keeps its old name. */
  lemma {:induction false} StoreSlots(table: seq<string>, es: seq<Entry>)
    requires |table| == TableSize
    ensures Store(table, es).Ok? <==> forall k :: 0 <= k < |es| ==> es[k].index < TableSize
    ensures Store(table, es).Err? ==>
              exists k :: FirstOutOfRange(es, k) && Store(table, es).error == IndexError(es[k].index)
    ensures Store(table, es).Ok? ==>
              && (forall i, k :: 0 <= i < TableSize && LastFor(es, k, i) ==> Store(table, es).value[i] == es[k].name)
              && (forall i :: 0 <= i < TableSize && Untouched(es, i) ==> Store(table, es).value[i] == table[i])
    decreases |es|
  {
    if es != [] {
      var init := es[..|es| - 1];
      var e := es[|es| - 1];
      StoreSlots(table, init);
      assert forall k :: 0 <= k < |init| ==> init[k] == es[k];
      if Store(table, init).Err? {
        var k :| FirstOutOfRange(init, k) && Store(table, init).error == IndexError(init[k].index);
        assert FirstOutOfRange(es, k);
      } else if e.index >= TableSize {
        assert FirstOutOfRange(es, |es| - 1);
      } else {
        var t := Store(table, init).value;
        forall i, k | 0 <= i < TableSize && LastFor(es, k, i) ensures Store(table, es).value[i] == es[k].name {
          if k < |es| - 1 {
            assert LastFor(init, k, i);
          }
        }
        forall i | 0 <= i < TableSize && Untouched(es, i) ensures Store(table, es).value[i] == table[i] {
          assert Untouched(init, i);
        }
      }
    }
  }

  /** Once a store has failed, further entries do not change the outcome. */
  lemma {:induction false} StoreFailureSticks(table: seq<string>, es: seq<Entry>, more: seq<Entry>)
    requires |table| == TableSize
    requires Store(table, es).Err?
    ensures Store(table, es + more) == Store(table, es)
    decreases |more|
  {
    if more == [] {
      assert es + more == es;
    } else {
      var all := es + more;
      assert all[..|all| - 1] == es + more[..|more| - 1];
      StoreFailureSticks(table, es, more[..|more| - 1]);
    }
  }

  /** The table read from a file: exactly 50 slots, each holding the name of the last collected
      entry naming it and `-` where none does; or the failure at the first collected entry whose
      index is 50 or more. */
  lemma TableSlots(lines: seq<string>)
    ensures var r := LayerTable(lines); var es := Entries(Block(Kinds(lines)));
      && (r.Ok? <==> forall k :: 0 <= k < |es| ==> es[k].index < TableSize)
      && (r.Err? ==> exists k :: FirstOutOfRange(es, k) && r.error == IndexError(es[k].index))
      && (r.Ok? ==> |r.value| == TableSize)
      && (r.Ok? ==> forall i, k :: 0 <= i < TableSize && LastFor(es, k, i) ==> r.value[i] == es[k].name)
      && (r.Ok? ==> forall i :: 0 <= i < TableSize && Untouched(es, i) ==> r.value[i] == Unnamed)
  {
    StoreSlots(Blank(), Entries(Block(Kinds(lines))));
  }

  /** The first opening line after a prefix without one is the first of the rest, shifted. */
  lemma OpeningAfter(before: seq<LineKind>, ks: seq<LineKind>)
    requires forall k :: 0 <= k < |before| ==> !before[k].opens
    ensures FirstWith(before + ks, 0, Opening) == |before| + FirstWith(ks, 0, Opening)
  {
    var all := before + ks;
    forall j | 0 <= j < |before| ensures !Has(all[j], Opening) {
      assert all[j] == before[j];
    }
    FirstWithSkips(all, 0, |before|, Opening);
    FirstWithOffset(before, ks, 0, Opening);
  }

  /** Lines before the first opening line do not change the block. */
  lemma BlockShift(before: seq<LineKind>, ks: seq<LineKind>)
    requires forall k :: 0 <= k < |before| ==> !before[k].opens
    ensures Block(before + ks) == Block(ks)
  {
    OpeningAfter(before, ks);
    var all := before + ks;
    var n := |before|;
    var o := FirstWith(ks, 0, Opening);
    if o < |ks| {
      FirstWithOffset(before, ks, o + 1, Closing);
      var c := FirstWith(ks, o + 1, Closing);
      assert Block(all) == all[n + o + 1..n + c];
      assert all[n + o + 1..n + c] == ks[o + 1..c];
    }
  }

  /** Lines before the first opening line never matter, even when they look like entries. */
  lemma LinesBeforeOpeningIgnored(before: seq<string>, lines: seq<string>)
    requires forall k :: 0 <= k < |before| ==> !OpensLayers(before[k])
    ensures LayerTable(before + lines) == LayerTable(lines)
  {
    KindsAppend(before, lines);
    var kb := Kinds(before);
    forall k | 0 <= k < |kb| ensures !kb[k].opens {
      KindAt(before, k);
    }
    BlockShift(kb, Kinds(lines));
  }

  /** The block ends at a closing line that follows an opening line. */
  ghost predicate BlockEnds(ks: seq<LineKind>) {
    var o := FirstWith(ks, 0, Opening);
    o < |ks| && FirstWith(ks, o + 1, Closing) < |ks|
  }

  lemma SliceOfAppend<T>(a: seq<T>, b: seq<T>, lo: nat, hi: nat)
    requires lo <= hi <= |a|
    ensures (a + b)[lo..hi] == a[lo..hi]
  {
  }

  /** Adding lines after the closing line that ends the block does not change the block. */
  lemma BlockExtend(ks: seq<LineKind>, after: seq<LineKind>)
    requires BlockEnds(ks)
    ensures Block(ks + after) == Block(ks)
  {
    var o := FirstWith(ks, 0, Opening);
    FirstWithExtend(ks, after, 0, Opening);
    FirstWithExtend(ks, after, o + 1, Closing);
    SliceOfAppend(ks, after, o + 1, FirstWith(ks, o + 1, Closing));
  }

  /** Some opening line followed by some closing line means the block ends inside the file. */
  lemma BlockEndsOf(ks: seq<LineKind>, o: nat, c: nat)
    requires o < c < |ks| && ks[o].opens && ks[c].closes
    ensures BlockEnds(ks)
  {
    FirstWithAtMost(ks, 0, Opening, o);
    FirstWithAtMost(ks, FirstWith(ks, 0, Opening) + 1, Closing, c);
  }

  /** Once a closing line has ended the block, no later line matters. */
  lemma LinesAfterCloseIgnored(lines: seq<string>, after: seq<string>)
    requires exists o, c :: 0 <= o < c < |lines| && OpensLayers(lines[o]) && IsBareClose(lines[c])
    ensures LayerTable(lines + after) == LayerTable(lines)
  {
    var o, c :| 0 <= o < c < |lines| && OpensLayers(lines[o]) && IsBareClose(lines[c]);
    KindAt(lines, o);
    KindAt(lines, c);
    BlockEndsOf(Kinds(lines), o, c);
    KindsAppend(lines, after);
    BlockExtend(Kinds(lines), Kinds(after));
  }

  /** A line kind without an entry contributes no entry, wherever it stands. */
  lemma EntriesSkip(a: seq<LineKind>, k: LineKind, b: seq<LineKind>)
    requires k.entry.None?
    ensures Entries(a + [k] + b) == Entries(a + b)
  {
    EntriesSnoc(a, k);
    assert Entries(a + [k]) == Entries(a);
    EntriesAppend(a + [k], b);
    EntriesAppend(a, b);
  }

  lemma SliceAcross<T>(x: seq<T>, y: seq<T>, lo: nat, hi: nat)
    requires lo <= |x| <= hi <= |x| + |y|
    ensures (x + y)[lo..hi] == x[lo..] + y[..hi - |x|]
  {
  }

  /** When no line of `a` from `from` on closes, the search for a closing line goes on into `b`. */
  lemma ClosingAcross(a: seq<LineKind>, b: seq<LineKind>, from: nat)
    requires from <= |a| && FirstWith(a, from, Closing) == |a|
    ensures FirstWith(a + b, from, Closing) == |a| + FirstWith(b, 0, Closing)
  {
    var all := a + b;
    FirstWithStops(a, from, Closing);
    forall j | from <= j < |a| ensures !Has(all[j], Closing) {
      assert all[j] == a[j];
    }
    FirstWithSkips(all, from, |a|, Closing);
    FirstWithOffset(a, b, 0, Closing);
  }

  /** While the block is still open at the end of `a`, the block of `a + b` runs on into `b`, up to
      the first closing line there. */
  lemma BlockAcross(a: seq<LineKind>, b: seq<LineKind>)
    requires FirstWith(a, 0, Opening) < |a|
    requires FirstWith(a, FirstWith(a, 0, Opening) + 1, Closing) == |a|
    ensures Block(a + b) == a[FirstWith(a, 0, Opening) + 1..] + b[..FirstWith(b, 0, Closing)]
  {
    var o := FirstWith(a, 0, Opening);
    var cb := FirstWith(b, 0, Closing);
    FirstWithExtend(a, b, 0, Opening);
    ClosingAcross(a, b, o + 1);
    SliceAcross(a, b, o + 1, |a| + cb);
  }

  /** A line that neither closes nor starts a search hit is passed over by the search for a
      closing line. */
  lemma ClosingAfter(k: LineKind, b: seq<LineKind>)
    requires !k.closes
    ensures FirstWith([k] + b, 0, Closing) == 1 + FirstWith(b, 0, Closing)
  {
    FirstWithSkips([k] + b, 0, 1, Closing);
    FirstWithOffset([k], b, 0, Closing);
  }

  /** A line with no entry that does not close, inside a block that is still open, leaves the
      block's entries unchanged. */
  lemma OpenBlockSkip(a: seq<LineKind>, k: LineKind, b: seq<LineKind>)
    requires FirstWith(a, 0, Opening) < |a|
    requires FirstWith(a, FirstWith(a, 0, Opening) + 1, Closing) == |a|
    requires k.entry.None? && !k.closes
    ensures Entries(Block(a + ([k] + b))) == Entries(Block(a + b))
  {
    var tail := a[FirstWith(a, 0, Opening) + 1..];
    var cb := FirstWith(b, 0, Closing);
    BlockAcross(a, [k] + b);
    BlockAcross(a, b);
    ClosingAfter(k, b);
    assert ([k] + b)[..1 + cb] == [k] + b[..cb];
    assert tail + ([k] + b[..cb]) == tail + [k] + b[..cb];
    EntriesSkip(tail, k, b[..cb]);
  }

  /** Inside the block, a line that is neither an entry nor a closing line leaves the table as it
      is; before the block it does not matter either, once an earlier line has opened it. */
  lemma BlockSkip(a: seq<LineKind>, k: LineKind, b: seq<LineKind>)
    requires FirstWith(a, 0, Opening) < |a|
    requires k.entry.None? && !k.closes
    ensures TableOf(a + [k] + b) == TableOf(a + b)
  {
    assert a + [k] + b == a + ([k] + b);
    if BlockEnds(a) {
      BlockExtend(a, [k] + b);
      BlockExtend(a, b);
    } else {
      OpenBlockSkip(a, k, b);
    }
  }

  /** Once a line has opened the block, a later line that is neither an entry nor a closing line
      leaves the layer table unchanged. */
  lemma NonEntryLineIgnored(before: seq<string>, line: string, after: seq<string>)
    requires exists o :: 0 <= o < |before| && OpensLayers(before[o])
    requires MatchEntry(line).None? && !IsBareClose(line)
    ensures LayerTable(before + [line] + after) == LayerTable(before + after)
  {
    var o :| 0 <= o < |before| && OpensLayers(before[o]);
    var kb := Kinds(before);
    KindAt(before, o);
    FirstWithAtMost(kb, 0, Opening, o);
    KindsAppend(before + [line], after);
    KindsAppend(before, [line]);
    KindsAppend(before, after);
    KindAt([line], 0);
    var k := Kinds([line]);
    assert k == [k[0]];
    BlockSkip(kb, k[0], Kinds(after));
  }

  // ---------------------------------------------------------------------------------------------
  // The line-by-line scan.

  /** Storing the entry a line holds, if any, into a table read so far. */
  function Put(t: Result<seq<string>>, m: Option<Entry>): (r: Result<seq<string>>)
    requires t.Ok? ==> |t.value| == TableSize
    ensures r.Ok? ==> |r.value| == TableSize
  {
    match m
    case None => t
    case Some(e) =>
      if t.Err? then t
      else if e.index < TableSize then Ok(t.value[e.index := e.name])
      else Err(IndexError(e.index))
  }

  /** One more line in the block adds the entry it holds, if any. */
  lemma EntriesSnoc(block: seq<LineKind>, k: LineKind)
    ensures Entries(block + [k]) == Entries(block) + (if k.entry.Some? then [k.entry.value] else [])
  {
    assert (block + [k])[..|block|] == block;
  }

  /** Storing one more entry is putting it into the table stored so far. */
  lemma StorePut(table: seq<string>, es: seq<Entry>, m: Option<Entry>)
    requires |table| == TableSize
    ensures Store(table, es + (if m.Some? then [m.value] else [])) == Put(Store(table, es), m)
  {
    if m.Some? {
      assert (es + [m.value])[..|es|] == es;
    } else {
      assert es + [] == es;
    }
  }

  /** Where the scan stands, with the table read so far: looking for the opening line, collecting
      entries, stopped at a closing line; or failed on an entry whose slot is past the table. */
  datatype Phase = Seeking(table: seq<string>) | Collecting(table: seq<string>) | Closed(table: seq<string>) | Failed(index: nat)

  predicate Sized(ph: Phase) {
    !ph.Failed? ==> |ph.table| == TableSize
  }

  /** Handling one line: an opening line starts the collection; while collecting, an entry line
      stores its name in the slot it names (failing past the table), and otherwise a closing line
      stops the scan. */
  function Next(ph: Phase, k: LineKind): (next: Phase)
    requires Sized(ph)
    ensures Sized(next)
  {
    match ph
    case Seeking(t) => if k.opens then Collecting(t) else ph
    case Collecting(t) =>
      (match k.entry
       case Some(e) => if e.index < TableSize then Collecting(t[e.index := e.name]) else Failed(e.index)
       case None => if k.closes then Closed(t) else Collecting(t))
    case _ => ph
  }

  /** The phase after the first `i` lines, starting from the blank table. */
  function Scan(ks: seq<LineKind>, i: nat): (ph: Phase)
    requires i <= |ks|
    ensures Sized(ph)
  {
    if i == 0 then Seeking(Blank()) else Next(Scan(ks, i - 1), ks[i - 1])
  }

  /** The result of the scan once every line is read. */
  function Outcome(ph: Phase): Result<seq<string>>
  {
    match ph
    case Seeking(t) => Ok(t)
    case Collecting(t) => Ok(t)
    case Closed(t) => Ok(t)
    case Failed(k) => Err(IndexError(k))
  }

  /** The table the line-by-line scan of a file arrives at. */
  function ScanTable(lines: seq<string>): Result<seq<string>>
  {
    Outcome(Scan(Kinds(lines), |lines|))
  }

  /** A stopped or failed scan reads no further. */
  lemma {:induction false} ScanStays(ks: seq<LineKind>, i: nat, j: nat)
    requires i <= j <= |ks|
    requires Scan(ks, i).Closed? || Scan(ks, i).Failed?
    ensures Scan(ks, j) == Scan(ks, i)
    decreases j
  {
    if j > i {
      ScanStays(ks, i, j - 1);
    }
  }

  /** Up to the first opening line the scan is still looking for it. */
  lemma {:induction false} ScanBefore(ks: seq<LineKind>, i: nat)
    requires i <= FirstWith(ks, 0, Opening)
    ensures Scan(ks, i) == Seeking(Blank())
    decreases i
  {
    if i > 0 {
      FirstWithMisses(ks, 0, Opening, i - 1);
      ScanBefore(ks, i - 1);
    }
  }

  /** The phase standing for a table read so far, or for the failure reading it. */
  function AsPhase(r: Result<seq<string>>): Phase {
    match r
    case Ok(t) => Collecting(t)
    case Err(e) => Failed(e.index)
  }

  /** Inside the block, handling a line is putting the entry it holds into the table. */
  lemma NextPut(r: Result<seq<string>>, k: LineKind)
    requires r.Ok? ==> |r.value| == TableSize
    requires !k.closes
    ensures Next(AsPhase(r), k) == AsPhase(Put(r, k.entry))
  {
  }

  /** Reading one more line of the block before its closing line stores the entry it holds. */
  lemma CollectStep(block: seq<LineKind>, k: LineKind)
    requires !k.closes
    ensures Next(AsPhase(Store(Blank(), Entries(block))), k) == AsPhase(Store(Blank(), Entries(block + [k])))
  {
    EntriesSnoc(block, k);
    StorePut(Blank(), Entries(block), k.entry);
    NextPut(Store(Blank(), Entries(block)), k);
  }

  lemma SliceSnoc<T>(s: seq<T>, lo: nat, hi: nat)
    requires lo < hi <= |s|
    ensures s[lo..hi] == s[lo..hi - 1] + [s[hi - 1]]
  {
  }

  /** Between the opening line and the first closing line after it, the scan holds the table
      stored from the entries of the block lines read so far. */
  lemma {:induction false} ScanDuring(ks: seq<LineKind>, o: nat, i: nat)
    requires o == FirstWith(ks, 0, Opening) < |ks|
    requires o < i <= FirstWith(ks, o + 1, Closing)
    ensures Scan(ks, i) == AsPhase(Store(Blank(), Entries(ks[o + 1..i])))
    decreases i
  {
    if i == o + 1 {
      ScanBefore(ks, o);
      FirstWithHits(ks, 0, Opening);
      assert ks[o + 1..i] == [];
    } else {
      var block, k := ks[o + 1..i - 1], ks[i - 1];
      ScanDuring(ks, o, i - 1);
      FirstWithMisses(ks, o + 1, Closing, i - 1);
      CollectStep(block, k);
      SliceSnoc(ks, o + 1, i);
      assert Scan(ks, i) == Next(AsPhase(Store(Blank(), Entries(block))), k);
    }
  }

  /** A closing line read while collecting, or after a failure, ends the scan. */
  lemma ScanClosed(ks: seq<LineKind>, c: nat)
    requires c < |ks| && (Scan(ks, c).Collecting? || Scan(ks, c).Failed?)
    requires ks[c].closes && ks[c].entry.None?
    ensures Scan(ks, |ks|) == Next(Scan(ks, c), ks[c])
  {
    ScanStays(ks, c + 1, |ks|);
  }

  /** A table read so far, or its failure, is the outcome, also after a closing line. */
  lemma OutcomeAfter(t: Result<seq<string>>, k: LineKind)
    requires t.Ok? ==> |t.value| == TableSize
    requires k.closes && k.entry.None?
    ensures Outcome(AsPhase(t)) == t && Outcome(Next(AsPhase(t), k)) == t
  {
  }

  /** Without an opening line the table stays blank. */
  lemma ScanNoBlock(ks: seq<LineKind>)
    requires FirstWith(ks, 0, Opening) == |ks|
    ensures Outcome(Scan(ks, |ks|)) == TableOf(ks)
  {
    ScanBefore(ks, |ks|);
    assert Block(ks) == [];
  }

  /** A block closed inside the file: the scan stops at its closing line. */
  lemma ScanClosedBlock(ks: seq<LineKind>, o: nat, c: nat)
    requires o == FirstWith(ks, 0, Opening) < |ks|
    requires c == FirstWith(ks, o + 1, Closing) < |ks|
    requires Consistent(ks)
    ensures Outcome(Scan(ks, |ks|)) == TableOf(ks)
  {
    var t := Store(Blank(), Entries(ks[o + 1..c]));
    assert Block(ks) == ks[o + 1..c];
    ScanDuring(ks, o, c);
    FirstWithHits(ks, o + 1, Closing);
    OutcomeAfter(t, ks[c]);
    ScanClosed(ks, c);
  }

  /** A block still open at the end of the file: the scan stops with the last line. */
  lemma ScanOpenBlock(ks: seq<LineKind>, o: nat)
    requires o == FirstWith(ks, 0, Opening) < |ks|
    requires FirstWith(ks, o + 1, Closing) == |ks|
    ensures Outcome(Scan(ks, |ks|)) == TableOf(ks)
  {
    var t := Store(Blank(), Entries(ks[o + 1..|ks|]));
    assert Block(ks) == ks[o + 1..|ks|];
    ScanDuring(ks, o, |ks|);
    OutcomeAfter(t, LineKind(false, None, true));
  }

  /** Reading the lines one by one gives the table of their block. */
  lemma ScanIsTableOf(ks: seq<LineKind>)
    requires Consistent(ks)
    ensures Outcome(Scan(ks, |ks|)) == TableOf(ks)
  {
    var o := FirstWith(ks, 0, Opening);
    if o == |ks| {
      ScanNoBlock(ks);
    } else if FirstWith(ks, o + 1, Closing) < |ks| {
      ScanClosedBlock(ks, o, FirstWith(ks, o + 1, Closing));
    } else {
      ScanOpenBlock(ks, o);
    }
  }

  /** Reading the file line by line gives the layer table of its first block. */
  lemma ScanIsLayerTable(lines: seq<string>)
    ensures ScanTable(lines) == LayerTable(lines)
  {
    KindsConsistent(lines);
    ScanIsTableOf(Kinds(lines));
  }

  /** What handling one line of the block leads to. */
  datatype Step = Continue | Close | Overflow(index: nat)

  /** One line read while collecting: an entry line stores its name in the slot it names (or
      fails when the slot is past the table); otherwise a closing line ends the block. */
  method CollectLine(names: array<string>, line: string, ghost lines: seq<string>, ghost i: nat) returns (step: Step)
    requires names.Length == TableSize
    requires i < |lines| && lines[i] == line
    modifies names
    ensures Next(Collecting(old(names[..])), Kinds(lines)[i]) ==
      match step
      case Continue => Collecting(names[..])
      case Close => Closed(names[..])
      case Overflow(k) => Failed(k)
  {
    KindAt(lines, i);
    var z := MatchEntry(line);
    if z.Some? {
      if z.value.index >= TableSize {
        return Overflow(z.value.index);
      }
      names[z.value.index] := z.value.name;
      step := Continue;
    } else if IsBareClose(line) {
      step := Close;
    } else {
      step := Continue;
    }
  }

  /** The scan of the PCB file's lines: collection starts after a line matching the opening
      pattern, each entry line stores its name in the slot it names, and the first closing line
      ends the scan. By `ScanIsLayerTable` the result is `LayerTable(lines)`. */
  method ReadLayerNames(lines: seq<string>) returns (r: Result<seq<string>>)
    ensures r == ScanTable(lines)
  {
    ghost var ks := Kinds(lines);
    var names := new string[TableSize](_ => Unnamed);
    var collecting := false;
    var i := 0;
    while i < |lines|
      invariant 0 <= i <= |lines|
      invariant Scan(ks, i) == if collecting then Collecting(names[..]) else Seeking(names[..])
    {
      var line := lines[i];
      if collecting {
        var step := CollectLine(names, line, lines, i);
        if step.Overflow? {
          ScanStays(ks, i + 1, |lines|);
          return Err(IndexError(step.index));
        } else if step.Close? {
          ScanStays(ks, i + 1, |lines|);
          collecting := false;
          break;
        }
      } else if OpensLayers(line) {
        KindAt(lines, i);
        collecting := true;
      } else {
        KindAt(lines, i);
      }
      i := i + 1;
    }
    r := Ok(names[..]);
  }
}
