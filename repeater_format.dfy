/** The text routines of `src/aprs_assistant/_repeaters.py`:
    `_is_null_or_whitesace`, `_normalize_spaces` and `format_repeater`. */
module RepeaterFormat {
  import opened Wrappers
  import opened PyText
  import opened PyNumber
  import opened Repeaters

  // ---------------------------------------------------------------------
  // _is_null_or_whitesace

  /** `None`, or a string with nothing but whitespace in it. */
  predicate IsNullOrWhitespace(s: Option<string>) {
    s.None? || Strip(s.value) == []
  }

  /** `_is_null_or_whitesace` holds of `None` and of exactly the strings made
      of whitespace only. */
  lemma NullOrWhitespaceMeans(s: Option<string>)
    ensures IsNullOrWhitespace(s) <==> s.None? || AllSpace(s.value)
  {
    if s.Some? {
      if Strip(s.value) == [] {
        StripEmptyMeansAllSpace(s.value);
      }
      if AllSpace(s.value) {
        AllSpaceStripsToEmpty(s.value);
      }
    }
  }

  // ---------------------------------------------------------------------
  // _normalize_spaces

  /** The class `[\n\r]`. */
  predicate IsBreak(c: char) {
    c == '\n' || c == '\r'
  }

  predicate NoBreak(t: string) {
    forall j :: 0 <= j < |t| ==> !IsBreak(t[j])
  }

  /** Length of the run of line breaks at the start of `s`. */
  function BreakRun(s: string): (n: nat)
    ensures n <= |s|
    ensures forall j :: 0 <= j < n ==> IsBreak(s[j])
    ensures n < |s| ==> !IsBreak(s[n])
  {
    if s == [] || !IsBreak(s[0]) then 0 else 1 + BreakRun(s[1..])
  }

  /** `re.split(r"[\n\r]+", s)`: the pieces between maximal runs of line
      breaks, including an empty piece before a leading run and after a
      trailing one. */
  function SplitLines(s: string): (parts: seq<string>)
    ensures |parts| >= 1
    ensures forall i :: 0 <= i < |parts| ==> NoBreak(parts[i])
    decreases |s|
  {
    if s == [] then [""]
    else if IsBreak(s[0]) then [""] + SplitLines(s[BreakRun(s)..])
    else
      var rest := SplitLines(s[1..]);
      [[s[0]] + rest[0]] + rest[1..]
  }

  /** Only plain spaces as whitespace, never two in a row. */
  predicate SingleSpaced(t: string) {
    && (forall i :: 0 <= i < |t| ==> IsSpace(t[i]) ==> t[i] == ' ')
    && (forall i :: 0 <= i < |t| - 1 ==> !(t[i] == ' ' && t[i + 1] == ' '))
  }

  /** `re.sub(r"\s+", " ", l)`: every maximal run of whitespace becomes one
      space. */
  function CollapseSpaces(l: string): (r: string)
    ensures SingleSpaced(r)
    ensures r != [] <==> l != []
    ensures r != [] ==> (IsSpace(r[0]) <==> IsSpace(l[0]))
    decreases |l|
  {
    if l == [] then []
    else if IsSpace(l[0]) then " " + CollapseSpaces(l[LeadingSpaces(l)..])
    else [l[0]] + CollapseSpaces(l[1..])
  }

  /** One line as `_normalize_spaces` cleans it: runs of whitespace collapsed,
      then stripped. */
  function CleanLine(l: string): (r: string)
    ensures Trimmed(r) && SingleSpaced(r)
  {
    var c := CollapseSpaces(l);
    StripSlice(c);
    if LeadingSpaces(c) == |c| then Strip(c)
    else
      SingleSpacedInfix(c, LeadingSpaces(c), |c| - TrailingSpaces(c));
      Strip(c)
  }

  lemma SingleSpacedInfix(c: string, i: nat, j: nat)
    requires SingleSpaced(c) && i <= j <= |c|
    ensures SingleSpaced(c[i..j])
  {
    var r := c[i..j];
    assert forall m :: 0 <= m < |r| ==> r[m] == c[i + m];
  }

  function CleanLines(parts: seq<string>): (r: seq<string>)
    ensures |r| == |parts|
    ensures forall i :: 0 <= i < |r| ==> Trimmed(r[i]) && SingleSpaced(r[i])
  {
    seq(|parts|, i requires 0 <= i < |parts| => CleanLine(parts[i]))
  }

  /** `re.sub(r"[\n\r]+", "\n", t)`: every maximal run of line breaks becomes
      one newline. */
  function CollapseBreaks(t: string): (r: string)
    ensures r != [] <==> t != []
    ensures r != [] ==> r[0] == (if IsBreak(t[0]) then '\n' else t[0])
    ensures '\r' !in r
    ensures forall i :: 0 <= i < |r| - 1 ==> !(r[i] == '\n' && r[i + 1] == '\n')
    decreases |t|
  {
    if t == [] then []
    else if IsBreak(t[0]) then "\n" + CollapseBreaks(t[BreakRun(t)..])
    else [t[0]] + CollapseBreaks(t[1..])
  }

  /** `_normalize_spaces`. */
  function NormalizeSpaces(s: string): (r: string)
    ensures '\r' !in r
    ensures !Contains(r, "\n\n") && !Contains(r, "  ")
    ensures !Contains(r, " \n") && !Contains(r, "\n ")
    ensures forall i :: 0 <= i < |r| ==> IsSpace(r[i]) ==> r[i] == ' ' || r[i] == '\n'
  {
    var t := Join("\n", CleanLines(SplitLines(s)));
    JoinIsPaired(CleanLines(SplitLines(s)));
    var r := CollapseBreaks(t);
    CollapseKeepsPaired(t);
    TidyShapes(r);
    r
  }

  // Shapes of the text between the stages.

  predicate Gap(c: char) {
    c == ' ' || c == '\n'
  }

  /** Whitespace is only spaces and newlines, and two of them meet only as
      two newlines. */
  predicate Paired(t: string) {
    && (forall i :: 0 <= i < |t| ==> IsSpace(t[i]) ==> Gap(t[i]))
    && (forall i :: 0 <= i < |t| - 1 ==> Gap(t[i]) && Gap(t[i + 1]) ==> t[i] == '\n' && t[i + 1] == '\n')
  }

  /** Paired, and neither end is a space. */
  predicate Joined(t: string) {
    Paired(t) && (t != [] ==> t[0] != ' ' && t[|t| - 1] != ' ')
  }

  /** Whitespace is only spaces and newlines, and never two in a row. */
  predicate Tidy(t: string) {
    && (forall i :: 0 <= i < |t| ==> IsSpace(t[i]) ==> Gap(t[i]))
    && (forall i :: 0 <= i < |t| - 1 ==> !(Gap(t[i]) && Gap(t[i + 1])))
  }

  lemma CleanIsJoined(l: string)
    requires Trimmed(l) && SingleSpaced(l)
    ensures Joined(l)
  {
  }

  lemma JoinedGlue(a: string, b: string)
    requires Joined(a) && Joined(b)
    ensures Joined(a + "\n" + b)
  {
    var t := a + "\n" + b;
    forall i | 0 <= i < |t| - 1 && Gap(t[i]) && Gap(t[i + 1])
      ensures t[i] == '\n' && t[i + 1] == '\n'
    {
      if i < |a| - 1 {
        assert t[i] == a[i] && t[i + 1] == a[i + 1];
      } else if i == |a| - 1 {
        assert t[i] == a[|a| - 1];
      } else if i == |a| {
        assert t[i + 1] == b[0];
      } else {
        assert t[i] == b[i - |a| - 1] && t[i + 1] == b[i - |a|];
      }
    }
    forall i | 0 <= i < |t| && IsSpace(t[i]) ensures Gap(t[i]) {
      if i < |a| { assert t[i] == a[i]; } else if i > |a| { assert t[i] == b[i - |a| - 1]; }
    }
  }

  /** Joining clean lines with newlines gives text whose only double
      whitespace is a blank line. */
  lemma {:induction false} JoinIsPaired(parts: seq<string>)
    requires forall i :: 0 <= i < |parts| ==> Trimmed(parts[i]) && SingleSpaced(parts[i])
    ensures Joined(Join("\n", parts))
  {
    if |parts| == 1 {
      CleanIsJoined(parts[0]);
    } else if |parts| > 1 {
      CleanIsJoined(parts[0]);
      JoinIsPaired(parts[1..]);
      JoinedGlue(parts[0], Join("\n", parts[1..]));
    }
  }

  /** Collapsing newline runs leaves no two whitespace characters together. */
  lemma {:induction false} CollapseKeepsPaired(t: string)
    requires Paired(t)
    ensures Tidy(CollapseBreaks(t))
    decreases |t|
  {
    if t == [] {
    } else if IsBreak(t[0]) {
      var k := BreakRun(t);
      var u := t[k..];
      assert forall i :: 0 <= i < |u| ==> u[i] == t[k + i];
      CollapseKeepsPaired(u);
      if u != [] {
        assert t[k - 1] == '\n';
        assert !Gap(u[0]);
      }
    } else {
      var u := t[1..];
      assert forall i :: 0 <= i < |u| ==> u[i] == t[i + 1];
      CollapseKeepsPaired(u);
      if u != [] && Gap(t[0]) {
        assert !Gap(t[1]);
      }
    }
  }

  lemma TidyShapes(r: string)
    requires Tidy(r)
    ensures '\r' !in r
    ensures !Contains(r, "\n\n") && !Contains(r, "  ")
    ensures !Contains(r, " \n") && !Contains(r, "\n ")
  {
    NoGapPair(r, '\n', '\n');
    NoGapPair(r, ' ', ' ');
    NoGapPair(r, ' ', '\n');
    NoGapPair(r, '\n', ' ');
  }

  lemma NoGapPair(r: string, a: char, b: char)
    requires Tidy(r) && Gap(a) && Gap(b)
    ensures !Contains(r, [a, b])
  {
    forall i | 0 <= i <= |r| - 2 ensures !OccursAt(r, [a, b], i) {
      assert r[i..i + 2] == [r[i], r[i + 1]];
    }
  }

  // Only whitespace changes.

  /** The non-whitespace characters of `s`, in order. */
  function Visible(s: string): string {
    if s == [] then "" else (if IsSpace(s[0]) then "" else [s[0]]) + Visible(s[1..])
  }

  lemma {:induction false} VisibleConcat(a: string, b: string)
    ensures Visible(a + b) == Visible(a) + Visible(b)
  {
    if a != [] {
      assert (a + b)[0] == a[0] && (a + b)[1..] == a[1..] + b;
      VisibleConcat(a[1..], b);
    } else {
      assert a + b == b;
    }
  }

  function VisibleOfAll(parts: seq<string>): string {
    if parts == [] then "" else Visible(parts[0]) + VisibleOfAll(parts[1..])
  }

  lemma {:induction false} AllSpaceInvisible(s: string)
    requires AllSpace(s)
    ensures Visible(s) == ""
  {
    if s != [] {
      AllSpaceInvisible(s[1..]);
    }
  }

  lemma {:induction false} CollapseSpacesVisible(l: string)
    ensures Visible(CollapseSpaces(l)) == Visible(l)
    decreases |l|
  {
    if l != [] {
      if IsSpace(l[0]) {
        var k := LeadingSpaces(l);
        assert l == l[..k] + l[k..];
        VisibleConcat(l[..k], l[k..]);
        AllSpaceInvisible(l[..k]);
        CollapseSpacesVisible(l[k..]);
        VisibleConcat(" ", CollapseSpaces(l[k..]));
      } else {
        CollapseSpacesVisible(l[1..]);
        VisibleConcat([l[0]], CollapseSpaces(l[1..]));
      }
    }
  }

  lemma StripVisible(s: string)
    ensures Visible(Strip(s)) == Visible(s)
  {
    var a, b := LeadingSpaces(s), TrailingSpaces(s);
    StripSlice(s);
    LeadingSpacesAll(s);
    if a == |s| {
      assert s[..a] == s;
      AllSpaceInvisible(s);
    } else {
      TrailingSpacesAll(s);
      var head, r, tail := s[..a], s[a..|s| - b], s[|s| - b..];
      assert s == (head + r) + tail;
      VisibleConcat(head + r, tail);
      VisibleConcat(head, r);
      AllSpaceInvisible(head);
      AllSpaceInvisible(tail);
      calc {
        Visible(s);
        (Visible(head) + Visible(r)) + Visible(tail);
        ("" + Visible(r)) + "";
        { assert ("" + Visible(r)) + "" == Visible(r); }
        Visible(r);
      }
    }
  }


  lemma {:induction false} SplitLinesVisible(s: string)
    ensures VisibleOfAll(SplitLines(s)) == Visible(s)
    decreases |s|
  {
    if s == [] {
    } else if IsBreak(s[0]) {
      var k := BreakRun(s);
      SplitLinesVisible(s[k..]);
      BreakRunInvisible(s);
    } else {
      SplitLinesVisible(s[1..]);
      SplitLinesVisibleStep(s);
    }
  }

  lemma BreakRunInvisible(s: string)
    ensures Visible(s) == Visible(s[BreakRun(s)..])
  {
    var k := BreakRun(s);
    assert s == s[..k] + s[k..];
    VisibleConcat(s[..k], s[k..]);
    AllSpaceInvisible(s[..k]);
  }

  lemma SplitLinesVisibleStep(s: string)
    requires s != [] && !IsBreak(s[0])
    requires VisibleOfAll(SplitLines(s[1..])) == Visible(s[1..])
    ensures VisibleOfAll(SplitLines(s)) == Visible(s)
  {
    var rest := SplitLines(s[1..]);
    assert SplitLines(s) == [[s[0]] + rest[0]] + rest[1..];
    VisibleOfAllGrowHead(s[0], rest);
    VisibleConcat([s[0]], s[1..]);
    assert [s[0]] + s[1..] == s;
  }

  lemma VisibleOfAllGrowHead(c: char, parts: seq<string>)
    requires parts != []
    ensures VisibleOfAll([[c] + parts[0]] + parts[1..]) == Visible([c]) + VisibleOfAll(parts)
  {
    var head := [c] + parts[0];
    var grown := [head] + parts[1..];
    assert grown[0] == head;
    assert grown[1..] == parts[1..];
    var x, y, z := Visible([c]), Visible(parts[0]), VisibleOfAll(parts[1..]);
    calc {
      VisibleOfAll(grown);
      Visible(head) + z;
      { VisibleConcat([c], parts[0]); }
      (x + y) + z;
      x + (y + z);
      x + VisibleOfAll(parts);
    }
  }




  lemma {:induction false} CleanLinesVisible(parts: seq<string>)
    ensures VisibleOfAll(CleanLines(parts)) == VisibleOfAll(parts)
  {
    if parts != [] {
      CollapseSpacesVisible(parts[0]);
      StripVisible(CollapseSpaces(parts[0]));
      assert CleanLines(parts)[1..] == CleanLines(parts[1..]);
      CleanLinesVisible(parts[1..]);
    }
  }

  lemma {:induction false} JoinVisible(parts: seq<string>)
    ensures Visible(Join("\n", parts)) == VisibleOfAll(parts)
  {
    if |parts| == 1 {
      assert parts[1..] == [];
    } else if |parts| > 1 {
      JoinVisible(parts[1..]);
      VisibleConcat(parts[0] + "\n", Join("\n", parts[1..]));
      VisibleConcat(parts[0], "\n");
    }
  }

  lemma {:induction false} CollapseBreaksVisible(t: string)
    ensures Visible(CollapseBreaks(t)) == Visible(t)
    decreases |t|
  {
    if t != [] {
      if IsBreak(t[0]) {
        var k := BreakRun(t);
        assert t == t[..k] + t[k..];
        VisibleConcat(t[..k], t[k..]);
        AllSpaceInvisible(t[..k]);
        CollapseBreaksVisible(t[k..]);
        VisibleConcat("\n", CollapseBreaks(t[k..]));
      } else {
        CollapseBreaksVisible(t[1..]);
        VisibleConcat([t[0]], CollapseBreaks(t[1..]));
        VisibleConcat([t[0]], t[1..]);
        assert t == [t[0]] + t[1..];
      }
    }
  }

  /** `_normalize_spaces` only rearranges whitespace: the other characters
      come out unchanged and in order. */
  lemma NormalizeKeepsText(s: string)
    ensures Visible(NormalizeSpaces(s)) == Visible(s)
  {
    var parts := SplitLines(s);
    SplitLinesVisible(s);
    CleanLinesVisible(parts);
    JoinVisible(CleanLines(parts));
    CollapseBreaksVisible(Join("\n", CleanLines(parts)));
  }

  // ---------------------------------------------------------------------
  // format_repeater

  /** How an f-string shows a text column: `None` for SQL NULL. */
  function Show(s: Option<string>): string {
    if s.None? then "None" else s.value
  }

  /** A whole number of hertz as megahertz: `frequency / 1000000`. */
  function MHz(hz: int): real {
    hz as real / 1000000.0
  }

  /** The optional `tone: ...` item of a downlink or uplink list. */
  function Tone(t: Option<string>): seq<string> {
    if IsNullOrWhitespace(t) then [] else ["tone: " + Strip(t.value)]
  }

  /** `", ".join` of a frequency and its optional tone, as it reads. */
  function ToneText(t: Option<string>): string {
    if IsNullOrWhitespace(t) then "" else ", tone: " + Strip(t.value)
  }

  /** The first two lines: callsign and city. */
  function Heading(rep: Repeater): string {
    "## " + Show(rep.row.callsign) + "\n" + Show(rep.row.city) + "\n"
  }

  /** The block of facts after the optional distance line. */
  function Facts(row: Record): string {
    var downlink := [Fixed(MHz(row.frequency), 5) + " MHz"] + Tone(row.decode);
    var uplink := [Fixed(MHz(row.frequency + row.offset), 5) + " MHz"] + Tone(row.encode);
    "Mode: " + Show(row.mode) + ("\nDownlink: " + Join(", ", downlink)) + ("\nUplink: " + Join(", ", uplink))
      + ("\nOffset: " + Fixed(MHz(row.offset), 3) + " MHz\n")
  }

  function DistanceLine(distance: Option<real>): string {
    if distance.Some? then "Distance: " + Fixed(distance.value, 3) + " km\n" else ""
  }

  function Note(description: Option<string>): string {
    if !IsNullOrWhitespace(description) then "\n" + NormalizeSpaces(description.value) else ""
  }

  /** `format_repeater`. */
  function FormatRepeater(rep: Repeater): string {
    Heading(rep) + DistanceLine(rep.distance) + Facts(rep.row) + Note(rep.row.description)
  }

  /** `format_repeater` starts with the heading, followed by a distance
      line exactly when a distance is known. */
  lemma FormatRepeaterDistance(rep: Repeater)
    ensures StartsWith(FormatRepeater(rep), Heading(rep))
    ensures var rest := FormatRepeater(rep)[|Heading(rep)|..];
      && (rep.distance.Some? <==> StartsWith(rest, "Distance: "))
      && (rep.distance.Some? ==> StartsWith(rest, "Distance: " + Fixed(rep.distance.value, 3) + " km\nMode: "))
      && (rep.distance.None? ==> StartsWith(rest, "Mode: "))
  {
    FactsShape(rep.row);
    var shown := if rep.distance.Some? then Some(Fixed(rep.distance.value, 3)) else None;
    assert DistanceLine(rep.distance) == if shown.Some? then "Distance: " + shown.value + " km\n" else "";
    HeadThenDistance(Heading(rep), shown, Facts(rep.row), Note(rep.row.description));
  }

  lemma HeadThenDistance(head: string, shown: Option<string>, facts: string, note: string)
    requires StartsWith(facts, "Mode: ")
    ensures var dist := if shown.Some? then "Distance: " + shown.value + " km\n" else "";
      var r := head + dist + facts + note;
      && StartsWith(r, head)
      && var rest := r[|head|..];
      && (shown.Some? <==> StartsWith(rest, "Distance: "))
      && (shown.Some? ==> StartsWith(rest, "Distance: " + shown.value + " km\nMode: "))
      && (shown.None? ==> StartsWith(rest, "Mode: "))
  {
    var dist := if shown.Some? then "Distance: " + shown.value + " km\n" else "";
    var tail := facts + note;
    var r := head + dist + facts + note;
    assert r == head + (dist + tail);
    assert r[..|head|] == head && r[|head|..] == dist + tail;
    assert tail[..6] == facts[..6];
    if shown.Some? {
      LabelledLine(shown.value, tail);
    } else {
      assert dist + tail == tail;
      assert tail[1] != "Distance: "[1];
    }
  }


  /** The downlink line shows the frequency in megahertz with five decimals,
      followed by the receive tone exactly when that tone is not blank. */
  lemma FormatRepeaterDownlink(rep: Repeater)
    ensures Contains(FormatRepeater(rep),
      "\nDownlink: " + Fixed(MHz(rep.row.frequency), 5) + " MHz" + ToneText(rep.row.decode) + "\nUplink: ")
  {
    FactsDownlink(rep.row);
    ContainsWithin(Heading(rep) + DistanceLine(rep.distance), Facts(rep.row), Note(rep.row.description),
      "\nDownlink: " + Fixed(MHz(rep.row.frequency), 5) + " MHz" + ToneText(rep.row.decode) + "\nUplink: ");
  }

  /** The uplink line shows the frequency plus the offset, followed by the
      transmit tone exactly when that tone is not blank. */
  lemma FormatRepeaterUplink(rep: Repeater)
    ensures Contains(FormatRepeater(rep),
      "\nUplink: " + Fixed(MHz(rep.row.frequency + rep.row.offset), 5) + " MHz" + ToneText(rep.row.encode) + "\nOffset: ")
  {
    FactsUplink(rep.row);
    ContainsWithin(Heading(rep) + DistanceLine(rep.distance), Facts(rep.row), Note(rep.row.description),
      "\nUplink: " + Fixed(MHz(rep.row.frequency + rep.row.offset), 5) + " MHz" + ToneText(rep.row.encode) + "\nOffset: ");
  }

  /** The offset line shows the offset in megahertz with three decimals. */
  lemma FormatRepeaterOffset(rep: Repeater)
    ensures Contains(FormatRepeater(rep), "\nOffset: " + Fixed(MHz(rep.row.offset), 3) + " MHz\n")
  {
    FactsOffset(rep.row);
    ContainsWithin(Heading(rep) + DistanceLine(rep.distance), Facts(rep.row), Note(rep.row.description),
      "\nOffset: " + Fixed(MHz(rep.row.offset), 3) + " MHz\n");
  }

  /** The text ends with the offset line, then, when the description is not
      blank, an empty line and the description with its spacing cleaned up. */
  lemma FormatRepeaterDescription(rep: Repeater)
    ensures IsNullOrWhitespace(rep.row.description) ==> EndsWith(FormatRepeater(rep), " MHz\n")
    ensures !IsNullOrWhitespace(rep.row.description) ==>
      EndsWith(FormatRepeater(rep), " MHz\n\n" + NormalizeSpaces(rep.row.description.value))
  {
    var row := rep.row;
    var note := Note(row.description);
    FactsShape(row);
    TextLayout(Heading(rep), DistanceLine(rep.distance), Facts(row), note);
    if !IsNullOrWhitespace(row.description) {
      var text := NormalizeSpaces(row.description.value);
      assert note == "\n" + text;
      NoteSuffix(text);
    } else {
      assert " MHz\n" + note == " MHz\n";
    }
  }

  /** The facts block with the joined lists written out. */
  lemma FactsLayout(row: Record)
    ensures Facts(row) == "Mode: " + Show(row.mode)
      + ("\nDownlink: " + (Fixed(MHz(row.frequency), 5) + " MHz" + ToneText(row.decode)))
      + ("\nUplink: " + (Fixed(MHz(row.frequency + row.offset), 5) + " MHz" + ToneText(row.encode)))
      + ("\nOffset: " + Fixed(MHz(row.offset), 3) + " MHz\n")
  {
    ToneJoin(Fixed(MHz(row.frequency), 5) + " MHz", row.decode);
    ToneJoin(Fixed(MHz(row.frequency + row.offset), 5) + " MHz", row.encode);
  }

  lemma FactsDownlink(row: Record)
    ensures Contains(Facts(row), "\nDownlink: " + Fixed(MHz(row.frequency), 5) + " MHz" + ToneText(row.decode) + "\nUplink: ")
  {
    FactsLayout(row);
    BlockDownlink("Mode: " + Show(row.mode), Fixed(MHz(row.frequency), 5), ToneText(row.decode),
      Fixed(MHz(row.frequency + row.offset), 5), ToneText(row.encode), Fixed(MHz(row.offset), 3));
  }

  lemma FactsUplink(row: Record)
    ensures Contains(Facts(row), "\nUplink: " + Fixed(MHz(row.frequency + row.offset), 5) + " MHz" + ToneText(row.encode) + "\nOffset: ")
  {
    FactsLayout(row);
    BlockUplink("Mode: " + Show(row.mode), Fixed(MHz(row.frequency), 5), ToneText(row.decode),
      Fixed(MHz(row.frequency + row.offset), 5), ToneText(row.encode), Fixed(MHz(row.offset), 3));
  }

  lemma FactsOffset(row: Record)
    ensures Contains(Facts(row), "\nOffset: " + Fixed(MHz(row.offset), 3) + " MHz\n")
  {
    FactsLayout(row);
    BlockOffset("Mode: " + Show(row.mode), Fixed(MHz(row.frequency), 5), ToneText(row.decode),
      Fixed(MHz(row.frequency + row.offset), 5), ToneText(row.encode), Fixed(MHz(row.offset), 3));
  }

  lemma BlockDownlink(mode: string, fd: string, td: string, fu: string, tu: string, off: string)
    ensures Contains(mode + ("\nDownlink: " + (fd + " MHz" + td)) + ("\nUplink: " + (fu + " MHz" + tu))
        + ("\nOffset: " + off + " MHz\n"), "\nDownlink: " + fd + " MHz" + td + "\nUplink: ")
  {
    var down, up := fd + " MHz" + td, fu + " MHz" + tu;
    var d, u, o := "\nDownlink: " + down, "\nUplink: " + up, "\nOffset: " + off + " MHz\n";
    assert "\nDownlink: " + fd + " MHz" + td + "\nUplink: " == d + "\nUplink: ";
    assert mode + d + u + o == mode + (d + "\nUplink: ") + (up + o);
    InfixContained(mode, d + "\nUplink: ", up + o);
  }

  lemma BlockUplink(mode: string, fd: string, td: string, fu: string, tu: string, off: string)
    ensures Contains(mode + ("\nDownlink: " + (fd + " MHz" + td)) + ("\nUplink: " + (fu + " MHz" + tu))
        + ("\nOffset: " + off + " MHz\n"), "\nUplink: " + fu + " MHz" + tu + "\nOffset: ")
  {
    var down, up := fd + " MHz" + td, fu + " MHz" + tu;
    var d, u, o := "\nDownlink: " + down, "\nUplink: " + up, "\nOffset: " + off + " MHz\n";
    assert "\nUplink: " + fu + " MHz" + tu + "\nOffset: " == u + "\nOffset: ";
    assert mode + d + u + o == (mode + d) + (u + "\nOffset: ") + (off + " MHz\n");
    InfixContained(mode + d, u + "\nOffset: ", off + " MHz\n");
  }

  lemma BlockOffset(mode: string, fd: string, td: string, fu: string, tu: string, off: string)
    ensures Contains(mode + ("\nDownlink: " + (fd + " MHz" + td)) + ("\nUplink: " + (fu + " MHz" + tu))
        + ("\nOffset: " + off + " MHz\n"), "\nOffset: " + off + " MHz\n")
  {
    var down, up := fd + " MHz" + td, fu + " MHz" + tu;
    var d, u, o := "\nDownlink: " + down, "\nUplink: " + up, "\nOffset: " + off + " MHz\n";
    assert mode + d + u + o == (mode + d + u) + o + "";
    InfixContained(mode + d + u, o, "");
  }

  /** The block of facts starts with its mode line and ends with the offset line. */
  lemma FactsShape(row: Record)
    ensures StartsWith(Facts(row), "Mode: ") && EndsWith(Facts(row), " MHz\n")
  {
    FactsLayout(row);
    BlockShape("Mode: " + Show(row.mode), Fixed(MHz(row.frequency), 5), ToneText(row.decode),
      Fixed(MHz(row.frequency + row.offset), 5), ToneText(row.encode), Fixed(MHz(row.offset), 3));
  }

  lemma NoteSuffix(s: string)
    ensures " MHz\n" + ("\n" + s) == " MHz\n\n" + s
  {
  }

  /** A distance line followed by the mode line. */
  lemma LabelledLine(x: string, tail: string)
    requires StartsWith(tail, "Mode: ")
    ensures var line := "Distance: " + x + " km\n";
      StartsWith(line + tail, "Distance: ") && StartsWith(line + tail, line + "Mode: ")
  {
    var line := "Distance: " + x + " km\n";
    assert (line + tail)[..|line| + 6] == line + tail[..6];
    assert (line + tail)[..10] == line[..10];
  }

  lemma ToneJoin(first: string, t: Option<string>)
    ensures Join(", ", [first] + Tone(t)) == first + ToneText(t)
  {
    if !IsNullOrWhitespace(t) {
      var tone := "tone: " + Strip(t.value);
      assert [first] + Tone(t) == [first, tone];
      assert [first, tone][1..] == [tone];
      assert Join(", ", [first, tone]) == first + ", " + tone;
    } else {
      assert [first] + Tone(t) == [first];
    }
  }

  /** Where each line sits in the block after the heading. */
  lemma BlockShape(mode: string, fd: string, td: string, fu: string, tu: string, off: string)
    requires StartsWith(mode, "Mode: ")
    ensures var block := mode + ("\nDownlink: " + (fd + " MHz" + td)) + ("\nUplink: " + (fu + " MHz" + tu))
        + ("\nOffset: " + off + " MHz\n");
      StartsWith(block, "Mode: ") && EndsWith(block, " MHz\n")
  {
    var d, u, o := "\nDownlink: " + (fd + " MHz" + td), "\nUplink: " + (fu + " MHz" + tu), "\nOffset: " + off + " MHz\n";
    var block := mode + d + u + o;
    assert block[..6] == mode[..6];
    assert block[|block| - 5..] == o[|o| - 5..];
  }

  /** Heading, optional distance line, the block of facts, optional note. */
  lemma TextLayout(head: string, dist: string, block: string, note: string)
    ensures StartsWith(head + dist + block + note, head)
    ensures (head + dist + block + note)[|head|..] == dist + block + note
    ensures EndsWith(block, " MHz\n") ==> EndsWith(head + dist + block + note, " MHz\n" + note)
  {
    var r := head + dist + block + note;
    assert r[..|head|] == head;
    assert r == head + (dist + block + note);
    if EndsWith(block, " MHz\n") {
      assert r[|r| - |note| - 5..] == block[|block| - 5..] + note;
    }
  }
}
