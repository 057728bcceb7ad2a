/** Breaking the units of a text into lines, and choosing the size of the type (composition.py). */
module TextWrap {
  import opened Prelude
  import opened TextUnits

  /** The width of a rendered text; the font itself is not part of this model. */
  type Width = string -> real

  /** units[i..j] on one line. */
  function LineText(units: seq<TextUnit>, i: nat, j: nat): (line: string)
    requires i < j <= |units|
  {
    if j == i + 1 then units[i].text
    else LineText(units, i, j - 1) + Gap(units[j - 1]) + units[j - 1].text
  }

  predicate Fits(width: Width, maximum: int, units: seq<TextUnit>, i: nat, j: nat)
    requires i < j <= |units|
  {
    width(LineText(units, i, j)) <= maximum as real
  }

  /** Where line k ends when the lines start at the given units and the last one ends before unit i. */
  function End(starts: seq<nat>, k: nat, i: nat): nat
    requires k < |starts|
  {
    if k + 1 < |starts| then starts[k + 1] else i
  }

  /** The units before i, cut into non-empty lines. */
  ghost predicate Cuts(starts: seq<nat>, i: nat) {
    && |starts| > 0 && starts[0] == 0
    && (forall k :: 0 <= k < |starts| ==> starts[k] < i)
    && (forall j, k :: 0 <= j < k < |starts| ==> starts[j] < starts[k])
  }

  ghost predicate IsLines(units: seq<TextUnit>, starts: seq<nat>, i: nat, lines: seq<string>)
    requires Cuts(starts, i) && i <= |units|
  {
    && |lines| == |starts|
    && forall k {:trigger lines[k]} :: 0 <= k < |starts| ==>
      lines[k] == LineText(units, starts[k], End(starts, k, i))
  }

  /** Some way to set the units: every line fits. */
  ghost predicate Fitting(width: Width, maximum: int, units: seq<TextUnit>, starts: seq<nat>) {
    && Cuts(starts, |units|)
    && forall k {:trigger End(starts, k, |units|)} :: 0 <= k < |starts| ==>
      Fits(width, maximum, units, starts[k], End(starts, k, |units|))
  }

  /** The first i units set greedily: a line ends only before a unit that would not have fitted on it. */
  ghost predicate Greedy(width: Width, maximum: int, units: seq<TextUnit>, starts: seq<nat>, i: nat) {
    && Cuts(starts, i) && i <= |units|
    && (forall k, j {:trigger Fits(width, maximum, units, starts[k], j)} ::
      0 <= k < |starts| && starts[k] < j <= End(starts, k, i) ==> Fits(width, maximum, units, starts[k], j))
    && (forall k {:trigger End(starts, k, i)} :: 0 <= k < |starts| - 1 ==>
      !Fits(width, maximum, units, starts[k], End(starts, k, i) + 1))
  }

  /** Lines that are set greedily. */
  ghost predicate Wraps(width: Width, maximum: int, units: seq<TextUnit>, lines: seq<string>) {
    exists starts :: Greedy(width, maximum, units, starts, |units|) && IsLines(units, starts, |units|, lines)
  }

  /** A piece of a text is never wider than the text. */
  ghost predicate Monotone(width: Width) {
    forall s: string, i, j :: 0 <= i <= j <= |s| ==> width(s[i..j]) <= width(s)
  }

  // Greedy lines are determined

  lemma LineBounds(width: Width, maximum: int, units: seq<TextUnit>, starts: seq<nat>, i: nat, k: nat)
    requires Greedy(width, maximum, units, starts, i) && k < |starts|
    ensures starts[0] == 0 && starts[k] < End(starts, k, i) <= i <= |units|
  {
    hide Fits;
  }

  lemma LineFits(width: Width, maximum: int, units: seq<TextUnit>, starts: seq<nat>, i: nat, k: nat, j: nat)
    requires Greedy(width, maximum, units, starts, i) && k < |starts| && starts[k] < j <= End(starts, k, i)
    ensures j <= |units| && Fits(width, maximum, units, starts[k], j)
  {
    hide Fits;
  }

  lemma LineIsFull(width: Width, maximum: int, units: seq<TextUnit>, starts: seq<nat>, i: nat, k: nat)
    requires Greedy(width, maximum, units, starts, i) && k + 1 < |starts|
    ensures starts[k] < starts[k + 1] < |units| && !Fits(width, maximum, units, starts[k], starts[k + 1] + 1)
  {
    hide Fits;
    assert starts[k] < End(starts, k, i);
    assert starts[k + 1] < End(starts, k + 1, i);
  }

  /** Of two greedy lines with the same start, one that is followed by another line is the longer one. */
  lemma EndsAlike(width: Width, maximum: int, units: seq<TextUnit>, a: seq<nat>, i: nat, b: seq<nat>, j: nat, k: nat)
    requires Greedy(width, maximum, units, a, i) && Greedy(width, maximum, units, b, j)
    requires k < |a| && k + 1 < |b| && a[k] == b[k]
    ensures End(a, k, i) <= b[k + 1]
  {
    hide Greedy, Fits;
    LineIsFull(width, maximum, units, b, j, k);
    if End(a, k, i) > b[k + 1] {
      LineFits(width, maximum, units, a, i, k, b[k + 1] + 1);
    }
  }

  /** Whatever is set greedily up to i begins every greedy setting, whose next line starts at i or later. */
  lemma {:induction false} Forced(width: Width, maximum: int, units: seq<TextUnit>, starts: seq<nat>, i: nat,
                                  all: seq<nat>, k: nat)
    requires Greedy(width, maximum, units, starts, i) && Greedy(width, maximum, units, all, |units|)
    requires k < |starts|
    ensures k < |all| && all[k] == starts[k]
    ensures End(all, k, |units|) >= End(starts, k, i)
    decreases k
  {
    hide Greedy;
    LineBounds(width, maximum, units, starts, i, k);
    if k > 0 {
      Forced(width, maximum, units, starts, i, all, k - 1);
      if |all| == k {
        LineIsFull(width, maximum, units, starts, i, k - 1);
        LineFits(width, maximum, units, all, |units|, k - 1, starts[k] + 1);
      } else {
        EndsAlike(width, maximum, units, all, |units|, starts, i, k - 1);
      }
    } else {
      hide Fits;
      assert |all| > 0 by {
        NotEmpty(width, maximum, units, all);
      }
      LineBounds(width, maximum, units, all, |units|, 0);
    }
    if k + 1 < |all| {
      EndsAlike(width, maximum, units, starts, i, all, |units|, k);
    }
  }

  lemma NotEmpty(width: Width, maximum: int, units: seq<TextUnit>, starts: seq<nat>)
    requires Greedy(width, maximum, units, starts, |units|)
    ensures |starts| > 0
  {
    hide Fits;
  }

  lemma GreedyUnique(width: Width, maximum: int, units: seq<TextUnit>, a: seq<nat>, b: seq<nat>)
    requires Greedy(width, maximum, units, a, |units|) && Greedy(width, maximum, units, b, |units|)
    ensures a == b
  {
    hide Greedy;
    NotEmpty(width, maximum, units, a);
    NotEmpty(width, maximum, units, b);
    forall k | 0 <= k < |a|
      ensures k < |b| && b[k] == a[k]
    {
      Forced(width, maximum, units, a, |units|, b, k);
    }
    Forced(width, maximum, units, a, |units|, b, |a| - 1);
    Forced(width, maximum, units, b, |units|, a, |b| - 1);
  }

  lemma LinesUnique(width: Width, maximum: int, units: seq<TextUnit>, a: seq<string>, b: seq<string>)
    requires Wraps(width, maximum, units, a) && Wraps(width, maximum, units, b)
    ensures a == b
  {
    var sa :| Greedy(width, maximum, units, sa, |units|) && IsLines(units, sa, |units|, a);
    var sb :| Greedy(width, maximum, units, sb, |units|) && IsLines(units, sb, |units|, b);
    GreedyUnique(width, maximum, units, sa, sb);
  }

  // Greedy lines are complete and fewest

  lemma {:induction false} LineSuffix(units: seq<TextUnit>, a: nat, c: nat, d: nat)
    requires a <= c < d <= |units|
    ensures var s, t := LineText(units, a, d), LineText(units, c, d); |t| <= |s| && s[|s| - |t|..] == t
  {
    if d > c + 1 {
      LineSuffix(units, a, c, d - 1);
    } else if a < c {
      assert LineText(units, a, d) == LineText(units, a, c) + Gap(units[c]) + units[c].text;
    }
  }

  lemma {:induction false} LinePrefix(units: seq<TextUnit>, a: nat, d: nat, b: nat)
    requires a < d <= b <= |units|
    ensures LineText(units, a, d) <= LineText(units, a, b)
    decreases b
  {
    if d < b {
      LinePrefix(units, a, d, b - 1);
    }
  }

  /** Part of a line that fits also fits. */
  lemma PieceFits(width: Width, maximum: int, units: seq<TextUnit>, a: nat, b: nat, c: nat, d: nat)
    requires Monotone(width) && a <= c < d <= b <= |units|
    requires Fits(width, maximum, units, a, b)
    ensures Fits(width, maximum, units, c, d)
  {
    var s, p, t := LineText(units, a, b), LineText(units, a, d), LineText(units, c, d);
    LinePrefix(units, a, d, b);
    LineSuffix(units, a, c, d);
    assert p == s[0..|p|];
    assert t == p[|p| - |t|..|p|];
  }

  lemma SettingFits(width: Width, maximum: int, units: seq<TextUnit>, starts: seq<nat>, k: nat)
    requires Fitting(width, maximum, units, starts) && k < |starts|
    ensures starts[0] == 0 && starts[k] < End(starts, k, |units|) <= |units|
    ensures Fits(width, maximum, units, starts[k], End(starts, k, |units|))
  {
    hide Fits;
  }

  lemma EndsAhead(width: Width, maximum: int, units: seq<TextUnit>, greedy: seq<nat>, other: seq<nat>, k: nat)
    requires Monotone(width)
    requires Greedy(width, maximum, units, greedy, |units|) && Fitting(width, maximum, units, other)
    requires k < |greedy| && k < |other| && other[k] <= greedy[k]
    ensures End(other, k, |units|) <= End(greedy, k, |units|)
  {
    hide Greedy, Fitting, Fits, Monotone;
    SettingFits(width, maximum, units, other, k);
    LineBounds(width, maximum, units, greedy, |units|, k);
    var end, end' := End(greedy, k, |units|), End(other, k, |units|);
    if end < end' {
      PieceFits(width, maximum, units, other[k], end', greedy[k], end + 1);
      LineIsFull(width, maximum, units, greedy, |units|, k);
    }
  }

  /** The greedy lines stay ahead of any other: their k-th line starts no earlier and ends no earlier. */
  lemma {:induction false} StaysAhead(width: Width, maximum: int, units: seq<TextUnit>, greedy: seq<nat>,
                                      other: seq<nat>, k: nat)
    requires Monotone(width)
    requires Greedy(width, maximum, units, greedy, |units|) && Fitting(width, maximum, units, other)
    requires k < |greedy|
    ensures k < |other| && other[k] <= greedy[k]
    ensures End(other, k, |units|) <= End(greedy, k, |units|)
    decreases k
  {
    hide Greedy, Fits, Monotone;
    if k > 0 {
      StaysAhead(width, maximum, units, greedy, other, k - 1);
      LineBounds(width, maximum, units, greedy, |units|, k);
    }
    EndsAhead(width, maximum, units, greedy, other, k);
  }

  /** Every unit fits on a line of its own. */
  ghost predicate EachFits(width: Width, maximum: int, units: seq<TextUnit>) {
    forall k :: 0 <= k < |units| ==> width(units[k].text) <= maximum as real
  }

  /** Then greedy setting can be continued to the end. */
  lemma {:induction false} Continue(width: Width, maximum: int, units: seq<TextUnit>, starts: seq<nat>, i: nat)
    returns (all: seq<nat>)
    requires EachFits(width, maximum, units)
    requires Greedy(width, maximum, units, starts, i)
    ensures Greedy(width, maximum, units, all, |units|)
    decreases |units| - i
  {
    hide Greedy, Fits;
    StartsBefore(width, maximum, units, starts, i);
    if i == |units| {
      all := starts;
    } else if Fits(width, maximum, units, starts[|starts| - 1], i + 1) {
      NextFits(width, maximum, units, starts, i);
      all := Continue(width, maximum, units, starts, i + 1);
    } else {
      OwnLine(width, maximum, units, i);
      NextBreaks(width, maximum, units, starts, i);
      all := Continue(width, maximum, units, starts + [i], i + 1);
    }
  }

  lemma OwnLine(width: Width, maximum: int, units: seq<TextUnit>, i: nat)
    requires i < |units|
    ensures Fits(width, maximum, units, i, i + 1) <==> width(units[i].text) <= maximum as real
  {
  }

  lemma StartsBefore(width: Width, maximum: int, units: seq<TextUnit>, starts: seq<nat>, i: nat)
    requires Greedy(width, maximum, units, starts, i)
    ensures |starts| > 0 && starts[|starts| - 1] < i <= |units|
  {
    hide Fits;
    assert starts[|starts| - 1] < End(starts, |starts| - 1, i);
  }

  lemma NextFits(width: Width, maximum: int, units: seq<TextUnit>, starts: seq<nat>, i: nat)
    requires Greedy(width, maximum, units, starts, i) && i < |units|
    requires Fits(width, maximum, units, starts[|starts| - 1], i + 1)
    ensures Greedy(width, maximum, units, starts, i + 1)
  {
    hide Fits;
    forall k, j | 0 <= k < |starts| && starts[k] < j <= End(starts, k, i + 1)
      ensures Fits(width, maximum, units, starts[k], j)
    {
      if j <= End(starts, k, i) {
        LineFits(width, maximum, units, starts, i, k, j);
      }
    }
    forall k {:trigger End(starts, k, i + 1)} | 0 <= k < |starts| - 1
      ensures !Fits(width, maximum, units, starts[k], End(starts, k, i + 1) + 1)
    {
      LineIsFull(width, maximum, units, starts, i, k);
    }
  }

  lemma CutsAppend(starts: seq<nat>, i: nat)
    requires Cuts(starts, i)
    ensures Cuts(starts + [i], i + 1)
    ensures End(starts + [i], |starts|, i + 1) == i + 1
    ensures forall k :: 0 <= k < |starts| ==> End(starts + [i], k, i + 1) == End(starts, k, i)
  {
    forall k | 0 <= k < |starts| + 1
      ensures (starts + [i])[k] < End(starts + [i], k, i + 1) <= i + 1
    {
      if k < |starts| {
        assert starts[k] < End(starts, k, i) <= i;
      }
    }
  }

  lemma BreakFits(width: Width, maximum: int, units: seq<TextUnit>, starts: seq<nat>, i: nat, k: nat, j: nat)
    requires Greedy(width, maximum, units, starts, i) && i < |units| && Fits(width, maximum, units, i, i + 1)
    requires k <= |starts| && (starts + [i])[k] < j <= End(starts + [i], k, i + 1)
    ensures Fits(width, maximum, units, (starts + [i])[k], j)
  {
    hide Greedy, Fits;
    if k < |starts| {
      LineFits(width, maximum, units, starts, i, k, j);
    }
  }

  lemma BreakIsFull(width: Width, maximum: int, units: seq<TextUnit>, starts: seq<nat>, i: nat, k: nat)
    requires Greedy(width, maximum, units, starts, i) && i < |units| && k < |starts|
    requires !Fits(width, maximum, units, starts[|starts| - 1], i + 1)
    ensures
      var more := starts + [i];
      var end := End(more, k, i + 1);
      more[k] <= end < |units| && !Fits(width, maximum, units, more[k], end + 1)
  {
    hide Greedy, Fits;
    LineBounds(width, maximum, units, starts, i, k);
    if k + 1 < |starts| {
      LineIsFull(width, maximum, units, starts, i, k);
    }
  }

  lemma NextBreaks(width: Width, maximum: int, units: seq<TextUnit>, starts: seq<nat>, i: nat)
    requires Greedy(width, maximum, units, starts, i) && i < |units|
    requires !Fits(width, maximum, units, starts[|starts| - 1], i + 1)
    requires Fits(width, maximum, units, i, i + 1)
    ensures Greedy(width, maximum, units, starts + [i], i + 1)
  {
    hide Fits;
    var more := starts + [i];
    CutsAppend(starts, i);
    forall k, j | 0 <= k < |more| && more[k] < j <= End(more, k, i + 1)
      ensures Fits(width, maximum, units, more[k], j)
    {
      hide *;
      BreakFits(width, maximum, units, starts, i, k, j);
    }
    forall k {:trigger End(more, k, i + 1)} | 0 <= k < |more| - 1
      ensures !Fits(width, maximum, units, more[k], End(more, k, i + 1) + 1)
    {
      hide *;
      BreakIsFull(width, maximum, units, starts, i, k);
    }
  }

  /**
   * With a monotone width, greedy lines exist as soon as some setting fits, and no setting that fits has fewer lines.
   */
  lemma GreedyOptimal(width: Width, maximum: int, units: seq<TextUnit>, other: seq<nat>)
    requires Monotone(width) && Fitting(width, maximum, units, other)
    ensures exists starts :: Greedy(width, maximum, units, starts, |units|)
    ensures forall starts :: Greedy(width, maximum, units, starts, |units|) ==> |starts| <= |other|
  {
    hide Monotone, Greedy, Fits;
    forall i | 0 <= i < |units|
      ensures width(units[i].text) <= maximum as real
    {
      var k := LineOf(other, |units|, i);
      SettingFits(width, maximum, units, other, k);
      PieceFits(width, maximum, units, other[k], End(other, k, |units|), i, i + 1);
      OwnLine(width, maximum, units, i);
    }
    FirstLine(width, maximum, units);
    var all := Continue(width, maximum, units, [0], 1);
    forall starts | Greedy(width, maximum, units, starts, |units|)
      ensures |starts| <= |other|
    {
      NotEmpty(width, maximum, units, starts);
      StaysAhead(width, maximum, units, starts, other, |starts| - 1);
    }
  }

  lemma FirstLine(width: Width, maximum: int, units: seq<TextUnit>)
    requires 0 < |units| && width(units[0].text) <= maximum as real
    ensures Greedy(width, maximum, units, [0], 1)
  {
  }

  /** Every unit is on some line. */
  lemma LineOf(starts: seq<nat>, n: nat, i: nat) returns (k: nat)
    requires Cuts(starts, n) && i < n
    ensures k < |starts| && starts[k] <= i < End(starts, k, n)
  {
    k := 0;
    while End(starts, k, n) <= i
      invariant k < |starts| && starts[k] <= i
      decreases |starts| - k
    {
      k := k + 1;
    }
  }

  lemma GreedyFits(width: Width, maximum: int, units: seq<TextUnit>, starts: seq<nat>)
    requires Greedy(width, maximum, units, starts, |units|)
    ensures Fitting(width, maximum, units, starts)
  {
  }

  /** The lines read back with a space where the first unit of a line is separated from the unit before. */
  function RejoinLines(units: seq<TextUnit>, starts: seq<nat>, lines: seq<string>): string
    requires |lines| <= |starts| && forall k :: 0 <= k < |starts| ==> starts[k] < |units|
  {
    if |lines| == 0 then ""
    else
      var k := |lines| - 1;
      RejoinLines(units, starts, lines[..k]) + Gap(units[starts[k]]) + lines[k]
  }

  lemma {:induction false} LineRejoins(units: seq<TextUnit>, i: nat, j: nat)
    requires i < j <= |units|
    ensures Rejoin(units[..j]) == Rejoin(units[..i]) + Gap(units[i]) + LineText(units, i, j)
  {
    assert units[..j][..j - 1] == units[..j - 1];
    if j > i + 1 {
      LineRejoins(units, i, j - 1);
    }
  }

  /** The lines show all the units in their order and nothing else. */
  lemma {:induction false} LinesRejoin(units: seq<TextUnit>, starts: seq<nat>, lines: seq<string>, k: nat)
    requires Cuts(starts, |units|) && IsLines(units, starts, |units|, lines) && 0 < k <= |starts|
    ensures RejoinLines(units, starts, lines[..k]) == Rejoin(units[..End(starts, k - 1, |units|)])
  {
    var end := End(starts, k - 1, |units|);
    assert lines[..k][..k - 1] == lines[..k - 1];
    LineRejoins(units, starts[k - 1], end);
    if k > 1 {
      LinesRejoin(units, starts, lines, k - 1);
    } else {
      assert units[..0] == [];
    }
  }

  /** Whatever lines a text is wrapped into, reading them back gives the normalised text. */
  lemma LinesShowText(width: Width, maximum: int, text: string, units: seq<TextUnit>, lines: seq<string>)
    returns (starts: seq<nat>)
    requires AreUnitsOf(units, text) && Wraps(width, maximum, units, lines)
    ensures Cuts(starts, |units|) && |starts| == |lines|
    ensures RejoinLines(units, starts, lines) == Normalize(text)
  {
    hide Fits, Normalize, Rejoin, WellFormed;
    starts :| Greedy(width, maximum, units, starts, |units|) && IsLines(units, starts, |units|, lines);
    LinesRejoin(units, starts, lines, |starts|);
    assert lines[..|starts|] == lines && units[..|units|] == units;
  }

  // The loop

  /** A text that cannot be wrapped: a bad limit, a blank text, or no greedy lines within the limit. */
  ghost predicate Unwrappable(width: Width, text: string, maximumWidth: int, maximumLines: int) {
    || maximumWidth <= 0 || maximumLines <= 0 || Normalize(text) == ""
    || forall units, lines :: AreUnitsOf(units, text) && Wraps(width, maximumWidth, units, lines) ==>
      |lines| > maximumLines
  }

  /** What the loop has built after i units: finished lines and a current one. */
  ghost predicate Building(width: Width, maximum: int, units: seq<TextUnit>, starts: seq<nat>, i: nat,
                           lines: seq<string>, current: string)
  {
    if i == 0 then starts == [0] && lines == [] && current == ""
    else
      && Greedy(width, maximum, units, starts, i) && IsLines(units, starts, i, lines + [current])
      && |current| > 0
  }

  lemma StartBuilding(width: Width, maximum: int, units: seq<TextUnit>)
    ensures Building(width, maximum, units, [0], 0, [], "")
  {
  }

  lemma UnitsAre(units: seq<TextUnit>, text: string)
    requires AreUnitsOf(units, text)
    ensures WellFormed(units)
  {
  }

  lemma CurrentLine(width: Width, maximum: int, units: seq<TextUnit>, starts: seq<nat>, i: nat,
                    lines: seq<string>, current: string)
    requires Building(width, maximum, units, starts, i, lines, current) && 0 < i
    ensures Cuts(starts, i) && |lines| == |starts| - 1
    ensures i <= |units| && current == LineText(units, starts[|starts| - 1], i)
  {
    hide Fits;
    assert current == (lines + [current])[|starts| - 1];
  }

  /** The candidate of the loop is the current line with the next unit. */
  lemma CandidateLine(width: Width, maximum: int, units: seq<TextUnit>, starts: seq<nat>, i: nat,
                      lines: seq<string>, current: string, candidate: string)
    requires Building(width, maximum, units, starts, i, lines, current) && i < |units| && WellFormed(units)
    requires candidate == current + (if |current| > 0 && units[i].separated then " " else "") + units[i].text
    ensures |starts| > 0 && starts[|starts| - 1] <= i && |lines| == |starts| - 1
    ensures candidate == LineText(units, starts[|starts| - 1], i + 1) && |candidate| > 0
    ensures Fits(width, maximum, units, starts[|starts| - 1], i + 1) <==> width(candidate) <= maximum as real
    ensures Fits(width, maximum, units, i, i + 1) <==> width(units[i].text) <= maximum as real
    ensures |units[i].text| > 0 && (|current| == 0 <==> i == 0)
  {
    hide Greedy, IsLines;
    if i > 0 {
      CurrentLine(width, maximum, units, starts, i, lines, current);
    }
    assert IsUnitText(units[i].text);
  }

  lemma Extends(width: Width, maximum: int, units: seq<TextUnit>, starts: seq<nat>, i: nat,
                lines: seq<string>, current: string, candidate: string)
    requires Building(width, maximum, units, starts, i, lines, current) && i < |units|
    requires |starts| > 0 && starts[|starts| - 1] <= i && |candidate| > 0
    requires candidate == LineText(units, starts[|starts| - 1], i + 1)
    requires Fits(width, maximum, units, starts[|starts| - 1], i + 1)
    ensures Building(width, maximum, units, starts, i + 1, lines, candidate)
  {
    if i > 0 {
      CurrentLine(width, maximum, units, starts, i, lines, current);
      NextFits(width, maximum, units, starts, i);
    }
    LinesExtend(units, starts, i, lines, current, candidate);
  }

  lemma LinesExtend(units: seq<TextUnit>, starts: seq<nat>, i: nat, lines: seq<string>, current: string,
                    candidate: string)
    requires |starts| > 0 && starts[|starts| - 1] <= i < |units|
    requires if i == 0 then starts == [0] && lines == []
             else Cuts(starts, i) && IsLines(units, starts, i, lines + [current])
    requires candidate == LineText(units, starts[|starts| - 1], i + 1)
    ensures Cuts(starts, i + 1) && IsLines(units, starts, i + 1, lines + [candidate])
  {
    forall k | 0 <= k < |starts|
      ensures starts[k] < End(starts, k, i + 1)
      ensures (lines + [candidate])[k] == LineText(units, starts[k], End(starts, k, i + 1))
    {
      if i > 0 {
        assert starts[k] < End(starts, k, i);
        assert (lines + [current])[k] == LineText(units, starts[k], End(starts, k, i));
      }
    }
  }

  lemma Breaks(width: Width, maximum: int, units: seq<TextUnit>, starts: seq<nat>, i: nat,
               lines: seq<string>, current: string)
    requires Building(width, maximum, units, starts, i, lines, current) && 0 < i < |units|
    requires |starts| > 0 && starts[|starts| - 1] <= i && |units[i].text| > 0
    requires !Fits(width, maximum, units, starts[|starts| - 1], i + 1)
    requires Fits(width, maximum, units, i, i + 1)
    ensures Building(width, maximum, units, starts + [i], i + 1, lines + [current], units[i].text)
  {
    hide Fits;
    NextBreaks(width, maximum, units, starts, i);
    var more := starts + [i];
    var all := lines + [current] + [units[i].text];
    forall k | 0 <= k < |more|
      ensures all[k] == LineText(units, more[k], End(more, k, i + 1))
    {
      if k < |starts| {
        assert all[k] == (lines + [current])[k];
        assert more[k] == starts[k] && End(more, k, i + 1) == End(starts, k, i);
      }
    }
  }

  /** When a unit fits neither on the current line nor on a line of its own, nothing can be set greedily. */
  lemma NothingWraps(width: Width, maximum: int, units: seq<TextUnit>, starts: seq<nat>, i: nat,
                     lines: seq<string>, current: string, all: seq<nat>)
    requires Building(width, maximum, units, starts, i, lines, current) && i < |units|
    requires |starts| > 0 && starts[|starts| - 1] <= i
    requires !Fits(width, maximum, units, starts[|starts| - 1], i + 1)
    requires i > 0 ==> !Fits(width, maximum, units, i, i + 1)
    ensures !Greedy(width, maximum, units, all, |units|)
  {
    hide Greedy, Fits;
    if Greedy(width, maximum, units, all, |units|) {
      NotEmpty(width, maximum, units, all);
      LineBounds(width, maximum, units, all, |units|, 0);
      var k := |starts| - 1;
      if i > 0 {
        Forced(width, maximum, units, starts, i, all, k);
        var next := End(all, k, |units|);
        if next == i {
          LineBounds(width, maximum, units, all, |units|, k + 1);
          LineFits(width, maximum, units, all, |units|, k + 1, i + 1);
        } else {
          LineFits(width, maximum, units, all, |units|, k, i + 1);
        }
      } else {
        LineFits(width, maximum, units, all, |units|, 0, 1);
      }
    }
  }

  lemma AtLeast(width: Width, maximum: int, units: seq<TextUnit>, starts: seq<nat>, i: nat,
                lines: seq<string>, current: string, all: seq<nat>)
    requires Building(width, maximum, units, starts, i, lines, current) && i > 0
    requires Greedy(width, maximum, units, all, |units|)
    ensures |all| >= |starts| == |lines| + 1
  {
    CurrentLine(width, maximum, units, starts, i, lines, current);
    Forced(width, maximum, units, starts, i, all, |starts| - 1);
  }

  lemma NeverWraps(width: Width, maximum: int, units: seq<TextUnit>, text: string, maximumLines: int)
    requires AreUnitsOf(units, text)
    requires forall all :: Greedy(width, maximum, units, all, |units|) ==> |all| > maximumLines
    ensures Unwrappable(width, text, maximum, maximumLines)
  {
    forall units', lines | AreUnitsOf(units', text) && Wraps(width, maximum, units', lines)
      ensures |lines| > maximumLines
    {
      UnitsUnique(units, units');
    }
  }

  lemma CannotContinue(width: Width, maximum: int, units: seq<TextUnit>, starts: seq<nat>, i: nat,
                       lines: seq<string>, current: string, text: string, maximumLines: int)
    requires Building(width, maximum, units, starts, i, lines, current) && i < |units|
    requires |starts| > 0 && starts[|starts| - 1] <= i && AreUnitsOf(units, text)
    requires !Fits(width, maximum, units, starts[|starts| - 1], i + 1)
    requires i > 0 ==> !Fits(width, maximum, units, i, i + 1)
    ensures Unwrappable(width, text, maximum, maximumLines)
  {
    hide Greedy, Fits, Building, Unwrappable, AreUnitsOf;
    forall all
      ensures !Greedy(width, maximum, units, all, |units|)
    {
      NothingWraps(width, maximum, units, starts, i, lines, current, all);
    }
    NeverWraps(width, maximum, units, text, maximumLines);
  }

  lemma TooManyLines(width: Width, maximum: int, units: seq<TextUnit>, starts: seq<nat>, i: nat,
                     lines: seq<string>, current: string, text: string, maximumLines: int)
    requires Building(width, maximum, units, starts, i, lines, current) && 0 < i && AreUnitsOf(units, text)
    requires |lines| >= maximumLines
    ensures Unwrappable(width, text, maximum, maximumLines)
  {
    hide Greedy, Building, Unwrappable, AreUnitsOf;
    forall all | Greedy(width, maximum, units, all, |units|)
      ensures |all| > maximumLines
    {
      AtLeast(width, maximum, units, starts, i, lines, current, all);
    }
    NeverWraps(width, maximum, units, text, maximumLines);
  }

  lemma DoesWrap(width: Width, maximum: int, units: seq<TextUnit>, text: string, starts: seq<nat>,
                 lines: seq<string>, current: string, maximumLines: int)
    requires 0 < maximum && Normalize(text) != "" && |lines| < maximumLines
    requires AreUnitsOf(units, text) && 0 < |units|
    requires Building(width, maximum, units, starts, |units|, lines, current)
    ensures Wraps(width, maximum, units, lines + [current])
    ensures !Unwrappable(width, text, maximum, maximumLines)
  {
    hide Greedy, IsLines, AreUnitsOf;
    assert Wraps(width, maximum, units, lines + [current]);
  }

  /** _wrap_text. None models the CompositionError. */
  method WrapText(width: Width, text: string, maximumWidth: int, maximumLines: int) returns (r: Option<seq<string>>)
    ensures r.None? <==> Unwrappable(width, text, maximumWidth, maximumLines)
    ensures r.Some? ==> 0 < |r.value| <= maximumLines
    ensures r.Some? ==> exists units :: AreUnitsOf(units, text) && Wraps(width, maximumWidth, units, r.value)
  {
    if maximumWidth <= 0 || maximumLines <= 0 {
      return None;
    }
    var split := SplitUnits(text);
    if split.None? {
      return None;
    }
    UnitsAre(split.value, text);
    StartBuilding(width, maximumWidth, split.value);
    hide *;
    var units := split.value;
    var lines := [];
    var current := "";
    ghost var starts: seq<nat> := [0];
    var i := 0;
    while i < |units|
      invariant 0 <= i <= |units|
      invariant Building(width, maximumWidth, units, starts, i, lines, current)
      invariant |lines| < maximumLines
    {
      var unit := units[i];
      var prefix := if |current| > 0 && unit.separated then " " else "";
      var candidate := current + prefix + unit.text;
      CandidateLine(width, maximumWidth, units, starts, i, lines, current, candidate);
      if width(candidate) <= maximumWidth as real {
        Extends(width, maximumWidth, units, starts, i, lines, current, candidate);
        current := candidate;
        i := i + 1;
        continue;
      }
      if |current| == 0 || width(unit.text) > maximumWidth as real {
        CannotContinue(width, maximumWidth, units, starts, i, lines, current, text, maximumLines);
        return None;
      }
      Breaks(width, maximumWidth, units, starts, i, lines, current);
      lines := lines + [current];
      starts := starts + [i];
      if |lines| >= maximumLines {
        TooManyLines(width, maximumWidth, units, starts, i + 1, lines, unit.text, text, maximumLines);
        return None;
      }
      current := unit.text;
      i := i + 1;
    }
    DoesWrap(width, maximumWidth, units, text, starts, lines, current, maximumLines);
    lines := lines + [current];
    return Some(lines);
  }

  /**
   * Greedy wrapping is complete and optimal: with positive limits, a text that is not blank and a monotone width,
   * the text is wrapped exactly when some setting of its units fits within the limits, and no such setting has fewer
   * lines than the one chosen.
   */
  lemma WrapOptimal(width: Width, text: string, maximumWidth: int, maximumLines: int, units: seq<TextUnit>)
    requires Monotone(width) && 0 < maximumWidth && 0 < maximumLines && Normalize(text) != ""
    requires AreUnitsOf(units, text)
    ensures !Unwrappable(width, text, maximumWidth, maximumLines) <==>
            exists starts :: Fitting(width, maximumWidth, units, starts) && |starts| <= maximumLines
    ensures forall lines, starts ::
              Wraps(width, maximumWidth, units, lines) && Fitting(width, maximumWidth, units, starts) ==>
                |lines| <= |starts|
  {
    hide Monotone, Greedy, Fitting, Wraps, WellFormed, Normalize, Rejoin;
    if starts :| Fitting(width, maximumWidth, units, starts) && |starts| <= maximumLines {
      GreedyOptimal(width, maximumWidth, units, starts);
      var greedy :| Greedy(width, maximumWidth, units, greedy, |units|);
      var lines := GreedyLines(width, maximumWidth, units, greedy);
    }
    if !Unwrappable(width, text, maximumWidth, maximumLines) {
      var units', lines :| AreUnitsOf(units', text) && Wraps(width, maximumWidth, units', lines)
        && |lines| <= maximumLines;
      UnitsUnique(units, units');
      var greedy := StartsOf(width, maximumWidth, units, lines);
      GreedyFits(width, maximumWidth, units, greedy);
    }
    forall lines, starts | Wraps(width, maximumWidth, units, lines) && Fitting(width, maximumWidth, units, starts)
      ensures |lines| <= |starts|
    {
      var greedy := StartsOf(width, maximumWidth, units, lines);
      GreedyOptimal(width, maximumWidth, units, starts);
    }
  }

  lemma StartsOf(width: Width, maximum: int, units: seq<TextUnit>, lines: seq<string>) returns (starts: seq<nat>)
    requires Wraps(width, maximum, units, lines)
    ensures Greedy(width, maximum, units, starts, |units|) && |starts| == |lines|
  {
    hide Fits;
    starts :| Greedy(width, maximum, units, starts, |units|) && IsLines(units, starts, |units|, lines);
  }

  lemma GreedyLines(width: Width, maximum: int, units: seq<TextUnit>, starts: seq<nat>) returns (lines: seq<string>)
    requires Greedy(width, maximum, units, starts, |units|)
    ensures Wraps(width, maximum, units, lines) && |lines| == |starts|
  {
    hide Fits;
    lines := seq(|starts|, k requires 0 <= k < |starts| => LineText(units, starts[k], End(starts, k, |units|)));
    assert IsLines(units, starts, |units|, lines);
  }

  // The size of the type

  /** What a font of a given size makes of a text: widths, and the box around lines set with a spacing. */
  datatype Box = Box(width: int, height: int)
  datatype Fonts = Fonts(widths: int -> Width, boxes: (int, seq<string>, int) -> Box)

  datatype Fitted = Fitted(size: int, lines: seq<string>, spacing: int)

  /** A size at which the text wraps and its box is no larger than asked. */
  ghost predicate Works(fonts: Fonts, text: string, width: int, height: int, maximumLines: int, fit: Fitted) {
    && fit.spacing == (if fit.size / 6 < 2 then 2 else fit.size / 6)
    && 0 < width && 0 < |fit.lines| <= maximumLines
    && (exists units :: AreUnitsOf(units, text) && Wraps(fonts.widths(fit.size), width, units, fit.lines))
    && var box := fonts.boxes(fit.size, fit.lines, fit.spacing);
      box.width <= width && box.height <= height
  }

  /** A size takes at most one setting. */
  lemma WorksUniquely(fonts: Fonts, text: string, width: int, height: int, maximumLines: int, a: Fitted, b: Fitted)
    requires a.size == b.size
    requires exists units :: AreUnitsOf(units, text) && Wraps(fonts.widths(a.size), width, units, a.lines)
    requires Works(fonts, text, width, height, maximumLines, b)
    ensures a.lines == b.lines
  {
    hide Wraps, WellFormed, Rejoin, Normalize;
    var u :| AreUnitsOf(u, text) && Wraps(fonts.widths(a.size), width, u, a.lines);
    var v :| AreUnitsOf(v, text) && Wraps(fonts.widths(a.size), width, v, b.lines);
    UnitsUnique(u, v);
    LinesUnique(fonts.widths(a.size), width, u, a.lines, b.lines);
  }

  /** The sizes of range(start, minimum - 1, -2). */
  predicate Tried(size: int, start: int, minimum: int) {
    minimum <= size <= start && (start - size) % 2 == 0
  }

  /** _fit_font: the largest of start, start - 2, ... down to the minimum that works, and None when none does. */
  method FitFont(fonts: Fonts, text: string, width: int, height: int, start: int, minimum: int, maximumLines: int)
    returns (r: Option<Fitted>)
    ensures r.Some? ==> Works(fonts, text, width, height, maximumLines, r.value)
    ensures r.Some? ==> Tried(r.value.size, start, minimum)
    ensures forall fit: Fitted ::
                  Tried(fit.size, start, minimum) && Works(fonts, text, width, height, maximumLines, fit) ==>
              r.Some? && fit.size <= r.value.size
  {
    hide Wraps, AreUnitsOf;
    var size := start;
    while minimum <= size
      invariant (start - size) % 2 == 0 && size <= start
      invariant forall fit: Fitted ::
                  Tried(fit.size, start, minimum) && Works(fonts, text, width, height, maximumLines, fit) ==>
                  fit.size <= size
      decreases size - minimum + 2
    {
      var wrapped := WrapText(fonts.widths(size), text, width, maximumLines);
      if wrapped.Some? {
        var lines := wrapped.value;
        var spacing := if size / 6 < 2 then 2 else size / 6;
        var box := fonts.boxes(size, lines, spacing);
        if box.width <= width && box.height <= height {
          return Some(Fitted(size, lines, spacing));
        }
      }
      forall fit: Fitted | Tried(fit.size, start, minimum) && Works(fonts, text, width, height, maximumLines, fit)
        ensures fit.size <= size - 2
      {
        if fit.size == size {
          if wrapped.Some? {
            WorksUniquely(fonts, text, width, height, maximumLines, Fitted(size, wrapped.value, 2), fit);
          } else {
            WorksWraps(fonts, text, width, height, maximumLines, fit);
          }
          assert false;
        }
      }
      size := size - 2;
    }
    return None;
  }

  lemma WorksWraps(fonts: Fonts, text: string, width: int, height: int, maximumLines: int, fit: Fitted)
    requires Works(fonts, text, width, height, maximumLines, fit)
    ensures !Unwrappable(fonts.widths(fit.size), text, width, maximumLines)
  {
  }
}
