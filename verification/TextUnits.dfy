/** Splitting mixed Chinese and Latin text into the units that a line may not break (composition.py). */
module TextUnits {
  import opened Prelude

  /** The characters at which str.split() separates words. */
  predicate IsWhitespace(c: char) {
    var p := c as int;
    || 0x09 <= p <= 0x0D || 0x1C <= p <= 0x20 || p == 0x85 || p == 0xA0 || p == 0x1680
    || 0x2000 <= p <= 0x200A || p == 0x2028 || p == 0x2029 || p == 0x202F || p == 0x205F || p == 0x3000
  }

  predicate IsCjk(c: char) {
    var p := c as int;
    0x3400 <= p <= 0x4DBF || 0x4E00 <= p <= 0x9FFF || 0xF900 <= p <= 0xFAFF
  }

  // Normalisation

  function WordLength(text: string): (n: nat)
    ensures n <= |text|
    ensures forall i :: 0 <= i < n ==> !IsWhitespace(text[i])
    ensures n < |text| ==> IsWhitespace(text[n])
  {
    if |text| == 0 || IsWhitespace(text[0]) then 0 else 1 + WordLength(text[1..])
  }

  /** str.split(): the maximal runs of other characters than whitespace. */
  function Split(text: string): seq<string> {
    if |text| == 0 then []
    else if IsWhitespace(text[0]) then Split(text[1..])
    else [text[..WordLength(text)]] + Split(text[WordLength(text)..])
  }

  /** " ".join(words). */
  function Join(words: seq<string>): string {
    if |words| == 0 then ""
    else if |words| == 1 then words[0]
    else words[0] + " " + Join(words[1..])
  }

  function Normalize(text: string): string {
    Join(Split(text))
  }

  /** Single spaces between words, and no whitespace anywhere else. */
  predicate NormalForm(s: string) {
    forall i :: 0 <= i < |s| && IsWhitespace(s[i]) ==> s[i] == ' ' && 0 < i < |s| - 1 && !IsWhitespace(s[i + 1])
  }

  predicate IsWord(word: string) {
    |word| > 0 && forall i :: 0 <= i < |word| ==> !IsWhitespace(word[i])
  }

  lemma {:induction false} SplitWords(text: string)
    ensures forall k :: 0 <= k < |Split(text)| ==> IsWord(Split(text)[k])
  {
    if |text| > 0 {
      if IsWhitespace(text[0]) {
        SplitWords(text[1..]);
      } else {
        SplitWords(text[WordLength(text)..]);
      }
    }
  }

  lemma {:induction false} JoinNormal(words: seq<string>)
    requires forall k :: 0 <= k < |words| ==> IsWord(words[k])
    ensures NormalForm(Join(words))
    ensures |words| > 0 ==> |Join(words)| > 0 && !IsWhitespace(Join(words)[0])
  {
    if |words| > 1 {
      JoinNormal(words[1..]);
      var rest := Join(words[1..]);
      var s := words[0] + " " + rest;
      forall i | 0 <= i < |s| && IsWhitespace(s[i])
        ensures s[i] == ' ' && 0 < i < |s| - 1 && !IsWhitespace(s[i + 1])
      {
        var n := |words[0]|;
        assert i >= n by { assert forall k :: 0 <= k < n ==> s[k] == words[0][k]; }
        if i == n {
          assert s[i + 1] == rest[0];
        } else {
          assert s[i] == rest[i - n - 1] && (i + 1 < |s| ==> s[i + 1] == rest[i - n]);
        }
      }
    }
  }

  /** Splitting undoes joining: a list of words is recovered from the text that shows it. */
  lemma {:induction false} SplitJoin(words: seq<string>)
    requires forall k :: 0 <= k < |words| ==> IsWord(words[k])
    ensures Split(Join(words)) == words
  {
    if |words| > 0 {
      var s := Join(words);
      var n := |words[0]|;
      if |words| == 1 {
        assert WordLength(s) == n by { assert forall i :: 0 <= i < n ==> s[i] == words[0][i]; }
        assert s[..n] == words[0] && s[n..] == "";
        assert words == [words[0]];
      } else {
        var rest := Join(words[1..]);
        assert s == words[0] + " " + rest;
        assert forall i :: 0 <= i < n ==> s[i] == words[0][i];
        assert s[n] == ' ' && IsWhitespace(s[n]);
        assert WordLength(s) == n;
        assert s[..n] == words[0];
        assert s[n..][1..] == rest;
        SplitJoin(words[1..]);
        assert words == [words[0]] + words[1..];
      }
    }
  }

  /** Normalising gives a normal form, and normalising twice changes nothing more. */
  lemma NormalizeProjects(text: string)
    ensures NormalForm(Normalize(text)) && Normalize(Normalize(text)) == Normalize(text)
    ensures Normalize(text) == "" <==> Split(text) == []
  {
    SplitWords(text);
    JoinNormal(Split(text));
    SplitJoin(Split(text));
  }

  /** Exactly the blank texts have no words. */
  lemma {:induction false} BlankExactly(text: string)
    ensures Split(text) == [] <==> forall i :: 0 <= i < |text| ==> IsWhitespace(text[i])
  {
    if |text| > 0 && IsWhitespace(text[0]) {
      BlankExactly(text[1..]);
      assert forall i :: 0 < i < |text| ==> text[i] == text[1..][i - 1];
    }
  }

  // Units

  datatype TextUnit = TextUnit(text: string, separated: bool)

  /** A run of characters that are neither spaces nor Chinese characters. */
  predicate IsRun(t: string) {
    |t| > 0 && forall i :: 0 <= i < |t| ==> t[i] != ' ' && !IsCjk(t[i])
  }

  predicate IsUnitText(t: string) {
    (|t| == 1 && IsCjk(t[0])) || IsRun(t)
  }

  /** Two runs that are not separated would be one run. */
  predicate WellFormed(units: seq<TextUnit>) {
    && (forall i :: 0 <= i < |units| ==> IsUnitText(units[i].text))
    && (|units| > 0 ==> !units[0].separated)
    && (forall i :: 0 < i < |units| && IsRun(units[i - 1].text) && IsRun(units[i].text) ==> units[i].separated)
  }

  function Gap(unit: TextUnit): string {
    if unit.separated then " " else ""
  }

  function Rejoin(units: seq<TextUnit>): string {
    if |units| == 0 then ""
    else
      var last := units[|units| - 1];
      Rejoin(units[..|units| - 1]) + Gap(last) + last.text
  }

  /** The units of a text: well formed, and showing the normalised text when they are put together again. */
  predicate AreUnitsOf(units: seq<TextUnit>, text: string) {
    WellFormed(units) && Rejoin(units) == Normalize(text)
  }

  lemma RejoinAppend(units: seq<TextUnit>, unit: TextUnit)
    ensures Rejoin(units + [unit]) == Rejoin(units) + Gap(unit) + unit.text
  {
    assert (units + [unit])[..|units|] == units;
  }

  lemma WellFormedAppend(units: seq<TextUnit>, unit: TextUnit)
    requires WellFormed(units) && IsUnitText(unit.text)
    requires |units| == 0 ==> !unit.separated
    requires |units| > 0 && IsRun(units[|units| - 1].text) && IsRun(unit.text) ==> unit.separated
    ensures WellFormed(units + [unit])
  {
    hide IsUnitText, IsRun;
  }

  /** Reading s[index..end] as the next unit. */
  lemma ReadUnit(s: string, units: seq<TextUnit>, separated: bool, index: nat, end: nat)
    requires index < end <= |s| && WellFormed(units) && IsUnitText(s[index..end])
    requires s[..index] == Rejoin(units) + (if separated then " " else "")
    requires |units| == 0 ==> !separated
    requires |units| > 0 && IsRun(units[|units| - 1].text) && IsRun(s[index..end]) ==> separated
    ensures
      var more := units + [TextUnit(s[index..end], separated)];
      WellFormed(more) && s[..end] == Rejoin(more)
  {
    hide WellFormed, Rejoin, IsUnitText, IsRun;
    WellFormedAppend(units, TextUnit(s[index..end], separated));
    RejoinAppend(units, TextUnit(s[index..end], separated));
    assert s[..end] == s[..index] + s[index..end];
  }

  lemma InNormalForm(s: string, i: nat)
    requires NormalForm(s) && i < |s|
    ensures s[i] == ' ' ==> 0 < i < |s| - 1 && s[i + 1] != ' '
  {
  }

  lemma NoUnits()
    ensures WellFormed([]) && Rejoin([]) == ""
  {
  }

  lemma AllUnits(units: seq<TextUnit>, text: string)
    requires WellFormed(units) && Rejoin(units) == Normalize(text)
    ensures AreUnitsOf(units, text)
  {
  }

  /** A piece of text without spaces that is one Chinese character or has none is a unit. */
  lemma UnitText(s: string, index: nat, end: nat)
    requires index < end <= |s|
    requires (end == index + 1 && IsCjk(s[index])) || forall i :: index <= i < end ==> s[i] != ' ' && !IsCjk(s[i])
    ensures IsUnitText(s[index..end]) && (IsRun(s[index..end]) <==> !IsCjk(s[index]))
  {
    hide IsCjk;
    assert s[index..end][0] == s[index];
  }

  /** _text_units. None models the CompositionError for a blank text. */
  method SplitUnits(text: string) returns (r: Option<seq<TextUnit>>)
    ensures r.None? <==> Normalize(text) == ""
    ensures r.Some? ==> |r.value| > 0 && AreUnitsOf(r.value, text)
  {
    hide *;
    var normalized := Normalize(text);
    NormalizeProjects(text);
    if |normalized| == 0 {
      return None;
    }
    NoUnits();
    var units: seq<TextUnit> := [];
    var index := 0;
    var separated := false;
    while index < |normalized|
      invariant 0 <= index <= |normalized|
      invariant WellFormed(units)
      invariant normalized[..index] == Rejoin(units) + (if separated then " " else "")
      invariant separated ==> |units| > 0 && index < |normalized| && normalized[index] != ' '
      invariant |units| == 0 <==> index == 0
      invariant |units| > 0 && IsRun(units[|units| - 1].text) && !separated && index < |normalized| ==>
        normalized[index] == ' ' || IsCjk(normalized[index])
    {
      var character := normalized[index];
      if character == ' ' {
        InNormalForm(normalized, index);
        assert normalized[..index + 1] == normalized[..index] + " ";
        separated := true;
        index := index + 1;
        continue;
      }
      if IsCjk(character) {
        assert [character] == normalized[index..index + 1] by {
          assert |normalized[index..index + 1]| == 1 && normalized[index..index + 1][0] == character;
        }
        UnitText(normalized, index, index + 1);
        ReadUnit(normalized, units, separated, index, index + 1);
        units := units + [TextUnit([character], separated)];
        separated := false;
        index := index + 1;
        continue;
      }
      var end := index + 1;
      while end < |normalized| && normalized[end] != ' ' && !IsCjk(normalized[end])
        invariant index < end <= |normalized|
        invariant forall i :: index <= i < end ==> normalized[i] != ' ' && !IsCjk(normalized[i])
      {
        end := end + 1;
      }
      UnitText(normalized, index, end);
      ReadUnit(normalized, units, separated, index, end);
      units := units + [TextUnit(normalized[index..end], separated)];
      separated := false;
      index := end;
    }
    assert normalized[..index] == normalized;
    AllUnits(units, text);
    r := Some(units);
  }

  lemma RejoinEnds(units: seq<TextUnit>)
    requires WellFormed(units) && |units| > 0
    ensures
      var s, last := Rejoin(units), units[|units| - 1].text;
      |s| >= |last| > 0 && s[|s| - |last|..] == last && s[|s| - 1] == last[|last| - 1] && s[|s| - 1] != ' '
  {
  }

  /** What stands before the last unit: nothing, its gap, or the end of a unit that does not run on into it. */
  lemma BeforeLast(units: seq<TextUnit>)
    requires WellFormed(units) && |units| > 0
    ensures
      var s, last := Rejoin(units), units[|units| - 1];
      var n := |s| - |last.text|;
      && n >= 0
      && (last.separated ==> n > 0 && s[n - 1] == ' ')
      && (!last.separated && n > 0 ==> s[n - 1] != ' ' && (IsRun(last.text) ==> IsCjk(s[n - 1])))
  {
    hide IsCjk;
    var front, last := units[..|units| - 1], units[|units| - 1];
    assert Rejoin(units) == Rejoin(front) + Gap(last) + last.text;
    if |front| > 0 && !last.separated {
      RejoinEnds(front);
      var previous := front[|front| - 1];
      assert previous == units[|units| - 2];
      assert IsUnitText(previous.text);
    }
  }

  /** The last units of two readings of the same text are the same. */
  lemma SameLast(u: seq<TextUnit>, v: seq<TextUnit>)
    requires WellFormed(u) && WellFormed(v) && |u| > 0 && |v| > 0
    requires Rejoin(u) == Rejoin(v)
    ensures |u[|u| - 1].text| <= |v[|v| - 1].text|
  {
    hide WellFormed, Rejoin, IsCjk;
    var s, a, b := Rejoin(u), u[|u| - 1].text, v[|v| - 1].text;
    RejoinEnds(u);
    RejoinEnds(v);
    LastUnitText(u);
    LastUnitText(v);
    if |a| > |b| {
      // the character before b lies inside the run a, so b would have been longer
      var n := |s| - |b|;
      assert s[n - 1] == a[|a| - |b| - 1];
      assert s[|s| - 1] == b[|b| - 1] == a[|a| - 1];
      BeforeLast(v);
    }
  }

  lemma LastUnitText(units: seq<TextUnit>)
    requires WellFormed(units) && |units| > 0
    ensures IsUnitText(units[|units| - 1].text)
  {
  }

  lemma FrontWellFormed(units: seq<TextUnit>)
    requires WellFormed(units) && |units| > 0
    ensures WellFormed(units[..|units| - 1])
  {
  }

  lemma SameFront(a: string, b: string, end: string)
    requires a + end == b + end
    ensures a == b
  {
    assert a == (a + end)[..|a|];
    assert b == (b + end)[..|b|];
  }

  lemma SameUnit(u: seq<TextUnit>, v: seq<TextUnit>)
    requires WellFormed(u) && WellFormed(v) && |u| > 0 && |v| > 0
    requires Rejoin(u) == Rejoin(v)
    ensures u[|u| - 1] == v[|v| - 1]
  {
    hide *;
    SameLast(u, v);
    SameLast(v, u);
    RejoinEnds(u);
    RejoinEnds(v);
    BeforeLast(u);
    BeforeLast(v);
  }

  lemma SplitLast(units: seq<TextUnit>)
    requires |units| > 0
    ensures
      var last := units[|units| - 1];
      Rejoin(units) == Rejoin(units[..|units| - 1]) + (Gap(last) + last.text)
  {
    hide Gap;
  }

  lemma SameEnd(u: seq<TextUnit>, v: seq<TextUnit>)
    requires WellFormed(u) && WellFormed(v) && |u| > 0 && |v| > 0
    requires Rejoin(u) == Rejoin(v)
    ensures u[|u| - 1] == v[|v| - 1]
    ensures Rejoin(u[..|u| - 1]) == Rejoin(v[..|v| - 1])
  {
    hide *;
    SameUnit(u, v);
    SplitLast(u);
    SplitLast(v);
    var a := u[|u| - 1];
    SameFront(Rejoin(u[..|u| - 1]), Rejoin(v[..|v| - 1]), Gap(a) + a.text);
  }

  /** There is only one way to read a text as units. */
  lemma {:induction false} UnitsUnique(u: seq<TextUnit>, v: seq<TextUnit>)
    requires WellFormed(u) && WellFormed(v) && Rejoin(u) == Rejoin(v)
    ensures u == v
    decreases |u|
  {
    hide WellFormed, Rejoin;
    if |u| == 0 || |v| == 0 {
      NoUnits();
      if |v| > 0 {
        RejoinEnds(v);
      }
      if |u| > 0 {
        RejoinEnds(u);
      }
    } else {
      SameEnd(u, v);
      FrontWellFormed(u);
      FrontWellFormed(v);
      UnitsUnique(u[..|u| - 1], v[..|v| - 1]);
      assert u == u[..|u| - 1] + [u[|u| - 1]];
      assert v == v[..|v| - 1] + [v[|v| - 1]];
    }
  }
}
