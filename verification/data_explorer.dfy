/**
 * The data explorer's display: a heading, then the first theme whose
 * lower-cased name contains the theme filter, then the program picked by the
 * program filter, then a hint when both filters are `all`. The page never
 * wires this explorer up, but its display rule is modelled all the same.
 */
module DataExplorer {
  import opened Wrappers
  import opened AcmeData

  const ALL: string := "all"

  /** One piece of the display, in place of its markup. */
  datatype Block =
    | Heading
    | ThemeItem(name: string, description: string, percentage: int)
    | ProgramItem(programName: string, awarenessCount: int, awarenessPercentage: int)
    | Hint

  /** `toLowerCase` on the letters A to Z; every other character is kept. */
  function LowerChar(c: char): (d: char)
    ensures 'A' <= c <= 'Z' ==> d as int == c as int + 32
    ensures !('A' <= c <= 'Z') ==> d == c
  {
    if 'A' <= c <= 'Z' then (c as int + 32) as char else c
  }

  function ToLower(s: string): (t: string)
    ensures |t| == |s|
    ensures forall i :: 0 <= i < |s| ==> t[i] == LowerChar(s[i])
  {
    if |s| == 0 then "" else [LowerChar(s[0])] + ToLower(s[1..])
  }

  /** The `n` characters of `s` from index `i` on. */
  function Window(s: string, i: nat, n: nat): string
    requires i + n <= |s|
  {
    s[i..i + n]
  }

  /** `s.includes(part)`. */
  predicate Includes(s: string, part: string)
  {
    exists i: nat :: i + |part| <= |s| && Window(s, i, |part|) == part
  }

  predicate Matches(t: Theme, filter: string)
  {
    Includes(ToLower(t.name), filter)
  }

  /** `themes.find(...)`, from index `from` on: the first theme that matches the filter. */
  function FindTheme(themes: seq<Theme>, filter: string, from: nat): (r: Option<nat>)
    requires from <= |themes|
    ensures r.Some? ==> from <= r.value < |themes| && Matches(themes[r.value], filter)
    ensures r.Some? ==> forall j :: from <= j < r.value ==> !Matches(themes[j], filter)
    ensures r.None? ==> forall j :: from <= j < |themes| ==> !Matches(themes[j], filter)
    decreases |themes| - from
  {
    if from == |themes| then None
    else if Matches(themes[from], filter) then Some(from)
    else FindTheme(themes, filter, from + 1)
  }

  /** The theme item, when the theme filter is not `all` and some theme matches it. */
  function ThemePart(themes: seq<Theme>, themeValue: string): (part: seq<Block>)
    ensures |part| <= 1 && forall k :: 0 <= k < |part| ==> part[k].ThemeItem?
    ensures part != [] <==> themeValue != ALL && FindTheme(themes, themeValue, 0).Some?
  {
    if themeValue == ALL then []
    else match FindTheme(themes, themeValue, 0)
      case None => []
      case Some(i) => [ThemeItem(themes[i].name, ThemeDescription(themes[i].rank), themes[i].percentage)]
  }

  /** The program item, when the program filter is not `all` and names a program. */
  function ProgramPart(programs: seq<ProgramEntry>, programValue: string): (part: seq<Block>)
    ensures |part| <= 1 && forall k :: 0 <= k < |part| ==> part[k].ProgramItem?
    ensures part != [] <==> programValue != ALL && FindProgram(programs, programValue).Some?
  {
    if programValue == ALL then []
    else match FindProgram(programs, programValue)
      case None => []
      case Some(p) => [ProgramItem(p.programName, p.awarenessCount, p.awarenessPercentage)]
  }

  /** `updateDisplay` over the given themes and programs. */
  function Display(themes: seq<Theme>, programs: seq<ProgramEntry>, themeValue: string, programValue: string)
    : (blocks: seq<Block>)
    ensures 1 <= |blocks| <= 3 && blocks[0] == Heading
  {
    var hint := if themeValue == ALL && programValue == ALL then [Hint] else [];
    [Heading] + ThemePart(themes, themeValue) + ProgramPart(programs, programValue) + hint
  }

  /**
   * The display opens with the heading and holds at most three blocks; the
   * hint appears, last, exactly when both filters are `all`.
   */
  lemma DisplayFrame(themes: seq<Theme>, programs: seq<ProgramEntry>, themeValue: string, programValue: string)
    ensures var blocks := Display(themes, programs, themeValue, programValue);
      && 1 <= |blocks| <= 3
      && blocks[0] == Heading
      && (forall k :: 1 <= k < |blocks| ==> !blocks[k].Heading?)
      && (blocks[|blocks| - 1] == Hint <==> themeValue == ALL && programValue == ALL)
  {
    var t, p := ThemePart(themes, themeValue), ProgramPart(programs, programValue);
    var h := if themeValue == ALL && programValue == ALL then [Hint] else [];
    var blocks := Display(themes, programs, themeValue, programValue);
    assert blocks == [Heading] + t + p + h;
    forall k | 1 <= k < |blocks|
      ensures !blocks[k].Heading? && (blocks[k] == Hint <==> k == 1 + |t| + |p|)
    {
      if k < 1 + |t| {
        assert blocks[k] == t[k - 1];
      } else if k < 1 + |t| + |p| {
        assert blocks[k] == p[k - 1 - |t|];
      } else {
        assert blocks[k] == h[k - 1 - |t| - |p|];
      }
    }
  }

  /**
   * A theme item appears exactly when the theme filter is not `all` and some
   * lower-cased theme name contains it; it is the first such theme and comes
   * right after the heading, before any program item.
   */
  lemma DisplayTheme(themes: seq<Theme>, programs: seq<ProgramEntry>, themeValue: string, programValue: string)
    ensures var blocks := Display(themes, programs, themeValue, programValue);
      && ((exists k :: 0 <= k < |blocks| && blocks[k].ThemeItem?) <==>
            themeValue != ALL && FindTheme(themes, themeValue, 0).Some?)
      && (themeValue != ALL && FindTheme(themes, themeValue, 0).Some? ==>
            var i := FindTheme(themes, themeValue, 0).value;
            blocks[1] == ThemeItem(themes[i].name, ThemeDescription(themes[i].rank), themes[i].percentage))
      && (forall k :: 0 <= k < |blocks| && blocks[k].ThemeItem? ==> k == 1)
  {
    var t, p := ThemePart(themes, themeValue), ProgramPart(programs, programValue);
    var blocks := Display(themes, programs, themeValue, programValue);
    assert forall k :: 1 <= k < 1 + |t| ==> blocks[k] == t[k - 1];
    assert forall k :: 1 + |t| <= k < 1 + |t| + |p| ==> blocks[k] == p[k - 1 - |t|];
    if t != [] {
      assert blocks[1].ThemeItem?;
    }
  }

  /**
   * A program item appears exactly when the program filter is not `all` and
   * names a program; it shows that program, and it is the last block (no hint
   * follows it), so there is at most one.
   */
  lemma DisplayProgram(themes: seq<Theme>, programs: seq<ProgramEntry>, themeValue: string, programValue: string)
    ensures var blocks := Display(themes, programs, themeValue, programValue);
      && ((exists k :: 0 <= k < |blocks| && blocks[k].ProgramItem?) <==>
            programValue != ALL && FindProgram(programs, programValue).Some?)
      && (forall k :: 0 <= k < |blocks| && blocks[k].ProgramItem? ==>
            var p := FindProgram(programs, programValue).value;
            blocks[k] == ProgramItem(p.programName, p.awarenessCount, p.awarenessPercentage))
      && (forall k :: 0 <= k < |blocks| && blocks[k].ProgramItem? ==> k == |blocks| - 1)
  {
    var t, p := ThemePart(themes, themeValue), ProgramPart(programs, programValue);
    var blocks := Display(themes, programs, themeValue, programValue);
    assert forall k :: 1 <= k < 1 + |t| ==> blocks[k] == t[k - 1];
    assert forall k :: 1 + |t| <= k < 1 + |t| + |p| ==> blocks[k] == p[k - 1 - |t|];
    if programValue == ALL {
      assert p == [];
    }
    if p != [] {
      assert blocks[1 + |t|].ProgramItem?;
    }
  }

  /** A filter holding an upper-case letter never matches a lower-cased name, so it shows no theme. */
  lemma UpperCaseFilterMatchesNothing(themes: seq<Theme>, filter: string, k: nat)
    requires k < |filter| && 'A' <= filter[k] <= 'Z'
    ensures FindTheme(themes, filter, 0).None?
  {
    forall j | 0 <= j < |themes|
      ensures !Matches(themes[j], filter)
    {
      var lower := ToLower(themes[j].name);
      forall i: nat | i + |filter| <= |lower|
        ensures Window(lower, i, |filter|) != filter
      {
        assert Window(lower, i, |filter|)[k] == lower[i + k];
      }
    }
  }
}
