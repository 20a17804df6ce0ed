/**
 * The scroll handler of the navigation bar: it picks the last section whose
 * top, less a 100-pixel offset, has been scrolled past, then marks the one
 * navigation link that points at it.
 */
module Navigation {
  import opened Wrappers
  import opened ClassFlags

  const SCROLL_OFFSET: int := 100

  /** A `section[id]` element in document order: its id and its `offsetTop` in pixels. */
  datatype Section = Section(id: string, offsetTop: int)

  predicate Reached(s: Section, scrollY: int)
  {
    scrollY >= s.offsetTop - SCROLL_OFFSET
  }

  /** The index of the last section, in document order, that has been reached, if any. */
  function LastReached(sections: seq<Section>, scrollY: int): (k: Option<nat>)
    ensures k.Some? ==> k.value < |sections| && Reached(sections[k.value], scrollY)
    ensures k.Some? ==> forall j :: k.value < j < |sections| ==> !Reached(sections[j], scrollY)
    ensures k.None? <==> forall j :: 0 <= j < |sections| ==> !Reached(sections[j], scrollY)
  {
    if |sections| == 0 then None
    else if Reached(sections[|sections| - 1], scrollY) then Some(|sections| - 1)
    else LastReached(sections[..|sections| - 1], scrollY)
  }

  /** The id the handler settles on: that of the last reached section, or `''` when none is reached. */
  function CurrentId(sections: seq<Section>, scrollY: int): string
  {
    match LastReached(sections, scrollY)
    case None => ""
    case Some(k) => sections[k].id
  }

  /** The `forEach` over the sections, overwriting `current` at every reached one. */
  method ActiveSection(sections: seq<Section>, scrollY: int) returns (current: string)
    ensures current == CurrentId(sections, scrollY)
  {
    current := "";
    var i := 0;
    while i < |sections|
      invariant 0 <= i <= |sections|
      invariant current == CurrentId(sections[..i], scrollY)
    {
      assert sections[..i + 1][..i] == sections[..i];
      var sectionTop := sections[i].offsetTop - SCROLL_OFFSET;
      if scrollY >= sectionTop {
        current := sections[i].id;
      }
      i := i + 1;
    }
    assert sections[..i] == sections;
  }

  /** Which links end up active: exactly those whose href is `#` followed by the current id. */
  function LinkFlags(hrefs: seq<string>, current: string): (flags: seq<bool>)
    ensures |flags| == |hrefs|
    ensures forall i :: 0 <= i < |hrefs| ==> flags[i] == (hrefs[i] == "#" + current)
  {
    if |hrefs| == 0 then []
    else [hrefs[0] == "#" + current] + LinkFlags(hrefs[1..], current)
  }

  /** The pass over the links: clear `active` on each, then set it on the matching ones. */
  method MarkActiveLinks(hrefs: seq<string>, active: array<bool>, current: string)
    requires active.Length == |hrefs|
    modifies active
    ensures active[..] == LinkFlags(hrefs, current)
  {
    var i := 0;
    while i < active.Length
      invariant 0 <= i <= active.Length
      invariant forall j :: 0 <= j < i ==> active[j] == (hrefs[j] == "#" + current)
    {
      active[i] := false;
      if hrefs[i] == "#" + current {
        active[i] := true;
      }
      i := i + 1;
    }
  }

  /** One run of the (debounced) scroll handler. */
  method OnScroll(sections: seq<Section>, scrollY: int, hrefs: seq<string>, active: array<bool>)
    returns (current: string)
    requires active.Length == |hrefs|
    modifies active
    ensures current == CurrentId(sections, scrollY)
    ensures active[..] == LinkFlags(hrefs, current)
  {
    current := ActiveSection(sections, scrollY);
    MarkActiveLinks(hrefs, active, current);
  }

  /** With distinct hrefs, at most one link is active after the handler runs. */
  lemma DistinctHrefsAtMostOneActive(hrefs: seq<string>, current: string)
    requires forall i, j :: 0 <= i < j < |hrefs| ==> hrefs[i] != hrefs[j]
    ensures CountActive(LinkFlags(hrefs, current)) <= 1
  {
    AtMostOneActive(LinkFlags(hrefs, current));
  }

  /**
   * Above the first reached section, `current` stays `''`, so the link marked
   * active is any whose href is the bare `#`, and no link to a section.
   */
  lemma NothingReached(sections: seq<Section>, scrollY: int, hrefs: seq<string>)
    requires forall j :: 0 <= j < |sections| ==> scrollY < sections[j].offsetTop - SCROLL_OFFSET
    ensures CurrentId(sections, scrollY) == ""
    ensures forall i :: 0 <= i < |hrefs| ==> LinkFlags(hrefs, CurrentId(sections, scrollY))[i] == (hrefs[i] == "#")
  {
    assert "#" + "" == "#";
  }

  /** Scrolling further down never moves the active section back up the page. */
  lemma {:induction false} LastReachedMonotone(sections: seq<Section>, y1: int, y2: int)
    requires y1 <= y2
    requires LastReached(sections, y1).Some?
    ensures LastReached(sections, y2).Some?
    ensures LastReached(sections, y1).value <= LastReached(sections, y2).value
  {
    var k := LastReached(sections, y1).value;
    assert Reached(sections[k], y2);
  }
}
