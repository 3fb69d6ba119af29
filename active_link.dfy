/**
  The scroll listener of `highlightActiveLink`: a first pass over the page's
  sections picks the id of the section the reader has reached, a second pass
  restyles every navigation link, highlighting those that point at it.
 */
module ActiveLink {

  datatype Option<T> = None | Some(value: T)

  /** A `section[id]` element as the listener reads it: its `id` attribute and
      its `offsetTop` at the time of the scroll event. */
  datatype Section = Section(id: string, offsetTop: int)

  /** How far above a section's top the reader may be and still count as in
      it. */
  const Lookahead := 200

  /** `scrollY >= sectionTop - 200`. */
  predicate Reached(s: Section, scrollY: real) {
    scrollY >= (s.offsetTop - Lookahead) as real
  }

  /** The index of the last section, in document order, that the reader has
      reached, or `None` when no section is reached. */
  function LastReached(sections: seq<Section>, scrollY: real): (r: Option<nat>)
    ensures r.None? <==> forall k :: 0 <= k < |sections| ==> !Reached(sections[k], scrollY)
    ensures r.Some? ==> r.value < |sections| && Reached(sections[r.value], scrollY)
    ensures r.Some? ==> forall k :: r.value < k < |sections| ==> !Reached(sections[k], scrollY)
  {
    if sections == [] then None
    else if Reached(sections[|sections| - 1], scrollY) then Some(|sections| - 1)
    else LastReached(sections[..|sections| - 1], scrollY)
  }

  /** The id the listener settles on: that of the last reached section, `''`
      when there is none. */
  function CurrentId(sections: seq<Section>, scrollY: real): string {
    match LastReached(sections, scrollY)
    case None => ""
    case Some(i) => sections[i].id
  }

  /** The first loop: `current` starts as `''` and every reached section
      overwrites it with its id. */
  method FindCurrent(sections: seq<Section>, scrollY: real) returns (current: string)
    ensures current == CurrentId(sections, scrollY)
  {
    current := "";
    var k := 0;
    while k < |sections|
      invariant 0 <= k <= |sections|
      invariant current == CurrentId(sections[..k], scrollY)
    {
      assert sections[..k + 1][..k] == sections[..k];
      if Reached(sections[k], scrollY) {
        current := sections[k].id;
      }
      k := k + 1;
    }
    assert sections[..k] == sections;
  }

  /** The choice the first loop makes, stated without the loop: a reached
      section wins over every earlier one, and an unreached one changes
      nothing. */
  lemma {:induction false} CurrentIdExtend(sections: seq<Section>, s: Section, scrollY: real)
    ensures Reached(s, scrollY) ==> CurrentId(sections + [s], scrollY) == s.id
    ensures !Reached(s, scrollY) ==> CurrentId(sections + [s], scrollY) == CurrentId(sections, scrollY)
  {
    assert (sections + [s])[..|sections|] == sections;
  }

  /** `String.prototype.slice(1)`: everything but the first character. */
  function SliceFromOne(s: string): (r: string)
    ensures |s| == 0 ==> r == ""
    ensures |s| > 0 ==> [s[0]] + r == s
  {
    if |s| == 0 then "" else s[1..]
  }

  datatype Color = PrimaryColor | AccentColor        // var(--color-primary), var(--color-accent)
  datatype Shadow = NoShadow | AccentGlow            // 'none', '0 0 10px var(--color-accent)'

  /** A `.nav-links a` element: its `href` attribute (`None` when absent) and
      the two style properties the listener writes. */
  class NavLink {
    const href: Option<string>
    var color: Color
    var textShadow: Shadow

    constructor (href: Option<string>, color: Color, textShadow: Shadow)
      ensures this.href == href && this.color == color && this.textShadow == textShadow
    {
      this.href := href;
      this.color := color;
      this.textShadow := textShadow;
    }

    /** `link.getAttribute('href').slice(1) === current`; a link without an
        `href` points nowhere. */
    predicate PointsAt(current: string) {
      href.Some? && SliceFromOne(href.value) == current
    }

    /** The two style properties the listener writes. */
    function Style(): (Color, Shadow)
      reads this
    {
      (color, textShadow)
    }

    /** The link shows the highlight exactly when it points at `current` and
        the primary style otherwise. */
    predicate StyledFor(current: string)
      reads this
    {
      if PointsAt(current) then Style() == (AccentColor, AccentGlow)
      else Style() == (PrimaryColor, NoShadow)
    }

    /** One iteration of the second loop on this link: reset to the primary
        style, then highlight when the link points at `current`. Without an
        `href` only the reset happens, and the caller stops. */
    method Restyle(current: string)
      modifies this
      ensures StyledFor(current)
    {
      color := PrimaryColor;
      textShadow := NoShadow;
      if href.Some? && SliceFromOne(href.value) == current {
        color := AccentColor;
        textShadow := AccentGlow;
      }
    }
  }

  /** The index of the first link without an `href`, or the number of links
      when every link has one. */
  function FirstWithoutHref(links: seq<NavLink>): (r: nat)
    ensures r <= |links|
    ensures forall k :: 0 <= k < r ==> links[k].href.Some?
    ensures r < |links| ==> links[r].href.None?
  {
    if links == [] then 0
    else if links[0].href.None? then 0
    else 1 + FirstWithoutHref(links[1..])
  }

  /** The second loop. Each link is first reset to the primary style and then
      highlighted when it points at `current`. A link without an `href` makes
      `slice` throw once that link has been reset: the loop stops there, the
      later links keep their old style, and `completed` is false. */
  method RestyleLinks(links: seq<NavLink>, current: string) returns (completed: bool)
    requires forall i, j :: 0 <= i < j < |links| ==> links[i] != links[j]
    modifies set l | l in links
    ensures completed <==> FirstWithoutHref(links) == |links|
    ensures forall k :: 0 <= k <= FirstWithoutHref(links) && k < |links| ==> links[k].StyledFor(current)
    ensures forall k :: FirstWithoutHref(links) < k < |links| ==> links[k].Style() == old(links[k].Style())
  {
    var stop := FirstWithoutHref(links);
    completed := true;
    var k := 0;
    while k < |links|
      invariant 0 <= k <= stop
      invariant completed
      invariant forall i :: 0 <= i < k ==> links[i].StyledFor(current)
      invariant forall i :: k <= i < |links| ==> links[i].Style() == old(links[i].Style())
    {
      links[k].Restyle(current);
      if links[k].href.None? {
        completed := false;
        return;
      }
      k := k + 1;
    }
  }

  /** One scroll event: find the current section, then restyle the links. */
  method OnScroll(sections: seq<Section>, links: seq<NavLink>, scrollY: real)
    returns (current: string, completed: bool)
    requires forall i, j :: 0 <= i < j < |links| ==> links[i] != links[j]
    modifies set l | l in links
    ensures current == CurrentId(sections, scrollY)
    ensures completed <==> FirstWithoutHref(links) == |links|
    ensures forall k :: 0 <= k <= FirstWithoutHref(links) && k < |links| ==> links[k].StyledFor(current)
    ensures forall k :: FirstWithoutHref(links) < k < |links| ==> links[k].Style() == old(links[k].Style())
  {
    current := FindCurrent(sections, scrollY);
    completed := RestyleLinks(links, current);
  }
}
