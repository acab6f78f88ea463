/**
 * Scroll-driven highlighting of the landing page's navigation
 * (src/scripts/nav-scroll-highlight.ts).  Links are the document's anchor
 * elements, whose class lists the script changes in place; the section
 * positions and the intersection entries the browser reports are inputs.
 */
module NavHighlight {
  import opened Wrappers

  /** A `section[id]` element with the top of its bounding rectangle, in CSS
      pixels relative to the viewport. */
  datatype Section = Section(id: string, top: real)

  /** A section can become the active one when its top is at most 150 pixels
      below the viewport's top and its id is not empty. */
  predicate Qualifies(s: Section) {
    s.top <= 150.0 && s.id != ""
  }

  /** The id `updateInitialActive` picks: that of the last section in document
      order that qualifies, or `hero` when none does. */
  function ActiveId(sections: seq<Section>): string
    decreases |sections|
  {
    if |sections| == 0 then "hero"
    else if Qualifies(sections[|sections| - 1]) then sections[|sections| - 1].id
    else ActiveId(sections[..|sections| - 1])
  }

  /** The scan of `updateInitialActive` over the sections. */
  method SelectActive(sections: seq<Section>) returns (activeId: string)
    ensures activeId == ActiveId(sections)
  {
    activeId := "hero";
    var i := 0;
    while i < |sections|
      invariant 0 <= i <= |sections|
      invariant activeId == ActiveId(sections[..i])
    {
      var section := sections[i];
      if section.top <= 150.0 {
        var sectionId := section.id;
        if sectionId != "" {
          activeId := sectionId;
        }
      }
      assert sections[..i + 1][..i] == sections[..i];
      i := i + 1;
    }
    assert sections[..i] == sections;
  }

  /** With no qualifying section the active id is `hero`. */
  lemma {:induction false} NoQualifyingSectionIsHero(sections: seq<Section>)
    requires forall k :: 0 <= k < |sections| ==> !Qualifies(sections[k])
    ensures ActiveId(sections) == "hero"
    decreases |sections|
  {
    if |sections| > 0 {
      NoQualifyingSectionIsHero(sections[..|sections| - 1]);
    }
  }

  /** Otherwise it is the id of the last qualifying section. */
  lemma {:induction false} LastQualifyingSectionWins(sections: seq<Section>, k: nat)
    requires k < |sections| && Qualifies(sections[k])
    requires forall j :: k < j < |sections| ==> !Qualifies(sections[j])
    ensures ActiveId(sections) == sections[k].id
    decreases |sections|
  {
    if k < |sections| - 1 {
      LastQualifyingSectionWins(sections[..|sections| - 1], k);
    }
  }

  /** The active id is always `hero` or the id of a qualifying section. */
  lemma {:induction false} ActiveIdOrigin(sections: seq<Section>)
    ensures ActiveId(sections) == "hero" ||
            exists k :: 0 <= k < |sections| && Qualifies(sections[k]) && sections[k].id == ActiveId(sections)
    decreases |sections|
  {
    if |sections| > 0 && !Qualifies(sections[|sections| - 1]) {
      var prefix := sections[..|sections| - 1];
      ActiveIdOrigin(prefix);
      if ActiveId(prefix) != "hero" {
        var k :| 0 <= k < |prefix| && Qualifies(prefix[k]) && prefix[k].id == ActiveId(prefix);
        assert sections[k] == prefix[k];
      }
    }
  }

  /** Document order decides, not position: a later section that has scrolled
      further up wins over an earlier one nearer the header line. */
  lemma LaterSectionBeatsHigherTop()
    ensures ActiveId([Section("features", 100.0), Section("pricing", -500.0)]) == "pricing"
  {
  }

  // ---------------------------------------------------------------------------
  // Link classes

  /** An anchor matched by `a[href^="#"]`: its `href` attribute and class list. */
  class NavLink {
    const href: string
    var classes: set<string>

    constructor(href: string, classes: set<string>)
      ensures this.href == href && this.classes == classes
    {
      this.href := href;
      this.classes := classes;
    }
  }

  /** A link's classes after an update for section `id`: `active` removed, then
      `nav-link` added, and `active` added back when the link targets `#id`. */
  function Marked(classes: set<string>, href: string, id: string): set<string> {
    (classes - {"active"}) + {"nav-link"} + (if href == "#" + id then {"active"} else {})
  }

  /** After an update a link carries `nav-link`; it carries `active` exactly
      when it targets the section; every other class is as it was. */
  lemma MarkedClasses(classes: set<string>, href: string, id: string)
    ensures "nav-link" in Marked(classes, href, id)
    ensures "active" in Marked(classes, href, id) <==> href == "#" + id
    ensures forall c :: c != "nav-link" && c != "active" ==>
              (c in Marked(classes, href, id) <==> c in classes)
  {
  }

  /** Updating twice for the same section is updating once. */
  lemma MarkedIdempotent(classes: set<string>, href: string, id: string)
    ensures Marked(Marked(classes, href, id), href, id) == Marked(classes, href, id)
  {
  }

  /** A later update overrides an earlier one. */
  lemma MarkedOverrides(classes: set<string>, href: string, first: string, second: string)
    ensures Marked(Marked(classes, href, first), href, second) == Marked(classes, href, second)
  {
  }

  /** One `links.forEach` pass of the script over a list of links.  A link
      listed more than once is updated more than once, to the same classes. */
  method MarkLinks(links: seq<NavLink>, id: string)
    modifies links
    ensures forall l :: l in links ==> l.classes == Marked(old(l.classes), l.href, id)
  {
    var i := 0;
    while i < |links|
      invariant 0 <= i <= |links|
      invariant forall l :: l in links[..i] ==> l.classes == Marked(old(l.classes), l.href, id)
      invariant forall l :: l in links && l !in links[..i] ==> l.classes == old(l.classes)
    {
      var link := links[i];
      MarkedIdempotent(old(link.classes), link.href, id);
      link.classes := link.classes - {"active"};
      if link.href == "#" + id {
        link.classes := link.classes + {"nav-link", "active"};
      } else {
        link.classes := link.classes + {"nav-link"};
      }
      assert links[..i + 1] == links[..i] + [link];
      i := i + 1;
    }
    assert links[..i] == links;
  }

  /** An entry delivered to the intersection observer's callback. */
  datatype Entry = Entry(targetId: string, isIntersecting: bool)

  /** The id of the last intersecting entry, if any. */
  function LastIntersecting(entries: seq<Entry>): Option<string>
    decreases |entries|
  {
    if |entries| == 0 then None
    else if entries[|entries| - 1].isIntersecting then Some(entries[|entries| - 1].targetId)
    else LastIntersecting(entries[..|entries| - 1])
  }

  /** The id of the last intersecting entry is that of an intersecting entry
      with no intersecting entry after it; there is none only when no entry
      intersects. */
  lemma {:induction false} LastIntersectingFound(entries: seq<Entry>)
    ensures LastIntersecting(entries).None? <==> forall k :: 0 <= k < |entries| ==> !entries[k].isIntersecting
    ensures LastIntersecting(entries).Some? ==>
              exists k :: 0 <= k < |entries| && entries[k].isIntersecting &&
                          entries[k].targetId == LastIntersecting(entries).value &&
                          forall j :: k < j < |entries| ==> !entries[j].isIntersecting
    decreases |entries|
  {
    if |entries| > 0 && !entries[|entries| - 1].isIntersecting {
      var prefix := entries[..|entries| - 1];
      LastIntersectingFound(prefix);
      assert forall k :: 0 <= k < |prefix| ==> prefix[k] == entries[k];
    }
  }

  /** A link's classes after a callback whose last intersecting entry is
      `last`: untouched when there is none. */
  function Shown(classes: set<string>, href: string, last: Option<string>): set<string> {
    match last
    case None => classes
    case Some(id) => Marked(classes, href, id)
  }

  /** The state `initNavScrollHighlight` sets up: the desktop and mobile link
      lists, and the flag and pending animation frame of the scroll handler. */
  class NavHighlighter {
    /** `nav a[href^="#"]`. */
    const navLinks: seq<NavLink>
    /** `#mobile-menu a[href^="#"]`. */
    const mobileLinks: seq<NavLink>
    var ticking: bool
    /** Animation-frame callbacks requested and not yet run. */
    var pendingFrames: nat

    /** The scroll handler's invariant: at most one frame update is pending,
        and `ticking` says whether one is. */
    predicate Valid()
      reads this
    {
      pendingFrames <= 1 && (ticking <==> pendingFrames == 1)
    }

    /** `initNavScrollHighlight()`: runs the initial update for the sections
        as they are positioned at load. */
    constructor(sections: seq<Section>, navLinks: seq<NavLink>, mobileLinks: seq<NavLink>)
      modifies navLinks, mobileLinks
      ensures this.navLinks == navLinks && this.mobileLinks == mobileLinks
      ensures Valid() && !ticking && pendingFrames == 0
      ensures forall l :: l in navLinks || l in mobileLinks ==>
                l.classes == Marked(old(l.classes), l.href, ActiveId(sections))
    {
      this.navLinks := navLinks;
      this.mobileLinks := mobileLinks;
      this.ticking := false;
      this.pendingFrames := 0;
      new;
      UpdateActive(sections);
    }

    /** `updateInitialActive()`: the same rule for both lists. */
    method UpdateActive(sections: seq<Section>)
      modifies navLinks, mobileLinks
      ensures forall l :: l in navLinks || l in mobileLinks ==>
                l.classes == Marked(old(l.classes), l.href, ActiveId(sections))
    {
      var activeId := SelectActive(sections);
      MarkBoth(activeId);
    }

    /** Both `forEach` passes for one active id. */
    method MarkBoth(id: string)
      modifies navLinks, mobileLinks
      ensures forall l :: l in navLinks || l in mobileLinks ==>
                l.classes == Marked(old(l.classes), l.href, id)
    {
      MarkLinks(navLinks, id);
      MarkLinks(mobileLinks, id);
      forall l | l in navLinks && l in mobileLinks
        ensures l.classes == Marked(old(l.classes), l.href, id)
      {
        MarkedIdempotent(old(l.classes), l.href, id);
      }
    }

    /** The intersection observer's callback: each intersecting entry is
        applied in turn, so the last one decides. */
    method Observe(entries: seq<Entry>)
      modifies navLinks, mobileLinks
      ensures forall l :: l in navLinks || l in mobileLinks ==>
                l.classes == Shown(old(l.classes), l.href, LastIntersecting(entries))
    {
      var i := 0;
      while i < |entries|
        invariant 0 <= i <= |entries|
        invariant forall l :: l in navLinks || l in mobileLinks ==>
                    l.classes == Shown(old(l.classes), l.href, LastIntersecting(entries[..i]))
      {
        var entry := entries[i];
        assert entries[..i + 1][..i] == entries[..i];
        if entry.isIntersecting {
          ghost var last := LastIntersecting(entries[..i]);
          MarkBoth(entry.targetId);
          forall l | l in navLinks || l in mobileLinks
            ensures l.classes == Marked(old(l.classes), l.href, entry.targetId)
          {
            if last.Some? {
              MarkedOverrides(old(l.classes), l.href, last.value, entry.targetId);
            }
          }
        }
        i := i + 1;
      }
      assert entries[..i] == entries;
    }

    /** The scroll listener: requests a frame only when none is pending. */
    method OnScroll()
      requires Valid()
      modifies this
      ensures Valid() && ticking
      ensures old(ticking) ==> pendingFrames == old(pendingFrames)
      ensures !old(ticking) ==> pendingFrames == old(pendingFrames) + 1
    {
      if !ticking {
        pendingFrames := pendingFrames + 1;
        ticking := true;
      }
    }

    /** The requested animation frame: updates the links for the sections as
        they are positioned now, then clears the flag. */
    method RunFrame(sections: seq<Section>)
      requires Valid() && pendingFrames > 0
      modifies this, navLinks, mobileLinks
      ensures Valid() && !ticking && pendingFrames == 0
      ensures forall l :: l in navLinks || l in mobileLinks ==>
                l.classes == Marked(old(l.classes), l.href, ActiveId(sections))
    {
      pendingFrames := pendingFrames - 1;
      UpdateActive(sections);
      ticking := false;
    }
  }
}
