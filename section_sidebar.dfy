/** The section outline (components/sections/section-sidebar.tsx): top-level and child
    sections, the expanded-set toggle, drag-and-drop reordering of the top level, and the
    display labels of section types. */
module SectionSidebar {
  import opened Common
  import opened SectionTypes

  /** The columns of a `sections` row the outline uses. */
  datatype Section = Section(id: string, reportId: string, sectionType: string, title: Option<string>,
                             orderIndex: int, parentId: Option<string>)

  // ===========================================================================
  // Tree queries

  /** `sections.filter(s => !s.parent_id)`. */
  function TopLevel(sections: seq<Section>): seq<Section> {
    if sections == [] then []
    else (if !Truthy(sections[0].parentId) then [sections[0]] else []) + TopLevel(sections[1..])
  }

  /** `sections.filter(s => s.parent_id)`: every section that has a parent. */
  function WithParent(sections: seq<Section>): seq<Section> {
    if sections == [] then []
    else (if Truthy(sections[0].parentId) then [sections[0]] else []) + WithParent(sections[1..])
  }

  /** `getChildren(parentId)`: the sections whose parent is `parentId`. */
  function Children(sections: seq<Section>, parentId: string): seq<Section> {
    if sections == [] then []
    else (if sections[0].parentId == Some(parentId) then [sections[0]] else []) + Children(sections[1..], parentId)
  }

  lemma {:induction false} TopLevelMembers(sections: seq<Section>)
    ensures forall s :: s in TopLevel(sections) <==> s in sections && !Truthy(s.parentId)
  {
    if sections != [] {
      TopLevelMembers(sections[1..]);
      assert sections == [sections[0]] + sections[1..];
    }
  }

  lemma {:induction false} ChildrenMembers(sections: seq<Section>, parentId: string)
    ensures forall s :: s in Children(sections, parentId) <==> s in sections && s.parentId == Some(parentId)
  {
    if sections != [] {
      ChildrenMembers(sections[1..], parentId);
      assert sections == [sections[0]] + sections[1..];
    }
  }

  /** Every section is either top-level or has a parent, never both. */
  lemma {:induction false} TopLevelAndChildrenPartition(sections: seq<Section>)
    ensures |TopLevel(sections)| + |WithParent(sections)| == |sections|
    ensures multiset(TopLevel(sections)) + multiset(WithParent(sections)) == multiset(sections)
  {
    if sections != [] {
      TopLevelAndChildrenPartition(sections[1..]);
      assert sections == [sections[0]] + sections[1..];
    }
  }

  // ===========================================================================
  // Expanded set

  /** The set after toggling `id`. */
  function Toggled(expanded: set<string>, id: string): (r: set<string>)
    ensures id in r <==> id !in expanded
    ensures forall x :: x != id ==> (x in r <==> x in expanded)
  {
    if id in expanded then expanded - {id} else expanded + {id}
  }

  /** Toggling the same id twice restores the set. */
  lemma ToggleTwice(expanded: set<string>, id: string)
    ensures Toggled(Toggled(expanded, id), id) == expanded
  {
  }

  // ===========================================================================
  // Reordering

  /** The first index at or after `k` of a section with this id, or -1. */
  function FindIndexFrom(sections: seq<Section>, id: string, k: nat): (r: int)
    requires k <= |sections|
    ensures r == -1 || k <= r < |sections|
    decreases |sections| - k
  {
    if k == |sections| then -1
    else if sections[k].id == id then k
    else FindIndexFrom(sections, id, k + 1)
  }

  lemma {:induction false} FindIndexFromFacts(sections: seq<Section>, id: string, k: nat)
    requires k <= |sections|
    ensures var r := FindIndexFrom(sections, id, k);
            (r == -1 <==> forall i :: k <= i < |sections| ==> sections[i].id != id) &&
            (r >= 0 ==> sections[r].id == id && forall i :: k <= i < r ==> sections[i].id != id)
    decreases |sections| - k
  {
    if k < |sections| && sections[k].id != id {
      FindIndexFromFacts(sections, id, k + 1);
    }
  }

  /** `findIndex(s => s.id === id)`: the first index of a section with this id, or -1. */
  function FindIndex(sections: seq<Section>, id: string): (r: int)
    ensures -1 <= r < |sections|
    ensures r == -1 <==> forall i :: 0 <= i < |sections| ==> sections[i].id != id
    ensures r >= 0 ==> sections[r].id == id && forall i :: 0 <= i < r ==> sections[i].id != id
  {
    FindIndexFromFacts(sections, id, 0);
    FindIndexFrom(sections, id, 0)
  }

  function Without(s: seq<Section>, i: nat): seq<Section>
    requires i < |s|
  {
    s[..i] + s[i + 1..]
  }

  /** `arrayMove(s, from, to)`: takes the element out at `from` and inserts it at `to`. */
  function ArrayMove(s: seq<Section>, from: nat, to: nat): seq<Section>
    requires from < |s| && to < |s|
  {
    var rest := Without(s, from);
    rest[..to] + [s[from]] + rest[to..]
  }

  /** The moved element lands at `to`, nothing is lost or duplicated, and the others keep
      their relative order. */
  lemma ArrayMoveFacts(s: seq<Section>, from: nat, to: nat)
    requires from < |s| && to < |s|
    ensures |ArrayMove(s, from, to)| == |s|
    ensures ArrayMove(s, from, to)[to] == s[from]
    ensures Without(ArrayMove(s, from, to), to) == Without(s, from)
    ensures multiset(ArrayMove(s, from, to)) == multiset(s)
  {
    var rest := Without(s, from);
    var r := ArrayMove(s, from, to);
    assert r[..to] == rest[..to];
    assert r[to + 1..] == rest[to..];
    assert rest[..to] + rest[to..] == rest;
    assert s == s[..from] + [s[from]] + s[from + 1..];
    assert r == rest[..to] + [s[from]] + rest[to..];
    calc {
      multiset(r);
      multiset(rest[..to]) + multiset{s[from]} + multiset(rest[to..]);
      multiset(rest) + multiset{s[from]};
      multiset(s[..from]) + multiset(s[from + 1..]) + multiset{s[from]};
      multiset(s);
    }
  }

  /** Moving an element onto its own position changes nothing. */
  lemma ArrayMoveInPlace(s: seq<Section>, i: nat)
    requires i < |s|
    ensures ArrayMove(s, i, i) == s
  {
    assert Without(s, i)[..i] == s[..i];
    assert Without(s, i)[i..] == s[i + 1..];
    assert s == s[..i] + [s[i]] + s[i + 1..];
  }

  /** `.map((section, index) => ({...section, order_index: index}))`. */
  function Renumber(s: seq<Section>): (r: seq<Section>)
    ensures |r| == |s|
  {
    seq(|s|, i requires 0 <= i < |s| => s[i].(orderIndex := i))
  }

  /** What a finished drag hands to `onSectionReorder`, or `None` when it returns early:
      no drop target, a drop on itself, or an id that is not a top-level section. */
  function DragEnd(sections: seq<Section>, activeId: string, overId: Option<string>): Option<seq<Section>> {
    if overId.None? || activeId == overId.value then None
    else
      var top := TopLevel(sections);
      var oldIndex := FindIndex(top, activeId);
      var newIndex := FindIndex(top, overId.value);
      if oldIndex == -1 || newIndex == -1 then None
      else Some(Renumber(ArrayMove(top, oldIndex, newIndex)) + WithParent(sections))
  }

  /** The list built from a move: the renumbered top level followed by `rest` unchanged. */
  lemma MovedListFacts(top: seq<Section>, from: nat, to: nat, rest: seq<Section>)
    requires from < |top| && to < |top|
    ensures var r := Renumber(ArrayMove(top, from, to)) + rest;
            |r| == |top| + |rest| &&
            (forall i :: 0 <= i < |top| ==> r[i].orderIndex == i) &&
            r[to] == top[from].(orderIndex := to) &&
            (forall i :: 0 <= i < |top| ==> r[i] == ArrayMove(top, from, to)[i].(orderIndex := i)) &&
            r[|top|..] == rest
  {
    ArrayMoveFacts(top, from, to);
    var r := Renumber(ArrayMove(top, from, to)) + rest;
    assert r[|top|..] == rest;
  }

  /** The early returns, and the shape of the list handed on otherwise: the renumbered
      top level (positions 0..n-1, the dragged section at the drop target's index, the
      others in their old relative order) followed by the child sections unchanged. */
  lemma DragEndFacts(sections: seq<Section>, activeId: string, overId: Option<string>)
    ensures DragEnd(sections, activeId, overId).Some? <==>
              overId.Some? && activeId != overId.value &&
              FindIndex(TopLevel(sections), activeId) >= 0 && FindIndex(TopLevel(sections), overId.value) >= 0
    ensures DragEnd(sections, activeId, overId).Some? ==>
              var top := TopLevel(sections);
              var from := FindIndex(top, activeId);
              var to := FindIndex(top, overId.value);
              var r := DragEnd(sections, activeId, overId).value;
              |r| == |sections| &&
              (forall i :: 0 <= i < |top| ==> r[i].orderIndex == i) &&
              r[to] == top[from].(orderIndex := to) &&
              (forall i :: 0 <= i < |top| ==> r[i] == ArrayMove(top, from, to)[i].(orderIndex := i)) &&
              Without(ArrayMove(top, from, to), to) == Without(top, from) &&
              r[|top|..] == WithParent(sections)
  {
    if DragEnd(sections, activeId, overId).Some? {
      var top := TopLevel(sections);
      var from := FindIndex(top, activeId);
      var to := FindIndex(top, overId.value);
      ArrayMoveFacts(top, from, to);
      TopLevelAndChildrenPartition(sections);
      MovedListFacts(top, from, to, WithParent(sections));
    }
  }

  // ===========================================================================
  // Type labels

  function Label(t: SectionType): string {
    match t
    case TitlePage => "Title Page"
    case ExecutiveSummary => "Executive Summary"
    case TableOfContents => "Table of Contents"
    case Introduction => "Introduction"
    case Background => "Background"
    case Analysis => "Analysis"
    case Findings => "Findings"
    case Discussion => "Discussion"
    case Methodology => "Methodology"
    case Recommendations => "Recommendations"
    case Conclusion => "Conclusion"
    case Appendix => "Appendix"
    case Exhibit => "Exhibit"
    case References => "References"
    case Glossary => "Glossary"
    case Acknowledgments => "Acknowledgments"
    case Custom => "Custom Section"
  }

  /** Reads a label back, the partner used to show labels are distinct. */
  function TypeOfLabel(text: string): (r: Option<SectionType>)
    ensures r.Some? ==> Label(r.value) == text
  {
    if text == Label(TitlePage) then Some(TitlePage)
    else if text == Label(ExecutiveSummary) then Some(ExecutiveSummary)
    else if text == Label(TableOfContents) then Some(TableOfContents)
    else if text == Label(Introduction) then Some(Introduction)
    else if text == Label(Background) then Some(Background)
    else if text == Label(Analysis) then Some(Analysis)
    else if text == Label(Findings) then Some(Findings)
    else if text == Label(Discussion) then Some(Discussion)
    else if text == Label(Methodology) then Some(Methodology)
    else if text == Label(Recommendations) then Some(Recommendations)
    else if text == Label(Conclusion) then Some(Conclusion)
    else if text == Label(Appendix) then Some(Appendix)
    else if text == Label(Exhibit) then Some(Exhibit)
    else if text == Label(References) then Some(References)
    else if text == Label(Glossary) then Some(Glossary)
    else if text == Label(Acknowledgments) then Some(Acknowledgments)
    else if text == Label(Custom) then Some(Custom)
    else None
  }

  lemma LabelRoundTrip(t: SectionType)
    ensures TypeOfLabel(Label(t)) == Some(t)
  {
    match t
    case TitlePage =>
    case ExecutiveSummary =>
    case TableOfContents =>
    case Introduction =>
    case Background =>
    case Analysis =>
    case Findings =>
    case Discussion =>
    case Methodology =>
    case Recommendations =>
    case Conclusion =>
    case Appendix =>
    case Exhibit =>
    case References =>
    case Glossary =>
    case Acknowledgments =>
    case Custom =>
  }

  /** Distinct types get distinct, non-empty labels. */
  lemma LabelsDistinct(a: SectionType, b: SectionType)
    ensures Label(a) != ""
    ensures Label(a) == Label(b) ==> a == b
  {
    LabelRoundTrip(a);
    LabelRoundTrip(b);
  }

  /** `getSectionTypeLabel(type)`: `labels[type] || type`. */
  function SectionTypeLabel(sectionType: string): (r: string)
    ensures FromTag(sectionType).Some? ==> r == Label(FromTag(sectionType).value)
    ensures FromTag(sectionType).None? ==> r == sectionType
  {
    match FromTag(sectionType)
    case Some(t) => LabelsDistinct(t, t); if Label(t) != "" then Label(t) else sectionType
    case None => sectionType
  }

  // ===========================================================================
  // Component state

  class SectionSidebarState {
    var expanded: set<string>
    /** Every list handed to `onSectionReorder`, oldest first. */
    var reorders: seq<seq<Section>>

    constructor ()
      ensures expanded == {} && reorders == []
    {
      expanded := {};
      reorders := [];
    }

    /** Copies the set, adds or deletes the id, and stores the copy. */
    method ToggleExpanded(id: string)
      modifies this
      ensures expanded == Toggled(old(expanded), id) && reorders == old(reorders)
    {
      var newExpanded := expanded;
      if id in newExpanded {
        newExpanded := newExpanded - {id};
      } else {
        newExpanded := newExpanded + {id};
      }
      expanded := newExpanded;
    }

    method HandleDragEnd(sections: seq<Section>, activeId: string, overId: Option<string>)
      modifies this
      ensures expanded == old(expanded)
      ensures DragEnd(sections, activeId, overId).None? ==> reorders == old(reorders)
      ensures DragEnd(sections, activeId, overId).Some? ==>
                reorders == old(reorders) + [DragEnd(sections, activeId, overId).value]
    {
      var result := DragEnd(sections, activeId, overId);
      if result.Some? {
        reorders := reorders + [result.value];
      }
    }
  }
}
