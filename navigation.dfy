/**
 * The click handler that `setupNavigation` attaches to every nav item: the
 * clicked item becomes the only active nav item, every `.section-content`
 * loses `active`, and the element whose id is `<data-section>-section`, if
 * there is one, gains it.
 */
module Navigation {

  import opened Optional

  /** A `.section-content` element: its id and whether it has the `active` class. */
  datatype Section = Section(id: string, active: bool)

  /** The id of the section a nav item's `data-section` attribute names. */
  function SectionId(dataSection: string): string {
    dataSection + "-section"
  }

  /** Section `i` is the element `getElementById(id)` returns: the first one with that id. */
  ghost predicate IsFirstWithId(sections: seq<Section>, i: int, id: string) {
    0 <= i < |sections| && sections[i].id == id && forall j :: 0 <= j < i ==> sections[j].id != id
  }

  /** Exactly the section `getElementById(id)` finds is active, and no other. */
  ghost predicate ShowsOnly(sections: seq<Section>, id: string) {
    forall i :: 0 <= i < |sections| ==> (sections[i].active <==> IsFirstWithId(sections, i, id))
  }

  /** `document.getElementById(id)` among the sections: the first match, or none. */
  method FindSection(sections: array<Section>, id: string) returns (found: Option<nat>)
    ensures found.Some? ==> IsFirstWithId(sections[..], found.value, id)
    ensures found.None? <==> forall j :: 0 <= j < sections.Length ==> sections[j].id != id
  {
    var i := 0;
    while i < sections.Length
      invariant 0 <= i <= sections.Length
      invariant forall j :: 0 <= j < i ==> sections[j].id != id
    {
      if sections[i].id == id {
        return Some(i);
      }
      i := i + 1;
    }
    return None;
  }

  /**
   * A click on nav item `clicked`, whose `data-section` is
   * `targets[clicked]`: `active[i]` is nav item `i`'s `active` class.
   */
  method Click(active: array<bool>, targets: seq<string>, clicked: nat, sections: array<Section>)
    requires active.Length == |targets| && clicked < active.Length
    modifies active, sections
    ensures forall i :: 0 <= i < active.Length ==> (active[i] <==> i == clicked)
    ensures forall i :: 0 <= i < sections.Length ==> sections[i].id == old(sections[i].id)
    ensures ShowsOnly(sections[..], SectionId(targets[clicked]))
  {
    for i := 0 to active.Length
      modifies active
      invariant forall j :: 0 <= j < i ==> !active[j]
    {
      active[i] := false;
    }
    active[clicked] := true;
    for i := 0 to sections.Length
      modifies sections
      invariant forall j :: 0 <= j < i ==> sections[j] == old(sections[j]).(active := false)
      invariant forall j :: i <= j < sections.Length ==> sections[j] == old(sections[j])
    {
      sections[i] := sections[i].(active := false);
    }
    var found := FindSection(sections, SectionId(targets[clicked]));
    if found.Some? {
      sections[found.value] := sections[found.value].(active := true);
    }
  }

  /**
   * After a click at most one section is active: the one with the target
   * id, if some section has it, and none otherwise.
   */
  lemma AtMostOneSection(sections: seq<Section>, id: string)
    requires ShowsOnly(sections, id)
    ensures forall i, j :: 0 <= i < |sections| && 0 <= j < |sections| && sections[i].active && sections[j].active ==> i == j
    ensures forall i :: 0 <= i < |sections| && sections[i].active ==> sections[i].id == id
    ensures (exists i :: 0 <= i < |sections| && sections[i].active) <==> (exists i :: 0 <= i < |sections| && sections[i].id == id)
  {
    if i :| 0 <= i < |sections| && sections[i].id == id {
      var k := FirstWithId(sections, id, i);
      assert sections[k].active;
    }
  }

  /** Some section has `id` at or before `i`, so a first one exists. */
  lemma {:induction false} FirstWithIdExists(sections: seq<Section>, id: string, i: nat)
    requires i < |sections| && sections[i].id == id
    ensures exists k :: IsFirstWithId(sections, k, id)
  {
    if !IsFirstWithId(sections, i, id) {
      var j :| 0 <= j < i && sections[j].id == id;
      FirstWithIdExists(sections, id, j);
    }
  }

  /** The index of the first section with `id`, given one at `i`. */
  ghost function FirstWithId(sections: seq<Section>, id: string, i: nat): (k: nat)
    requires i < |sections| && sections[i].id == id
    ensures IsFirstWithId(sections, k, id)
  {
    FirstWithIdExists(sections, id, i);
    var k :| IsFirstWithId(sections, k, id); k
  }
}
