/**
 * The "Where I Create" section (components/PlatformShowcase.tsx): three
 * platform cards that glow while hovered and, when clicked, toggle an
 * expanded panel below them; leaving the panel with the mouse closes it.
 * Both pieces of state hold a card's display name or nothing.
 */
module PlatformShowcase {
  import opened Wrappers

  /** The card names, in display order (`platforms[i].name`). */
  const PlatformNames: seq<string> := ["TikTok", "YouTube", "Instagram"]

  /** What one card shows. */
  datatype CardView = CardView(name: string, gradient: bool, hint: bool, glow: bool)

  class Showcase {
    var selectedPlatform: Option<string>
    var isHovering: Option<string>

    /** Only card names are ever stored. */
    predicate Valid()
      reads this
    {
      (selectedPlatform.Some? ==> selectedPlatform.value in PlatformNames)
      && (isHovering.Some? ==> isHovering.value in PlatformNames)
    }

    constructor ()
      ensures Valid()
      ensures selectedPlatform == None && isHovering == None
    {
      selectedPlatform := None;
      isHovering := None;
    }

    /** A card's `onClick`: the selected card closes, any other card opens. */
    method ClickCard(name: string)
      requires Valid() && name in PlatformNames
      modifies this
      ensures Valid()
      ensures old(selectedPlatform) == Some(name) ==> selectedPlatform == None
      ensures old(selectedPlatform) != Some(name) ==> selectedPlatform == Some(name)
      ensures isHovering == old(isHovering)
    {
      selectedPlatform := if selectedPlatform == Some(name) then None else Some(name);
    }

    /** A card's `onMouseEnter`. */
    method MouseEnter(name: string)
      requires Valid() && name in PlatformNames
      modifies this
      ensures Valid()
      ensures isHovering == Some(name) && selectedPlatform == old(selectedPlatform)
    {
      isHovering := Some(name);
    }

    /** A card's `onMouseLeave`. */
    method MouseLeave()
      requires Valid()
      modifies this
      ensures Valid()
      ensures isHovering == None && selectedPlatform == old(selectedPlatform)
    {
      isHovering := None;
    }

    /** The expanded panel's `onMouseLeave`; the panel, and so the handler, exists only while it is shown. */
    method LeavePanel()
      requires Valid() && PanelShown()
      modifies this
      ensures Valid()
      ensures selectedPlatform == None && !PanelShown() && isHovering == old(isHovering)
    {
      selectedPlatform := None;
    }

    /** `{selectedPlatform && (...)}`: the panel is rendered for a truthy selection. */
    predicate PanelShown()
      reads this
    {
      Truthy(selectedPlatform)
    }

    /** The panel's heading, `<selected> Projects`. */
    function PanelTitle(): (t: Option<string>)
      reads this
      requires Valid()
      ensures t.Some? <==> PanelShown()
      ensures t.Some? ==> t.value == selectedPlatform.value + " Projects"
    {
      if PanelShown() then Some(selectedPlatform.value + " Projects") else None
    }

    /** Card `i`: gradient and "Click to see projects" when selected, glow when hovered. */
    function Card(i: nat): (c: CardView)
      reads this
      requires i < |PlatformNames|
      ensures c.name == PlatformNames[i]
      ensures c.gradient == c.hint == (selectedPlatform == Some(PlatformNames[i]))
      ensures c.glow <==> isHovering == Some(PlatformNames[i])
    {
      var name := PlatformNames[i];
      CardView(name, selectedPlatform == Some(name), selectedPlatform == Some(name), isHovering == Some(name))
    }

    /** The panel is shown exactly when a card is selected, and then exactly one card is marked. */
    lemma PanelIffSelected()
      requires Valid()
      ensures PanelShown() <==> selectedPlatform.Some?
      ensures PanelShown() ==> exists i :: 0 <= i < |PlatformNames| && Card(i).gradient
      ensures forall i, j :: 0 <= i < j < |PlatformNames| ==> !(Card(i).gradient && Card(j).gradient)
    {
      if selectedPlatform.Some? {
        var name := selectedPlatform.value;
        assert name in PlatformNames;
        assert name != "" by {
          assert forall k :: 0 <= k < |PlatformNames| ==> PlatformNames[k] != "";
        }
        var i :| 0 <= i < |PlatformNames| && PlatformNames[i] == name;
        assert Card(i).gradient;
      }
    }
  }

  /** Clicking the same card twice opens and closes the panel again; hovering changes nothing about it. */
  method ClickTwice(i: nat) returns (afterFirst: bool, afterSecond: bool)
    requires i < |PlatformNames|
    ensures afterFirst && !afterSecond
  {
    var s := new Showcase();
    s.ClickCard(PlatformNames[i]);
    s.PanelIffSelected();
    afterFirst := s.PanelShown();
    s.MouseEnter(PlatformNames[i]);
    s.ClickCard(PlatformNames[i]);
    afterSecond := s.PanelShown();
  }

  /** Clicking another card while one is open switches the panel to it. */
  method SwitchCards(i: nat, j: nat) returns (title: Option<string>)
    requires i < |PlatformNames| && j < |PlatformNames| && i != j
    ensures title == Some(PlatformNames[j] + " Projects")
  {
    var s := new Showcase();
    s.ClickCard(PlatformNames[i]);
    s.ClickCard(PlatformNames[j]);
    s.PanelIffSelected();
    title := s.PanelTitle();
  }
}
