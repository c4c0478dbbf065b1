/**
 * Click events and the toggle rule the three callbacks apply to their
 * selection slots (`get_selected_country` and the clear/append blocks).
 * A slot is a list of at most one country name.
 */
module Selection {
  import opened Wrappers

  /** The first point of a click's data: a map point names its region in
      'location', a bar point names its bar in 'x'. */
  datatype Point = Point(location: string, x: string)

  /** The input that fired (`ctx.triggered_id`) with its click point: a map
      click, a bar click, or any control (year, mode, count, continent). */
  datatype Trigger = MapClick(point: Point) | BarClick(point: Point) | Control

  /** `get_selected_country`: the clicked name, or None for a control. */
  function GetSelectedCountry(trigger: Trigger): (name: Option<string>)
    ensures name.None? <==> trigger.Control?
  {
    match trigger
    case MapClick(p) => Some(p.location)
    case BarClick(p) => Some(p.x)
    case Control => None
  }

  /** `if selected_country:` — None and the empty string are false in Python. */
  predicate Clicked(name: Option<string>)
  {
    name.Some? && name.value != ""
  }

  /** The slot after one callback: a held name is cleared, any other clicked
      name replaces the content; no click leaves the slot as it was. */
  function ToggledSlot(slot: seq<string>, name: Option<string>): (r: seq<string>)
    ensures !Clicked(name) ==> r == slot
    ensures Clicked(name) ==> |r| <= 1
    ensures Clicked(name) && |slot| <= 1 ==>
              (r == [] <==> slot == [name.value]) && (r != [] ==> r == [name.value])
  {
    if Clicked(name) then
      if name.value in slot then [] else [name.value]
    else slot
  }

  /** A slot never holds more than one name. */
  lemma ToggleKeepsCapacity(slot: seq<string>, name: Option<string>)
    requires |slot| <= 1
    ensures |ToggledSlot(slot, name)| <= 1
  {
  }

  /** A control change resolves to no name and leaves every slot unchanged. */
  lemma ControlLeavesSlot(slot: seq<string>)
    ensures ToggledSlot(slot, GetSelectedCountry(Control)) == slot
  {
  }

  /** Clicking the same name twice: from empty or from that name the slot comes
      back to where it was; from another name it ends empty (so toggling twice
      is not the identity in general). */
  lemma ToggleTwice(slot: seq<string>, n: string)
    requires |slot| <= 1 && n != ""
    ensures slot == [] || slot == [n] ==> ToggledSlot(ToggledSlot(slot, Some(n)), Some(n)) == slot
    ensures slot != [] && slot != [n] ==> ToggledSlot(ToggledSlot(slot, Some(n)), Some(n)) == []
  {
  }

  /** Selecting x and then a different y leaves only y, never both. */
  lemma ReplaceSelection(slot: seq<string>, x: string, y: string)
    requires |slot| <= 1 && x != "" && y != "" && x != y
    ensures ToggledSlot(ToggledSlot(slot, Some(x)), Some(y)) == [y]
  {
  }
}
