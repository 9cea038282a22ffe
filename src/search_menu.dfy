/** The compact search menu of small screens: the same input buffer and
    chips as the search box, behind an icon with a badge counting the active
    filters. */
module SearchMenu {
  import opened Common
  import opened FilterChips

  /** The placeholder, chosen on whether any filter is active. */
  function Placeholder(filters: seq<string>): (text: string)
    ensures |filters| == 0 <==> text == "Buscar... Enter o , para agregar"
    ensures |filters| > 0 <==> text == "Agregar filtro..."
  {
    assert "Buscar... Enter o , para agregar"[0] != "Agregar filtro..."[0];
    if |filters| == 0 then "Buscar... Enter o , para agregar" else "Agregar filtro..."
  }

  /** The icon's badge: shown iff a filter is active, with the number of
      active filters. */
  function Badge(filters: seq<string>): (b: Option<nat>)
    ensures b.Some? <==> |filters| > 0
    ensures b.Some? ==> b.value == |filters| && b.value >= 1
  {
    if |filters| > 0 then Some(|filters|) else None
  }

  /** The menu's state: the input buffer, and the calls it has made on the
      filter context so far. */
  class Menu {
    var inputValue: string
    var calls: seq<FilterCall>

    constructor ()
      ensures inputValue == "" && calls == []
    {
      inputValue := "";
      calls := [];
    }

    /** `onChangeText`: the typed text replaces the buffer. */
    method ChangeText(text: string)
      modifies this
      ensures inputValue == text && calls == old(calls)
    {
      inputValue := text;
    }

    /** `handleKeyPress`, as `OnKeyPress` describes it. */
    method HandleKeyPress(key: string) returns (defaultPrevented: bool)
      modifies this
      ensures var r := OnKeyPress(old(inputValue), key);
              inputValue == r.input && defaultPrevented == r.defaultPrevented
              && calls == old(calls) + (if r.added.Some? then [AddFilter(r.added.value)] else [])
    {
      defaultPrevented := false;
      if key == "Enter" || key == "," {
        defaultPrevented := true;
        if JsText.Trim(inputValue) != "" {
          calls := calls + [AddFilter(inputValue)];
          inputValue := "";
        }
      }
    }

    /** `handleRemoveFilter(index)`, what a chip's close button runs. */
    method HandleRemoveFilter(index: int)
      modifies this
      ensures calls == old(calls) + [RemoveFilter(index)] && inputValue == old(inputValue)
    {
      calls := calls + [RemoveFilter(index)];
    }
  }

  /** A buffer of blanks stays put on Enter and adds nothing; any other key
      changes nothing either. */
  method BlankInputScenario(text: string) returns (calls: seq<FilterCall>, input: string, prevented: bool)
    requires JsText.Blank(text)
    ensures calls == [] && input == text && prevented
  {
    var menu := new Menu();
    menu.ChangeText(text);
    SubmitOnBlankDoesNothing(text, "Enter");
    prevented := menu.HandleKeyPress("Enter");
    OtherKeysDoNothing(text, "a");
    var _ := menu.HandleKeyPress("a");
    calls := menu.calls;
    input := menu.inputValue;
  }
}
