/** The top bar's search box: an input buffer that turns into filter chips,
    drawn next to the chips of the active filters. */
module GlobalSearch {
  import opened FilterChips

  /** The placeholder, chosen on whether any filter is active. */
  function Placeholder(filters: seq<string>): (text: string)
    ensures |filters| == 0 <==> text == "Buscar... Enter o , para agregar filtro"
    ensures |filters| > 0 <==> text == "Agregar filtro..."
  {
    assert "Buscar... Enter o , para agregar filtro"[0] != "Agregar filtro..."[0];
    if |filters| == 0 then "Buscar... Enter o , para agregar filtro" else "Agregar filtro..."
  }

  /** The component's state: the input buffer, and the calls it has made on
      the filter context so far. */
  class SearchBox {
    var inputValue: string
    var calls: seq<FilterCall>

    constructor ()
      ensures inputValue == "" && calls == []
    {
      inputValue := "";
      calls := [];
    }

    /** `onChangeText`: the typed text replaces the buffer. */
    method ChangeText(text: string)
      modifies this
      ensures inputValue == text && calls == old(calls)
    {
      inputValue := text;
    }

    /** `handleKeyPress`, as `OnKeyPress` describes it. */
    method HandleKeyPress(key: string) returns (defaultPrevented: bool)
      modifies this
      ensures var r := OnKeyPress(old(inputValue), key);
              inputValue == r.input && defaultPrevented == r.defaultPrevented
              && calls == old(calls) + (if r.added.Some? then [AddFilter(r.added.value)] else [])
    {
      defaultPrevented := false;
      if key == "Enter" || key == "," {
        defaultPrevented := true;
        if JsText.Trim(inputValue) != "" {
          calls := calls + [AddFilter(inputValue)];
          inputValue := "";
        }
      }
    }

    /** `handleRemoveFilter(index)`, what a chip's close button runs. */
    method HandleRemoveFilter(index: int)
      modifies this
      ensures calls == old(calls) + [RemoveFilter(index)] && inputValue == old(inputValue)
    {
      calls := calls + [RemoveFilter(index)];
    }
  }

  /** Typing a filter (blanks around it are kept) and pressing Enter adds
      it as typed; a comma on the empty buffer then adds nothing; closing the
      first chip removes index 0. */
  method TypingScenario(text: string) returns (calls: seq<FilterCall>, input: string)
    requires !JsText.Blank(text)
    ensures calls == [AddFilter(text), RemoveFilter(0)]
    ensures input == ""
  {
    var box := new SearchBox();
    box.ChangeText(text);
    SubmitAddsFilter(text, "Enter");
    var _ := box.HandleKeyPress("Enter");
    assert box.calls == [AddFilter(text)] && box.inputValue == "";
    SubmitOnBlankDoesNothing("", ",");
    var _ := box.HandleKeyPress(",");
    assert box.calls == [AddFilter(text)];
    var chips := Chips([text]);
    assert chips[0].onClose == RemoveFilter(0);
    box.HandleRemoveFilter(chips[0].onClose.index);
    calls := box.calls;
    input := box.inputValue;
  }
}
