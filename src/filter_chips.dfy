/** What the two search boxes share: the key rule of their input buffer,
    the chips they draw for the active filters, and the calls they make on
    the filter context (which owns the filter list). */
module FilterChips {
  import opened Common
  import opened JsText

  /** A call on the filter context's `addFilter` / `removeFilter`. */
  datatype FilterCall = AddFilter(text: string) | RemoveFilter(index: int)

  /** The keys that turn the buffer into a chip. */
  predicate SubmitKey(key: string)
  {
    key == "Enter" || key == ","
  }

  /** The effect of one key press: the new buffer, the filter added (if
      any) and whether the key's default action was prevented. */
  datatype KeyOutcome = KeyOutcome(input: string, added: Option<string>, defaultPrevented: bool)

  /** `handleKeyPress` on the buffer `input`: on Enter or a comma the key's
      default is prevented, and when the trimmed buffer is not empty the
      untrimmed buffer is added as a filter and the buffer is cleared. */
  function OnKeyPress(input: string, key: string): (r: KeyOutcome)
    ensures r.defaultPrevented <==> SubmitKey(key)
  {
    if SubmitKey(key) then
      if Trim(input) != "" then KeyOutcome("", Some(input), true)
      else KeyOutcome(input, None, true)
    else KeyOutcome(input, None, false)
  }

  /** A submit key on a buffer with a visible character adds the buffer
      exactly as typed and clears it. */
  lemma SubmitAddsFilter(input: string, key: string)
    requires SubmitKey(key) && !Blank(input)
    ensures OnKeyPress(input, key) == KeyOutcome("", Some(input), true)
  {
    TrimEmptyIffBlank(input);
  }

  /** A submit key on a buffer of white space only adds nothing and keeps
      the buffer. */
  lemma SubmitOnBlankDoesNothing(input: string, key: string)
    requires SubmitKey(key) && Blank(input)
    ensures OnKeyPress(input, key) == KeyOutcome(input, None, true)
  {
    TrimEmptyIffBlank(input);
  }

  /** Any other key leaves the buffer and the filters alone. */
  lemma OtherKeysDoNothing(input: string, key: string)
    requires !SubmitKey(key)
    ensures OnKeyPress(input, key) == KeyOutcome(input, None, false)
  {
  }

  /** A filter is only ever added from a buffer with a visible character,
      and always leaves the buffer empty. */
  lemma AddedFiltersAreNotBlank(input: string, key: string)
    requires OnKeyPress(input, key).added.Some?
    ensures !Blank(OnKeyPress(input, key).added.value) && OnKeyPress(input, key).input == ""
  {
    TrimEmptyIffBlank(input);
  }

  datatype Variant = Info | Default

  /** A filter containing `:` (a `field:value` filter) is drawn as `info`. */
  function ChipVariant(filter: string): (v: Variant)
    ensures v == Info <==> ':' in filter
  {
    IncludesCharIff(filter, ':');
    if Includes(filter, ":") then Info else Default
  }

  /** One drawn chip: its text, its variant and the call its close button
      makes. */
  datatype Chip = Chip(text: string, variant: Variant, onClose: FilterCall)

  /** `filters.map(...)`: one chip per filter, in order; the chip at index
      `i` shows filter `i` and closing it removes index `i`. */
  function Chips(filters: seq<string>): (chips: seq<Chip>)
    ensures |chips| == |filters|
    ensures forall i :: 0 <= i < |chips| ==>
              chips[i].text == filters[i] && chips[i].onClose == RemoveFilter(i)
              && (chips[i].variant == Info <==> ':' in filters[i])
  {
    seq(|filters|, i requires 0 <= i < |filters| => Chip(filters[i], ChipVariant(filters[i]), RemoveFilter(i)))
  }
}
