/** The searchable select (`Combobox`): which option counts as selected, what
    the trigger shows, which check marks are visible, and what a selection
    reports. Whether the popover is open is part of the outcome of a selection. */
module Combobox {
  import opened JsValues

  const DefaultPlaceholder: string := "Select option..."
  const CreateNewValue: string := "new"

  datatype ComboOption = ComboOption(value: string, caption: string)

  /** The props that decide behaviour; callbacks are reduced to whether they are given. */
  datatype Props = Props(
    options: seq<ComboOption>,
    value: Option<string>,
    placeholder: Option<string>,
    allowCustom: bool,
    hasValueChange: bool,
    hasCreateNew: bool)

  predicate Matches(o: ComboOption, value: Option<string>) {
    value == Some(o.value)
  }

  /** `options.find(option => option.value === value)` */
  function Selected(options: seq<ComboOption>, value: Option<string>): (r: Option<nat>)
    ensures r.Some? ==> r.value < |options| && Matches(options[r.value], value)
    ensures r.Some? ==> forall k :: 0 <= k < r.value ==> !Matches(options[k], value)
    ensures r.None? ==> forall k :: 0 <= k < |options| ==> !Matches(options[k], value)
  {
    if options == [] then None
    else if Matches(options[0], value) then Some(0)
    else
      var rest := Selected(options[1..], value);
      if rest.Some? then Some(rest.value + 1) else None
  }

  /** The trigger's text: the selected option's caption, else the placeholder. */
  function TriggerText(props: Props): (t: string)
    ensures (exists k :: 0 <= k < |props.options| && Matches(props.options[k], props.value))
            ==> t == props.options[Selected(props.options, props.value).value].caption
    ensures (forall k :: 0 <= k < |props.options| ==> !Matches(props.options[k], props.value))
            ==> t == (if props.placeholder.Some? then props.placeholder.value else DefaultPlaceholder)
  {
    var s := Selected(props.options, props.value);
    if s.Some? then props.options[s.value].caption
    else if props.placeholder.Some? then props.placeholder.value
    else DefaultPlaceholder
  }

  /** The option list as rendered: whether a "Create New" entry is first (and
      whether its check is visible), then one check mark per option. */
  datatype Menu = Menu(createNew: Option<bool>, checks: seq<bool>)

  function MenuView(props: Props): (m: Menu)
    ensures m.createNew.Some? <==> props.allowCustom && props.hasCreateNew
    ensures m.createNew.Some? ==> (m.createNew.value <==> props.value == Some(CreateNewValue))
    ensures |m.checks| == |props.options|
    ensures forall k :: 0 <= k < |m.checks| ==> (m.checks[k] <==> Matches(props.options[k], props.value))
  {
    Menu(if props.allowCustom && props.hasCreateNew then Some(props.value == Some(CreateNewValue)) else None,
         seq(|props.options|, k requires 0 <= k < |props.options| => Matches(props.options[k], props.value)))
  }

  datatype Item = CreateNewItem | OptionItem(option: ComboOption)

  /** What a selection does: the value reported to `onValueChange` (if given and
      called), whether `onCreateNew` is called, and whether the popover stays open. */
  datatype Effect = Effect(reported: Option<string>, createNewCalled: bool, open: bool)

  /** `option.value === value ? "" : option.value` */
  function Toggled(o: ComboOption, value: Option<string>): (r: string)
    ensures Matches(o, value) ==> r == ""
    ensures !Matches(o, value) ==> r == o.value
  {
    if Matches(o, value) then "" else o.value
  }

  function OnSelect(props: Props, item: Item): (e: Effect)
    ensures !e.open
    ensures e.createNewCalled <==> item.CreateNewItem?
    ensures e.reported.Some? <==> item.OptionItem? && props.hasValueChange
    ensures e.reported.Some? ==> e.reported.value == Toggled(item.option, props.value)
  {
    match item
    case CreateNewItem => Effect(None, true, false)
    case OptionItem(o) => Effect(if props.hasValueChange then Some(Toggled(o, props.value)) else None, false, false)
  }

  /** Selecting an option flips its check mark once the parent stores the
      reported value (for an option whose value is not empty). */
  lemma SelectTogglesCheck(props: Props, o: ComboOption)
    requires props.hasValueChange && o.value != ""
    ensures var after := props.(value := OnSelect(props, OptionItem(o)).reported);
            Matches(o, after.value) <==> !Matches(o, props.value)
  {
  }

  /** Selecting the selected option clears the value; selecting it again
      restores it. */
  lemma SelectTwice(props: Props, o: ComboOption)
    requires props.hasValueChange && o.value != "" && Matches(o, props.value)
    ensures var once := props.(value := OnSelect(props, OptionItem(o)).reported);
            var twice := once.(value := OnSelect(once, OptionItem(o)).reported);
            once.value == Some("") && twice.value == props.value
  {
  }
}
