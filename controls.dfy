/** The field dropdowns of a chart tab: which fields each dropdown offers,
    and the callback that disables options so that no field is chosen twice
    and at most one temporal field is in play. Fields and their catalog
    come from the backend generation. */
module Controls {
  import opened Wrappers
  import opened BackendEnums

  // ---------------------------------------------------------------------
  // What a tab's dropdowns offer

  /** The per-dropdown conditions of the tab table. */
  datatype Condition = Always | NotTemporal | IsDate | NotDate

  /** One dropdown's settings: an initial value and a condition. */
  datatype Control = Control(initial: Option<Field>, condition: Condition)

  function Holds(c: Condition, f: Field): (r: Result<bool>)
    ensures c == IsDate ==> r == Ok(f == Date)
    ensures c == NotDate ==> r == Ok(f != Date)
    ensures c == NotTemporal ==> (r.Ok? <==> Catalog(f).Some?)
    ensures c == NotTemporal && r.Ok? ==> r.value == !Catalog(f).value.temporal
  {
    match c
    case Always => Ok(true)
    case NotTemporal =>
      var t :- Temporal(f);
      Ok(!t)
    case IsDate => Ok(f == Date)
    case NotDate => Ok(f != Date)
  }

  /** `tab_field_controls[tab]`, unpacked into its two dropdowns (y first,
      then x). */
  function TabControls(tab: string): (r: Result<(Control, Control)>)
    ensures r.Err? <==> tab !in ["line", "bar", "scatter"]
    ensures r.Err? ==> r.error == KeyError(tab)
    ensures tab == "line" ==> r == Ok((Control(None, NotTemporal), Control(Some(Date), IsDate)))
    ensures tab == "bar" ==> r == Ok((Control(None, NotDate), Control(None, Always)))
  {
    if tab == "line" then Ok((Control(None, NotTemporal), Control(Some(Date), IsDate)))
    else if tab == "bar" then Ok((Control(None, NotDate), Control(None, Always)))
    else if tab == "scatter" then Ok((Control(None, Always), Control(None, Always)))
    else Err(KeyError(tab))
  }

  /** An offered option: the field's label and the field. */
  datatype Offer = Offer(text: string, field: Field)

  /** The dropdown's data: each member, in enum order, whose label is
      non-empty and which meets the condition. The label is read first, so a
      member without a catalog entry raises. */
  function Dropdown(fields: seq<Field>, c: Condition): (r: Result<seq<Offer>>)
    ensures r.Ok? <==> forall k :: 0 <= k < |fields| ==> Catalog(fields[k]).Some?
    ensures r.Ok? ==> forall o :: o in r.value ==>
      o.field in fields && o.text != "" && Holds(c, o.field) == Ok(true) && Label(o.field) == Ok(o.text)
    ensures r.Ok? ==> forall f :: f in fields && Label(f) != Ok("") && Holds(c, f) == Ok(true) ==>
      Offer(Label(f).value, f) in r.value
    decreases |fields|
  {
    if |fields| == 0 then Ok([])
    else
      var init := fields[..|fields| - 1];
      var f := fields[|fields| - 1];
      assert fields == init + [f];
      var prev :- Dropdown(init, c);
      var text :- Label(f);
      if text == "" then Ok(prev)
      else
        var keep :- Holds(c, f);
        Ok(if keep then prev + [Offer(text, f)] else prev)
  }

  /** Over the whole backend enum the dropdown cannot be built: REACTIONS
      has no catalog entry, and its label is read before any condition. */
  lemma WholeEnumRaises(c: Condition)
    ensures Dropdown(AllFields, c).Err?
  {
    assert AllFields[4] == Reactions;
  }

  /** The dropdown as evidently intended: a member without a catalog entry
      has no label and is skipped, like one with an empty label. */
  function DropdownCatalogued(fields: seq<Field>, c: Condition): (r: seq<Offer>)
    ensures forall o :: o in r ==>
      o.field in fields && o.text != "" && Holds(c, o.field) == Ok(true) && Label(o.field) == Ok(o.text)
    ensures forall f :: f in fields && Catalog(f).Some? && Label(f) != Ok("") && Holds(c, f) == Ok(true) ==>
      Offer(Label(f).value, f) in r
    decreases |fields|
  {
    if |fields| == 0 then []
    else
      var init := fields[..|fields| - 1];
      var f := fields[|fields| - 1];
      assert fields == init + [f];
      var prev := DropdownCatalogued(init, c);
      if Catalog(f).None? || Label(f).value == "" || Holds(c, f) != Ok(true) then prev
      else prev + [Offer(Label(f).value, f)]
  }

  /** Wherever the dropdown as written can be built, the corrected one builds
      the same options. */
  lemma {:induction false} CataloguedAgrees(fields: seq<Field>, c: Condition)
    requires Dropdown(fields, c).Ok?
    ensures Dropdown(fields, c).value == DropdownCatalogued(fields, c)
    decreases |fields|
  {
    if |fields| > 0 {
      var init := fields[..|fields| - 1];
      assert fields == init + [fields[|fields| - 1]];
      CataloguedAgrees(init, c);
    }
  }

  /** Over the whole backend enum the corrected dropdown offers every
      catalogued, labelled member that meets the condition, and nothing else. */
  lemma WholeEnumCatalogued(c: Condition)
    ensures forall o :: o in DropdownCatalogued(AllFields, c) ==>
      o.text != "" && Holds(c, o.field) == Ok(true) && Label(o.field) == Ok(o.text)
    ensures forall f :: Catalog(f).Some? && Label(f) != Ok("") && Holds(c, f) == Ok(true) ==>
      Offer(Label(f).value, f) in DropdownCatalogued(AllFields, c)
  {
    forall f | Catalog(f).Some? && Label(f) != Ok("") && Holds(c, f) == Ok(true)
      ensures Offer(Label(f).value, f) in DropdownCatalogued(AllFields, c)
    {
      AllFieldsComplete(f);
    }
  }

  /** The line tab's y dropdown offers only non-temporal fields. */
  lemma LineOffersNonTemporalY(fields: seq<Field>)
    requires Dropdown(fields, TabControls("line").value.0.condition).Ok?
    ensures forall o :: o in Dropdown(fields, TabControls("line").value.0.condition).value ==>
      !Catalog(o.field).value.temporal
  {
  }

  /** The line tab's x dropdown offers the date alone, and starts on it. */
  lemma LineOffersOnlyDateX(fields: seq<Field>)
    requires Dropdown(fields, TabControls("line").value.1.condition).Ok?
    ensures TabControls("line").value.1.initial == Some(Date)
    ensures forall o :: o in Dropdown(fields, TabControls("line").value.1.condition).value ==> o.field == Date
    ensures Date in fields ==> exists o :: o in Dropdown(fields, TabControls("line").value.1.condition).value
  {
  }

  /** The bar tab's y dropdown offers everything but the date. */
  lemma BarExcludesDateY(fields: seq<Field>)
    requires Dropdown(fields, TabControls("bar").value.0.condition).Ok?
    ensures forall o :: o in Dropdown(fields, TabControls("bar").value.0.condition).value ==> o.field != Date
  {
  }

  // ---------------------------------------------------------------------
  // The disabling callback

  /** A dropdown option as the callback receives it. */
  datatype Choice = Choice(text: string, value: string)

  /** A dropdown option as the callback returns it. */
  datatype Processed = Processed(text: string, field: Field, disabled: bool)

  /** A dropdown's selection: `None`, or the selected value. */
  type Selection = Option<string>

  predicate Empty(s: Selection) {
    s.None? || s.value == ""
  }

  /** Whether a selection is a temporal field; an empty selection is not. */
  function SelectionTemporal(s: Selection): (r: Result<bool>)
    ensures Empty(s) ==> r == Ok(false)
  {
    if Empty(s) then Ok(false)
    else
      var f :- FieldOf(s.value);
      Temporal(f)
  }

  predicate IsTemporal(s: Selection) {
    SelectionTemporal(s) == Ok(true)
  }

  /** `has_selected_temporal`: every selection is examined, left to right. */
  function AnyTemporal(selected: seq<Selection>): (r: Result<bool>)
    ensures r.Ok? <==> forall k :: 0 <= k < |selected| ==> SelectionTemporal(selected[k]).Ok?
    ensures r.Ok? ==> (r.value <==> exists k :: 0 <= k < |selected| && IsTemporal(selected[k]))
    decreases |selected|
  {
    if |selected| == 0 then Ok(false)
    else
      var init := selected[..|selected| - 1];
      assert selected == init + [selected[|selected| - 1]];
      var prev :- AnyTemporal(init);
      var last :- SelectionTemporal(selected[|selected| - 1]);
      Ok(prev || last)
  }

  /** Chosen in another dropdown and not in this one. */
  predicate TakenElsewhere(selected: seq<Selection>, i: nat, f: Field)
    requires i < |selected|
  {
    (exists k :: 0 <= k < |selected| && k != i && selected[k] == Some(FieldValue(f))) &&
    selected[i] != Some(FieldValue(f))
  }

  /** A temporal field, while another dropdown holds a temporal field and
      this one does not. */
  predicate TemporalClash(selected: seq<Selection>, i: nat, f: Field)
    requires i < |selected|
  {
    Temporal(f) == Ok(true) &&
    (exists k :: 0 <= k < |selected| && IsTemporal(selected[k])) &&
    !IsTemporal(selected[i])
  }

  /** `process_option`, given `has_selected_temporal` as `anyTemporal`. */
  function ProcessOption(opt: Choice, i: nat, selected: seq<Selection>, anyTemporal: bool): (r: Result<Processed>)
    ensures r.Ok? <==>
      (FieldOf(opt.value).Ok? && i < |selected| &&
       SelectionTemporal(selected[i]).Ok? && Temporal(FieldOf(opt.value).value).Ok?)
    ensures r.Ok? ==> r.value.text == opt.text && FieldValue(r.value.field) == opt.value
    ensures r.Ok? ==> (r.value.disabled <==>
      TakenElsewhere(selected, i, r.value.field) ||
      (Temporal(r.value.field) == Ok(true) && anyTemporal && !IsTemporal(selected[i])))
  {
    var field :- FieldOf(opt.value);
    if i >= |selected| then Err(IndexError)
    else
      var duplicate := Some(FieldValue(field)) in selected && selected[i] != Some(FieldValue(field));
      var own :- SelectionTemporal(selected[i]);
      var temporal :- Temporal(field);
      assert duplicate ==> TakenElsewhere(selected, i, field);
      Ok(Processed(opt.text, field, duplicate || (temporal && anyTemporal && !own)))
  }

  /** The values of a list of results, or the first error among them. */
  function Collect<T>(rs: seq<Result<T>>): (r: Result<seq<T>>)
    ensures r.Ok? <==> forall k :: 0 <= k < |rs| ==> rs[k].Ok?
    ensures r.Ok? ==> |r.value| == |rs| && forall k :: 0 <= k < |rs| ==> r.value[k] == rs[k].value
    decreases |rs|
  {
    if |rs| == 0 then Ok([])
    else
      var prev :- Collect(rs[..|rs| - 1]);
      var last :- rs[|rs| - 1];
      Ok(prev + [last])
  }

  /** The options of dropdown `i`, processed in order. */
  function ProcessDropdown(opts: seq<Choice>, i: nat, selected: seq<Selection>, anyTemporal: bool): (r: Result<seq<Processed>>)
    ensures r.Ok? <==> forall j :: 0 <= j < |opts| ==> ProcessOption(opts[j], i, selected, anyTemporal).Ok?
    ensures r.Ok? ==>
      (|r.value| == |opts| &&
       forall j :: 0 <= j < |opts| ==> r.value[j] == ProcessOption(opts[j], i, selected, anyTemporal).value)
  {
    var rs := seq(|opts|, j requires 0 <= j < |opts| => ProcessOption(opts[j], i, selected, anyTemporal));
    assert forall j :: 0 <= j < |opts| ==> rs[j] == ProcessOption(opts[j], i, selected, anyTemporal);
    Collect(rs)
  }

  /** Every dropdown's options, dropdown `i` judged against selection `i`. */
  function ProcessAll(options: seq<seq<Choice>>, selected: seq<Selection>, anyTemporal: bool): (r: Result<seq<seq<Processed>>>)
    ensures r.Ok? <==> forall i :: 0 <= i < |options| ==> ProcessDropdown(options[i], i, selected, anyTemporal).Ok?
    ensures r.Ok? ==>
      (|r.value| == |options| &&
       forall i :: 0 <= i < |options| ==> r.value[i] == ProcessDropdown(options[i], i, selected, anyTemporal).value)
  {
    var rs := seq(|options|, i requires 0 <= i < |options| => ProcessDropdown(options[i], i, selected, anyTemporal));
    assert forall i :: 0 <= i < |options| ==> rs[i] == ProcessDropdown(options[i], i, selected, anyTemporal);
    Collect(rs)
  }

  /** `update_dropdown_options(selected_fields, current_options)`. */
  function UpdateDropdownOptions(selected: seq<Selection>, options: seq<seq<Choice>>): (r: Result<seq<seq<Processed>>>)
    ensures AnyTemporal(selected).Err? ==> r.Err?
    ensures r.Ok? ==> |r.value| == |options| && forall i :: 0 <= i < |options| ==> |r.value[i]| == |options[i]|
  {
    var anyTemporal :- AnyTemporal(selected);
    ProcessAll(options, selected, anyTemporal)
  }

  // ---------------------------------------------------------------------
  // What the callback promises

  /** One list per dropdown, each as long as the input's and in its order,
      with every label and value kept. */
  lemma SameShape(selected: seq<Selection>, options: seq<seq<Choice>>)
    requires UpdateDropdownOptions(selected, options).Ok?
    ensures var r := UpdateDropdownOptions(selected, options).value;
      |r| == |options| &&
      forall i, j :: 0 <= i < |options| && 0 <= j < |options[i]| ==>
        j < |r[i]| && r[i][j].text == options[i][j].text && FieldValue(r[i][j].field) == options[i][j].value
  {
  }

  /** An option is disabled exactly when another dropdown has chosen it, or
      it is temporal while a temporal field is chosen somewhere other than
      in this dropdown. */
  lemma DisabledIff(selected: seq<Selection>, options: seq<seq<Choice>>, i: nat, j: nat)
    requires UpdateDropdownOptions(selected, options).Ok?
    requires i < |options| && j < |options[i]|
    ensures var r := UpdateDropdownOptions(selected, options).value;
      i < |selected| && j < |r[i]| &&
      (r[i][j].disabled <==> TakenElsewhere(selected, i, r[i][j].field) || TemporalClash(selected, i, r[i][j].field))
  {
    var anyTemporal := AnyTemporal(selected).value;
    assert ProcessDropdown(options[i], i, selected, anyTemporal).Ok?;
    assert ProcessOption(options[i][j], i, selected, anyTemporal).Ok?;
  }

  /** A dropdown's own selection is never disabled. */
  lemma OwnSelectionEnabled(selected: seq<Selection>, options: seq<seq<Choice>>, i: nat, j: nat)
    requires UpdateDropdownOptions(selected, options).Ok?
    requires i < |options| && j < |options[i]|
    requires i < |selected| && selected[i] == Some(options[i][j].value)
    ensures !UpdateDropdownOptions(selected, options).value[i][j].disabled
  {
    DisabledIff(selected, options, i, j);
    var f := UpdateDropdownOptions(selected, options).value[i][j].field;
    assert selected[i] == Some(FieldValue(f));
    if Temporal(f) == Ok(true) {
      assert FieldOf(FieldValue(f)) == Ok(f) by { FieldOfValue(f); }
      assert IsTemporal(selected[i]);
    }
  }

  /** Without a temporal choice anywhere (empty choices are not temporal),
      only fields chosen in another dropdown are disabled. */
  lemma OnlyDuplicatesWithoutTemporal(selected: seq<Selection>, options: seq<seq<Choice>>, i: nat, j: nat)
    requires UpdateDropdownOptions(selected, options).Ok?
    requires i < |options| && j < |options[i]|
    requires forall k :: 0 <= k < |selected| ==> Empty(selected[k]) || !IsTemporal(selected[k])
    ensures var r := UpdateDropdownOptions(selected, options).value;
      i < |selected| && j < |r[i]| && (r[i][j].disabled <==> TakenElsewhere(selected, i, r[i][j].field))
  {
    DisabledIff(selected, options, i, j);
  }

  /** The callback fails only on a value that is no field, a field without
      a catalog entry, or an option list with no selection to match. */
  lemma SucceedsOnCatalogued(selected: seq<Selection>, options: seq<seq<Choice>>)
    requires forall k :: 0 <= k < |selected| ==>
      Empty(selected[k]) || (FieldOf(selected[k].value).Ok? && Catalog(FieldOf(selected[k].value).value).Some?)
    requires |options| <= |selected|
    requires forall i, j :: 0 <= i < |options| && 0 <= j < |options[i]| ==>
      FieldOf(options[i][j].value).Ok? && Catalog(FieldOf(options[i][j].value).value).Some?
    ensures UpdateDropdownOptions(selected, options).Ok?
  {
  }
}
