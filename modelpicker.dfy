/**
 * The model drop-down of the settings dialog: a list of options and the index
 * of the selected one (-1 when there is none). It behaves as a single-choice
 * drop-down: while it has options, exactly one of them is selected.
 */
module ModelPicker {
  import opened Common
  import opened JsString

  /** An option element: its label and its value. */
  datatype ModelOption = ModelOption(text: string, value: string)

  /** The drop-down as a value: its options and the selected index. */
  datatype SelectState = SelectState(options: seq<ModelOption>, selectedIndex: int)

  /** What a single-choice drop-down guarantees: a selection exactly when there are options. */
  predicate WellFormed(st: SelectState) {
    if st.options == [] then st.selectedIndex == -1 else 0 <= st.selectedIndex < |st.options|
  }

  /** The drop-down's `value`: the selected option's value, or the empty string. */
  function ValueOf(st: SelectState): (v: string)
    ensures v == "" || HasValue(st.options, v)
    ensures st.options == [] ==> v == ""
    ensures WellFormed(st) && st.options != [] ==> v == st.options[st.selectedIndex].value
  {
    if 0 <= st.selectedIndex < |st.options| then st.options[st.selectedIndex].value else ""
  }

  predicate HasValue(opts: seq<ModelOption>, v: string) {
    exists j :: 0 <= j < |opts| && opts[j].value == v
  }

  predicate DistinctValues(opts: seq<ModelOption>) {
    forall i, j :: 0 <= i < j < |opts| ==> opts[i].value != opts[j].value
  }

  /** Where the option scan of `addOption` stops: the first option with value `v`, or -1. */
  function FirstIndexOfValue(opts: seq<ModelOption>, v: string): (r: int)
    ensures -1 <= r < |opts|
    ensures r >= 0 ==> opts[r].value == v && forall j :: 0 <= j < r ==> opts[j].value != v
    ensures r == -1 <==> !HasValue(opts, v)
  {
    if opts == [] then -1
    else if opts[0].value == v then 0
    else
      var r := FirstIndexOfValue(opts[1..], v);
      if r == -1 then -1 else r + 1
  }

  /**
   * The last option with value `v`, or -1. When several inserted options ask to
   * be selected, a single-choice drop-down keeps the last one inserted.
   */
  function LastIndexOfValue(opts: seq<ModelOption>, v: string): (r: int)
    ensures -1 <= r < |opts|
    ensures r >= 0 ==> opts[r].value == v && forall j :: r < j < |opts| ==> opts[j].value != v
    ensures r == -1 <==> !HasValue(opts, v)
  {
    if opts == [] then -1
    else if opts[|opts| - 1].value == v then |opts| - 1
    else
      var init := opts[..|opts| - 1];
      var r := LastIndexOfValue(init, v);
      assert forall j :: 0 <= j < |init| ==> init[j] == opts[j];
      r
  }

  /**
   * `addOption(select, text, value, isSelected)`: an option whose value is
   * already present is only selected (when asked); otherwise one option is
   * appended, selected when asked or when the drop-down had no selection.
   */
  function AddedOption(st: SelectState, text: string, value: string, isSelected: bool): (r: SelectState)
    ensures HasValue(r.options, value)
    ensures HasValue(st.options, value) ==>
              r.options == st.options
              && (isSelected ==> r.selectedIndex == FirstIndexOfValue(st.options, value) && ValueOf(r) == value)
              && (!isSelected ==> r == st)
    ensures !HasValue(st.options, value) ==>
              r.options == st.options + [ModelOption(text, value)]
              && (isSelected ==> r.selectedIndex == |st.options| && ValueOf(r) == value)
              && (!isSelected && st.selectedIndex != -1 ==> r.selectedIndex == st.selectedIndex)
    ensures WellFormed(st) ==> WellFormed(r)
    ensures DistinctValues(st.options) ==> DistinctValues(r.options)
  {
    var i := FirstIndexOfValue(st.options, value);
    if i >= 0 then
      if isSelected then SelectState(st.options, i) else st
    else
      var opts := st.options + [ModelOption(text, value)];
      assert opts[|st.options|].value == value;
      SelectState(opts, if isSelected || st.selectedIndex == -1 then |st.options| else st.selectedIndex)
  }

  /** Adding the same option twice is the same as adding it once. */
  lemma AddedOptionIdempotent(st: SelectState, text: string, value: string, isSelected: bool)
    ensures AddedOption(AddedOption(st, text, value, isSelected), text, value, isSelected)
            == AddedOption(st, text, value, isSelected)
  {
    var r := AddedOption(st, text, value, isSelected);
    var i := FirstIndexOfValue(st.options, value);
    if i < 0 {
      assert FirstIndexOfValue(r.options, value) == |st.options|;
    }
  }

  /**
   * The display name of a model: its name with the first "models/" taken out,
   * wherever it occurs; a leading "models/" is exactly the prefix removed.
   */
  function FriendlyName(name: string): (r: string)
    ensures IndexOf(name, "models/") < 0 ==> r == name
    ensures var i := IndexOf(name, "models/");
            i >= 0 ==> |r| == |name| - 7 && name == r[..i] + "models/" + r[i..]
    ensures |name| >= 7 && name[..7] == "models/" ==> r == name[7..]
  {
    assert |name| >= 7 && name[..7] == "models/" ==> OccursAt(name, "models/", 0);
    RemoveFirst(name, "models/")
  }

  /** Full model names lose their "models/" prefix and nothing else. */
  lemma FriendlyNameOfFullName(n: string)
    ensures FriendlyName("models/" + n) == n
  {
    RemoveFirstOfPrefixed("models/", n);
  }

  /**
   * `replace` is not a prefix strip: whatever text `p` precedes the first
   * "models/", the display name is `p` joined to what follows it.
   */
  lemma FriendlyNameCutsFirst(p: string, q: string)
    requires forall j :: 0 <= j < |p| ==> !OccursAt(p + "models/" + q, "models/", j)
    ensures FriendlyName(p + "models/" + q) == p + q
  {
    var name := p + "models/" + q;
    assert name[|p|..|p| + 7] == "models/";
    assert OccursAt(name, "models/", |p|);
    var i := IndexOf(name, "models/");
    assert i >= 0 && OccursAt(name, "models/", i);
    assert i == |p|;
    var r := FriendlyName(name);
    assert name[..|p|] == p && name[|p| + 7..] == q;
    assert r[..|p|] == p;
    assert r[|p|..] == q;
    assert r == r[..|p|] + r[|p|..];
  }

  /** The options built for a model list: one per model, labelled and valued by its display name. */
  function OptionsFor(models: seq<string>): (opts: seq<ModelOption>)
    ensures |opts| == |models|
    ensures forall j :: 0 <= j < |models| ==>
              opts[j] == ModelOption(FriendlyName(models[j]), FriendlyName(models[j]))
  {
    seq(|models|, j requires 0 <= j < |models| =>
      ModelOption(FriendlyName(models[j]), FriendlyName(models[j])))
  }

  /**
   * `populateModelSelect(models, selectedValue)`: an empty list keeps the
   * drop-down; otherwise it is rebuilt from the list, selecting the option equal
   * to the previous value (the last such, if several are) or else the first.
   */
  function Populated(st: SelectState, models: seq<string>, selectedValue: Option<string>): (r: SelectState)
    ensures models == [] ==> r == st
    ensures models != [] ==>
              r.options == OptionsFor(models) && WellFormed(r)
              && (selectedValue.Some? && HasValue(r.options, selectedValue.value) ==>
                    ValueOf(r) == selectedValue.value
                    && forall j :: r.selectedIndex < j < |r.options| ==> r.options[j].value != selectedValue.value)
              && (selectedValue.None? || !HasValue(r.options, selectedValue.value) ==> r.selectedIndex == 0)
  {
    if models == [] then st
    else
      var opts := OptionsFor(models);
      var m := if selectedValue.Some? then LastIndexOfValue(opts, selectedValue.value) else -1;
      SelectState(opts, if m == -1 then 0 else m)
  }

  /**
   * Refreshing keeps the current choice when the new list still offers it, and
   * otherwise falls back to the first model of the new list.
   */
  lemma RefreshKeepsChoice(st: SelectState, models: seq<string>)
    requires models != []
    ensures var r := Populated(st, models, Some(ValueOf(st)));
            (HasValue(OptionsFor(models), ValueOf(st)) ==> ValueOf(r) == ValueOf(st))
            && (!HasValue(OptionsFor(models), ValueOf(st)) ==> ValueOf(r) == FriendlyName(models[0]))
  {
  }

  /** The drop-down element itself, whose options the script rebuilds in place. */
  class ModelSelect {
    var options: seq<ModelOption>
    var selectedIndex: int

    function State(): SelectState
      reads this
    {
      SelectState(options, selectedIndex)
    }

    ghost predicate Valid()
      reads this
    {
      WellFormed(State())
    }

    /** The drop-down as the page markup declares it: its first option selected, if any. */
    constructor (initial: seq<ModelOption>)
      ensures Valid() && options == initial
      ensures initial != [] ==> selectedIndex == 0
    {
      options := initial;
      selectedIndex := if initial == [] then -1 else 0;
    }

    /** The drop-down's `value`. */
    function Value(): (v: string)
      reads this
      ensures v == ValueOf(State())
    {
      ValueOf(State())
    }

    /** `addOption(modelSelect, text, value, isSelected)`. */
    method AddOption(text: string, value: string, isSelected: bool)
      requires Valid()
      modifies this
      ensures Valid()
      ensures State() == AddedOption(old(State()), text, value, isSelected)
    {
      var i := 0;
      while i < |options|
        invariant 0 <= i <= |options|
        invariant forall j :: 0 <= j < i ==> options[j].value != value
      {
        if options[i].value == value {
          if isSelected {
            selectedIndex := i;
          }
          return;
        }
        i := i + 1;
      }
      var wasEmpty := selectedIndex == -1;
      options := options + [ModelOption(text, value)];
      if isSelected || wasEmpty {
        selectedIndex := |options| - 1;
      }
    }

    /** `populateModelSelect(models, selectedValue)`. */
    method Populate(models: seq<string>, selectedValue: Option<string>)
      requires Valid()
      modifies this
      ensures Valid()
      ensures State() == Populated(old(State()), models, selectedValue)
    {
      if models == [] {
        return;
      }
      options := [];
      selectedIndex := -1;
      var k := 0;
      while k < |models|
        invariant 0 <= k <= |models|
        invariant |options| == k
        invariant forall j :: 0 <= j < k ==>
                    options[j] == ModelOption(FriendlyName(models[j]), FriendlyName(models[j]))
        invariant selectedValue.Some? ==> selectedIndex == LastIndexOfValue(options, selectedValue.value)
        invariant selectedValue.None? ==> selectedIndex == -1
      {
        var name := FriendlyName(models[k]);
        var option := ModelOption(name, name);
        ghost var before := options;
        if selectedValue.Some? && name == selectedValue.value {
          selectedIndex := |options|;
        }
        options := options + [option];
        assert options[..|options| - 1] == before;
        k := k + 1;
      }
      if selectedIndex == -1 && |options| > 0 {
        selectedIndex := 0;
      }
      assert options == OptionsFor(models);
    }
  }
}
