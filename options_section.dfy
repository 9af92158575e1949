/** The addon section of the options page: which provider states it shows,
    which providers it lists as enabled, the writes a selection change issues,
    and the JSON export of an installation's addons. */
module OptionsSection {
  import opened Wrappers
  import opened Entities

  datatype AddonProviderState = AddonProviderState(providerName: string, enabled: bool, canEdit: bool)

  /** One entry of the export. */
  datatype AddonForJson = AddonForJson(id: Option<string>, providerName: string, name: string)

  /** The exported object, before `JSON.stringify`. */
  datatype JsonExport = JsonExport(installation: string, addons: seq<AddonForJson>)

  /** One changed option of the provider selection list. */
  datatype SelectionOption = SelectionOption(value: string, selected: bool)

  /** The two writes issued per changed option. */
  datatype ProviderWrite =
    | SetAddonProviderState(state: AddonProviderState)
    | SetProviderEnabled(providerName: string, enabled: bool)

  predicate IsEditable(s: AddonProviderState) { s.canEdit }

  predicate IsEnabled(s: AddonProviderState) { s.enabled }

  /** `filter(states, keep)`: the states satisfying `keep`, in order. */
  function Where(states: seq<AddonProviderState>, keep: AddonProviderState -> bool): (r: seq<AddonProviderState>)
    ensures |r| <= |states|
    ensures forall i :: 0 <= i < |r| ==> keep(r[i])
  {
    if |states| == 0 then []
    else
      var rest := Where(states[1..], keep);
      if keep(states[0]) then [states[0]] + rest else rest
  }

  /** A state is kept exactly when it is in the input and satisfies `keep`. */
  lemma {:induction false} WhereMembership(states: seq<AddonProviderState>, keep: AddonProviderState -> bool,
                                           s: AddonProviderState)
    ensures s in Where(states, keep) <==> s in states && keep(s)
  {
    if |states| > 0 {
      WhereMembership(states[1..], keep, s);
      assert s in states <==> s == states[0] || s in states[1..];
    }
  }

  /** The filter distributes over concatenation: kept states keep their
      relative order. */
  lemma {:induction false} WhereAppend(a: seq<AddonProviderState>, b: seq<AddonProviderState>,
                                       keep: AddonProviderState -> bool)
    ensures Where(a + b, keep) == Where(a, keep) + Where(b, keep)
  {
    if |a| == 0 {
      assert a + b == b;
    } else {
      var ab := a + b;
      assert ab[0] == a[0] && ab[1..] == a[1..] + b;
      WhereAppend(a[1..], b, keep);
      calc {
        Where(ab, keep);
        (if keep(a[0]) then [a[0]] else []) + Where(a[1..] + b, keep);
        (if keep(a[0]) then [a[0]] else []) + (Where(a[1..], keep) + Where(b, keep));
        Where(a, keep) + Where(b, keep);
      }
    }
  }

  /** The states `ngOnInit` keeps: the editable ones, in order. */
  function EditableProviders(states: seq<AddonProviderState>): (r: seq<AddonProviderState>)
    ensures |r| <= |states|
    ensures forall i :: 0 <= i < |r| ==> r[i].canEdit
  {
    Where(states, IsEditable)
  }

  /** A state is shown exactly when it is in the input and editable. */
  lemma EditableProvidersMembership(states: seq<AddonProviderState>, s: AddonProviderState)
    ensures s in EditableProviders(states) <==> s in states && s.canEdit
  {
    WhereMembership(states, IsEditable, s);
  }

  /** `getEnabledProviders`: the enabled states, in order. */
  function EnabledProviders(states: seq<AddonProviderState>): (r: seq<AddonProviderState>)
    ensures |r| <= |states|
    ensures forall i :: 0 <= i < |r| ==> r[i].enabled
  {
    Where(states, IsEnabled)
  }

  /** A state is kept exactly when it is in the input and enabled. */
  lemma EnabledProvidersMembership(states: seq<AddonProviderState>, s: AddonProviderState)
    ensures s in EnabledProviders(states) <==> s in states && s.enabled
  {
    WhereMembership(states, IsEnabled, s);
  }

  /** `getEnabledProviderNames`: the names of the enabled states, in order. */
  function EnabledProviderNames(states: seq<AddonProviderState>): (names: seq<string>)
    ensures |names| == |EnabledProviders(states)|
    ensures forall i :: 0 <= i < |names| ==> names[i] == EnabledProviders(states)[i].providerName
  {
    var enabled := EnabledProviders(states);
    seq(|enabled|, i requires 0 <= i < |enabled| => enabled[i].providerName)
  }

  /** A name is listed as enabled exactly when some enabled state carries it. */
  lemma EnabledProviderNamesMembership(states: seq<AddonProviderState>, name: string)
    ensures name in EnabledProviderNames(states) <==>
      exists i :: 0 <= i < |states| && states[i].enabled && states[i].providerName == name
  {
    var enabled := EnabledProviders(states);
    var names := EnabledProviderNames(states);
    if name in names {
      var k :| 0 <= k < |names| && names[k] == name;
      EnabledProvidersMembership(states, enabled[k]);
      var i :| 0 <= i < |states| && states[i] == enabled[k];
    }
    if exists i :: 0 <= i < |states| && states[i].enabled && states[i].providerName == name {
      var i :| 0 <= i < |states| && states[i].enabled && states[i].providerName == name;
      EnabledProvidersMembership(states, states[i]);
      var k :| 0 <= k < |enabled| && enabled[k] == states[i];
      assert names[k] == name;
    }
  }

  /** The fields one addon contributes to the export. */
  function ForJson(a: Addon): AddonForJson
  {
    AddonForJson(a.id, a.providerName, a.name)
  }

  /** The projection in `exportAddonsAsJsonToClipboard`, for the addons of the
      selected installation. Reading the label of a missing selection throws;
      that is the None result. */
  function ExportAddons(selected: Option<Installation>, addons: seq<Addon>): (r: Option<JsonExport>)
    ensures r.None? <==> selected.None?
    ensures r.Some? ==> r.value.installation == selected.value.displayLabel
    ensures r.Some? ==> |r.value.addons| == |addons|
    ensures r.Some? ==> forall i :: 0 <= i < |addons| ==>
        r.value.addons[i].id == addons[i].id && r.value.addons[i].providerName == addons[i].providerName &&
        r.value.addons[i].name == addons[i].name
  {
    match selected
    case None => None
    case Some(installation) =>
      Some(JsonExport(installation.displayLabel, seq(|addons|, i requires 0 <= i < |addons| => ForJson(addons[i]))))
  }

  class OptionsAddonSection {
    var addonProviderStates: seq<AddonProviderState>
    /** The value of the `enabledAddonProviders` form control: None, for
        null, until `ngOnInit` sets it. */
    var enabledAddonProviders: Option<seq<string>>
    var installations: seq<Installation>
    var selectedInstallation: Option<Installation>

    constructor ()
      ensures addonProviderStates == [] && enabledAddonProviders == None
      ensures installations == [] && selectedInstallation == None
    {
      addonProviderStates := [];
      enabledAddonProviders := None;
      installations := [];
      selectedInstallation := None;
    }

    /** `ngOnInit`: keep the editable provider states and select the enabled
        ones. Only editable providers are ever shown, and every editable
        state of the input is. */
    method NgOnInit(providerStates: seq<AddonProviderState>)
      modifies this
      ensures addonProviderStates == EditableProviders(providerStates)
      ensures forall s :: s in addonProviderStates ==> s.canEdit
      ensures forall s :: s in providerStates && s.canEdit ==> s in addonProviderStates
      ensures enabledAddonProviders == Some(EnabledProviderNames(addonProviderStates))
      ensures installations == old(installations) && selectedInstallation == old(selectedInstallation)
    {
      addonProviderStates := EditableProviders(providerStates);
      forall s | s in providerStates && s.canEdit ensures s in addonProviderStates {
        EditableProvidersMembership(providerStates, s);
      }
      enabledAddonProviders := Some(EnabledProviderNames(addonProviderStates));
    }

    /** The installations subscription set up in `ngOnInit`: the first one is
        selected, none when the list is empty. */
    method OnInstallations(installs: seq<Installation>)
      modifies this
      ensures installations == installs
      ensures selectedInstallation == if |installs| > 0 then Some(installs[0]) else None
      ensures addonProviderStates == old(addonProviderStates) && enabledAddonProviders == old(enabledAddonProviders)
    {
      installations := installs;
      selectedInstallation := if |installs| > 0 then Some(installs[0]) else None;
    }

    /** `onProviderStateSelectionChange`: per option, in order, store an
        editable state with the option's name and selection, then enable or
        disable the provider. */
    method OnProviderStateSelectionChange(options: seq<SelectionOption>) returns (writes: seq<ProviderWrite>)
      ensures |writes| == 2 * |options|
      ensures forall i :: 0 <= i < |options| ==>
        writes[2 * i] == SetAddonProviderState(AddonProviderState(options[i].value, options[i].selected, true)) &&
        writes[2 * i + 1] == SetProviderEnabled(options[i].value, options[i].selected)
    {
      writes := [];
      for i := 0 to |options|
        invariant |writes| == 2 * i
        invariant forall k :: 0 <= k < i ==>
          writes[2 * k] == SetAddonProviderState(AddonProviderState(options[k].value, options[k].selected, true)) &&
          writes[2 * k + 1] == SetProviderEnabled(options[k].value, options[k].selected)
      {
        var option := options[i];
        writes := writes + [SetAddonProviderState(AddonProviderState(option.value, option.selected, true)),
                            SetProviderEnabled(option.value, option.selected)];
      }
    }
  }
}
