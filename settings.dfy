/** The adaptive-settings panel. Every control hands the player a copy of the
    configuration with one field replaced; nothing is changed in place. */
module Settings {
  import opened Types

  /** The fields of a GuardianConfig, used to say which one an update may touch. */
  datatype Field = UserName | Sensitivity | AdaptiveVolume | VoiceHighlight | MonoMix

  /** `after` agrees with `before` on every field except possibly `f`. */
  predicate SameExcept(before: GuardianConfig, after: GuardianConfig, f: Field)
  {
    && (f != UserName ==> after.userName == before.userName)
    && (f != Sensitivity ==> after.sensitivity == before.sensitivity)
    && (f != AdaptiveVolume ==> after.adaptiveVolume == before.adaptiveVolume)
    && (f != VoiceHighlight ==> after.voiceHighlight == before.voiceHighlight)
    && (f != MonoMix ==> after.monoMix == before.monoMix)
  }

  /** The name box: the entered text becomes the user name. */
  function SetUserName(config: GuardianConfig, text: string): (r: GuardianConfig)
    ensures r.userName == text && SameExcept(config, r, UserName)
  {
    config.(userName := text)
  }

  /** The mono-mix switch. */
  function ToggleMonoMix(config: GuardianConfig): (r: GuardianConfig)
    ensures r.monoMix != config.monoMix && SameExcept(config, r, MonoMix)
  {
    config.(monoMix := !config.monoMix)
  }

  /** The voice-highlight switch. */
  function ToggleVoiceHighlight(config: GuardianConfig): (r: GuardianConfig)
    ensures r.voiceHighlight != config.voiceHighlight && SameExcept(config, r, VoiceHighlight)
  {
    config.(voiceHighlight := !config.voiceHighlight)
  }

  /** The adaptive-volume switch. */
  function ToggleAdaptiveVolume(config: GuardianConfig): (r: GuardianConfig)
    ensures r.adaptiveVolume != config.adaptiveVolume && SameExcept(config, r, AdaptiveVolume)
  {
    config.(adaptiveVolume := !config.adaptiveVolume)
  }

  /** One user action on the open panel. */
  datatype Control = NameInput(text: string) | MonoSwitch | VoiceHighlightSwitch | AdaptiveVolumeSwitch

  /** The one field a control is wired to. */
  function Target(control: Control): Field
  {
    match control
    case NameInput(_) => UserName
    case MonoSwitch => MonoMix
    case VoiceHighlightSwitch => VoiceHighlight
    case AdaptiveVolumeSwitch => AdaptiveVolume
  }

  /** The configuration a control passes to `setConfig`. */
  function Apply(config: GuardianConfig, control: Control): (r: GuardianConfig)
    ensures SameExcept(config, r, Target(control))
    ensures r.sensitivity == config.sensitivity
    ensures control.NameInput? ==> r.userName == control.text
    ensures !control.NameInput? ==> r != config
  {
    match control
    case NameInput(text) => SetUserName(config, text)
    case MonoSwitch => ToggleMonoMix(config)
    case VoiceHighlightSwitch => ToggleVoiceHighlight(config)
    case AdaptiveVolumeSwitch => ToggleAdaptiveVolume(config)
  }

  /** The panel renders nothing while closed, so it offers no update then; while open
      it offers the control's update: the typed name, or a switch flipped. */
  function Offer(isOpen: bool, config: GuardianConfig, control: Control): (r: Option<GuardianConfig>)
    ensures r.None? <==> !isOpen
    ensures r.Some? ==> SameExcept(config, r.value, Target(control))
    ensures r.Some? ==> r.value.sensitivity == config.sensitivity
    ensures r.Some? && control.NameInput? ==> r.value.userName == control.text
    ensures r.Some? && !control.NameInput? ==> r.value != config
  {
    if isOpen then Some(Apply(config, control)) else None
  }

  /** Pressing a switch twice gives back the configuration it started from. */
  lemma SwitchTwice(config: GuardianConfig, control: Control)
    requires !control.NameInput?
    ensures Apply(Apply(config, control), control) == config
  {
  }

  /** Editing the name twice keeps only the last text (last write wins). */
  lemma NameLastWriteWins(config: GuardianConfig, first: string, second: string)
    ensures SetUserName(SetUserName(config, first), second) == SetUserName(config, second)
  {
  }

  /** The configuration after a run of panel actions, applied in order: without a
      name edit the name is kept, and otherwise the name is the text of the last edit. */
  function ApplyAll(config: GuardianConfig, controls: seq<Control>): (r: GuardianConfig)
    ensures (forall i :: 0 <= i < |controls| ==> !controls[i].NameInput?) ==> r.userName == config.userName
    ensures controls != [] && controls[|controls| - 1].NameInput? ==>
      r.userName == controls[|controls| - 1].text
    decreases |controls|
  {
    if controls == [] then config else ApplyAll(Apply(config, controls[0]), controls[1..])
  }

  /** Name edits are last-write-wins over any run of panel actions: the name after the
      run is the text of the last name edit in it, whatever switches follow that edit. */
  lemma {:induction false} NameFromLastEdit(config: GuardianConfig, controls: seq<Control>, i: nat)
    requires i < |controls| && controls[i].NameInput?
    requires forall j :: i < j < |controls| ==> !controls[j].NameInput?
    ensures ApplyAll(config, controls).userName == controls[i].text
    decreases |controls|
  {
    if i == 0 {
      assert forall j :: 0 <= j < |controls[1..]| ==> !controls[1..][j].NameInput?;
    } else {
      NameFromLastEdit(Apply(config, controls[0]), controls[1..], i - 1);
    }
  }

  /** No sequence of panel actions changes the sensitivity. */
  lemma {:induction false} SensitivityNeverChanges(config: GuardianConfig, controls: seq<Control>)
    ensures ApplyAll(config, controls).sensitivity == config.sensitivity
    decreases |controls|
  {
    if controls != [] {
      SensitivityNeverChanges(Apply(config, controls[0]), controls[1..]);
    }
  }

  /** Two switch presses commute, so the order in which the user flips switches does not matter. */
  lemma SwitchesCommute(config: GuardianConfig, a: Control, b: Control)
    requires !a.NameInput? && !b.NameInput?
    ensures Apply(Apply(config, a), b) == Apply(Apply(config, b), a)
  {
  }
}
