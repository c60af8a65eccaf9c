/** The usage form's transitions (src/components/UsageProfileForm.tsx):
    choosing a preset replaces the profile, choosing custom or editing a
    field keeps the values and forces the custom tag. The preset values are
    the `defaultUsageProfiles` of src/data/mockData.ts. */
module UsageProfileForm {
  import opened Types

  const LightProfile := UsageProfile(200.0, 10.0, 5.0, Light)
  const MediumProfile := UsageProfile(500.0, 20.0, 10.0, Medium)
  const HeavyProfile := UsageProfile(1000.0, 40.0, 15.0, Heavy)

  /** The preset profile for a preset tag. */
  function Preset(t: ProfileType): (p: UsageProfile)
    requires t != Custom
    ensures p.profileType == t
  {
    match t
    case Light => LightProfile
    case Medium => MediumProfile
    case Heavy => HeavyProfile
  }

  /** The three editable daily amounts. */
  datatype UsageField = DailyData | DailyVoice | DailySms

  function FieldValue(u: UsageProfile, f: UsageField): real {
    match f
    case DailyData => u.dailyData
    case DailyVoice => u.dailyVoice
    case DailySms => u.dailySms
  }

  /** Two profiles with the same three daily amounts. */
  predicate SameAmounts(u: UsageProfile, v: UsageProfile) {
    u.dailyData == v.dailyData && u.dailyVoice == v.dailyVoice && u.dailySms == v.dailySms
  }

  /** `isSelected`: the preset button is highlighted when the tag and all
      three amounts match the preset. */
  predicate IsSelected(u: UsageProfile, t: ProfileType)
    requires t != Custom
  {
    u.profileType == t && SameAmounts(u, Preset(t))
  }

  /** `handleProfileTypeChange`. */
  function HandleProfileTypeChange(current: UsageProfile, t: ProfileType): (next: UsageProfile)
    ensures next.profileType == t
    ensures t == Custom ==> SameAmounts(next, current)
    ensures t != Custom ==> next == Preset(t) && IsSelected(next, t)
  {
    if t == Custom then current.(profileType := Custom) else Preset(t)
  }

  /** `handleCustomChange`: one amount is set, the tag becomes custom. */
  function HandleCustomChange(current: UsageProfile, f: UsageField, value: real): (next: UsageProfile)
    ensures FieldValue(next, f) == value
    ensures forall g :: g != f ==> FieldValue(next, g) == FieldValue(current, g)
    ensures next.profileType == Custom
  {
    match f
    case DailyData => current.(dailyData := value, profileType := Custom)
    case DailyVoice => current.(dailyVoice := value, profileType := Custom)
    case DailySms => current.(dailySms := value, profileType := Custom)
  }

  /** A preset is shown as selected exactly when the profile is that preset. */
  lemma SelectedIffPreset(u: UsageProfile, t: ProfileType)
    requires t != Custom
    ensures IsSelected(u, t) <==> u == Preset(t)
  {
  }

  /** Choosing the same entry twice has the effect of choosing it once. */
  lemma ProfileTypeChangeIdempotent(current: UsageProfile, t: ProfileType)
    ensures HandleProfileTypeChange(HandleProfileTypeChange(current, t), t) == HandleProfileTypeChange(current, t)
  {
  }

  /** After any field edit no preset is shown as selected. */
  lemma CustomChangeDeselectsPresets(current: UsageProfile, f: UsageField, value: real, t: ProfileType)
    requires t != Custom
    ensures !IsSelected(HandleCustomChange(current, f, value), t)
  {
  }

  /** Editing a field to the value it already has only changes the tag. */
  lemma CustomChangeToSameValue(current: UsageProfile, f: UsageField)
    ensures HandleCustomChange(current, f, FieldValue(current, f)) == HandleProfileTypeChange(current, Custom)
  {
  }
}
