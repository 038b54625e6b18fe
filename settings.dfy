/** The settings popup of components/okane-note.tsx: three sections of five
    fields each, a one-field update, and the edit-mode switch behind its
    password prompt. */
module Settings {
  import opened Seqs

  /** `handleSettingsChange` takes `string | boolean` for any field. */
  datatype SettingValue = Flag(b: bool) | Text(s: string)

  datatype Field = Checkbox1 | Checkbox2 | Radio | TextField | SelectField

  datatype SettingsSection = SettingsSection(
    checkbox1: SettingValue,
    checkbox2: SettingValue,
    radio: SettingValue,
    textField: SettingValue,
    selectField: SettingValue)

  datatype SectionKey = CompoundInterest | WorkList | QuestBoard

  datatype SettingsData = SettingsData(
    compoundInterest: SettingsSection,
    workList: SettingsSection,
    questBoard: SettingsSection)

  /** The initial value of every section. */
  const DefaultSection := SettingsSection(Flag(false), Flag(false), Text("option1"), Text(""), Text("1"))

  const DefaultSettings := SettingsData(DefaultSection, DefaultSection, DefaultSection)

  /** The password the edit-mode switch asks for. */
  const EditPassword := "1234"

  function FieldOf(s: SettingsSection, f: Field): SettingValue {
    match f
    case Checkbox1 => s.checkbox1
    case Checkbox2 => s.checkbox2
    case Radio => s.radio
    case TextField => s.textField
    case SelectField => s.selectField
  }

  /** `{ ...section, [field]: value }`: that field replaced, every other kept. */
  function WithField(s: SettingsSection, f: Field, v: SettingValue): (r: SettingsSection)
    ensures FieldOf(r, f) == v
    ensures forall g :: g != f ==> FieldOf(r, g) == FieldOf(s, g)
  {
    match f
    case Checkbox1 => s.(checkbox1 := v)
    case Checkbox2 => s.(checkbox2 := v)
    case Radio => s.(radio := v)
    case TextField => s.(textField := v)
    case SelectField => s.(selectField := v)
  }

  function SectionOf(d: SettingsData, k: SectionKey): SettingsSection {
    match k
    case CompoundInterest => d.compoundInterest
    case WorkList => d.workList
    case QuestBoard => d.questBoard
  }

  /** The functional update of `handleSettingsChange`: that field of that
      section set, every other field of every section unchanged. */
  function WithSetting(d: SettingsData, k: SectionKey, f: Field, v: SettingValue): (r: SettingsData)
    ensures FieldOf(SectionOf(r, k), f) == v
    ensures forall g :: g != f ==> FieldOf(SectionOf(r, k), g) == FieldOf(SectionOf(d, k), g)
    ensures forall k' :: k' != k ==> SectionOf(r, k') == SectionOf(d, k')
  {
    var s := WithField(SectionOf(d, k), f, v);
    match k
    case CompoundInterest => d.(compoundInterest := s)
    case WorkList => d.(workList := s)
    case QuestBoard => d.(questBoard := s)
  }

  /** Writing back the value a field already has changes nothing, and a
      second write to the same place overrides the first. */
  lemma WithSettingLaws(d: SettingsData, k: SectionKey, f: Field, v: SettingValue, w: SettingValue)
    ensures WithSetting(d, k, f, FieldOf(SectionOf(d, k), f)) == d
    ensures WithSetting(WithSetting(d, k, f, v), k, f, w) == WithSetting(d, k, f, w)
  {
  }

  /** `handleEditModeToggle(checked)`: switching on from off asks for the
      password (`entered` is the prompt's answer, `None` when cancelled) and
      succeeds only with the right one; any other call sets the mode to `checked`. */
  function EditModeAfterToggle(isEditMode: bool, checked: bool, entered: Option<string>): (on: bool)
    ensures on && !isEditMode ==> checked && entered == Some(EditPassword)
    ensures !checked ==> !on
    ensures checked && isEditMode ==> on
    ensures checked && entered == Some(EditPassword) ==> on
  {
    if checked && !isEditMode then entered == Some(EditPassword) else checked
  }
}
