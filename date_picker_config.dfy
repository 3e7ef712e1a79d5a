/**
 * The pure configuration of the date picker: which platform family it runs
 * on, the colour and text defaults and how a caller's partial settings are
 * merged over them, the display-mode default, and the text the input field
 * shows.
 */
module DatePickerConfig {
  import opened Wrappers
  import opened Dates

  /** `Platform.OS`, reduced to the values the component tests for. */
  datatype Platform = Android | IOS | Other

  /** The thirteen keys of `DatePickerColors`. */
  datatype ColorKey =
    | Label | Text | Placeholder | Icon | InputBackground | InputBorder | Error
    | CancelButtonBackground | CancelButtonText | ConfirmButtonBackground
    | ConfirmButtonText | PickerBackground | PickerBorder

  /** The two keys of `DatePickerTexts`. */
  datatype TextKey = Cancel | Confirm

  /** `defaultColors`: every colour key has a default. */
  const DefaultColors: map<ColorKey, string> := map[
    Label := "#1F2937",
    Text := "#1F2937",
    Placeholder := "#9CA3AF",
    Icon := "#9CA3AF",
    InputBackground := "#F9FAFB",
    InputBorder := "#E5E7EB",
    Error := "#EF4444",
    CancelButtonBackground := "#E5E7EB",
    CancelButtonText := "#1F2937",
    ConfirmButtonBackground := "#3B82F6",
    ConfirmButtonText := "#FFFFFF",
    PickerBackground := "#F9FAFB",
    PickerBorder := "#E5E7EB"
  ]

  /** `defaultTexts`. */
  const DefaultTexts: map<TextKey, string> := map[Cancel := "Cancel", Confirm := "Confirm"]

  /** The defaults are `Required<...>`: every key has one. */
  lemma DefaultsAreComplete(c: ColorKey, t: TextKey)
    ensures c in DefaultColors && t in DefaultTexts
  {
    match c
    case Label =>
    case Text =>
    case Placeholder =>
    case Icon =>
    case InputBackground =>
    case InputBorder =>
    case Error =>
    case CancelButtonBackground =>
    case CancelButtonText =>
    case ConfirmButtonBackground =>
    case ConfirmButtonText =>
    case PickerBackground =>
    case PickerBorder =>
  }

  /**
   * One own property of a caller's settings object: a key written with a
   * string, or a key written with `undefined` (allowed by the optional
   * property types). A key not written at all is absent from the map.
   */
  datatype Entry = Given(text: string) | Undefined

  /**
   * `{ ...defaults, ...custom }` exactly as JavaScript evaluates it: every own
   * key of `custom` is copied, including one whose value is `undefined`, and
   * spreading an absent `custom` copies nothing. `None` in the result is an
   * `undefined` colour.
   */
  function SpreadAsWritten<K>(defaults: map<K, string>, custom: Option<map<K, Entry>>): (r: map<K, Option<string>>)
    ensures r.Keys == defaults.Keys
    ensures forall k :: k in r && (custom.None? || k !in custom.value) ==> r[k] == Some(defaults[k])
    ensures forall k, t :: k in r && custom.Some? && k in custom.value && custom.value[k] == Given(t) ==> r[k] == Some(t)
    ensures forall k :: k in r && custom.Some? && k in custom.value && custom.value[k] == Undefined ==> r[k] == None
  {
    var c := custom.GetOr(map[]);
    map k | k in defaults :: if k in c then (match c[k] case Given(t) => Some(t) case Undefined => None) else Some(defaults[k])
  }

  /** A caller who writes `undefined` for a colour does not get its default. */
  lemma UndefinedEntryErasesDefault()
    ensures SpreadAsWritten(DefaultColors, Some(map[Label := Undefined]))[Label] == None
  {
  }

  /**
   * The merge the defaults are evidently meant to give: a key takes the
   * caller's string when one is given, and its default otherwise.
   */
  function Merge<K>(defaults: map<K, string>, custom: Option<map<K, Entry>>): (r: map<K, string>)
    ensures r.Keys == defaults.Keys
    ensures forall k :: k in r ==>
      r[k] == if custom.Some? && k in custom.value && custom.value[k].Given? then custom.value[k].text else defaults[k]
  {
    var c := custom.GetOr(map[]);
    map k | k in defaults :: if k in c && c[k].Given? then c[k].text else defaults[k]
  }

  /** Where the caller gives strings, the as-written spread and the merge agree. */
  lemma MergeMatchesSpreadOnStrings<K>(defaults: map<K, string>, custom: Option<map<K, Entry>>, k: K)
    requires k in defaults
    requires custom.Some? && k in custom.value ==> custom.value[k].Given?
    ensures SpreadAsWritten(defaults, custom)[k] == Some(Merge(defaults, custom)[k])
  {
  }

  /**
   * The colour palette the component renders with, by the corrected merge:
   * a colour given as `undefined` takes its default here, where the spread
   * as written (`SpreadAsWritten`) leaves it `undefined`.
   */
  function Colors(custom: Option<map<ColorKey, Entry>>): (r: map<ColorKey, string>)
    ensures forall k :: k in r
    ensures custom.None? ==> r == DefaultColors
    ensures forall k, t :: custom.Some? && k in custom.value && custom.value[k] == Given(t) ==> k in r && r[k] == t
    ensures forall k :: custom.Some? && (k !in custom.value || custom.value[k].Undefined?) ==> k in r && k in DefaultColors && r[k] == DefaultColors[k]
  {
    forall k: ColorKey ensures k in DefaultColors {
      DefaultsAreComplete(k, Cancel);
    }
    Merge(DefaultColors, custom)
  }

  /** The button texts the component renders with, by the corrected merge (see `Colors`). */
  function Texts(custom: Option<map<TextKey, Entry>>): (r: map<TextKey, string>)
    ensures forall k :: k in r
    ensures custom.None? ==> r == DefaultTexts
    ensures forall k, t :: custom.Some? && k in custom.value && custom.value[k] == Given(t) ==> k in r && r[k] == t
    ensures forall k :: custom.Some? && (k !in custom.value || custom.value[k].Undefined?) ==> k in r && k in DefaultTexts && r[k] == DefaultTexts[k]
  {
    forall k: TextKey ensures k in DefaultTexts {
      DefaultsAreComplete(Label, k);
    }
    Merge(DefaultTexts, custom)
  }

  /** Overriding one key changes that key of the merge and no other. */
  lemma {:induction false} MergeOverrideIsLocal<K>(defaults: map<K, string>, custom: map<K, Entry>, key: K, t: string)
    requires key in defaults
    ensures Merge(defaults, Some(custom[key := Given(t)])) ==
            Merge(defaults, Some(custom))[key := t]
  {
    var lhs := Merge(defaults, Some(custom[key := Given(t)]));
    var rhs := Merge(defaults, Some(custom))[key := t];
    assert lhs.Keys == rhs.Keys;
    forall k | k in lhs ensures lhs[k] == rhs[k] {
    }
  }

  /** The `display` values the native picker accepts. */
  datatype DisplayMode = Default | Spinner | Compact | Inline | Calendar | Clock

  /** The modes that the documentation of `display` lists for a platform. */
  predicate SupportedOn(mode: DisplayMode, platform: Platform) {
    if platform == IOS then mode in {Spinner, Compact, Inline}
    else mode in {Default, Spinner, Calendar, Clock}
  }

  /** `display || (Platform.OS === 'ios' ? 'spinner' : 'default')`. */
  function DisplayModeFor(display: Option<DisplayMode>, platform: Platform): (r: DisplayMode)
    ensures display.Some? ==> r == display.value
    ensures display.None? ==> r == (if platform == IOS then Spinner else Default)
    ensures display.None? ==> SupportedOn(r, platform) && (r == Spinner <==> platform == IOS)
  {
    match display
    case Some(mode) => mode
    case None => if platform == IOS then Spinner else Default
  }

  /** `formatDate`: the caller's formatter when one is given, else `DD/MM/YYYY`. */
  function FormatDate(custom: Option<Date -> string>, d: Date): (s: string)
    ensures custom.Some? ==> s == custom.value(d)
    ensures custom.None? ==> s == FormatDefault(d) && ParseDefault(s) == Some(d)
  {
    match custom
    case Some(f) => f(d)
    case None => FormatParseRoundTrip(d); FormatDefault(d)
  }

  /** The input field's text: the formatted value, or the placeholder when there is none. */
  function FieldText(value: Option<Date>, placeholder: string, custom: Option<Date -> string>): (s: string)
    ensures value.None? ==> s == placeholder
    ensures value.Some? ==> s == FormatDate(custom, value.value)
  {
    match value
    case None => placeholder
    case Some(d) => FormatDate(custom, d)
  }

  /** Without a custom formatter, a field with a value never shows a string that reads back as another date. */
  lemma FieldTextIdentifiesValue(d: Date, placeholder: string)
    ensures ParseDefault(FieldText(Some(d), placeholder, None)) == Some(d)
  {
  }
}
