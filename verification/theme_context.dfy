/** The theme provider: a dark-mode flag that starts light, is loaded once from the
    key-value store under "theme", is flipped by a toggle that then writes the new value
    back, and selects one of two fixed palettes. The store is modelled by the values it
    returns and receives; its failures are inputs. */
module ThemeContext {
  import opened Wrappers

  /** The storage key the flag is kept under. */
  const StorageKey: string := "theme"

  /** What `AsyncStorage.getItem('theme')` produced: a stored string or `null`, or a
      rejected promise. */
  datatype ReadOutcome = ReadOk(stored: Option<string>) | ReadFailed

  /** Whether `AsyncStorage.setItem` resolved or rejected. */
  datatype WriteOutcome = WriteOk | WriteFailed

  datatype ThemeState = ThemeState(isDarkMode: bool)

  /** `useState(false)`: the provider starts in light mode. */
  function InitialState(): (s: ThemeState)
    ensures !s.isDarkMode
  {
    ThemeState(false)
  }

  /** The stored form of a flag: 'dark' or 'light'. */
  function Encode(dark: bool): (v: string)
    ensures v == "dark" || v == "light"
  {
    if dark then "dark" else "light"
  }

  /** `loadTheme()`: a stored 'dark' turns dark mode on, any other stored string turns it
      off, and a missing value or a failed read leaves the flag as it is (the error is
      only logged). */
  function LoadTheme(s: ThemeState, read: ReadOutcome): (r: ThemeState)
    ensures read == ReadOk(Some("dark")) ==> r.isDarkMode
    ensures read.ReadOk? && read.stored.Some? && read.stored.value != "dark" ==> !r.isDarkMode
    ensures read == ReadOk(None) ==> r == s
    ensures read.ReadFailed? ==> r == s
  {
    match read
    case ReadOk(Some(saved)) => ThemeState(saved == "dark")
    case ReadOk(None) => s
    case ReadFailed => s
  }

  /** The key-value store, as the theme provider sees it. */
  type Storage = map<string, string>

  /** A successful `AsyncStorage.getItem('theme')` on `storage`. */
  function ReadStored(storage: Storage): (read: ReadOutcome)
    ensures read.ReadOk?
    ensures read.stored.Some? <==> StorageKey in storage
    ensures read.stored.Some? ==> read.stored.value == storage[StorageKey]
  {
    ReadOk(if StorageKey in storage then Some(storage[StorageKey]) else None)
  }

  /** The outcome of `toggleTheme()`: the new state and the storage after the write. */
  datatype Toggled = Toggled(state: ThemeState, storage: Storage)

  /** `toggleTheme()`: flips the flag, then writes 'dark' or 'light' under "theme". A
      failed write is only logged: the flag stays flipped and storage is untouched.
      No other key is ever written. */
  function ToggleTheme(s: ThemeState, storage: Storage, write: WriteOutcome): (r: Toggled)
    ensures r.state.isDarkMode == !s.isDarkMode
    ensures write.WriteOk? ==> && StorageKey in r.storage
                               && r.storage[StorageKey] == (if r.state.isDarkMode then "dark" else "light")
    ensures write.WriteFailed? ==> r.storage == storage
    ensures r.storage - {StorageKey} == storage - {StorageKey}
  {
    var newTheme := !s.isDarkMode;
    match write
    case WriteOk => Toggled(ThemeState(newTheme), storage[StorageKey := Encode(newTheme)])
    case WriteFailed => Toggled(ThemeState(newTheme), storage)
  }

  /** Decoding what `Encode` wrote gives the flag back. */
  lemma EncodeRoundTrip(dark: bool, s: ThemeState)
    ensures LoadTheme(s, ReadOk(Some(Encode(dark)))).isDarkMode == dark
  {
  }

  /** Two toggles return to the starting flag, whatever happened to the writes. */
  lemma ToggleTwiceRestores(s: ThemeState, storage: Storage, w1: WriteOutcome, w2: WriteOutcome)
    ensures var t := ToggleTheme(s, storage, w1);
            ToggleTheme(t.state, t.storage, w2).state == s
  {
  }

  /** After a successful toggle, loading from the storage it left (in a later session,
      from any starting flag) reproduces the in-memory flag. */
  lemma ToggleThenLoadAgrees(s: ThemeState, storage: Storage, later: ThemeState)
    ensures var t := ToggleTheme(s, storage, WriteOk);
            LoadTheme(later, ReadStored(t.storage)) == t.state
  {
  }

  /** The colour names of a palette. */
  datatype Colors = Colors(
    background: string,
    card: string,
    surface: string,
    primary: string,
    primaryLight: string,
    text: string,
    textSecondary: string,
    textTertiary: string,
    border: string,
    borderLight: string,
    error: string,
    success: string,
    warning: string,
    icon: string,
    placeholder: string,
    inputBackground: string,
    shadow: string)

  const DarkColors: Colors := Colors(
    "#111827", "#1F2937", "#374151", "#60A5FA", "#93C5FD", "#F9FAFB", "#D1D5DB", "#9CA3AF",
    "#374151", "#4B5563", "#EF4444", "#10B981", "#F59E0B", "#D1D5DB", "#6B7280", "#374151",
    "#000000")

  const LightColors: Colors := Colors(
    "#F3F4F6", "#FFFFFF", "#FFFFFF", "#1E3A8A", "#DBEAFE", "#111827", "#6B7280", "#9CA3AF",
    "#F3F4F6", "#E5E7EB", "#DC2626", "#059669", "#D97706", "#6B7280", "#9CA3AF", "#F9FAFB",
    "#000000")

  datatype Theme = Theme(dark: bool, colors: Colors)

  /** The `theme` object: recomputed from the flag alone. */
  function ThemeOf(s: ThemeState): (t: Theme)
    ensures t.dark == s.isDarkMode
    ensures t.colors == DarkColors <==> s.isDarkMode
    ensures t.colors == LightColors <==> !s.isDarkMode
  {
    assert DarkColors.background[1] != LightColors.background[1];
    Theme(s.isDarkMode, if s.isDarkMode then DarkColors else LightColors)
  }

  /** The value the provider hands to its consumers (the toggle callback is not data). */
  datatype ContextValue = ContextValue(isDarkMode: bool, theme: Theme)

  function ProvidedValue(s: ThemeState): (v: ContextValue)
    ensures v.isDarkMode == s.isDarkMode
    ensures v.theme == ThemeOf(s)
    ensures v.isDarkMode == v.theme.dark
  {
    ContextValue(s.isDarkMode, ThemeOf(s))
  }

  const OutsideProviderError: string := "useTheme must be used within ThemeProvider"

  /** `useTheme()`: the provided value, or an error when no provider encloses the caller
      (never a default value). */
  function UseTheme(context: Option<ContextValue>): (r: Result<ContextValue, string>)
    ensures r.Success? <==> context.Some?
    ensures r.Success? ==> r.value == context.value
    ensures r.Failure? ==> r.error == OutsideProviderError
  {
    match context
    case None => Failure(OutsideProviderError)
    case Some(v) => Success(v)
  }

  /** Inside the provider, `useTheme` hands out the palette of the current flag, and
      after a toggle the palette of the other flag. */
  lemma UseThemeFollowsToggle(s: ThemeState, storage: Storage, write: WriteOutcome)
    ensures UseTheme(Some(ProvidedValue(s))) == Success(ContextValue(s.isDarkMode, ThemeOf(s)))
    ensures var t := ToggleTheme(s, storage, write);
            && UseTheme(Some(ProvidedValue(t.state))).Success?
            && UseTheme(Some(ProvidedValue(t.state))).value.theme.colors != ThemeOf(s).colors
  {
  }
}
