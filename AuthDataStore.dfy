/**
 * AuthDataStore: the Preferences DataStore "auth_prefs" holding the session
 * (logged-in flag, user id, e-mail and name) and two settings (currency and
 * theme). The store is a map from key names to typed values; each read
 * flow is a lookup with its default. The DataStore's file I/O and its Flow
 * emission are not modelled: a read is a function of the current map.
 */
module AuthStore {
  import opened Wrappers

  /** A Preferences value: the store holds booleans, longs and strings. */
  datatype PrefValue = BoolValue(b: bool) | LongValue(n: int) | StringValue(s: string)

  type Prefs = map<string, PrefValue>

  const IS_LOGGED_IN: string := "is_logged_in"
  const USER_ID: string := "user_id"
  const USER_EMAIL: string := "user_email"
  const USER_NAME: string := "user_name"
  const CURRENCY: string := "currency"
  const THEME: string := "theme"

  /** `preferences[IS_LOGGED_IN] ?: false`. */
  function IsLoggedInOf(p: Prefs): bool {
    if IS_LOGGED_IN in p && p[IS_LOGGED_IN].BoolValue? then p[IS_LOGGED_IN].b else false
  }

  /** `preferences[USER_ID]`, absent when the key is. */
  function UserIdOf(p: Prefs): Option<int> {
    if USER_ID in p && p[USER_ID].LongValue? then Some(p[USER_ID].n) else None
  }

  function StringOf(p: Prefs, key: string): Option<string> {
    if key in p && p[key].StringValue? then Some(p[key].s) else None
  }

  /** `preferences[USER_EMAIL]`. */
  function UserEmailOf(p: Prefs): Option<string> {
    StringOf(p, USER_EMAIL)
  }

  /** `preferences[USER_NAME]`. */
  function UserNameOf(p: Prefs): Option<string> {
    StringOf(p, USER_NAME)
  }

  /** `preferences[CURRENCY] ?: "UAH"`. */
  function CurrencyOf(p: Prefs): string {
    StringOf(p, CURRENCY).GetOr("UAH")
  }

  /** `preferences[THEME] ?: "system"`. */
  function ThemeOf(p: Prefs): string {
    StringOf(p, THEME).GetOr("system")
  }

  /** The user id the view models work with: `authDataStore.userId.map { it ?: 1L }`. */
  function CurrentUserId(p: Prefs): int {
    UserIdOf(p).GetOr(1)
  }

  /** The map after saveUserData's edit block. */
  function SavedUserData(p: Prefs, userId: int, email: string, name: string): Prefs {
    p[IS_LOGGED_IN := BoolValue(true)][USER_ID := LongValue(userId)][USER_EMAIL := StringValue(email)][USER_NAME := StringValue(name)]
  }

  /** After saveUserData the session reads back as given, and the settings are untouched. */
  lemma SaveUserDataReads(p: Prefs, userId: int, email: string, name: string)
    ensures var q := SavedUserData(p, userId, email, name);
      && IsLoggedInOf(q) && UserIdOf(q) == Some(userId) && CurrentUserId(q) == userId
      && UserEmailOf(q) == Some(email) && UserNameOf(q) == Some(name)
      && CurrencyOf(q) == CurrencyOf(p) && ThemeOf(q) == ThemeOf(p)
  {
  }

  /** An empty store (never written, or cleared by logout) reads as logged out, with no user, currency "UAH" and theme "system". */
  lemma EmptyStoreReads()
    ensures !IsLoggedInOf(map[]) && UserIdOf(map[]) == None && CurrentUserId(map[]) == 1
    ensures UserEmailOf(map[]) == None && UserNameOf(map[]) == None
    ensures CurrencyOf(map[]) == "UAH" && ThemeOf(map[]) == "system"
  {
  }

  /** saveCurrency changes the currency key and nothing else; the currency then reads back as saved. */
  lemma SaveCurrencyReads(p: Prefs, currency: string)
    ensures var q := p[CURRENCY := StringValue(currency)];
      && CurrencyOf(q) == currency
      && (forall k :: k in p && k != CURRENCY ==> k in q && q[k] == p[k])
      && IsLoggedInOf(q) == IsLoggedInOf(p) && UserIdOf(q) == UserIdOf(p) && ThemeOf(q) == ThemeOf(p)
      && UserEmailOf(q) == UserEmailOf(p) && UserNameOf(q) == UserNameOf(p)
  {
  }

  /** saveTheme changes the theme key and nothing else; the theme then reads back as saved. */
  lemma SaveThemeReads(p: Prefs, theme: string)
    ensures var q := p[THEME := StringValue(theme)];
      && ThemeOf(q) == theme
      && (forall k :: k in p && k != THEME ==> k in q && q[k] == p[k])
      && IsLoggedInOf(q) == IsLoggedInOf(p) && UserIdOf(q) == UserIdOf(p) && CurrencyOf(q) == CurrencyOf(p)
      && UserEmailOf(q) == UserEmailOf(p) && UserNameOf(q) == UserNameOf(p)
  {
  }

  class AuthDataStore {
    var prefs: Prefs

    /** A store that has never been written. */
    constructor ()
      ensures prefs == map[]
    {
      prefs := map[];
    }

    method SaveUserData(userId: int, email: string, name: string)
      modifies this
      ensures prefs == SavedUserData(old(prefs), userId, email, name)
      ensures IsLoggedInOf(prefs) && UserIdOf(prefs) == Some(userId)
      ensures UserEmailOf(prefs) == Some(email) && UserNameOf(prefs) == Some(name)
    {
      prefs := prefs[IS_LOGGED_IN := BoolValue(true)];
      prefs := prefs[USER_ID := LongValue(userId)];
      prefs := prefs[USER_EMAIL := StringValue(email)];
      prefs := prefs[USER_NAME := StringValue(name)];
      SaveUserDataReads(old(prefs), userId, email, name);
    }

    /** logout: `preferences.clear()`, which also drops the currency and theme. */
    method Logout()
      modifies this
      ensures prefs == map[]
      ensures !IsLoggedInOf(prefs) && UserIdOf(prefs) == None && CurrencyOf(prefs) == "UAH" && ThemeOf(prefs) == "system"
    {
      prefs := map[];
    }

    method SaveCurrency(currency: string)
      modifies this
      ensures prefs == old(prefs)[CURRENCY := StringValue(currency)]
      ensures CurrencyOf(prefs) == currency
    {
      prefs := prefs[CURRENCY := StringValue(currency)];
    }

    method SaveTheme(theme: string)
      modifies this
      ensures prefs == old(prefs)[THEME := StringValue(theme)]
      ensures ThemeOf(prefs) == theme
    {
      prefs := prefs[THEME := StringValue(theme)];
    }
  }
}
