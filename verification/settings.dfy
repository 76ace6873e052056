/**
 * The settings page (src/pages/Settings.tsx): six switches spread over a
 * record and two nested records, and the language selector.
 */
module Settings {
  import opened Wrappers

  datatype Privacy = Privacy(shareData: bool, locationTracking: bool)
  datatype Security = Security(twoFactor: bool, passwordShown: bool, password: string)
  datatype Settings = Settings(notifications: bool, darkMode: bool, language: string, privacy: Privacy, security: Security)

  /** The values the page starts with. */
  const InitialSettings := Settings(true, false, "fr", Privacy(false, true), Security(false, false, "••••••••"))

  /** The names the switches pass to `handleToggle`. */
  const SwitchNames: seq<string> := ["notifications", "darkMode", "shareData", "locationTracking", "twoFactor", "passwordShown"]

  /** Reference reading of a switch by name, wherever it is nested; `None`
      for a name no switch has. */
  function Switch(s: Settings, name: string): (b: Option<bool>)
    ensures b.Some? <==> name in SwitchNames
  {
    if name == "notifications" then Some(s.notifications)
    else if name == "darkMode" then Some(s.darkMode)
    else if name == "shareData" then Some(s.privacy.shareData)
    else if name == "locationTracking" then Some(s.privacy.locationTracking)
    else if name == "twoFactor" then Some(s.security.twoFactor)
    else if name == "passwordShown" then Some(s.security.passwordShown)
    else None
  }

  /** The switches, the language and the password are all there is to a
      settings record. */
  lemma SettingsDeterminedBySwitches(s: Settings, t: Settings)
    requires forall name :: name in SwitchNames ==> Switch(s, name) == Switch(t, name)
    requires s.language == t.language && s.security.password == t.security.password
    ensures s == t
  {
    assert Switch(s, "notifications") == Switch(t, "notifications");
    assert Switch(s, "darkMode") == Switch(t, "darkMode");
    assert Switch(s, "shareData") == Switch(t, "shareData");
    assert Switch(s, "locationTracking") == Switch(t, "locationTracking");
    assert Switch(s, "twoFactor") == Switch(t, "twoFactor");
    assert Switch(s, "passwordShown") == Switch(t, "passwordShown");
  }

  /** `handleToggle(setting)`: the switch named `setting` flips and every
      other switch keeps its value; the language and the password never
      change; a name no switch has leaves the record as it was. */
  function HandleToggle(prev: Settings, setting: string): (r: Settings)
    ensures forall name :: name in SwitchNames && name != setting ==> Switch(r, name) == Switch(prev, name)
    ensures setting in SwitchNames ==> Switch(r, setting) == Some(!Switch(prev, setting).value)
    ensures setting !in SwitchNames ==> r == prev
    ensures r.language == prev.language && r.security.password == prev.security.password
  {
    if setting == "notifications" then prev.(notifications := !prev.notifications)
    else if setting == "darkMode" then prev.(darkMode := !prev.darkMode)
    else if setting == "shareData" then prev.(privacy := prev.privacy.(shareData := !prev.privacy.shareData))
    else if setting == "locationTracking" then
      prev.(privacy := prev.privacy.(locationTracking := !prev.privacy.locationTracking))
    else if setting == "twoFactor" then prev.(security := prev.security.(twoFactor := !prev.security.twoFactor))
    else if setting == "passwordShown" then
      prev.(security := prev.security.(passwordShown := !prev.security.passwordShown))
    else prev
  }

  /** Flipping the same switch twice restores the settings. */
  lemma {:induction false} HandleToggleTwice(prev: Settings, setting: string)
    ensures HandleToggle(HandleToggle(prev, setting), setting) == prev
  {
    var r := HandleToggle(HandleToggle(prev, setting), setting);
    if setting in SwitchNames {
      forall name | name in SwitchNames ensures Switch(r, name) == Switch(prev, name) {
      }
      SettingsDeterminedBySwitches(r, prev);
    }
  }

  /** Flipping two different switches gives the same record in either order. */
  lemma HandleToggleCommutes(prev: Settings, a: string, b: string)
    ensures HandleToggle(HandleToggle(prev, a), b) == HandleToggle(HandleToggle(prev, b), a)
  {
    var ab := HandleToggle(HandleToggle(prev, a), b);
    var ba := HandleToggle(HandleToggle(prev, b), a);
    forall name | name in SwitchNames ensures Switch(ab, name) == Switch(ba, name) {
    }
    SettingsDeterminedBySwitches(ab, ba);
  }

  /** `handleLanguageChange`: the language takes the selected value, every
      switch and the password are kept. */
  function LanguageChange(prev: Settings, value: string): (r: Settings)
    ensures r.language == value
    ensures forall name :: name in SwitchNames ==> Switch(r, name) == Switch(prev, name)
    ensures r.security.password == prev.security.password
  {
    prev.(language := value)
  }

  /** The page opens with notifications and location tracking on, every
      other switch off, French selected and the password masked. */
  lemma InitialValues()
    ensures Switch(InitialSettings, "notifications") == Some(true)
    ensures Switch(InitialSettings, "locationTracking") == Some(true)
    ensures Switch(InitialSettings, "darkMode") == Some(false)
    ensures Switch(InitialSettings, "shareData") == Some(false)
    ensures Switch(InitialSettings, "twoFactor") == Some(false)
    ensures Switch(InitialSettings, "passwordShown") == Some(false)
    ensures InitialSettings.language == "fr"
  {
  }
}
