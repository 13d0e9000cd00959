/** The application object (src/app.py): the default configuration it
    builds, the upload address it assembles, and its reaction to a changed
    configuration value. Kivy's ConfigParser stores every value as text,
    so a configuration is a map from section to option to text. */
module App {
  import opened Wrappers
  import opened Strings
  import Settings

  type Config = map<string, map<string, string>>

  const LanguageSection: string := "Localization"
  const LanguageCode: string := "language"
  const UploadSuffix: string := "/circletask/_dash-update-component"

  /** `get_upload_route`: one dash application per task, behind the
      configured server address without its surrounding slashes. */
  function UploadRoute(currentTask: string, serverUri: string): string
  {
    Strip(serverUri, '/') + (if currentTask == Settings.CircleTaskName then UploadSuffix else "")
  }

  /** The server address loses exactly its leading and trailing slashes,
      and only the Circle Task gets a route. */
  lemma UploadRouteShape(currentTask: string, serverUri: string)
    ensures exists a: nat, b: nat, core: string ::
              serverUri == Repeat('/', a) + core + Repeat('/', b)
              && (|core| == 0 || (core[0] != '/' && core[|core| - 1] != '/'))
              && UploadRoute(currentTask, serverUri)
                 == core + (if currentTask == Settings.CircleTaskName then UploadSuffix else "")
  {
    StripShape(serverUri, '/');
  }

  /** The option's value in a configuration, if any. */
  function Lookup(c: Config, section: string, option: string): Option<string>
  {
    if section in c && option in c[section] then Some(c[section][option]) else None
  }

  /** `config.setdefaults(section, keyvalues)`: the section is created if
      missing, and every option it lacks gets its default. The options of
      a dict are distinct, so the order Kivy visits them in does not
      matter. */
  function SetDefaults(c: Config, section: string, keyvalues: map<string, string>): Config
  {
    var prev := if section in c then c[section] else map[];
    c[section := map o | o in prev.Keys + keyvalues.Keys :: if o in prev then prev[o] else keyvalues[o]]
  }

  /** Setting the same defaults twice changes nothing more. */
  lemma SetDefaultsIdempotent(c: Config, section: string, keyvalues: map<string, string>)
    ensures SetDefaults(SetDefaults(c, section, keyvalues), section, keyvalues) == SetDefaults(c, section, keyvalues)
  {
    var c1 := SetDefaults(c, section, keyvalues);
    var prev := c1[section];
    var m := map o | o in prev.Keys + keyvalues.Keys :: if o in prev then prev[o] else keyvalues[o];
    assert m == prev;
  }

  /** Setting defaults keeps every value already configured, fills every
      missing option of the section, and leaves other sections alone. */
  lemma SetDefaultsSpec(c: Config, section: string, keyvalues: map<string, string>, s: string, o: string)
    ensures section in SetDefaults(c, section, keyvalues)
    ensures Lookup(SetDefaults(c, section, keyvalues), s, o)
            == if Lookup(c, s, o).Some? then Lookup(c, s, o)
               else if s == section && o in keyvalues then Some(keyvalues[o])
               else None
  {
  }

  function LanguageDefaults(defaultLanguage: string): map<string, string>
  {
    map[LanguageCode := defaultLanguage]
  }

  function GeneralDefaults(userId: string): map<string, string>
  {
    map["is_first_run" := "1", "current_user" := userId]
  }

  function DataCollectionDefaults(webserver: string): map<string, string>
  {
    map["is_local_storage_enabled" := "0", "is_upload_enabled" := "1", "webserver" := webserver,
        "is_email_enabled" := "0"]
  }

  function CircleTaskDefaults(contact: string): map<string, string>
  {
    map["n_trials" := "20", "n_blocks" := "3", "constrained_block" := "2", "warm_up_time" := "1.0",
        "trial_duration" := "3.0", "cool_down_time" := "0.5", "email_recipient" := contact]
  }

  /** `build_config`, in the order of its `setdefaults` calls. The user
      identifier, the server address and the contact address are computed
      outside the model. */
  function BuildConfig(c: Config, defaultLanguage: string, userId: string, webserver: string, contact: string): Config
  {
    var c1 := SetDefaults(c, LanguageSection, LanguageDefaults(defaultLanguage));
    var c2 := SetDefaults(c1, "General", GeneralDefaults(userId));
    var c3 := SetDefaults(c2, "DataCollection", DataCollectionDefaults(webserver));
    SetDefaults(c3, "CircleTask", CircleTaskDefaults(contact))
  }

  /** The default `build_config` gives an option, if any. */
  function DefaultFor(s: string, o: string, defaultLanguage: string, userId: string, webserver: string,
                      contact: string): Option<string>
  {
    if s == LanguageSection && o in LanguageDefaults(defaultLanguage) then Some(LanguageDefaults(defaultLanguage)[o])
    else if s == "General" && o in GeneralDefaults(userId) then Some(GeneralDefaults(userId)[o])
    else if s == "DataCollection" && o in DataCollectionDefaults(webserver) then Some(DataCollectionDefaults(webserver)[o])
    else if s == "CircleTask" && o in CircleTaskDefaults(contact) then Some(CircleTaskDefaults(contact)[o])
    else None
  }

  /** After `build_config` an option has its configured value if it had
      one, and otherwise its default; an option without either is
      missing. */
  lemma BuildConfigLookup(c: Config, defaultLanguage: string, userId: string, webserver: string, contact: string,
                          s: string, o: string)
    ensures Lookup(BuildConfig(c, defaultLanguage, userId, webserver, contact), s, o)
            == if Lookup(c, s, o).Some? then Lookup(c, s, o)
               else DefaultFor(s, o, defaultLanguage, userId, webserver, contact)
  {
    var c1 := SetDefaults(c, LanguageSection, LanguageDefaults(defaultLanguage));
    var c2 := SetDefaults(c1, "General", GeneralDefaults(userId));
    var c3 := SetDefaults(c2, "DataCollection", DataCollectionDefaults(webserver));
    SetDefaultsSpec(c, LanguageSection, LanguageDefaults(defaultLanguage), s, o);
    SetDefaultsSpec(c1, "General", GeneralDefaults(userId), s, o);
    SetDefaultsSpec(c2, "DataCollection", DataCollectionDefaults(webserver), s, o);
    SetDefaultsSpec(c3, "CircleTask", CircleTaskDefaults(contact), s, o);
  }

  /** Building the configuration never changes or removes a value the
      configuration file already holds. */
  lemma BuildConfigKeeps(c: Config, defaultLanguage: string, userId: string, webserver: string, contact: string,
                         s: string, o: string)
    requires Lookup(c, s, o).Some?
    ensures Lookup(BuildConfig(c, defaultLanguage, userId, webserver, contact), s, o) == Lookup(c, s, o)
  {
    BuildConfigLookup(c, defaultLanguage, userId, webserver, contact, s, o);
  }

  /** Building the configuration again, as every start of the app does,
      changes no option. */
  lemma BuildConfigIdempotent(c: Config, defaultLanguage: string, userId: string, webserver: string, contact: string,
                              s: string, o: string)
    ensures var b := BuildConfig(c, defaultLanguage, userId, webserver, contact);
            Lookup(BuildConfig(b, defaultLanguage, userId, webserver, contact), s, o) == Lookup(b, s, o)
  {
    var b := BuildConfig(c, defaultLanguage, userId, webserver, contact);
    BuildConfigLookup(c, defaultLanguage, userId, webserver, contact, s, o);
    BuildConfigLookup(b, defaultLanguage, userId, webserver, contact, s, o);
  }

  /** A fresh configuration holds exactly the defaults. */
  lemma FreshConfig(defaultLanguage: string, userId: string, webserver: string, contact: string, s: string, o: string)
    ensures Lookup(BuildConfig(map[], defaultLanguage, userId, webserver, contact), s, o)
            == DefaultFor(s, o, defaultLanguage, userId, webserver, contact)
  {
    BuildConfigLookup(map[], defaultLanguage, userId, webserver, contact, s, o);
  }

  /** By default 20 trials run in 3 blocks, the second one constrained. */
  lemma BlockDefaults(defaultLanguage: string, userId: string, webserver: string, contact: string)
    ensures DefaultFor("CircleTask", "n_trials", defaultLanguage, userId, webserver, contact) == Some("20")
            && DefaultFor("CircleTask", "n_blocks", defaultLanguage, userId, webserver, contact) == Some("3")
            && DefaultFor("CircleTask", "constrained_block", defaultLanguage, userId, webserver, contact) == Some("2")
  {
  }

  /** By default a trial gives 1.0 s to prepare, lasts 3.0 s and cools down
      for 0.5 s. */
  lemma TimingDefaults(defaultLanguage: string, userId: string, webserver: string, contact: string)
    ensures DefaultFor("CircleTask", "warm_up_time", defaultLanguage, userId, webserver, contact) == Some("1.0")
            && DefaultFor("CircleTask", "trial_duration", defaultLanguage, userId, webserver, contact) == Some("3.0")
            && DefaultFor("CircleTask", "cool_down_time", defaultLanguage, userId, webserver, contact) == Some("0.5")
  {
  }

  /** By default data are uploaded, and neither stored locally nor
      e-mailed. */
  lemma DataCollectionDefaultValues(defaultLanguage: string, userId: string, webserver: string, contact: string)
    ensures DefaultFor("DataCollection", "is_local_storage_enabled", defaultLanguage, userId, webserver, contact) == Some("0")
            && DefaultFor("DataCollection", "is_upload_enabled", defaultLanguage, userId, webserver, contact) == Some("1")
            && DefaultFor("DataCollection", "is_email_enabled", defaultLanguage, userId, webserver, contact) == Some("0")
  {
  }

  /** By default it is a first run, for the generated user, in the default
      language, with the given server and contact addresses. */
  lemma IdentityDefaults(defaultLanguage: string, userId: string, webserver: string, contact: string)
    ensures DefaultFor("General", "is_first_run", defaultLanguage, userId, webserver, contact) == Some("1")
            && DefaultFor("General", "current_user", defaultLanguage, userId, webserver, contact) == Some(userId)
            && DefaultFor(LanguageSection, LanguageCode, defaultLanguage, userId, webserver, contact) == Some(defaultLanguage)
            && DefaultFor("DataCollection", "webserver", defaultLanguage, userId, webserver, contact) == Some(webserver)
            && DefaultFor("CircleTask", "email_recipient", defaultLanguage, userId, webserver, contact) == Some(contact)
  {
  }

  /** `set_configdefaults_user`: the current user gets the alias "Standard"
      unless it has one. `config.get` raises when the user option is
      missing. */
  function SetConfigDefaultsUser(c: Config): Option<Config>
  {
    match Lookup(c, "General", "current_user")
    case None => None
    case Some(userId) => Some(SetDefaults(c, "UserData", map[userId := "Standard"]))
  }

  /** After `build_config` the user option is there, so the deferred alias
      step succeeds and the user has an alias. */
  lemma UserAliasAfterBuild(c: Config, defaultLanguage: string, userId: string, webserver: string, contact: string)
    ensures var b := BuildConfig(c, defaultLanguage, userId, webserver, contact);
            var u := Lookup(b, "General", "current_user");
            u.Some? && SetConfigDefaultsUser(b).Some?
            && Lookup(SetConfigDefaultsUser(b).value, "UserData", u.value).Some?
  {
    var b := BuildConfig(c, defaultLanguage, userId, webserver, contact);
    BuildConfigLookup(c, defaultLanguage, userId, webserver, contact, "General", "current_user");
    var u := Lookup(b, "General", "current_user");
    SetDefaultsSpec(b, "UserData", map[u.value := "Standard"], "UserData", u.value);
  }

  class NeuroPsyResearchApp {
    var config: Config
    /** The language the translations currently use. */
    var language: string
    /** Whether the screen manager holds a 'Settings' screen. */
    var hasSettingsScreen: bool
    /** How often the settings panel was destroyed and opened again. */
    var settingsRebuilds: nat

    constructor (config: Config, language: string, hasSettingsScreen: bool)
      ensures this.config == config && this.language == language && this.hasSettingsScreen == hasSettingsScreen
      ensures settingsRebuilds == 0
    {
      this.config := config;
      this.language := language;
      this.hasSettingsScreen := hasSettingsScreen;
      settingsRebuilds := 0;
    }

    /** `on_config_change`: only the language option acts. It switches the
        language, then rebuilds the settings panel; `get_screen` raises
        when there is no 'Settings' screen. */
    method OnConfigChange(section: string, key: string, value: string) returns (raised: bool)
      modifies this`language, this`settingsRebuilds
      ensures raised <==> section == LanguageSection && key == LanguageCode && !hasSettingsScreen
      ensures language == if section == LanguageSection && key == LanguageCode then value else old(language)
      ensures settingsRebuilds
              == old(settingsRebuilds) + (if section == LanguageSection && key == LanguageCode && hasSettingsScreen
                                          then 1 else 0)
    {
      raised := false;
      if section == LanguageSection && key == LanguageCode {
        language := value;
        if !hasSettingsScreen {
          raised := true;
          return;
        }
        settingsRebuilds := settingsRebuilds + 1;
      }
    }

    /** `update_language_from_config` */
    method UpdateLanguageFromConfig() returns (raised: bool)
      modifies this`language
      ensures raised <==> Lookup(config, LanguageSection, LanguageCode).None?
      ensures !raised ==> language == Lookup(config, LanguageSection, LanguageCode).value
      ensures raised ==> language == old(language)
    {
      var l := Lookup(config, LanguageSection, LanguageCode);
      if l.None? {
        return true;
      }
      language := l.value;
      return false;
    }
  }
}
