/**
 * `LoadProfileAuth`: once `profiles.toml` has been read, it picks a profile
 * (the one named, else the active one) and copies the connection keys the
 * profile sets into an otherwise null provider model.
 */
module Profile {
  import opened Wrappers
  import Provider

  /** A profile: setting name to value. */
  type ProfileSettings = map<string, string>

  /** The decoded file: the active profile's name and the profiles. */
  datatype ProfilesConfig = ProfilesConfig(active: string, profiles: map<string, ProfileSettings>)

  /** The provider-model fields a profile can fill; `None` is null. */
  datatype ProfileAuth = ProfileAuth(endpoint: Option<string>, apiKey: Option<string>,
                                     basicAuthKey: Option<string>, csrfEnabled: Option<bool>)

  /** The empty provider model: every field null. */
  const Empty := ProfileAuth(None, None, None, None)

  const EnvBasicAuthKey := "PREFECT_BASIC_AUTH_KEY"
  const EnvAuthString := "PREFECT_API_AUTH_STRING"
  const EnvCsrfEnabled := "PREFECT_CSRF_ENABLED"
  const DefaultProfilesFile := "/.prefect/profiles.toml"

  /** The file system and the TOML decoder, which are not part of this
      model: whether a path does not exist, and the decoded file or the
      decoder's error. */
  type Missing = string -> bool
  type Decoder = string -> Result<ProfilesConfig>

  function HomeDirError(cause: string): string { "failed to get user home directory: " + cause }
  function ParseError(cause: string): string { "failed to parse profiles.toml: " + cause }
  function ProfileNotFound(name: string): string { "profile '" + name + "' not found in profiles.toml" }
  function ActiveProfileNotFound(name: string): string { "active profile '" + name + "' not found in profiles.toml" }

  /** The keys a profile sets, each copied when present;
      `PREFECT_API_AUTH_STRING` wins over `PREFECT_BASIC_AUTH_KEY`, and CSRF
      is on only for the exact text "true". */
  function AuthOf(profile: ProfileSettings): (r: ProfileAuth)
    ensures r.endpoint.Some? <==> Provider.EnvApiUrl in profile
    ensures r.endpoint.Some? ==> r.endpoint.value == profile[Provider.EnvApiUrl]
    ensures r.apiKey.Some? <==> Provider.EnvApiKey in profile
    ensures r.apiKey.Some? ==> r.apiKey.value == profile[Provider.EnvApiKey]
    ensures r.basicAuthKey.Some? <==> EnvBasicAuthKey in profile || EnvAuthString in profile
    ensures EnvAuthString in profile ==> r.basicAuthKey == Some(profile[EnvAuthString])
    ensures EnvAuthString !in profile && EnvBasicAuthKey in profile ==> r.basicAuthKey == Some(profile[EnvBasicAuthKey])
    ensures r.csrfEnabled.Some? <==> EnvCsrfEnabled in profile
    ensures r.csrfEnabled.Some? ==> (r.csrfEnabled.value <==> profile[EnvCsrfEnabled] == "true")
  {
    ProfileAuth(
      if Provider.EnvApiUrl in profile then Some(profile[Provider.EnvApiUrl]) else None,
      if Provider.EnvApiKey in profile then Some(profile[Provider.EnvApiKey]) else None,
      if EnvAuthString in profile then Some(profile[EnvAuthString])
      else if EnvBasicAuthKey in profile then Some(profile[EnvBasicAuthKey]) else None,
      if EnvCsrfEnabled in profile then Some(profile[EnvCsrfEnabled] == "true") else None)
  }

  /** The profile `LoadProfileAuth` picks from a decoded file: `None` when
      neither a name nor an active profile is given, an error when the
      picked one is not there. */
  function Selected(profileName: string, config: ProfilesConfig): (r: Result<Option<ProfileSettings>>)
    ensures r == Ok(None) <==> profileName == "" && config.active == ""
    ensures r.Ok? && r.value.Some? ==>
      (profileName != "" && profileName in config.profiles && r.value.value == config.profiles[profileName]) ||
      (profileName == "" && config.active in config.profiles && r.value.value == config.profiles[config.active])
    ensures r.Err? <==> (profileName != "" && profileName !in config.profiles) ||
                        (profileName == "" && config.active != "" && config.active !in config.profiles)
    ensures r.Err? && profileName != "" ==> r.message == ProfileNotFound(profileName)
    ensures r.Err? && profileName == "" ==> r.message == ActiveProfileNotFound(config.active)
  {
    var target := if profileName != "" then profileName else config.active;
    if target == "" then Ok(None)
    else if target !in config.profiles then
      Err(if profileName != "" then ProfileNotFound(profileName) else ActiveProfileNotFound(config.active))
    else Ok(Some(config.profiles[target]))
  }

  /** The path of the profiles file: the one given, else the default under
      the home directory. */
  function ProfilesPath(profileFilePath: string, home: Result<string>): Result<string>
  {
    if profileFilePath != "" then Ok(profileFilePath)
    else if home.Err? then Err(HomeDirError(home.message))
    else Ok(home.value + DefaultProfilesFile)
  }

  /** What `LoadProfileAuth` returns. */
  function Loaded(profileName: string, profileFilePath: string, home: Result<string>, missing: Missing,
                  decode: Decoder): Result<ProfileAuth>
  {
    var path := ProfilesPath(profileFilePath, home);
    if path.Err? then Err(path.message)
    else if missing(path.value) then Ok(Empty)
    else
      var config := decode(path.value);
      if config.Err? then Err(ParseError(config.message))
      else
        var selected := Selected(profileName, config.value);
        if selected.Err? then Err(selected.message)
        else if selected.value.None? then Ok(Empty)
        else Ok(AuthOf(selected.value.value))
  }

  /** `LoadProfileAuth`: settle the path, read the file, pick the profile,
      and fill the model key by key. */
  method LoadProfileAuth(profileName: string, profileFilePath: string, home: Result<string>, missing: Missing,
                         decode: Decoder) returns (r: Result<ProfileAuth>)
    ensures r == Loaded(profileName, profileFilePath, home, missing, decode)
  {
    var profilesPath: string;
    if profileFilePath != "" {
      profilesPath := profileFilePath;
    } else {
      if home.Err? {
        return Err(HomeDirError(home.message));
      }
      profilesPath := home.value + DefaultProfilesFile;
    }
    if missing(profilesPath) {
      return Ok(Empty);
    }
    var config := decode(profilesPath);
    if config.Err? {
      return Err(ParseError(config.message));
    }
    var target: string;
    if profileName != "" {
      target := profileName;
    } else if config.value.active != "" {
      target := config.value.active;
    } else {
      return Ok(Empty);
    }
    if target !in config.value.profiles {
      if profileName != "" {
        return Err(ProfileNotFound(profileName));
      }
      return Err(ActiveProfileNotFound(config.value.active));
    }
    var profile := config.value.profiles[target];
    var auth := Empty;
    if Provider.EnvApiUrl in profile {
      auth := auth.(endpoint := Some(profile[Provider.EnvApiUrl]));
    }
    if Provider.EnvApiKey in profile {
      auth := auth.(apiKey := Some(profile[Provider.EnvApiKey]));
    }
    if EnvBasicAuthKey in profile {
      auth := auth.(basicAuthKey := Some(profile[EnvBasicAuthKey]));
    }
    if EnvAuthString in profile {
      auth := auth.(basicAuthKey := Some(profile[EnvAuthString]));
    }
    if EnvCsrfEnabled in profile {
      auth := auth.(csrfEnabled := Some(profile[EnvCsrfEnabled] == "true"));
    }
    return Ok(auth);
  }

  /** A profiles file that does not exist gives the empty model, whatever
      profile was asked for. */
  lemma MissingFileGivesEmpty(profileName: string, profileFilePath: string, home: Result<string>, missing: Missing,
                              decode: Decoder)
    requires ProfilesPath(profileFilePath, home).Ok? && missing(ProfilesPath(profileFilePath, home).value)
    ensures Loaded(profileName, profileFilePath, home, missing, decode) == Ok(Empty)
  {
  }

  /** Once the file is read: a named profile beats the active one, the
      active one is used only without a name, and with neither the model is
      empty; a picked profile that is missing is an error naming it. */
  lemma LoadedFromFile(profileName: string, path: string, missing: Missing, decode: Decoder, home: Result<string>)
    requires path != "" && !missing(path) && decode(path).Ok?
    ensures var config := decode(path).value;
      var r := Loaded(profileName, path, home, missing, decode);
      (profileName != "" && profileName in config.profiles ==> r == Ok(AuthOf(config.profiles[profileName]))) &&
      (profileName == "" && config.active in config.profiles && config.active != "" ==>
        r == Ok(AuthOf(config.profiles[config.active]))) &&
      (profileName == "" && config.active == "" ==> r == Ok(Empty)) &&
      (profileName != "" && profileName !in config.profiles ==> r == Err(ProfileNotFound(profileName))) &&
      (profileName == "" && config.active != "" && config.active !in config.profiles ==>
        r == Err(ActiveProfileNotFound(config.active)))
  {
    var config := decode(path).value;
    var s := Selected(profileName, config);
    if profileName == "" && config.active in config.profiles && config.active != "" {
      assert s == Ok(Some(config.profiles[config.active]));
    }
  }

  /** A profile that sets no connection key gives the empty model; setting
      both basic-auth keys keeps the newer one. */
  lemma AuthOfKeys(profile: ProfileSettings)
    ensures (forall k :: k in profile ==> k !in {Provider.EnvApiUrl, Provider.EnvApiKey, EnvBasicAuthKey, EnvAuthString, EnvCsrfEnabled}) ==>
      AuthOf(profile) == Empty
    ensures EnvAuthString in profile && EnvBasicAuthKey in profile ==> AuthOf(profile).basicAuthKey == Some(profile[EnvAuthString])
  {
  }
}
