/** Feature flags read from `REACT_APP_*` environment variables. */
module Flags {
  import opened Seqs
  import opened Strings

  /** `readBool`: an unset variable gives the default; a set one is true only for
      "true" or "yes" in any letter case, or exactly "1". */
  function ReadBool(envVar: Option<string>, defaultValue: bool): (r: bool)
    ensures envVar.None? ==> r == defaultValue
    ensures envVar.Some? ==>
      (r <==> Lower(envVar.value) == "true" || envVar.value == "1" || Lower(envVar.value) == "yes")
  {
    if envVar.None? then defaultValue
    else Lower(envVar.value) == "true" || envVar.value == "1" || Lower(envVar.value) == "yes"
  }

  /** A set variable never falls back to the default. */
  lemma SetIgnoresDefault(s: string)
    ensures ReadBool(Some(s), true) == ReadBool(Some(s), false)
  {
  }

  /** Letter case does not matter for "true" and "yes". */
  lemma AcceptedSpellings()
    ensures ReadBool(Some("TRUE"), false) && ReadBool(Some("Yes"), false) && ReadBool(Some("1"), false)
  {
    assert Lower("TRUE") == "true";
    assert Lower("Yes") == "yes";
  }

  /** Anything else is false, surrounding white space included. */
  lemma RejectedSpellings(d: bool)
    ensures !ReadBool(Some(""), d) && !ReadBool(Some("false"), d) && !ReadBool(Some("0"), d)
    ensures !ReadBool(Some(" true"), d)
  {
    assert |Lower("")| == 0;
    assert |Lower("false")| == 5;
    assert |Lower(" true")| == 5;
    assert Lower("0") == "0";
  }

  /** A "1" with anything around it is not a "1". */
  lemma OnlyExactOne(s: string, d: bool)
    requires |s| != 1 && |s| != 3 && |s| != 4
    ensures !ReadBool(Some(s), d)
  {
  }

  /** The process environment, as the variables the build sets. */
  type Env = map<string, string>

  function Lookup(env: Env, name: string): Option<string> {
    if name in env then Some(env[name]) else None
  }

  datatype ConnectorFlags = ConnectorFlags(
    instagramEnable: bool, tiktokEnable: bool, youtubeEnable: bool,
    spotifyEnable: bool, snapchatEnable: bool)

  datatype AppFlags = AppFlags(brandviewMvp: bool, connectors: ConnectorFlags, mockModeDefault: bool)

  /** `flags` */
  function FlagsFrom(env: Env): (f: AppFlags)
    ensures f.brandviewMvp == ReadBool(Lookup(env, "REACT_APP_BRANDVIEW_MVP"), false)
    ensures f.mockModeDefault == ReadBool(Lookup(env, "REACT_APP_BRANDVIEW_MOCK_MODE"), true)
    ensures f.connectors.instagramEnable == ReadBool(Lookup(env, "REACT_APP_INSTAGRAM_ENABLE"), true)
    ensures f.connectors.tiktokEnable == ReadBool(Lookup(env, "REACT_APP_TIKTOK_ENABLE"), true)
    ensures f.connectors.youtubeEnable == ReadBool(Lookup(env, "REACT_APP_YOUTUBE_ENABLE"), true)
    ensures f.connectors.spotifyEnable == ReadBool(Lookup(env, "REACT_APP_SPOTIFY_ENABLE"), true)
    ensures f.connectors.snapchatEnable == ReadBool(Lookup(env, "REACT_APP_SNAPCHAT_ENABLE"), false)
  {
    AppFlags(
      ReadBool(Lookup(env, "REACT_APP_BRANDVIEW_MVP"), false),
      ConnectorFlags(
        ReadBool(Lookup(env, "REACT_APP_INSTAGRAM_ENABLE"), true),
        ReadBool(Lookup(env, "REACT_APP_TIKTOK_ENABLE"), true),
        ReadBool(Lookup(env, "REACT_APP_YOUTUBE_ENABLE"), true),
        ReadBool(Lookup(env, "REACT_APP_SPOTIFY_ENABLE"), true),
        ReadBool(Lookup(env, "REACT_APP_SNAPCHAT_ENABLE"), false)),
      ReadBool(Lookup(env, "REACT_APP_BRANDVIEW_MOCK_MODE"), true))
  }

  /** With nothing set: BrandView and Snapchat off, the other connectors and mock
      mode on. */
  lemma EmptyEnvironment()
    ensures FlagsFrom(map[]) == AppFlags(false, ConnectorFlags(true, true, true, true, false), true)
  {
  }

  /** Setting one variable leaves every other name's lookup alone. */
  lemma OtherName(env: Env, v: string, n: string)
    requires n != "REACT_APP_BRANDVIEW_MVP"
    ensures Lookup(env["REACT_APP_BRANDVIEW_MVP" := v], n) == Lookup(env, n)
  {
  }

  /** Each variable drives its own flag only. */
  lemma MvpFlagIndependent(env: Env, v: string)
    ensures var f, g := FlagsFrom(env), FlagsFrom(env["REACT_APP_BRANDVIEW_MVP" := v]);
      g.connectors == f.connectors && g.mockModeDefault == f.mockModeDefault
  {
    OtherName(env, v, "REACT_APP_INSTAGRAM_ENABLE");
    OtherName(env, v, "REACT_APP_TIKTOK_ENABLE");
    OtherName(env, v, "REACT_APP_YOUTUBE_ENABLE");
    OtherName(env, v, "REACT_APP_SPOTIFY_ENABLE");
    OtherName(env, v, "REACT_APP_SNAPCHAT_ENABLE");
    OtherName(env, v, "REACT_APP_BRANDVIEW_MOCK_MODE");
  }
}
