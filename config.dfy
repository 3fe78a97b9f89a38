/** The startup configuration check: the three required settings, the
    message naming the missing ones, and the HOST/PORT defaults. Reading the
    environment and the `.env` file is left to the caller, which passes each
    setting as `None` (unset) or `Some(value)`. */
module Config {
  import opened Wrappers
  import opened PyStr

  const SupabaseUrl := "SUPABASE_URL"
  const SupabaseKey := "SUPABASE_KEY"
  const GroqApiKey := "GROQ_API_KEY"

  const DefaultHost := "0.0.0.0"
  const DefaultPort := 8000

  /** Python truthiness of an `os.getenv` result: set and non-empty. */
  predicate Present(v: Option<string>) {
    v.Some? && v.value != ""
  }

  /** The required settings, as the ordered name/value pairs of
      `required_vars`. */
  function RequiredVars(url: Option<string>, key: Option<string>, groq: Option<string>): seq<(string, Option<string>)> {
    [(SupabaseUrl, url), (SupabaseKey, key), (GroqApiKey, groq)]
  }

  /** The names whose values are not present, in the order given. */
  function Missing(vars: seq<(string, Option<string>)>): (r: seq<string>)
    ensures |r| <= |vars|
  {
    if vars == [] then []
    else (if Present(vars[0].1) then [] else [vars[0].0]) + Missing(vars[1..])
  }

  /** `validate_config()`: `Success(true)` when all three settings are
      present, otherwise the ValueError message listing the missing names. */
  function ValidateConfig(url: Option<string>, key: Option<string>, groq: Option<string>): (r: Result<bool, string>)
    ensures r.Success? <==> Present(url) && Present(key) && Present(groq)
    ensures r.Success? ==> r.value
    ensures r.Failure? ==>
      r.error == "Missing required environment variables: "
                 + Join(Missing(RequiredVars(url, key, groq)), ", ")
                 + "\nPlease check your .env file."
  {
    var missing := Missing(RequiredVars(url, key, groq));
    MissingOfRequired(url, key, groq);
    if missing != [] then
      Failure("Missing required environment variables: " + Join(missing, ", ") + "\nPlease check your .env file.")
    else
      Success(true)
  }

  /** A name is reported missing exactly when some pair with that name has
      a value that is not present. */
  lemma {:induction false} MissingNames(vars: seq<(string, Option<string>)>, name: string)
    ensures name in Missing(vars) <==> exists i :: 0 <= i < |vars| && vars[i].0 == name && !Present(vars[i].1)
  {
    if vars != [] {
      MissingNames(vars[1..], name);
      if exists i :: 1 <= i < |vars| && vars[i].0 == name && !Present(vars[i].1) {
        var i :| 1 <= i < |vars| && vars[i].0 == name && !Present(vars[i].1);
        assert vars[1..][i - 1] == vars[i];
      }
      if exists i :: 0 <= i < |vars[1..]| && vars[1..][i].0 == name && !Present(vars[1..][i].1) {
        var i :| 0 <= i < |vars[1..]| && vars[1..][i].0 == name && !Present(vars[1..][i].1);
        assert vars[i + 1] == vars[1..][i];
      }
    }
  }

  /** The message lists exactly the missing names, in the fixed order URL,
      KEY, GROQ. */
  lemma {:induction false} MissingOfRequired(url: Option<string>, key: Option<string>, groq: Option<string>)
    ensures Missing(RequiredVars(url, key, groq))
         == (if Present(url) then [] else [SupabaseUrl])
          + (if Present(key) then [] else [SupabaseKey])
          + (if Present(groq) then [] else [GroqApiKey])
  {
    var vars := RequiredVars(url, key, groq);
    var tail := [(GroqApiKey, groq)];
    assert vars[1..][1..] == tail && tail[1..] == [];
    assert Missing(tail) == if Present(groq) then [] else [GroqApiKey];
  }

  /** `HOST`: the setting when it is set (even to ""), otherwise "0.0.0.0". */
  function Host(setting: Option<string>): (r: string)
    ensures setting.None? ==> r == DefaultHost
    ensures setting.Some? ==> r == setting.value
  {
    setting.GetOr(DefaultHost)
  }

  /** `PORT`: 8000 when unset, otherwise `int(...)` of the setting, which
      fails with the parser's message on text that is not an integer. */
  function Port(setting: Option<string>, parseInt: string -> Result<int, string>): (r: Result<int, string>)
    ensures setting.None? ==> r == Success(DefaultPort)
    ensures setting.Some? ==> r == parseInt(setting.value)
  {
    match setting
    case None => Success(DefaultPort)
    case Some(s) => parseInt(s)
  }
}
