/** The testnet logger of lib/utils/logger/log.go: the level chosen from
    the `DEBUG_TESTNET` environment variable, initialised once. */
module TestnetLogger {
  import opened Wrappers
  import opened Text

  datatype Level = Panic | Error | Warn | Debug
  datatype Output = Discard | Stdout

  datatype Settings = Settings(output: Output, level: Level)

  /** Logging is off unless `DEBUG_TESTNET` is set. */
  const Silent: Settings := Settings(Discard, Panic)

  /** The settings `InitializeTestnetLogger` picks for the value of
      `DEBUG_TESTNET` (`None` when unset).  Go does not tell an unset
      variable from an empty one. */
  function Choose(env: Option<string>): (s: Settings)
    ensures (env.None? || env.value == "") <==> s == Silent
    ensures s.output == Stdout <==> (env.Some? && env.value != "")
    ensures env.Some? && env.value != "" ==>
              (s.level == Warn <==> ToLower(env.value) == "warn")
              && (s.level == Error <==> ToLower(env.value) == "error")
              && (s.level == Debug <==> ToLower(env.value) != "warn" && ToLower(env.value) != "error")
  {
    if env.None? || env.value == "" then Silent
    else
      var lowered := ToLower(env.value);
      Settings(Stdout,
               if lowered == "debug" then Debug
               else if lowered == "warn" then Warn
               else if lowered == "error" then Error
               else Debug)
  }

  /** Lower-casing a lowered rune changes nothing. */
  lemma LowerRuneIdempotent(c: char)
    ensures LowerRune(LowerRune(c)) == LowerRune(c)
  {
  }

  /** The value is matched without regard to case: lowering it first
      chooses the same settings. */
  lemma {:induction false} CaseInsensitive(value: string)
    ensures Choose(Some(ToLower(value))) == Choose(Some(value))
  {
    var l := ToLower(value);
    forall i | 0 <= i < |value| ensures ToLower(l)[i] == l[i] {
      LowerRuneIdempotent(value[i]);
    }
    assert ToLower(l) == l;
  }

  /** Upper-case spellings select the levels their lower-case names do. */
  lemma UpperCaseNames()
    ensures Choose(Some("WARN")).level == Warn
    ensures Choose(Some("Error")).level == Error
    ensures Choose(Some("DEBUG")).level == Debug
  {
    assert ToLower("WARN") == "warn";
    assert ToLower("Error") == "error";
  }

  /** The package-level logger: absent until the first initialisation. */
  datatype State = Uninitialised | Ready(settings: Settings)

  /** `InitializeTestnetLogger`: the body runs once; later calls, with
      whatever environment, leave the logger as it is. */
  function Initialize(st: State, env: Option<string>): (st': State)
    ensures st'.Ready?
    ensures st.Ready? ==> st' == st
    ensures st.Uninitialised? ==> st'.settings == Choose(env)
  {
    if st.Ready? then st else Ready(Choose(env))
  }

  /** `GetTestnetLogger`: initialises on first use and returns the
      logger. */
  function GetTestnetLogger(st: State, env: Option<string>): (r: (State, Settings))
    ensures r.0.Ready? && r.1 == r.0.settings
    ensures st.Ready? ==> r.0 == st
  {
    var st' := if st.Uninitialised? then Initialize(st, env) else st;
    (st', st'.settings)
  }

  /** Only the environment at the first initialisation matters: however
      often the logger is fetched afterwards, it keeps those settings. */
  lemma {:induction false} FirstEnvironmentWins(first: Option<string>, later: seq<Option<string>>)
    ensures FetchAll(Initialize(Uninitialised, first), later) == Initialize(Uninitialised, first)
    decreases |later|
  {
    if |later| > 0 {
      FirstEnvironmentWins(first, later[1..]);
    }
  }

  /** The state after fetching the logger once per environment in `envs`. */
  function FetchAll(st: State, envs: seq<Option<string>>): State
    decreases |envs|
  {
    if |envs| == 0 then st else FetchAll(GetTestnetLogger(st, envs[0]).0, envs[1..])
  }
}
