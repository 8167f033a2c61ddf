/** The required-variable check of admin/check_env_vars.py (`main`): one
    status row per required variable, a warning and exit code 1 when any
    is missing. The process environment is given as a map from names to
    values. */
module CheckEnvVars {
  import opened Wrappers
  import Config

  /** REQUIRED_VARS */
  const RequiredVars: seq<string> := ["GOOGLE_API_KEY"]

  const SetLabel: string := "[green]\U{2705} Set[/green]"

  const MissingLabel: string := "[red]\U{274C} MISSING[/red]"

  const MissingWarning: string :=
    "[yellow]Warning: One or more required environment variables are not set. This may cause errors.[/yellow]"

  /** `if value:` on the result of `os.getenv`: an unset variable and an
      empty one both count as missing. */
  predicate IsSet(value: Option<string>) {
    value.Some? && value.value != ""
  }

  /** The status shown for a variable: whether it is set, never its value. */
  function StatusOf(env: map<string, string>, name: string): (status: string)
    ensures status == SetLabel || status == MissingLabel
    ensures status == SetLabel <==> name in env && env[name] != ""
  {
    if IsSet(Config.Get(env, name)) then SetLabel else MissingLabel
  }

  /** The loop of `main` over `required`: the table rows, the warning when
      printed, and the exit code. */
  method CheckVars(env: map<string, string>, required: seq<string>)
    returns (rows: seq<(string, string)>, warning: Option<string>, code: int)
    ensures |rows| == |required|
    ensures forall i :: 0 <= i < |required| ==> rows[i] == (required[i], StatusOf(env, required[i]))
    ensures (forall i :: 0 <= i < |required| ==> IsSet(Config.Get(env, required[i]))) ==>
      code == 0 && warning == None
    ensures (exists i :: 0 <= i < |required| && !IsSet(Config.Get(env, required[i]))) ==>
      code == 1 && warning == Some(MissingWarning)
  {
    rows := [];
    var allFound := true;
    for i := 0 to |required|
      invariant |rows| == i
      invariant forall j :: 0 <= j < i ==> rows[j] == (required[j], StatusOf(env, required[j]))
      invariant allFound <==> forall j :: 0 <= j < i ==> IsSet(Config.Get(env, required[j]))
    {
      var name := required[i];
      var value := Config.Get(env, name);
      var status;
      if value.Some? && value.value != "" {
        status := SetLabel;
      } else {
        status := MissingLabel;
        allFound := false;
      }
      rows := rows + [(name, status)];
    }
    if !allFound {
      return rows, Some(MissingWarning), 1;
    }
    return rows, None, 0;
  }

  /** `main()` with the project's required variables. */
  method CheckRequired(env: map<string, string>) returns (rows: seq<(string, string)>, warning: Option<string>, code: int)
    ensures |rows| == 1 && rows[0] == ("GOOGLE_API_KEY", StatusOf(env, "GOOGLE_API_KEY"))
    ensures code == 0 <==> "GOOGLE_API_KEY" in env && env["GOOGLE_API_KEY"] != ""
    ensures code == 1 <==> warning == Some(MissingWarning)
  {
    rows, warning, code := CheckVars(env, RequiredVars);
    if !IsSet(Config.Get(env, "GOOGLE_API_KEY")) {
      assert !IsSet(Config.Get(env, RequiredVars[0]));
    }
  }
}
