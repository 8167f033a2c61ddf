/** The dependency checklist of admin/check_dependencies.py: whether a
    command-line tool is found (`check_command`), whether a Python package
    imports (`check_python_package`), and the exit code of `main`.
    `shutil.which` and `importlib.import_module` are oracles: `which(cmd)`
    is the path of the command if it is on PATH, `imports(pkg)` says
    whether importing the package succeeds. */
module CheckDependencies {
  import opened Wrappers
  import opened Lists
  import Config

  type Which = string -> Option<string>

  datatype Level = Success | Error | Warning | Info

  /** One call of the logger. */
  datatype LogLine = LogLine(level: Level, text: string)

  /** INSTALL_INSTRUCTIONS */
  const InstallInstructions: seq<(string, string)> := [
    ("node", "Install using Node Version Manager (nvm). See environment.yaml for details."),
    ("npm", "Install using Node Version Manager (nvm). See environment.yaml for details."),
    ("sass", "Install globally via npm: npm install -g sass"),
    ("allure", "Install using Scoop, Chocolatey, or Homebrew. See environment.yaml for details."),
    ("java", "Install OpenJDK. It is required by Allure. See environment.yaml for details."),
    ("eza", "Optional. Install using Scoop, Chocolatey, or Homebrew for a better tree view.")
  ]

  /** `check_command(cmd, name, is_critical)`: the verdict and what it
      logs. */
  function CheckCommand(cmd: string, name: string, isCritical: bool, which: Which): (bool, seq<LogLine>) {
    Checked(name, isCritical, which(cmd), Lookup(InstallInstructions, cmd))
  }

  /** The branches of `check_command` once the command has been looked up
      on PATH (`found`) and in INSTALL_INSTRUCTIONS (`hint`). */
  function Checked(name: string, isCritical: bool, found: Option<string>, hint: Option<string>): (bool, seq<LogLine>) {
    match found
    case Some(path) => (true, [LogLine(Success, name + ": Found (" + path + ")")])
    case None =>
      if isCritical then
        (false, [LogLine(Error, name + ": NOT FOUND")]
                + match hint
                  case Some(h) => [LogLine(Warning, "  \U{21AA} How to fix: " + h)]
                  case None => [])
      else (true, [LogLine(Info, name + ": Not found (optional)")])
  }

  /** A found command passes whether critical or optional; a missing one
      fails iff it is critical. */
  lemma CheckCommandVerdict(cmd: string, name: string, isCritical: bool, which: Which)
    ensures CheckCommand(cmd, name, isCritical, which).0 <==> which(cmd).Some? || !isCritical
  {
  }

  /** The first log line of `check_command` reports the outcome: success
      with the path found, an error for a missing critical command, or a
      note for a missing optional one; only the fix hint may follow it. */
  lemma CheckCommandLog(cmd: string, name: string, isCritical: bool, which: Which)
    ensures var log := CheckCommand(cmd, name, isCritical, which).1;
      1 <= |log| <= 2 && (|log| == 2 ==> which(cmd).None? && isCritical)
    ensures var log := CheckCommand(cmd, name, isCritical, which).1;
      (log[0].level == Success <==> which(cmd).Some?) &&
      (log[0].level == Error <==> which(cmd).None? && isCritical) &&
      (log[0].level == Info <==> which(cmd).None? && !isCritical)
    ensures which(cmd).Some? ==>
      CheckCommand(cmd, name, isCritical, which).1[0].text == name + ": Found (" + which(cmd).value + ")"
  {
  }

  /** A fix is suggested only for a missing critical command that has an
      install instruction, and it is that instruction. */
  lemma InstallHint(cmd: string, name: string, isCritical: bool, which: Which)
    ensures var log := CheckCommand(cmd, name, isCritical, which).1;
      (exists i :: 0 <= i < |log| && log[i].level == Warning) <==>
        which(cmd).None? && isCritical && cmd in Keys(InstallInstructions)
    ensures var log := CheckCommand(cmd, name, isCritical, which).1;
      forall i :: 0 <= i < |log| && log[i].level == Warning ==>
        Lookup(InstallInstructions, cmd).Some? &&
        log[i].text == "  \U{21AA} How to fix: " + Lookup(InstallInstructions, cmd).value
  {
    HintLine(name, isCritical, which(cmd), Lookup(InstallInstructions, cmd));
  }

  lemma HintLine(name: string, isCritical: bool, found: Option<string>, hint: Option<string>)
    ensures var log := Checked(name, isCritical, found, hint).1;
      (exists i :: 0 <= i < |log| && log[i].level == Warning) <==> found.None? && isCritical && hint.Some?
    ensures var log := Checked(name, isCritical, found, hint).1;
      forall i :: 0 <= i < |log| && log[i].level == Warning ==>
        hint.Some? && log[i].text == "  \U{21AA} How to fix: " + hint.value
  {
    var log := Checked(name, isCritical, found, hint).1;
    if found.None? && isCritical && hint.Some? {
      assert log[1].level == Warning;
    }
  }

  /** `check_python_package(pkg)`: the verdict and what it logs. */
  function CheckPythonPackage(pkg: string, imports: string -> bool): (r: (bool, LogLine))
    ensures r.0 == imports(pkg)
    ensures r.1.level == (if imports(pkg) then Success else Error)
  {
    if imports(pkg) then (true, LogLine(Success, "Python package '" + pkg + "': Installed"))
    else (false, LogLine(Error, "Python package '" + pkg + "': NOT INSTALLED"))
  }

  /** The lines logged by the package checks, one per package, in order. */
  function PackageLog(packages: seq<string>, imports: string -> bool): (log: seq<LogLine>)
    ensures |log| == |packages|
  {
    seq(|packages|, i requires 0 <= i < |packages| => CheckPythonPackage(packages[i], imports).1)
  }

  /** The loop over the packages: every package is tried, whatever failed
      before. */
  method CheckPackages(packages: seq<string>, imports: string -> bool) returns (allImport: bool, log: seq<LogLine>)
    ensures allImport <==> forall i :: 0 <= i < |packages| ==> imports(packages[i])
    ensures log == PackageLog(packages, imports)
  {
    allImport := true;
    log := [];
    for i := 0 to |packages|
      invariant allImport <==> forall j :: 0 <= j < i ==> imports(packages[j])
      invariant log == PackageLog(packages[..i], imports)
    {
      var r := CheckPythonPackage(packages[i], imports);
      log := log + [r.1];
      if !r.0 {
        allImport := false;
      }
    }
    assert packages[..|packages|] == packages;
  }

  /** What the command checks of `main` log, in order: the four critical
      commands, then the three optional ones. */
  function CommandLog(which: Which): seq<LogLine> {
    CheckCommand("node", "Node.js", true, which).1
    + CheckCommand("npm", "npm", true, which).1
    + CheckCommand("allure", "Allure CLI", true, which).1
    + CheckCommand("java", "Java", true, which).1
    + CheckCommand("nvm", "nvm", false, which).1
    + CheckCommand("sass", "Sass CLI", false, which).1
    + CheckCommand("eza", "eza (for tree view)", false, which).1
  }

  /** The command checks of `main`, one after the other: the verdict is
      false as soon as a critical command is missing, and the optional
      tools are checked and logged but their verdicts dropped. */
  method CheckCommands(which: Which) returns (success: bool, log: seq<LogLine>)
    ensures success <==> which("node").Some? && which("npm").Some? && which("allure").Some? && which("java").Some?
    ensures log == CommandLog(which)
  {
    success := true;
    var r := CheckCommand("node", "Node.js", true, which);
    log := r.1;
    if !r.0 { success := false; }
    r := CheckCommand("npm", "npm", true, which);
    log := log + r.1;
    if !r.0 { success := false; }
    r := CheckCommand("allure", "Allure CLI", true, which);
    log := log + r.1;
    if !r.0 { success := false; }
    r := CheckCommand("java", "Java", true, which);
    log := log + r.1;
    if !r.0 { success := false; }
    r := CheckCommand("nvm", "nvm", false, which);
    log := log + r.1;
    r := CheckCommand("sass", "Sass CLI", false, which);
    log := log + r.1;
    r := CheckCommand("eza", "eza (for tree view)", false, which);
    log := log + r.1;
  }

  /** `main()`: the exit code and the log. Every check runs and logs
      whatever failed before it, and only the four critical commands and the
      packages decide the code. */
  method CheckAll(which: Which, imports: string -> bool) returns (code: int, log: seq<LogLine>)
    ensures code == 0 <==>
      which("node").Some? && which("npm").Some? && which("allure").Some? && which("java").Some? &&
      forall i :: 0 <= i < |Config.PythonPackages| ==> imports(Config.PythonPackages[i])
    ensures code == 0 || code == 1
    ensures log == [LogLine(Info, "=== System Dependency Checks ===")] + CommandLog(which)
      + [LogLine(Info, "\n=== Python Package Checks ===")] + PackageLog(Config.PythonPackages, imports)
  {
    var success, commandLog := CheckCommands(which);
    var allImport, packageLog := CheckPackages(Config.PythonPackages, imports);
    if !allImport {
      success := false;
    }
    log := [LogLine(Info, "=== System Dependency Checks ===")] + commandLog
      + [LogLine(Info, "\n=== Python Package Checks ===")] + packageLog;
    code := if success then 0 else 1;
  }
}
