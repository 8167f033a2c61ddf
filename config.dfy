/** The pieces of the project configuration (config/config.py) that the
    admin scripts and the test harness compute with: the presentation apps,
    the user roles and the `require_role` guard, the boolean mode flags read
    from the environment, the persona table and the package list. */
module Config {
  import opened Wrappers
  import opened PyStr
  import opened Lists

  const AppName: string := "JennAI"

  /** One entry of PRESENTATION_APPS. */
  datatype AppConfig = AppConfig(name: string, displayName: string)

  /** PRESENTATION_APPS, as its items in definition order. */
  const PresentationApps: seq<(string, AppConfig)> := [
    ("console", AppConfig(AppName + "-console", "Console")),
    ("flask", AppConfig(AppName + "-flask", "Flask")),
    ("angular", AppConfig(AppName + "-angular", "Angular")),
    ("react", AppConfig(AppName + "-react", "React")),
    ("vue", AppConfig(AppName + "-vue", "Vue"))
  ]

  /** The presentation app keys, `PRESENTATION_APPS.keys()`. */
  const PresentationAppKeys: seq<string> := Keys(PresentationApps)

  /** The keys in definition order. */
  lemma AppKeysListed()
    ensures PresentationAppKeys == ["console", "flask", "angular", "react", "vue"]
  {
    var ks := PresentationAppKeys;
    assert |ks| == 5;
    assert ks[0] == "console" && ks[1] == "flask" && ks[2] == "angular";
    assert ks[3] == "react" && ks[4] == "vue";
  }

  /** The keys start with distinct lower-case ASCII letters. */
  lemma AppKeysInitials()
    ensures |PresentationAppKeys| == 5
    ensures forall i :: 0 <= i < 5 ==> PresentationAppKeys[i] != [] && IsAsciiLower(PresentationAppKeys[i][0])
    ensures forall i, j :: 0 <= i < j < 5 ==> PresentationAppKeys[i][0] != PresentationAppKeys[j][0]
  {
    AppKeysListed();
  }

  const Roles: seq<string> := ["SUPER", "ADMIN", "DEVELOPER", "QA", "TESTER", "USER", "VIEWER"]

  /** The function `require_role(role)` returns: it remembers the role and
      checks nothing yet, so decorating with an unknown role succeeds. */
  datatype RoleGuard = RoleGuard(role: string)

  function RequireRole(role: string): RoleGuard {
    RoleGuard(role)
  }

  /** Calling the wrapped function: the role is checked on every call; an
      unknown role raises ValueError, a known one hands the arguments to the
      function and gives back whatever it does. */
  function CallGuarded<A, T>(guard: RoleGuard, func: A -> Outcome<T>, args: A): (r: Outcome<T>)
    ensures guard.role in Roles ==> r == func(args)
    ensures guard.role !in Roles ==> r.Raised? && r.exc.kind == "ValueError"
  {
    if guard.role !in Roles then
      Raised(Exc("ValueError", "Role '" + guard.role + "' is not a valid role. Allowed roles: " + ListRepr(Roles)))
    else func(args)
  }

  /** With an unknown role the call fails the same way whatever the function
      and the arguments: the wrapped function is never reached. */
  lemma InvalidRoleAlwaysRaises<A, T>(role: string, f: A -> Outcome<T>, g: A -> Outcome<T>, x: A, y: A)
    requires role !in Roles
    ensures CallGuarded(RequireRole(role), f, x) == CallGuarded(RequireRole(role), g, y)
    ensures CallGuarded(RequireRole(role), f, x).Raised?
  {
  }

  /** A mode flag: `os.getenv(name, "False").lower() in ('true', '1', 't')`. */
  function EnvFlag(value: Option<string>): bool {
    Lower(value.GetOr("False")) in ["true", "1", "t"]
  }

  /** A flag is set only by a present value that spells "true", "1" or "t"
      in any letter case; an unset variable reads as false. */
  lemma EnvFlagMeaning(value: Option<string>)
    ensures EnvFlag(value) <==> value.Some? && Lower(value.value) in ["true", "1", "t"]
    ensures EnvFlag(Some("TRUE")) && EnvFlag(Some("T")) && !EnvFlag(Some("yes"))
  {
    assert Lower("False") == "false";
    assert Lower("TRUE") == "true";
    assert Lower("T") == "t";
    assert Lower("yes") == "yes";
  }

  /** The five mode flags of the configuration. */
  datatype Modes = Modes(debug: bool, testing: bool, readOnly: bool, liveInference: bool, maintenance: bool)

  function Get(env: map<string, string>, name: string): Option<string> {
    if name in env then Some(env[name]) else None
  }

  function ReadModes(env: map<string, string>): (m: Modes)
    ensures m.debug == EnvFlag(Get(env, "DEBUG_MODE"))
    ensures m.testing == EnvFlag(Get(env, "TESTING_MODE"))
    ensures m.readOnly == EnvFlag(Get(env, "READ_ONLY_MODE"))
    ensures m.liveInference == EnvFlag(Get(env, "LIVE_INFERENCE_MODE"))
    ensures m.maintenance == EnvFlag(Get(env, "MAINTENANCE_MODE"))
  {
    Modes(EnvFlag(Get(env, "DEBUG_MODE")), EnvFlag(Get(env, "TESTING_MODE")),
          EnvFlag(Get(env, "READ_ONLY_MODE")), EnvFlag(Get(env, "LIVE_INFERENCE_MODE")),
          EnvFlag(Get(env, "MAINTENANCE_MODE")))
  }

  /** With no variables set, every mode is off. */
  lemma ModesDefaultOff()
    ensures ReadModes(map[]) == Modes(false, false, false, false, false)
  {
    EnvFlagMeaning(None);
  }

  datatype Persona = Persona(name: string, description: string, responsibilities: seq<string>)

  /** ARCHITECTURAL_PERSONAS, as its items in definition order. */
  const ArchitecturalPersonas: seq<(string, Persona)> := [
    ("ARCHITECT", Persona("Architect", "Designs the foundational blueprints (scaffolding, brand) and delegates execution",
      ["Blueprint design", "System architecture", "Delegation oversight"])),
    ("CONTRACTOR", Persona("Contractor", "Validates, enforces, and creates contracts when requirements are met",
      ["Validation", "Enforcement", "Contract creation"])),
    ("CONSTRUCTOR", Persona("Constructor", "Scaffolds application framework and basic structure",
      ["App scaffolding", "Framework setup", "Basic structure"])),
    ("DESIGNER", Persona("Designer", "Applies brand assets, compiles SCSS, and implements styling",
      ["Brand application", "SCSS compilation", "Asset injection"])),
    ("QA_ENGINEER", Persona("QA Engineer", "Verifies quality and testability of all components",
      ["Quality assurance", "Test verification", "Component testing"])),
    ("OBSERVER", Persona("Observer", "Ensures design matches brand and construction adheres to blueprints",
      ["Design compliance", "Blueprint adherence", "Cross-verification"])),
    ("DATA", Persona("Data", "Manages project database and mock data generation",
      ["Database management", "Mock data", "Data validation"]))
  ]

  /** ROLES_PRESENTATION: the persona keys in definition order. */
  const RolesPresentation: seq<string> := Keys(ArchitecturalPersonas)

  lemma RolesPresentationOrder()
    ensures RolesPresentation == ["ARCHITECT", "CONTRACTOR", "CONSTRUCTOR", "DESIGNER", "QA_ENGINEER", "OBSERVER", "DATA"]
  {
  }

  /** PYTHON_PACKAGES: the modules the dependency check imports. */
  const PythonPackages: seq<string> := [
    "flask", "flask_cors", "flask_assets", "InquirerPy",
    "numpy", "pandas", "requests", "matplotlib", "jupyter", "markdown",
    "pytest", "loguru", "dotenv"
  ]
}
