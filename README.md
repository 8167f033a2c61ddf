# JennAI administration core in Dafny

JennAI is a Python project scaffold with a set of administration scripts
(the `admin/` console), a pytest configuration that selects tests by
"scope", and an AI data-collection service that fills a prompt template.
This project models, one Dafny module per source file:

- `config.dfy` (`Config`): the configuration constants, the `require_role`
  decorator and the mode flags read from the environment.
- `validation.dfy` (`Validation`): the validator base class and the role validator.
- `test_scopes.dfy` (`TestScopes`): the scope table of `conftest.py`, the
  per-item scope test and the collection hook, which narrows pytest's item list.
  The item list is modelled as a class whose field is updated in place.
- `prompt_template.dfy` (`PromptTemplate`): `DataCollectService`'s
  placeholder substitution, with a correctness theorem for well-formed
  templates, plus the repository-info and prepare flow.
- `dependencies.dfy` (`Dependencies`): the conda, pip and external-tool
  tables of `admin/show_dependencies.py`.
- `check_apps.dfy` (`CheckApps`): the presentation app status checks.
- `tree.dfy` (`Tree`): the pure-Python directory tree printer, with glob
  matching, a stable sort, line counting and the listing errors that end
  the printout.
- `check_logs.dfy` (`CheckLogs`): the log scanner.
- `show_env.dfy`, `check_env_vars.dfy`, `show_config.dfy`,
  `check_dependencies.dfy`: the environment, configuration and dependency
  reports.
- `test_runner.dfy` (`TestRunner`): the pytest command builder, the test
  sequence and the full lifecycle regression of `admin/42.py`.

Three shared modules hold what the Python builtins provide:

- `wrappers.dfy`: `Option`, and `Outcome`, which is a value or a raised exception.
- `pystr.dfy`: `in`, `find`, `split`, `join`, `replace`, `strip`, ASCII case
  mapping, and `int` to `str`.
- `lists.dfy`: filtering and dictionary items.

Everything the scripts get from the outside world is a parameter of the model:

- the file system: a set of existing paths, or a file's lines as an `Option`;
- the environment: a `map`;
- `shutil.which`: a function to an `Option`;
- `importlib`: a predicate on module names;
- `re.search`: a predicate on a pattern and a line;
- the outcome of each subprocess: a predicate on its call number.

What the scripts print through `rich` is modelled as the rows they add,
without styling. Of the `loguru` messages, only those a member's row below
names are modelled.

## Model

| member | source | states |
|---|---|---|
| Config.CallGuarded | config/config.py:95-111 | a function wrapped by `require_role` raises ValueError on every call when the role is not one of ROLES, and otherwise returns exactly what the function returns |
| Config.InvalidRoleAlwaysRaises | config/config.py:104-109 | with an unknown role the outcome does not depend on the wrapped function or its arguments, and it is always an exception |
| Config.AppKeysListed | config/config.py:71-77 | the presentation app keys are console, flask, angular, react and vue, in definition order |
| Config.EnvFlagMeaning | config/config.py:116-120 | a mode flag is on iff the variable is set and its lower-cased value is "true", "1" or "t"; "TRUE" and "T" turn it on, "yes" does not |
| Config.ReadModes | config/config.py:116-120 | each of the five mode flags is read from its own environment variable |
| Config.ModesDefaultOff | config/config.py:116-120 | with an empty environment every mode is off |
| Config.RolesPresentationOrder | config/config.py:139-199 | ROLES_PRESENTATION lists the seven persona keys in definition order |
| Validation.Validate | src/validation/base.py:15-23 | `validate` passes on the result of `_validate` unchanged, and turns an exception from it into a ValidationError with the same message |
| Validation.ValidateRoleInner | src/validation/base.py:36-39 | `_validate` returns True iff the role is valid, and otherwise raises ValueError |
| Validation.ValidateRoleMeaning | src/validation/base.py:15-39 | the role validator returns True exactly for a valid role, never returns False, and raises ValidationError for any other role |
| TestScopes.BuildDynamicScopes | conftest.py:56-114 | the scope table is the static and persona scopes with one `<PLATFORM>_PRESENTATION` scope added per platform |
| TestScopes.PlatformNameIsNew | conftest.py:98-112 | no platform scope name collides with a static or persona scope name |
| TestScopes.AddPlatformsKeeps | conftest.py:103-112 | the platform loop adds only platform scope names and leaves every existing entry as it was |
| TestScopes.AddPlatformsSets | conftest.py:103-112 | a platform whose scope name no later platform shares keeps its primary test file and extras as its whitelist |
| TestScopes.AppScopeNamesDistinct | conftest.py:103-104 | the configured presentation apps get pairwise different scope names |
| TestScopes.ScopesTable | conftest.py:56-117 | SCOPES keeps every static and persona scope and has each configured app's scope with that app's paths |
| TestScopes.FlaskExtras | conftest.py:91-111 | each platform's whitelist begins with its `test_<platform>_app.py`, and only flask has an extra file |
| TestScopes.BaseName | conftest.py:145 | `Path(p).name` has no "/", is a suffix of the path, and is preceded by "/" when shorter than it |
| TestScopes.PathCheck | conftest.py:130-177 | an item under none of a non-empty whitelist's prefixes is out of scope; with no whitelist every ordinary scope accepts the item |
| TestScopes.PersonaScopes | conftest.py:147-174 | among the items that pass the path check, OBSERVER, PERSONA_CRITIQUES and REGRESSION_FULL_LIFECYCLE accept exactly the four persona test files and every file whose name contains "test_constructor_" |
| TestScopes.Partition | conftest.py:210-218 | the selection loop returns the selected items and the deselected items, each in collection order |
| TestScopes.SelectionPartition | conftest.py:210-218 | selected and deselected together are a permutation of the items; an item is selected iff the hook accepts it; both lists split over concatenation |
| TestScopes.CollectionModifyItems | conftest.py:191-223 | the item list is replaced by the selected items when something was deselected, and is left alone otherwise |
| PromptTemplate.LastValue | src/business/ai/data_collect_service.py:105-108 | the value a key gets from the context is absent iff every entry for the key is None; otherwise it is the key's last non-None entry, with only None entries for the key after it |
| PromptTemplate.MergedMeaning | src/business/ai/data_collect_service.py:94-108 | after the override loop a key holds its last non-None context value, and otherwise its default |
| PromptTemplate.MergeContext | src/business/ai/data_collect_service.py:105-108 | the override loop computes the merged placeholder values |
| PromptTemplate.PlaceholderValue | src/business/ai/data_collect_service.py:94-120 | each placeholder is replaced by its last present context value, else its default, else "<key> not found or empty." |
| PromptTemplate.CloseAt | src/business/ai/data_collect_service.py:115 | the lazy match ends at the first "}}" before any line break |
| PromptTemplate.FindAll | src/business/ai/data_collect_service.py:115 | no placeholder name found by `re.findall` holds a line break |
| PromptTemplate.Distinct | src/business/ai/data_collect_service.py:115 | the set of names holds each found name exactly once |
| PromptTemplate.NoOpenNoPlaceholder | src/business/ai/data_collect_service.py:115 | a template without "{{" has no placeholders |
| PromptTemplate.FindAllRender | src/business/ai/data_collect_service.py:115 | in a well-formed template the scan finds exactly the placeholders, in order |
| PromptTemplate.PopulatePromptTemplate | src/business/ai/data_collect_service.py:86-124 | the method returns the template with its distinct placeholders substituted one after the other |
| PromptTemplate.PlainTemplateUnchanged | src/business/ai/data_collect_service.py:112-124 | a template without placeholders comes back unchanged |
| PromptTemplate.ReplaceRender | src/business/ai/data_collect_service.py:121 | one `str.replace` on a well-formed template replaces exactly the placeholders of that name |
| PromptTemplate.SubstituteRender | src/business/ai/data_collect_service.py:117-121 | the replace loop over clean names fills exactly the placeholders it names |
| PromptTemplate.PopulateAnyOrder | src/business/ai/data_collect_service.py:115-121 | whatever order the placeholder names are processed in, the result is the template with every placeholder replaced by its value |
| PromptTemplate.PopulateCorrect | src/business/ai/data_collect_service.py:86-124 | the populated prompt of a well-formed template is that template with every placeholder replaced by its value |
| PromptTemplate.DefaultsNoBrace | src/business/ai/data_collect_service.py:94-101 | no default placeholder text holds "{" |
| PromptTemplate.MergedNoBrace | src/business/ai/data_collect_service.py:94-108 | if no context value holds "{", no merged value does |
| PromptTemplate.CollectRepositoryInfo | src/business/ai/data_collect_service.py:54-69 | the repository info is None iff the collector raised or reported an invalid-path error, and otherwise is the collected data |
| PromptTemplate.OtherErrorsPassed | src/business/ai/data_collect_service.py:62-66 | an error entry that does not mention an invalid path is passed on as data |
| PromptTemplate.TemplateContext | src/business/ai/data_collect_service.py:157-159 | the system information is added to the context only when it is present and non-empty |
| PromptTemplate.PrepareAnalysisDataAndPrompt | src/business/ai/data_collect_service.py:138-167 | the flow gives None iff the repository info is missing or empty or the template is missing or empty; otherwise it gives the system info, the repository data and the populated prompt |
| Dependencies.CondaSpecs | admin/show_dependencies.py:46-49 | a spec is in the conda list iff it is a string item of `dependencies` |
| Dependencies.CollectDependencies | admin/show_dependencies.py:46-54 | the collection loop gives the string items as conda entries and the contents of every `pip` list as pip entries, in order |
| Dependencies.ClassifyConda | admin/show_dependencies.py:62-75 | "::" gives the package after it and "from <channel>"; otherwise "=" splits the package (with no "=") from the version; otherwise the version is "latest" |
| Dependencies.CondaExamples | admin/show_dependencies.py:62-75 | "x==1" is package "x" with version "=1", and "python" is at "latest" |
| Dependencies.ClassifyPip | admin/show_dependencies.py:86-99 | "-r " gives a requirements file and "-e " an editable entry, each without its prefix; "git+" gives a git repository; anything else is a pip package |
| Dependencies.CondaRows | admin/show_dependencies.py:62-75 | one conda row per entry, in order |
| Dependencies.PipRows | admin/show_dependencies.py:86-99 | one pip row per entry, in order |
| Dependencies.ExternalSection | admin/show_dependencies.py:109-111 | a section is found iff the text holds "dependencies:" and the text before its first occurrence holds "EXTERNAL TOOLS"; the section is exactly that text, which holds no earlier "dependencies:" |
| Dependencies.ToolName | admin/show_dependencies.py:120 | a tool name is stripped and no longer than its line |
| Dependencies.ToolLineParts | admin/show_dependencies.py:119-121 | the line "# - " + n + ":" + d, with no ":" and no "# - " in n, is a tool line named strip(n) and described as strip(d) |
| Dependencies.InterpretKind | admin/show_dependencies.py:116-127 | a line opens a tool iff it starts with "# - " and holds ":"; any other line starting with the command indent carries a command |
| Dependencies.ParseExternalTools | admin/show_dependencies.py:113-129 | the parser's loop computes the tool list of the comment block |
| Dependencies.NoToolBeforeFirst | admin/show_dependencies.py:122-127 | a block without tool lines yields no tools |
| Dependencies.LeadingLinesIgnored | admin/show_dependencies.py:113-129 | lines before the first tool line do not change the tools parsed |
| Dependencies.ToolPerToolLine | admin/show_dependencies.py:116-121 | one tool per tool line |
| Dependencies.ParseKeepsCommands | admin/show_dependencies.py:122-127 | only non-empty commands that do not start with "# " are kept |
| Dependencies.ToolsOfBlock | admin/show_dependencies.py:113-129 | the tools of a block are one per tool line, and every command kept is non-empty and not a comment |
| Dependencies.ParseGrouped | admin/show_dependencies.py:113-129 | parsing on from some tools gives the current tool the kept commands before the next tool line, then one tool per later tool line holding the kept commands up to the tool line after it |
| Dependencies.ToolsOfBlockGrouped | admin/show_dependencies.py:113-129 | the i-th tool of a block holds, in order, exactly the kept commands of the command lines between the i-th tool line and the next; command lines before the first tool line are dropped |
| Dependencies.CommandJoinsTool | admin/show_dependencies.py:122-128 | a kept command right after a tool line is that tool's first command |
| Dependencies.ToolsNamed | admin/show_dependencies.py:117-124 | after the tools already parsed, the i-th new tool carries the name and description of the i-th tool line |
| Dependencies.ToolNamesOfBlock | admin/show_dependencies.py:113-124 | the i-th tool of a block carries the name and description of the block's i-th tool line, and there are no other tools |
| Dependencies.SampleCommand | admin/show_dependencies.py:140-141 | the sample command is the first command, or "See documentation" |
| Dependencies.ToolRows | admin/show_dependencies.py:138-144 | one tool row per tool, with its name, description and sample command |
| Dependencies.ShowDependencies | admin/show_dependencies.py:28-164 | a missing file and a load error are reported as such; otherwise the conda, pip and tool rows and the two totals are those of the file |
| CheckApps.FindKeyFiles | admin/check_apps.py:81-85 | the found files are the key files present below the app directory, in order |
| CheckApps.CheckAppStatus | admin/check_apps.py:30-97 | the status built step by step is the app's status |
| CheckApps.StatusIdentity | admin/check_apps.py:20-54 | only the five platforms have a path; an unconfigured key is named "Unknown-<key>" with the capitalised key as its display name |
| CheckApps.StatusWithoutDirectory | admin/check_apps.py:56-64 | no path gives no_path_defined and a missing directory gives not_scaffolded, each with nothing found; the directory exists iff the path does |
| CheckApps.StatusHealth | admin/check_apps.py:66-95 | the files listed are the key files present, in order; healthy iff all are present, partial iff some but not all, empty iff a non-empty list has none |
| CheckApps.PassesMeaning | admin/check_apps.py:204 | an app passes its test iff its directory exists and holds some key file, or its key-file list is empty |
| CheckApps.CheckAllApps | admin/check_apps.py:99-104 | one status per configured app, keyed and ordered as PRESENTATION_APPS |
| CheckApps.NoFailingApps | admin/check_apps.py:160-177 | no app is reported as failing iff every app passes |
| CheckApps.FailingTable | admin/check_apps.py:166-169 | the failing entries of the status table are those of the failing apps, in order |
| CheckApps.TestEach | admin/check_apps.py:166-177 | every app is tested even after a failure; the run passes iff none failed |
| CheckApps.TestAppStatus | admin/check_apps.py:152-218 | with a key, one app's verdict; without one, the run passes iff every app passes, and the failing apps are the ones warned about |
| Tree.GlobLiteral | admin/tree.py:62 | a pattern without wildcards matches only the name itself |
| Tree.GlobStarSuffix | admin/tree.py:62 | "*" followed by a literal matches exactly the names ending with it |
| Tree.DefaultIgnores | admin/tree.py:19-34 | the default list hides exactly its twelve names and every name ending in ".pyc" or ".zip" |
| Tree.KeepEntries | admin/tree.py:60-64 | the filtering loop keeps, in order, the entries no pattern matches |
| Tree.KeptEntries | admin/tree.py:60-64 | an entry survives iff it is listed and no pattern matches its name |
| Tree.LexTotal | admin/tree.py:66 | string comparison is total |
| Tree.SortEntries | admin/tree.py:66 | the sort returns a permutation of the entries |
| Tree.SortSorted | admin/tree.py:66 | directories come before files, each group ordered by lower-cased name |
| Tree.SortStable | admin/tree.py:66 | entries with equal keys keep their listing order |
| Tree.Pointers | admin/tree.py:71 | every entry gets "├── " except the last, which gets "└── " |
| Tree.Listed | admin/tree.py:58-66 | the entries printed are exactly the entries of the directory that no pattern matches |
| Tree.PrintBasicTree | admin/tree.py:48-76 | `print_basic_tree` with the module's ignore list by default: it raises iff some shown directory cannot be listed for a reason other than being gone, every line starts with the prefix, and a printout that completes has one line per shown entry at every depth |
| Tree.TreeLinesPrefix | admin/tree.py:71-76 | every printed line starts with the prefix it was given |
| Tree.NothingPrinted | admin/tree.py:58-76 | a directory prints nothing iff it is gone, cannot be listed, or every entry is ignored |
| Tree.TreeLinesRaise | admin/tree.py:58-76 | the printout ends in an exception iff the directory, or a shown directory below it, cannot be listed for a reason other than being gone (only `FileNotFoundError` is caught) |
| Tree.UnreadableStopsSiblings | admin/tree.py:67-76 | for any directory of two entries whose first, in sorted order, is a subdirectory that cannot be listed: the printout is that subdirectory's "├── a/" line alone, and it ends in the exception, so the sibling is never printed |
| Tree.TreeLinesCount | admin/tree.py:50-76 | a printout that runs to the end has one line per shown entry at every depth |
| CheckLogs.FirstMatch | admin/check_logs.py:35-39 | the pattern loop finds a match iff some pattern occurs in the line |
| CheckLogs.HitsMeaning | admin/check_logs.py:34-46 | the matching line numbers are increasing and run from 1 to the line count, and a line is counted iff some pattern occurs in it |
| CheckLogs.EntriesOfHits | admin/check_logs.py:37 | for every hit j: the hit is a line number of the file, and entry j is "L<n>: " followed by that line, stripped |
| CheckLogs.SummaryShape | admin/check_logs.py:48-60 | the summary lists at most the first ten entries, then a "...and N more" line when there are more than ten |
| CheckLogs.ScanLines | admin/check_logs.py:33-46 | the loop collects the error entries and the warning entries of the file |
| CheckLogs.ParseLogFile | admin/check_logs.py:18-65 | a missing file gives (False, 0, 0, [], []) and an error; otherwise the counts and entries are those of the lines, and the verdict is "no errors" |
| CheckLogs.NoWarningPatterns | admin/check_logs.py:41-46 | without warning patterns no warning is counted |
| ShowEnv.Discarded | admin/show_env.py:38 | a line is dropped iff it is blank or its stripped form starts with "#" |
| ShowEnv.RowMeaning | admin/show_env.py:43-50 | the variable is the stripped line up to its first "="; its value is masked iff the upper-cased name holds KEY, SECRET, TOKEN or PASSWORD, and is the rest of the line otherwise |
| ShowEnv.EnvRowsOrder | admin/show_env.py:42-50 | one row per retained line holding "=", in file order |
| ShowEnv.AddRows | admin/show_env.py:42-50 | the loop adds the rows of the retained lines |
| ShowEnv.ShowEnvFile | admin/show_env.py:30-52 | a missing file gives the not-found row; otherwise an empty notice when nothing is retained, then the rows |
| ShowEnv.EmptyNoticeIff | admin/show_env.py:39-40 | the notice appears iff every line is blank or a comment |
| CheckEnvVars.StatusOf | admin/check_env_vars.py:35-41 | a variable shows Set iff it is defined and non-empty, and never shows its value |
| CheckEnvVars.CheckVars | admin/check_env_vars.py:33-48 | one row per required variable; the warning and code 1 iff some variable is unset or empty |
| CheckEnvVars.CheckRequired | admin/check_env_vars.py:19-48 | GOOGLE_API_KEY is the only row, and the code is 0 iff it is set and non-empty |
| ShowConfig.Bullets | admin/show_config.py:40 | one "• <item>" per item, in order |
| ShowConfig.BulletLines | admin/show_config.py:39-42 | a list value shows one bullet line per item |
| ShowConfig.ConfigRowsOrder | admin/show_config.py:34-43 | exactly the public upper-case names appear, in `dir()` order, each with its rendered value |
| ShowConfig.ShowConfiguration | admin/show_config.py:19-44 | the loop adds the configuration rows |
| ShowConfig.PrivateUpperHidden | admin/show_config.py:36 | "_X" passes `isupper()` yet is hidden by the underscore test |
| CheckDependencies.CheckCommandVerdict | admin/check_dependencies.py:27-41 | a command check passes iff the command is found or it is optional |
| CheckDependencies.CheckCommandLog | admin/check_dependencies.py:27-41 | `check_command` logs one outcome line (success with the path found, an error for a missing critical command, a note for a missing optional one), followed at most by the fix hint of a missing critical command |
| CheckDependencies.InstallHint | admin/check_dependencies.py:33-38 | a fix hint is logged iff a critical command is missing and has install instructions |
| CheckDependencies.CheckPythonPackage | admin/check_dependencies.py:43-51 | a package check passes iff the module imports, and logs a success or an error accordingly |
| CheckDependencies.CheckPackages | admin/check_dependencies.py:66-68 | every package is tried; the result holds iff every package imports |
| CheckDependencies.CheckCommands | admin/check_dependencies.py:55-63 | only node, npm, allure and java decide the verdict; the optional tools are checked and logged too |
| CheckDependencies.CheckAll | admin/check_dependencies.py:53-70 | the exit code is 0 iff the four critical commands are found and every package imports, and 1 otherwise |
| TestRunner.TargetArgIff | admin/42.py:87-88 | a target is passed as a quoted file iff it holds ".py", and as `--scope=<target>` otherwise |
| TestRunner.BuildPytestCommand | admin/42.py:85-95 | the command starts with the base command; without allure it is exactly that; with allure the base command is followed by `--alluredir="<results dir>"`, and the command ends with `--clean-alluredir` iff a clean run was asked for |
| TestRunner.FlagsDetermined | admin/42.py:89-95 | the command determines whether allure was requested and, if it was, whether it cleans the results |
| TestRunner.TestStepsShape | admin/42.py:99-109 | a regression starts with the two cleanup steps, the context step comes next, then the tests, then the optional report |
| TestRunner.FirstFailure | admin/42.py:112-121 | the calls before the first failure all succeeded, and the call at that position failed |
| TestRunner.RunSteps | admin/42.py:111-124 | the loop succeeds iff every step succeeds, and runs the steps up to and including the first failure |
| TestRunner.RunTestSequence | admin/42.py:97-129 | a test sequence succeeds iff every step does, and performs exactly the steps up to the first failure |
| TestRunner.RunsInOrder | admin/42.py:112-124 | the commands run are those of the steps, once each, in order |
| TestRunner.SequenceLogged | admin/42.py:114-124 | when every step before the last succeeded, cleanup commands run with file logging off and all others with it on, and logging is left off iff the last step is a failed cleanup |
| TestRunner.TestSequenceLogging | admin/42.py:111-124 | in any test sequence every command runs with the right logging state |
| TestRunner.StageCommands | admin/42.py:158-162 | one command per lifecycle stage |
| TestRunner.CleanOnFirstStageOnly | admin/42.py:161-162 | the allure results are cleaned on the first stage only, and only when a report is served |
| TestRunner.RunUntilFailure | admin/42.py:151-166 | the loop succeeds iff no command fails, and runs the commands up to the first failure |
| TestRunner.RunLifecycle | admin/42.py:131-174 | a failing setup step ends the run before any stage; the stages stop at the first failure; the report is served only after every stage passed |

## Left out

- `core/dependency_container.py`: its methods are placeholders without behaviour, so the model has no container.
- Terminal output: `rich` tables, colours and markup, and headers printed with `print_header`, are not modelled. The model keeps the rows and values they show.
- Log messages are not modelled unless a row of "## Model" names them. The model keeps the log of `main` in admin/check_dependencies.py, the summaries and the "Log file not found" message of admin/check_logs.py, and the list of failing apps of admin/check_apps.py. It drops the closing verdict of admin/check_dependencies.py:75-78, the "Directory not found" error of admin/tree.py:68 and the outcome messages of admin/42.py:120, 127-129 and 164.
- Subprocesses, `shutil.which`, `importlib.import_module`, `re.search`, file reads, `load_dotenv` and the system profiler are parameters, not code.
- `eza` in admin/tree.py (`run_eza_tree`, `main`) is not modelled; the pure-Python fallback is.
- The interactive menus of admin/42.py are not modelled. Only the command builder, the test sequence and the lifecycle regression are.
- Tree.PrintBasicTree: a symbolic link to an enclosing directory makes the source recurse without bound, because `is_dir()` follows links. Entries are a finite tree of values, so the model has no cycles. An exception is modelled as the `raised` flag, without its type or message.
- CheckLogs.ParseLogFile: a log file that exists but cannot be opened or decoded (a directory, no permission, bytes that are not UTF-8) raises out of `parse_log_file`, uncaught. The model takes the file's lines or `None` for a missing file, so it does not represent that error path.
- ShowEnv.ShowEnvFile: an env file that exists but cannot be opened or decoded raises out of `show_env_file`, uncaught. The model does not represent that error path, for the same reason.
- Tree.GlobLiteral: `fnmatch` character classes (`[...]`) are not modelled, so a pattern holding "[" is read as literal text. The default ignore list has none.
- Case mapping (`upper`, `lower`, `capitalize`, `isupper`) is ASCII-only.
- Paths are POSIX strings: `os.path.normcase` is the identity, and `Path` objects are joined with "/".
- TestScopes.BaseName: for a path ending in "/" it gives "", while `pathlib` drops the trailing slash first. The paths pytest reports never end in "/".
- ShowConfig.ConfigRowsOrder: `str()` of a non-list value is given as text, and the order of `dir()` is an input.
- Dependencies.ShowDependencies: YAML parsing is not modelled. The parsed `dependencies` list is an input, and a failed load is `None`. Entries are assumed to be strings, or mappings whose "pip" value is a list of strings. A "pip" value that is a string is extended one character at a time, and a pip item that is not a string raises at `startswith` after the conda table has printed, which the outer `except` reports as "Error reading environment.yaml". The model represents neither.
- CheckDependencies.CheckPythonPackage: only `ImportError` is caught. An import that raises any other exception escapes `main`, and the later checks do not run. The model's `imports` predicate has only two outcomes, so it does not represent that path.
- PromptTemplate.PopulatePromptTemplate: the source iterates a Python `set`, whose order is unspecified. The model takes the names in order of first appearance. PopulateAnyOrder proves that for a well-formed template the result does not depend on that order.
- PromptTemplate.PopulateCorrect: correctness is proved for well-formed templates only. In those, text holds no "{", placeholder names hold no braces or line breaks, and context values hold no "{". Outside that class the model computes what the code computes, with no further theorem.
- TestRunner.RunTestSequence: the "abort_on_fail" entry of the context step is never read by the source, and the model has no such field.
- CheckApps.TestAppStatus: the messages printed per app are not modelled. The warning logged for a failing app is modelled as the list of failing platforms.
