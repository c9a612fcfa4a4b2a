# grunt-produce template engine, modelled in Dafny

grunt-produce scaffolds a project file from a template. A task target declares
variables, a file-name pattern (or a function that computes the name), a template
(inline text or the path of a file) and an overwrite policy (`block` or `warning`).
The engine gets each variable's value from the command line or from its declared
default, and it can also ask the user. It then validates the values and replaces
the `{{name}}` placeholders in the file name and in every template line. It warns
about placeholders that are left over, applies the overwrite policy and writes the
file. `tasks/create.js` is an older, simpler engine of the same kind. It takes its
parameters from the identity, the version option and the command line, and it
always refuses to overwrite an existing file.

The project has these modules:

- `JsValues` (jsvalues.dfy): the JavaScript values the engine handles (`undefined`
  or a string), truthiness, and what `String.prototype.replace` inserts for such a
  value (`undefined` becomes the text "undefined").
- `Strings` (strings.dfy): `indexOf`, `replace` with a string pattern (first
  occurrence only), `split` and `join`, with their properties.
- `OrderedMaps` (orderedmaps.dfy): a plain JavaScript object as a sequence of
  (name, value) pairs in enumeration order. Assigning to a property keeps its place;
  a new property goes last.
- `Placeholders` (placeholders.dfy): what `expandString` means (`Expanded`), shared by
  both engines, and the matches of `/{{(.*?)}}/g` that `expandTemplate` reports.
- `Produce` (produce.dfy): `lib/ProduceModule.js`. It has specification functions
  for validation, variable preparation, answer merging and option checking, and a
  class `ProduceModule` whose fields are the module's state. Its methods are loops
  proved against those functions.
- `Create` (create.dfy): `tasks/create.js`. The task's module-level
  variables become the fields of a class `CreateTask`, so they persist from one run
  to the next.

External collaborators are parameters of the methods that use them:

- the command line (`grunt.option`): a function from a name to a value;
- the git identity: two strings, empty when the lookup failed;
- whether a file exists, and reading a file: functions;
- `path.join`: a function on the list of path segments;
- the platform: a constructor flag that selects `NEW_LINE`.

The model records each file write in a `writes` field and each log line in a
`log` field. Thrown exceptions and `grunt.fail.fatal` become an `Outcome` /
`TaskOutcome` value. The `Message` functions give the text of each exception.

The model follows the code as written; in particular:

- Only the first occurrence of each `{{name}}` is replaced; later ones are kept
  (`Placeholders.OnlyFirstOccurrence`, `Strings.LaterOccurrenceSurvives`).
- The comparisons `typeof x === null` and `typeof x === ''` can never be true. So
  the required check fires only for an `undefined` value; an empty string passes it.
  An empty command-line value is falsy, so the declared default is used instead
  (`Produce.EmptyCliFallsBack`).
- `_prepareVariables` runs before `_checkOptions`. A setup whose options are
  malformed has therefore already injected `username`/`email`, resolved the
  variables and set `promptUser` when it fails (`Produce.ProduceModule.Setup`).
- Nothing excludes any variable from the questions, and no value is treated as a
  function. Defaults are read from `.default`.
- `validate` walks the variables, not the declarations. A variable with no
  declaration makes the property read on `undefined` throw a `TypeError`; the model
  has the error `Undeclared` for this.

## Model

| member | source | states |
|---|---|---|
| `JsValues.Render` | lib/ProduceModule.js:43 | the text `replace` inserts for a value: the string itself, or "undefined" for `undefined` |
| `JsValues.Or` | lib/ProduceModule.js:158 | JavaScript's logical or on these values: the first operand when it is a non-empty string, otherwise the second |
| `Strings.IndexFrom` | lib/ProduceModule.js:43 | the first index at or after `from` where the pattern occurs, or -1 when there is none |
| `Strings.ReplaceFirst` | lib/ProduceModule.js:43 | `str.replace(pattern, value)` with a string pattern, as also at tasks/create.js:30: the first occurrence of the pattern is replaced by the text and the rest is kept; without an occurrence the string is returned as it is |
| `Strings.ReplaceAtFirst` | lib/ProduceModule.js:43 | `replace` with a string pattern replaces exactly its first occurrence |
| `Strings.ReplaceAbsent` | tasks/create.js:30 | `replace` leaves a string without the pattern unchanged |
| `Strings.LaterOccurrenceSurvives` | tasks/create.js:30 | a second, non-overlapping occurrence is still present after `replace` |
| `Strings.Split` | lib/ProduceModule.js:272-275 | `split` always yields at least one line |
| `Strings.Join` | lib/ProduceModule.js:214 | `template.join(NEW_LINE)`, as also at tasks/create.js:113: the lines with the separator between each pair, no separator after the last, and "" for no lines |
| `Strings.JoinSplit` | lib/ProduceModule.js:272-275 | joining the split lines with the same separator gives back the template text |
| `Strings.SplitPiecesFree` | lib/ProduceModule.js:272-275 | no template line contains the separator it was split on |
| `OrderedMaps.Lookup` | lib/ProduceModule.js:130 | `obj[k]`: the value of the property named k, or `undefined` (`None`) when the object has no such property |
| `OrderedMaps.Set` | lib/ProduceModule.js:158 | `obj[k] = v`, as also at lib/ProduceModule.js:131, 139, 241 and tasks/create.js:44-46, 53: an existing property keeps its place and takes the new value, a new one goes last |
| `OrderedMaps.LookupSet` | lib/ProduceModule.js:158 | after `obj[k] = v`, `obj[k]` is `v` and every other property is unchanged |
| `OrderedMaps.KeysSet` | lib/ProduceModule.js:241 | assignment keeps the existing property order and appends a new name at the end |
| `OrderedMaps.UniqueKeysSet` | lib/ProduceModule.js:131 | assignment never creates a duplicate property name |
| `Placeholders.Placeholder` | lib/ProduceModule.js:43 | the pattern `'{{' + varName + '}}'`, as also at tasks/create.js:30 |
| `Placeholders.Expanded` | lib/ProduceModule.js:38-46 | what `expandString` computes, in both engines: for each (name, text) in enumeration order, the first `{{name}}` of the string as it stands at that point becomes the text |
| `Placeholders.ExpandedUntouched` | lib/ProduceModule.js:38-46 | a string with no `{{name}}` for any variable is returned unchanged |
| `Placeholders.OnlyFirstOccurrence` | lib/ProduceModule.js:43 | one variable replaces only its leading `{{name}}`, and the rest, including later `{{name}}`s, is kept |
| `Placeholders.MatchesFrom` | lib/ProduceModule.js:57 | the global scan of `/{{(.*?)}}/g` from an index: at a `{{`, the lazy `.*?` stops at the first `}}` after it, and a match is reported and the scan resumes after its `}}` when no line terminator (which `.` does not match) lies in between; otherwise the scan moves on by one character |
| `Placeholders.UnusedMatches` | lib/ProduceModule.js:57-59 | `line.match(/{{(.*?)}}/g)`: the scan from the start of the line, with `null` (no match) as the empty sequence, so the `!== null` guard becomes "some match" |
| `Placeholders.CloseFrom` | lib/ProduceModule.js:57 | the first index at or after `k` where `}}` starts, or -1 when there is none |
| `Placeholders.MatchesShape` | lib/ProduceModule.js:57 | each match is `{{`, then text with no line terminator, ending at the first `}}` after the opening, and it occurs in the line |
| `Placeholders.NoOpeningNoMatches` | lib/ProduceModule.js:57-59 | a line without `{{` has no match, so nothing is reported |
| `Placeholders.PlaceholderInLineReported` | lib/ProduceModule.js:57 | a `{{name}}` (name without `}` or line terminators) anywhere in a line lies inside some match of the line: a match that opened earlier runs on to its `}}`, or the scan reaches it and matches it exactly |
| `Placeholders.LeftoverPlaceholderReported` | lib/ProduceModule.js:57-65 | a line that is exactly `{{name}}` (name without `}` or line terminators) has that placeholder as its only match |
| `Produce.LineWarnings` | lib/ProduceModule.js:59-65 | the warnings for one expanded line: one "Found unused variable" per match, in match order, each with the given line number |
| `Produce.TemplateWarnings` | lib/ProduceModule.js:54-69 | the warnings of the whole `forEach` over the lines, in line order, line i's carrying the number i + 1 |
| `Produce.WarningsTagged` | lib/ProduceModule.js:56-65 | each warning names a leftover match of the line whose index + 1 it carries |
| `Produce.EveryMatchWarned` | lib/ProduceModule.js:56-65 | each leftover match of each line gets a warning carrying that line's index + 1 |
| `Produce.LeftoverPlaceholderWarned` | lib/ProduceModule.js:54-65 | a `{{name}}` left in expanded line k gets a warning tagged k + 1 whose match contains it |
| `Produce.Message` | lib/ProduceModule.js:88-206 | the thrown texts: "is required" (line 88), "value is incorrect" (94), the three option errors (170, 174, 178) and "Destination file exists!" (206) |
| `Produce.VarFault` | lib/ProduceModule.js:83-95 | the exception `validate` throws for one variable: `Undeclared` when it has no declaration, "is required" for an undefined value with `required === true`, then "value is incorrect" when the declared predicate rejects the value, else none |
| `Produce.RequiredOnlyWhenUndefined` | lib/ProduceModule.js:83-89 | "is required" fires iff the value is undefined and the declaration says `required: true`; an empty string never fires it |
| `Produce.IncorrectWhenPredicateRejects` | lib/ProduceModule.js:91-95 | "value is incorrect" fires iff the required check did not fire and the declared predicate rejects the value |
| `Produce.Validation` | lib/ProduceModule.js:77-96 | the result of the loop in `validate`: the fault of the first variable in enumeration order that has one, or normal return |
| `Produce.ValidationPasses` | lib/ProduceModule.js:77-96 | `validate` returns normally iff no variable has a fault |
| `Produce.ValidationFirstFault` | lib/ProduceModule.js:77-96 | the fault of the first faulty variable, in enumeration order, is what is thrown |
| `Produce.ValidationFaultHasCause` | lib/ProduceModule.js:77-96 | whatever is thrown is the fault of a variable all of whose predecessors passed |
| `Produce.WithDefault` | lib/ProduceModule.js:130-144 | one injected declaration: `{default: value}` when it was undeclared, otherwise the declaration with only `.default` replaced |
| `Produce.InjectIdentity` | lib/ProduceModule.js:130-144 | the declarations after the first half of `_prepareVariables`: `username` and `email` get the identity as `.default`, created as `{default: ...}` when undeclared |
| `Produce.InjectIdentityLookup` | lib/ProduceModule.js:130-144 | `username`/`email` are declared with the identity as `.default`; their other fields and every other declaration are kept |
| `Produce.InjectIdentityKeys` | lib/ProduceModule.js:130-144 | existing declarations keep their order, `username` and `email` are present, at most two are appended, no name is duplicated |
| `Produce.Resolved` | lib/ProduceModule.js:146-160 | the variables after the loop over the declarations: each declared name, in declaration order, is assigned its command-line value when that is truthy and its `.default` otherwise (`JsValues.Or`) |
| `Produce.CliHits` | lib/ProduceModule.js:152-156 | the counter `_variablesCount`: the number of declared names whose command-line value is truthy |
| `Produce.ResolvedLookup` | lib/ProduceModule.js:146-160 | each declared variable gets its command-line value if that is truthy and its `.default` otherwise; others keep their value |
| `Produce.ResolvedKeys` | lib/ProduceModule.js:146-160 | from an empty object, the variables have exactly the declared names in declaration order |
| `Produce.CliHitsPositive` | lib/ProduceModule.js:152-161 | the counter is non-zero iff some declared variable has a truthy command-line value |
| `Produce.IdentityResolved` | lib/ProduceModule.js:130-160 | `username`/`email` end up holding their truthy command-line value, or else the git identity |
| `Produce.EmptyCliFallsBack` | lib/ProduceModule.js:153-158 | an empty command-line value gives the default; a required variable with an undefined default then fails, one with an empty default does not |
| `Produce.Merged` | lib/ProduceModule.js:239-242 | the variables after the answer callback: each answer, in order, assigned to the variable of its name |
| `Produce.MergedLookup` | lib/ProduceModule.js:239-242 | answered names take the answer; all other variables are unchanged |
| `Produce.MergedKeys` | lib/ProduceModule.js:239-242 | answers for existing names keep the variable order |
| `Produce.AcceptingDefaultsChangesNothing` | lib/ProduceModule.js:111-115 | answering every question with its offered default leaves the variables unchanged |
| `Produce.CheckOptions` | lib/ProduceModule.js:167-180 | passes iff fileName is a string or function, template is a string, and fileOverwrite is "block" or "warning"; otherwise the first failing check, in that order, is reported |
| `Produce.BaseFileName` | lib/ProduceModule.js:191-193 | the file name before expansion: the `fileName` function's result on the variables when it is a function, otherwise the string itself |
| `Produce.ProduceModule.constructor` | lib/ProduceModule.js:13-30 | empty options, variables, template and destination; `NEW_LINE` is "\r\n" on Windows and "\n" elsewhere |
| `Produce.ProduceModule.ExpandString` | lib/ProduceModule.js:38-46 | the result is `Expanded` over the variables in order: the first `{{name}}` of each is replaced by the value's text |
| `Produce.ProduceModule.ExpandTemplate` | lib/ProduceModule.js:51-70 | the line count is kept, line i becomes `expandString` of old line i, and the log grows by one warning per leftover match, tagged with line i + 1 |
| `Produce.ProduceModule.ExpandLine` | lib/ProduceModule.js:56-68 | line `idx` becomes `expandString` of itself, no other line changes, and the log grows by that line's warnings tagged `idx` + 1 |
| `Produce.ProduceModule.ReportUnused` | lib/ProduceModule.js:57-66 | the log grows by one warning per leftover match of the line, in match order, each tagged with the given line number |
| `Produce.ProduceModule.Validate` | lib/ProduceModule.js:75-97 | returns the outcome of `Validation`: the first variable's fault, or normal return |
| `Produce.ProduceModule.GetQuestions` | lib/ProduceModule.js:102-119 | one question per variable, in order, with name = message = variable name and default = its current value |
| `Produce.ProduceModule.MergeAnswers` | lib/ProduceModule.js:238-242 | the variables become the old ones with every answer assigned |
| `Produce.ProduceModule.InjectIdentityDefaults` | lib/ProduceModule.js:130-144 | the declarations become `InjectIdentity` of the old ones with the configured identity; every other option is kept |
| `Produce.ProduceModule.PrepareVariables` | lib/ProduceModule.js:125-162 | declarations get the identity injection, variables are resolved, and the result is true iff some command-line value was truthy |
| `Produce.ProduceModule.Setup` | lib/ProduceModule.js:255-278 | identity recorded; variables prepared before the option check; `promptUser` iff no command-line hit; on success the template is the file's lines (split on `NEW_LINE`) or the inline text's lines (split on "\n") |
| `Produce.ProduceModule.LoadTemplate` | lib/ProduceModule.js:270-276 | the template is the named file's text split on `NEW_LINE` when that file exists, and otherwise the option's own text split on "\n" |
| `Produce.ProduceModule.SaveFile` | lib/ProduceModule.js:185-216 | a validation error changes nothing; otherwise: file name resolved and expanded, template expanded; an existing destination throws under `block` with no write, is logged under `warning`; the write happens once with the lines joined by `NEW_LINE` |
| `Produce.ProduceModule.WriteChecked` | lib/ProduceModule.js:190-215 | for validated variables: file name resolved and expanded, template expanded with its warnings logged, then `block` refuses an existing destination with no write, `warning` logs it, and otherwise one write of the joined lines follows |
| `Produce.ProduceModule.ResolveDestination` | lib/ProduceModule.js:190-198 | the file name (the `fileName` function's result when it is one) is expanded, stored back as the pattern and joined into the destination path |
| `Produce.ProduceModule.Store` | lib/ProduceModule.js:203-215 | an existing destination under `block` fails with nothing logged or written; otherwise the overwrite warning (only existing and `warning`), one write of the lines joined by `NEW_LINE`, and the saved message |
| `Create.MergeOptions` | tasks/create.js:79-85 | `this.options({...})`: each option is the task's value when set and otherwise the default given at these lines |
| `Create.DefaultsApplied` | tasks/create.js:79-85 | unset options default to fileName `{{name}}.ts`, version `0.1.0`, cwd "" and the git identity; a set fileName, version, cwd, username or email wins |
| `Create.Message` | tasks/create.js:89-107 | the fatal texts: "Template doesn't exists!" (line 89) and "Destination file exists!" (107), each with the path in brackets |
| `Create.BaseFileName` | tasks/create.js:98-100 | the file name before expansion: `fileNameResolve(parameters)` when that is a function, otherwise `fileName` |
| `Create.CliText` | tasks/create.js:53 | the command-line value of a listed name when that is truthy, otherwise the empty string |
| `Create.BaseParameters` | tasks/create.js:44-46 | `username`, `email` and `version` are assigned the options' values, in that order, over what the parameters held |
| `Create.Listed` | tasks/create.js:48-55 | the `forEach` over `options.params`: each listed name, in order, is assigned its `CliText` |
| `Create.ListedLookup` | tasks/create.js:48-55 | each listed name holds its command-line value, or '' when that is falsy; unlisted names keep their value |
| `Create.PreparedParameters` | tasks/create.js:41-57 | `prepareParameters`: the base assignments, then the listed names when `params` is an array |
| `Create.PreparedLookup` | tasks/create.js:41-57 | after `prepareParameters`, listed names override `username`/`email`/`version`, which otherwise hold the options' values; other parameters keep what an earlier run left |
| `Create.CreateTask.constructor` | tasks/create.js:19-25 | the module-level state starts empty |
| `Create.CreateTask.ExpandString` | tasks/create.js:28-33 | the result is `Expanded` over the parameters in order: the first `{{p}}` of each is replaced |
| `Create.CreateTask.ExpandTemplate` | tasks/create.js:35-39 | the line count is kept and line i becomes `expandString` of old line i |
| `Create.CreateTask.PrepareParameters` | tasks/create.js:41-57 | the parameters become `PreparedParameters` of the old ones, the options and the command line |
| `Create.CreateTask.Run` | tasks/create.js:76-115 | a missing template is fatal; otherwise parameters are prepared, `fileNameResolve` replaces the file name before expansion, an existing destination is fatal before any write and before the template is expanded, and otherwise the expanded template is written once |
| `Create.CreateTask.ResolveDestination` | tasks/create.js:98-103 | the file name (`fileNameResolve`'s result when that is a function) is expanded, stored back and joined to `cwd` |
| `Create.CreateTask.Generate` | tasks/create.js:96-114 | parameters prepared, file name resolved; an existing destination is fatal with template, log and writes untouched; otherwise the template is expanded and written once |
| `Create.CreateTask.Write` | tasks/create.js:113-114 | one write of the lines joined by `NEW_LINE` to the destination, and one log line naming it |

## Left out

- Reading `user.name` / `user.email` from git (`_getGitConfig` with shell `exec`; `grunt.util.spawn` with `eachAsync` in tasks/create.js) is process I/O. The results are input strings, empty when the lookup failed.
- The inquirer prompt, `this.async()` and the completion callbacks are UI and asynchronous signalling. Only the question list and the merge of the returned answers are modelled.
- `grunt.file.exists`, `read` and `write`, and `path.join` are foreign calls. They are oracle parameters, and each write is recorded in `writes`.
- Detecting the platform from `process.platform` is environment input. It is the constructor flag `onWindows`.
- The `validator` library passed as the custom predicate's second argument is an unseen library. A predicate is a function of the value alone.
- `$` patterns in replacement text, and function-valued replacement values, are JavaScript `replace` quirks and are not modelled. Values are `undefined` or strings only: numbers, booleans (such as `grunt.option` for a bare `--flag`) and objects are not represented.
- A JavaScript object lists integer-like property names first, in ascending order. The model keeps every name in insertion order.
- `options.variables` missing or not an object is not modelled: the `TypeError` at line 130 and the `kindOf` guard at line 146. Declarations are always records. The `hasOwnProperty` filters skip nothing, since plain objects have no inherited enumerable properties.
- Options that are neither a string nor missing are lumped together: `template`/`fileOverwrite` as `Undefined`, `fileName` as `NameOther`. `required` is kept only as "is exactly `true`".
- Exceptions thrown by a user's `validate`, `fileName` or `fileNameResolve` function, and such functions returning non-strings, are not modelled. These functions are total.
- Log lines are structured entries (`LogEntry`, or the saved path in tasks/create.js), not formatted text. `Message` for `Undeclared` gives a descriptive text, not the engine's own `TypeError` message.
- `grunt.fail.fatal` ends the process. The model returns `Fatal`/`Fail`, with the state as it was when the failure happened.
- tasks/produce.js is left out: it only registers the task, guards against a missing target, routes exceptions to `grunt.fail.fatal` and branches on `promptUser`. Gruntfile.js is sample configuration.
- tasks/create.js options are taken to be set strings, and `template` is always set. An unset `template` would reach `grunt.file.exists(undefined)` at line 88, whose `path.join` throws a `TypeError` before the fatal at line 89; that case is not modelled.
