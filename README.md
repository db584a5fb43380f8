# Template registry of an Angular file generator

This project models the core of the template registry of an editor extension
that generates Angular source files: class `FileContents` in
`src/file-contents.ts`. The registry

- loads the built-in templates, overrides them by name with the project's own
  templates when `defaults.templates.path` is configured, compiles every merged
  template against one fixed list of 16 parameter names, and stores the
  compiled templates in its table `templatesMap` (`loadTemplates`);
- renders a template by name: it derives the 16 argument values from the
  configuration, the subject's name and the caller's extra parameters, applies
  the stored template to them, and yields `""` for a name it does not know
  (`getTemplateContent`).

Files and modules:

- `js_values.dfy`, module `JsValues`: the JavaScript values the configuration
  holds, truthiness, `x || y`, and how a value reads inside a template literal.
- `config.dfy`, module `Configuration`: the configuration fields the registry
  reads (`apps[i].prefix`, `defaults.*`).
- `template_arguments.dfy`, module `TemplateArguments`: the parameter list
  `TEMPLATE_ARGUMENTS`, how its comma-separated spelling reads back as names,
  and the argument vector of a render call.
- `file_contents.dfy`, module `FileContents`: the merge, the compiled table,
  class `FileContents` with `LoadTemplates` and `GetTemplateContent`, and the
  lemmas about a load.

External collaborators are parameters: the template compiler
(`express-es6-template-engine`) is `compile: (string, seq<string>) -> Template`,
the upper-casing helper of `./formatting` is `upper: string -> string`, and a
compiled `Template` is an arbitrary function from the argument vector to text.
The two directory reads are the maps `builtin` and `project` (file name to
text) that `LoadTemplates` receives; `project` is consulted only when a
templates path is configured.

Three facts about the code shape the model:

- the table is never cleared: a load adds or overwrites entries and keeps
  every other name (`LoadNeverRemoves`);
- the directive selector applies the `toUpperCase` helper to the name;
- with a templates path configured and no workspace folder open, the code
  throws on the workspace lookup; that lookup is not part of this model (see
  below).

## Model

| member | source | states |
|---|---|---|
| JsValues.Or | src/file-contents.ts:56-63 | the JavaScript logical or of `x` and `y` yields `x` when it is truthy and `y` otherwise; the result is truthy when at least one operand is, and falsy otherwise |
| JsValues.ToJsString | src/file-contents.ts:58-59 | inside a template literal a string reads as itself and an absent value as "undefined" |
| TemplateArguments.SplitJoinNames | src/file-contents.ts:13 | any non-empty list of parameter names, joined by ", ", reads back as the same names in the same order |
| TemplateArguments.SpelledTemplateArguments | src/file-contents.ts:13 | the parameter list written as one ", "-separated string reads back as exactly the 16 names of TEMPLATE_ARGUMENTS, in order |
| TemplateArguments.TemplateArgumentsDistinct | src/file-contents.ts:13 | no two positions of the signature carry the same name, so binding by name is unambiguous |
| TemplateArguments.CmpPrefix | src/file-contents.ts:55-56 | the component prefix is the configured one when truthy, else the first application's prefix |
| TemplateArguments.DirPrefix | src/file-contents.ts:55-57 | the directive prefix is the configured one when truthy, else the first application's prefix |
| TemplateArguments.ArgumentFor | src/file-contents.ts:55-80 | the value a template sees under each of the 16 names: the name and the extra parameters pass through, the component selector and routing scope are never falsy, and routing is false whenever it is falsy |
| TemplateArguments.ArgumentVector | src/file-contents.ts:65-80 | the vector has 16 values and the value at position i is the one bound to the i-th name of TEMPLATE_ARGUMENTS |
| TemplateArguments.PrefixFallbacks | src/file-contents.ts:55-57 | positions 3 and 4 hold the configured component and directive prefixes when truthy, else `apps[0].prefix` |
| TemplateArguments.SelectorDefaults | src/file-contents.ts:58-59 | a configured selector is used as is; an unset component selector is `<cmpPrefix>-<inputName>`, an unset directive selector `<dirPrefix><toUpperCase(inputName)>` |
| TemplateArguments.OtherDefaults | src/file-contents.ts:60-63 | style extension falls back to `defaults.styleExt`, routing to false, routing scope to "Child"; the common-module flag passes through unchanged |
| TemplateArguments.PassThroughArguments | src/file-contents.ts:65-80 | position 0 is the name, 1 its upper-cased form, 2 and 7-10 the interface prefix, view encapsulation, change detection, inline-template and inline-style fields verbatim, 15 the extra parameters |
| TemplateArguments.WidgetSelector | src/file-contents.ts:55-58 | with application prefix "app" and no component prefix or selector, rendering "widget" binds the selector "app-widget" |
| Configuration.HasProjectTemplates | src/file-contents.ts:27 | a project directory is used exactly when defaults.templates is present and its path is not undefined, "" or false |
| FileContents.Override | src/file-contents.ts:33-35 | the merged names are the union of both sides; a project text wins, a built-in name the project lacks keeps its text |
| FileContents.Sources | src/file-contents.ts:25-36 | the merged names are the built-in names plus, when a path is configured, the project names; a configured project text wins, otherwise the built-in text is kept |
| FileContents.OverrideEach | src/file-contents.ts:33-35 | writing the project entries one at a time, in any order, into the built-ins yields exactly Override |
| FileContents.CompileAll | src/file-contents.ts:38-39 | every source name gets one compiled entry, compiled from its own text against TEMPLATE_ARGUMENTS |
| FileContents.FileContents.constructor | src/file-contents.ts:18-20 | a new registry has an empty table |
| FileContents.FileContents.LoadTemplates | src/file-contents.ts:22-42 | the new table is the old table with every merged source compiled and added or overwritten (Loaded) |
| FileContents.FileContents.GetTemplateContent | src/file-contents.ts:53-82 | an unknown name renders as ""; a known one renders as its stored template applied to the 16-value argument vector |
| FileContents.ProjectTemplateWins | src/file-contents.ts:27-41 | with a templates path configured, a project name is stored compiled from the project's text |
| FileContents.BuiltinTemplateKept | src/file-contents.ts:25-41 | a built-in name that no configured project template overrides is stored compiled from the built-in text |
| FileContents.NoTemplatesPathSkipsProject | src/file-contents.ts:27-41 | without a truthy templates path only built-in names are compiled and stored, and the project map plays no part |
| FileContents.LoadNeverRemoves | src/file-contents.ts:38-41 | a load keeps every earlier name, and a name it does not load keeps its earlier compiled template |
| FileContents.LoadedNames | src/file-contents.ts:25-41 | the names after a load are the earlier names, the built-in names and, when a path is configured, the project names |
| FileContents.LoadedEntriesCompiled | src/file-contents.ts:38-40 | every merged source name is stored compiled from its merged text against TEMPLATE_ARGUMENTS, whatever the earlier table held |
| FileContents.LoadIdempotent | src/file-contents.ts:22-42 | loading a second time with the same inputs leaves the table of the first load unchanged |
| FileContents.OverrideExample | src/file-contents.ts:33-35 | built-ins {A: x, B: y} with project templates {B: z, C: w} merge to {A: x, B: z, C: w} |

## Left out

- Reading the template directories (`getTemplates`, the promisified `fs` calls and `Promise.all`): file I/O; its results are the input maps `builtin` and `project`. In the source a failing read (a missing built-in folder at src/file-contents.ts:25, or a configured project folder that does not exist at src/file-contents.ts:32) rejects the load before anything is compiled at src/file-contents.ts:38, leaving `templatesMap` unchanged; in the model `LoadTemplates` always succeeds and always stores.
- Finding the workspace folder, dropping the first character of its path and joining it with the configured path: host editor API and path handling; the project map is simply used when a templates path is configured, and the failure when no workspace folder is open is not modelled.
- The unused local map created at the start of `loadTemplates`: it has no effect.
- The internals of the template compiler and of `toUpperCase`: foreign code, kept as the function parameters `compile` and `upper`.
- Asynchronous sequencing of the loads: nothing here runs concurrently; the model runs the steps in program order.
- Iteration order of JavaScript maps: the model picks entries in an arbitrary order and proves the result does not depend on it.
- Configuration values other than strings, booleans, string arrays and `undefined` (numbers, `null`, nested objects): such values cannot be represented in the model. In the source `null` and `0` are falsy, so the `||` fallbacks at src/file-contents.ts:56-63 take the default for them just as for `undefined`, and the template literals at src/file-contents.ts:58-59 turn them into the text "null" or "0". The template-literal text of a string array is modelled as its items joined by commas.
- What a compiled template yields for a placeholder that is not one of the 16 names of the signature: that is decided by the template compiler and is not modelled; `ArgumentFor` gives `Undefined` for such a name only as filler, and no lemma relies on it.
- The `TemplateType` enumeration: a template is named by its string value.
- The source's failure when `apps` is empty and a prefix must fall back to `apps[0].prefix`: stated as the precondition `PrefixesResolvable` of the argument functions.
- Failures of the template compiler: `compile` is total, so a compiler that throws partway through the compile loop, leaving the table partly updated with the entries already stored, is not captured.
- The source spells the parameter list as one string; the model keeps it as the list of names. That the names joined by ", " are exactly the string at src/file-contents.ts:13 holds by reading the two side by side, not by proof; SpelledTemplateArguments proves that this spelling reads back as the 16 names in order.
- FileContents.FileContents.GetTemplateContent: states that an unknown name yields "", not the converse, because a loaded template may itself render "".
