/**
 The template registry: a table from template name to compiled template,
 filled from the built-in templates and, when a project templates path is
 configured, the project's own templates, which win over built-ins of the same
 name. Rendering looks a template up by name and applies it to the argument
 vector of the call, or yields "" for an unknown name.

 Reading the template directories is outside the model: `builtin` and
 `project` are the name-to-text maps those reads produce. The template
 compiler and the upper-casing helper are foreign code and come in as the
 function parameters `compile` and `upper`.
 */
module FileContents {
  import opened JsValues
  import opened Configuration
  import opened TemplateArguments

  /** A compiled template: a function of the positional argument vector. */
  type Template = seq<Value> -> string

  /** Project templates override built-ins by name; a name on only one side
      keeps that side's text. */
  function Override(base: map<string, string>, overrides: map<string, string>): (merged: map<string, string>)
    ensures merged.Keys == base.Keys + overrides.Keys
    ensures forall name :: name in overrides ==> merged[name] == overrides[name]
    ensures forall name :: name in base && name !in overrides ==> merged[name] == base[name]
  {
    base + overrides
  }

  /** The raw templates that are compiled: the built-ins, overridden by the
      project's templates when a templates path is configured. */
  function Sources(config: Config, builtin: map<string, string>, project: map<string, string>): (sources: map<string, string>)
    ensures sources.Keys == builtin.Keys + (if HasProjectTemplates(config) then project.Keys else {})
    ensures forall name :: name in sources ==>
              sources[name] == if HasProjectTemplates(config) && name in project then project[name] else builtin[name]
  {
    if HasProjectTemplates(config) then Override(builtin, project) else builtin
  }

  /** Every source compiled against the one fixed parameter list. */
  function CompileAll(sources: map<string, string>, compile: (string, seq<string>) -> Template): (compiled: map<string, Template>)
    ensures compiled.Keys == sources.Keys
    ensures forall name :: name in compiled ==> compiled[name] == compile(sources[name], TEMPLATE_ARGUMENTS)
  {
    map name | name in sources :: compile(sources[name], TEMPLATE_ARGUMENTS)
  }

  /** The table after a load: the previous table with every compiled source
      added or overwritten, and nothing removed. */
  function Loaded(table: map<string, Template>, config: Config, builtin: map<string, string>,
                  project: map<string, string>, compile: (string, seq<string>) -> Template): map<string, Template>
  {
    table + CompileAll(Sources(config, builtin, project), compile)
  }

  /** Writes each override into the base map, one name at a time, as the
      loader does with the project templates. */
  method OverrideEach(base: map<string, string>, overrides: map<string, string>) returns (merged: map<string, string>)
    ensures merged == Override(base, overrides)
  {
    merged := base;
    var pending := overrides.Keys;
    while pending != {}
      invariant pending <= overrides.Keys
      invariant merged.Keys == base.Keys + (overrides.Keys - pending)
      invariant forall name :: name in merged ==>
                  merged[name] == if name in overrides && name !in pending then overrides[name] else base[name]
      decreases pending
    {
      var name :| name in pending;
      merged := merged[name := overrides[name]];
      pending := pending - {name};
    }
  }

  class FileContents {
    var templatesMap: map<string, Template>

    constructor ()
      ensures templatesMap == map[]
    {
      templatesMap := map[];
    }

    /** Merges the project templates into the built-ins (when a templates path
        is configured), then compiles every merged entry and stores it in the
        table, one entry at a time. */
    method LoadTemplates(config: Config, builtin: map<string, string>, project: map<string, string>,
                         compile: (string, seq<string>) -> Template)
      modifies this
      ensures templatesMap == Loaded(old(templatesMap), config, builtin, project, compile)
    {
      var sources := builtin;
      if HasProjectTemplates(config) {
        sources := OverrideEach(sources, project);
      }

      var pending := sources.Keys;
      while pending != {}
        invariant pending <= sources.Keys
        invariant templatesMap.Keys == old(templatesMap).Keys + (sources.Keys - pending)
        invariant forall name :: name in templatesMap ==>
                    templatesMap[name] == if name in sources && name !in pending
                                          then compile(sources[name], TEMPLATE_ARGUMENTS)
                                          else old(templatesMap)[name]
        decreases pending
      {
        var name :| name in pending;
        templatesMap := templatesMap[name := compile(sources[name], TEMPLATE_ARGUMENTS)];
        pending := pending - {name};
      }
      assert templatesMap == old(templatesMap) + CompileAll(sources, compile);
    }

    /** Renders the named template for `inputName`, or gives "" when no such
        template is loaded. */
    function GetTemplateContent(template: string, config: Config, inputName: string,
                                upper: string -> string, params: seq<string> := []): (text: string)
      reads this
      requires PrefixesResolvable(config)
      ensures template !in templatesMap ==> text == ""
      ensures template in templatesMap ==>
                text == templatesMap[template](ArgumentVector(config, inputName, params, upper))
    {
      if template in templatesMap then templatesMap[template](ArgumentVector(config, inputName, params, upper))
      else ""
    }
  }

  // ---------------------------------------------------------------------------
  // What a load guarantees

  /** A project template, when a templates path is configured, is stored
      compiled from the project's text. */
  lemma ProjectTemplateWins(table: map<string, Template>, config: Config, builtin: map<string, string>,
                            project: map<string, string>, compile: (string, seq<string>) -> Template, name: string)
    requires HasProjectTemplates(config) && name in project
    ensures var t := Loaded(table, config, builtin, project, compile);
      name in t && t[name] == compile(project[name], TEMPLATE_ARGUMENTS)
  {
  }

  /** A built-in template that the project does not override is stored
      compiled from the built-in text. */
  lemma BuiltinTemplateKept(table: map<string, Template>, config: Config, builtin: map<string, string>,
                            project: map<string, string>, compile: (string, seq<string>) -> Template, name: string)
    requires name in builtin
    requires !HasProjectTemplates(config) || name !in project
    ensures var t := Loaded(table, config, builtin, project, compile);
      name in t && t[name] == compile(builtin[name], TEMPLATE_ARGUMENTS)
  {
  }

  /** Without a configured templates path the project templates play no part. */
  lemma NoTemplatesPathSkipsProject(table: map<string, Template>, config: Config, builtin: map<string, string>,
                                    project: map<string, string>, compile: (string, seq<string>) -> Template)
    requires !HasProjectTemplates(config)
    ensures Loaded(table, config, builtin, project, compile) == table + CompileAll(builtin, compile)
    ensures Loaded(table, config, builtin, project, compile).Keys == table.Keys + builtin.Keys
  {
  }

  /** A load only adds or overwrites: every earlier name stays, and a name not
      among the loaded templates keeps its earlier compiled template. */
  lemma LoadNeverRemoves(table: map<string, Template>, config: Config, builtin: map<string, string>,
                         project: map<string, string>, compile: (string, seq<string>) -> Template, name: string)
    ensures table.Keys <= Loaded(table, config, builtin, project, compile).Keys
    ensures name in table && name !in Sources(config, builtin, project) ==>
      var t := Loaded(table, config, builtin, project, compile);
      name in t && t[name] == table[name]
  {
  }

  /** The names after a load are the earlier names, the built-in names and,
      when a templates path is configured, the project names. */
  lemma LoadedNames(table: map<string, Template>, config: Config, builtin: map<string, string>,
                    project: map<string, string>, compile: (string, seq<string>) -> Template)
    ensures Loaded(table, config, builtin, project, compile).Keys
            == table.Keys + builtin.Keys + (if HasProjectTemplates(config) then project.Keys else {})
  {
  }

  /** Every merged source is stored compiled from its own merged text against
      TEMPLATE_ARGUMENTS, whether or not the name was in the table before. */
  lemma LoadedEntriesCompiled(table: map<string, Template>, config: Config, builtin: map<string, string>,
                              project: map<string, string>, compile: (string, seq<string>) -> Template, name: string)
    requires name in Sources(config, builtin, project)
    ensures var t := Loaded(table, config, builtin, project, compile);
      name in t && t[name] == compile(Sources(config, builtin, project)[name], TEMPLATE_ARGUMENTS)
  {
  }

  /** Loading twice with the same inputs gives the table of loading once. */
  lemma LoadIdempotent(table: map<string, Template>, config: Config, builtin: map<string, string>,
                       project: map<string, string>, compile: (string, seq<string>) -> Template)
    ensures var once := Loaded(table, config, builtin, project, compile);
      Loaded(once, config, builtin, project, compile) == once
  {
  }

  /** The merge of built-ins {A: "x", B: "y"} with project templates {B: "z", C: "w"}. */
  lemma OverrideExample()
    ensures Override(map["A" := "x", "B" := "y"], map["B" := "z", "C" := "w"])
            == map["A" := "x", "B" := "z", "C" := "w"]
  {
  }
}
