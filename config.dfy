/**
 The parts of the extension's configuration that the template registry reads:
 the declared applications and the generation defaults. Every leaf is a
 JavaScript value, so that an absent or empty field can be told apart from a
 configured one exactly as the `||` fallbacks do.
 */
module Configuration {
  import opened JsValues

  datatype App = App(prefix: Value)

  /** `defaults.templates`, which may be missing altogether. */
  datatype TemplatesDefaults = TemplatesDefaults(path: Value)

  datatype InterfaceDefaults = InterfaceDefaults(prefix: Value)

  datatype ComponentDefaults = ComponentDefaults(
    prefix: Value,
    selector: Value,
    styleext: Value,
    viewEncapsulation: Value,
    changeDetection: Value,
    inlineTemplate: Value,
    inlineStyle: Value)

  datatype DirectiveDefaults = DirectiveDefaults(prefix: Value, selector: Value)

  datatype ModuleDefaults = ModuleDefaults(routingScope: Value, commonModule: Value, routing: Value)

  datatype Defaults = Defaults(
    styleExt: Value,
    templates: Option<TemplatesDefaults>,
    interface: InterfaceDefaults,
    component: ComponentDefaults,
    directive: DirectiveDefaults,
    ngModule: ModuleDefaults)  // `defaults.module` in the configuration

  datatype Option<T> = None | Some(value: T)

  datatype Config = Config(apps: seq<App>, defaults: Defaults)

  /** `config.defaults.templates && config.defaults.templates.path`: a project
      templates directory is configured. */
  predicate HasProjectTemplates(config: Config)
    ensures HasProjectTemplates(config) <==>
              config.defaults.templates.Some?
              && config.defaults.templates.value.path !in {Undefined, Str(""), Bool(false)}
  {
    config.defaults.templates.Some? && Truthy(config.defaults.templates.value.path)
  }
}
