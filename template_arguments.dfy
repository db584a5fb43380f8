/**
 The fixed argument signature every template is compiled against, and the
 derivation of the 16 values a render call binds to it from the configuration,
 the subject's name and the caller's extra parameters.
 */
module TemplateArguments {
  import opened JsValues
  import opened Configuration

  /** The parameter names every template is compiled against, in binding
      order. The source spells this list as one string, the names separated
      by ", " (see SpelledTemplateArguments). */
  const TEMPLATE_ARGUMENTS: seq<string> := [
    "inputName", "upperName", "interfacePrefix", "cmpPrefix", "dirPrefix",
    "cmpSelector", "dirSelector", "componentViewEncapsulation",
    "componentChangeDetection", "componentInlineTemplate", "componentInlineStyle",
    "defaultsStyleExt", "routing", "routingScope", "importCommonModule", "params"]

  // ---------------------------------------------------------------------------
  // The parameter list as text

  /** A parameter name: non-empty, without commas or blanks. */
  predicate IsParameterName(n: string) {
    |n| > 0 && forall k :: 0 <= k < |n| ==> n[k] != ',' && n[k] != ' '
  }

  /** The names separated by ", ", the way the source writes its parameter list. */
  function JoinNames(names: seq<string>): string
  {
    if |names| == 0 then ""
    else if |names| == 1 then names[0]
    else names[0] + ", " + JoinNames(names[1..])
  }

  /** Index of the first comma of `s`, or `|s|` when there is none. */
  function FirstComma(s: string): (i: nat)
    ensures i <= |s|
    ensures forall j :: 0 <= j < i ==> s[j] != ','
    ensures i < |s| ==> s[i] == ','
  {
    if |s| == 0 || s[0] == ',' then 0 else 1 + FirstComma(s[1..])
  }

  function TrimLeadingBlanks(s: string): string
  {
    if |s| > 0 && s[0] == ' ' then TrimLeadingBlanks(s[1..]) else s
  }

  /** How a comma-separated parameter list reads as names: the fields between
      commas, each without its leading blanks. This is the model's own reading
      of the list, stated to show that the ", " spelling loses nothing; it is
      not the template compiler's parser, which stays foreign. */
  function SplitNames(s: string): (names: seq<string>)
    ensures |names| >= 1
    decreases |s|
  {
    var i := FirstComma(s);
    if i == |s| then [TrimLeadingBlanks(s)]
    else [TrimLeadingBlanks(s[..i])] + SplitNames(s[i + 1..])
  }

  lemma {:induction false} TrimBlanksBeforeName(pad: string, n: string)
    requires forall k :: 0 <= k < |pad| ==> pad[k] == ' '
    requires |n| > 0 && n[0] != ' '
    ensures TrimLeadingBlanks(pad + n) == n
    decreases |pad|
  {
    if |pad| == 0 {
      assert pad + n == n;
    } else {
      assert (pad + n)[1..] == pad[1..] + n;
      TrimBlanksBeforeName(pad[1..], n);
    }
  }

  lemma FirstCommaAfterName(n: string, rest: string)
    requires forall k :: 0 <= k < |n| ==> n[k] != ','
    requires |rest| == 0 || rest[0] == ','
    ensures FirstComma(n + rest) == |n|
  {
    var s := n + rest;
    assert forall k :: 0 <= k < |n| ==> s[k] == n[k];
    assert |rest| > 0 ==> s[|n|] == rest[0];
  }

  /** A field without commas is read as one name. */
  lemma SplitSingleField(field: string)
    requires forall k :: 0 <= k < |field| ==> field[k] != ','
    ensures SplitNames(field) == [TrimLeadingBlanks(field)]
  {
  }

  /** A field without commas followed by ", " and more text is read as one
      name followed by the names of the rest, blank included. */
  lemma SplitFirstField(field: string, tail: string)
    requires forall k :: 0 <= k < |field| ==> field[k] != ','
    ensures SplitNames(field + ", " + tail) == [TrimLeadingBlanks(field)] + SplitNames(" " + tail)
  {
    var s := field + ", " + tail;
    assert s == field + (", " + tail);
    FirstCommaAfterName(field, ", " + tail);
    assert s[..|field|] == field;
    assert s[|field| + 1..] == " " + tail;
  }

  /** Reading back a joined list of names, after any leading blanks, gives the names. */
  lemma {:induction false} SplitJoinPadded(pad: string, names: seq<string>)
    requires |names| > 0
    requires forall k :: 0 <= k < |pad| ==> pad[k] == ' '
    requires forall k :: 0 <= k < |names| ==> IsParameterName(names[k])
    ensures SplitNames(pad + JoinNames(names)) == names
    decreases |names|
  {
    var n := names[0];
    var field := pad + n;
    assert forall k :: 0 <= k < |field| ==> field[k] != ',' by {
      forall k | 0 <= k < |field| ensures field[k] != ',' {
        if k >= |pad| { assert field[k] == n[k - |pad|]; }
      }
    }
    TrimBlanksBeforeName(pad, n);
    if |names| == 1 {
      SplitSingleField(field);
    } else {
      assert pad + JoinNames(names) == field + ", " + JoinNames(names[1..]);
      SplitFirstField(field, JoinNames(names[1..]));
      SplitJoinPadded(" ", names[1..]);
    }
  }

  /** The parameter list always reads back as the names it was built from. */
  lemma SplitJoinNames(names: seq<string>)
    requires |names| > 0
    requires forall k :: 0 <= k < |names| ==> IsParameterName(names[k])
    ensures SplitNames(JoinNames(names)) == names
  {
    SplitJoinPadded("", names);
    assert "" + JoinNames(names) == JoinNames(names);
  }

  /** Every name of the signature is a plain parameter name. */
  lemma ParameterNamesOnly()
    ensures forall k :: 0 <= k < |TEMPLATE_ARGUMENTS| ==> IsParameterName(TEMPLATE_ARGUMENTS[k])
  {
    assert IsParameterName("inputName");
    assert IsParameterName("upperName");
    assert IsParameterName("interfacePrefix");
    assert IsParameterName("cmpPrefix");
    assert IsParameterName("dirPrefix");
    assert IsParameterName("cmpSelector");
    assert IsParameterName("dirSelector");
    assert IsParameterName("componentViewEncapsulation");
    assert IsParameterName("componentChangeDetection");
    assert IsParameterName("componentInlineTemplate");
    assert IsParameterName("componentInlineStyle");
    assert IsParameterName("defaultsStyleExt");
    assert IsParameterName("routing");
    assert IsParameterName("routingScope");
    assert IsParameterName("importCommonModule");
    assert IsParameterName("params");
  }

  /** The names joined by ", ", as the source writes the list, read back as
      the 16 names in order. */
  lemma SpelledTemplateArguments()
    ensures SplitNames(JoinNames(TEMPLATE_ARGUMENTS)) == TEMPLATE_ARGUMENTS
    ensures |TEMPLATE_ARGUMENTS| == 16
  {
    ParameterNamesOnly();
    SplitJoinNames(TEMPLATE_ARGUMENTS);
  }

  /** No two positions of the signature carry the same name. */
  lemma TemplateArgumentsDistinct()
    ensures forall i, j :: 0 <= i < j < |TEMPLATE_ARGUMENTS| ==> TEMPLATE_ARGUMENTS[i] != TEMPLATE_ARGUMENTS[j]
  {
  }

  // ---------------------------------------------------------------------------
  // Deriving the values

  /** The source can compute both prefixes: it reads the first application's
      prefix only when a configured prefix is falsy, and fails when there is
      no application to read it from. */
  predicate PrefixesResolvable(config: Config) {
    |config.apps| > 0
    || (Truthy(config.defaults.component.prefix) && Truthy(config.defaults.directive.prefix))
  }

  function CmpPrefix(config: Config): (r: Value)
    requires PrefixesResolvable(config)
    ensures Truthy(config.defaults.component.prefix) ==> r == config.defaults.component.prefix
    ensures !Truthy(config.defaults.component.prefix) ==> r == config.apps[0].prefix
  {
    if Truthy(config.defaults.component.prefix) then config.defaults.component.prefix
    else config.apps[0].prefix
  }

  function DirPrefix(config: Config): (r: Value)
    requires PrefixesResolvable(config)
    ensures Truthy(config.defaults.directive.prefix) ==> r == config.defaults.directive.prefix
    ensures !Truthy(config.defaults.directive.prefix) ==> r == config.apps[0].prefix
  {
    if Truthy(config.defaults.directive.prefix) then config.defaults.directive.prefix
    else config.apps[0].prefix
  }

  /** What a template sees under the parameter `name` for one render call,
      for each of the 16 names of the signature. The final `Undefined` is only
      this function's filler for names outside the signature: what a template
      yields for such a placeholder is up to the template compiler. */
  function ArgumentFor(name: string, config: Config, inputName: string, params: seq<string>,
                       upper: string -> string): (v: Value)
    requires PrefixesResolvable(config)
    ensures name == "inputName" ==> v == Str(inputName)
    ensures name == "cmpSelector" ==> Truthy(v)
    ensures name == "routing" ==> Truthy(v) || v == Bool(false)
    ensures name == "routingScope" ==> Truthy(v)
    ensures name == "params" ==> v == Strings(params)
  {
    var d := config.defaults;
    if name == "inputName" then Str(inputName)
    else if name == "upperName" then Str(upper(inputName))
    else if name == "interfacePrefix" then d.interface.prefix
    else if name == "cmpPrefix" then CmpPrefix(config)
    else if name == "dirPrefix" then DirPrefix(config)
    else if name == "cmpSelector" then
      Or(d.component.selector, Str(ToJsString(CmpPrefix(config)) + "-" + inputName))
    else if name == "dirSelector" then
      Or(d.directive.selector, Str(ToJsString(DirPrefix(config)) + upper(inputName)))
    else if name == "componentViewEncapsulation" then d.component.viewEncapsulation
    else if name == "componentChangeDetection" then d.component.changeDetection
    else if name == "componentInlineTemplate" then d.component.inlineTemplate
    else if name == "componentInlineStyle" then d.component.inlineStyle
    else if name == "defaultsStyleExt" then Or(d.component.styleext, d.styleExt)
    else if name == "routing" then Or(d.ngModule.routing, Bool(false))
    else if name == "routingScope" then Or(d.ngModule.routingScope, Str("Child"))
    else if name == "importCommonModule" then d.ngModule.commonModule
    else if name == "params" then Strings(params)
    else Undefined
  }

  /** The positional argument vector of one render call. Its i-th value is the
      one bound to the i-th parameter name of the compiled signature. */
  function ArgumentVector(config: Config, inputName: string, params: seq<string>,
                          upper: string -> string): (args: seq<Value>)
    requires PrefixesResolvable(config)
    ensures |args| == |TEMPLATE_ARGUMENTS| == 16
    ensures forall i :: 0 <= i < 16 ==>
              args[i] == ArgumentFor(TEMPLATE_ARGUMENTS[i], config, inputName, params, upper)
  {
    var d := config.defaults;
    var cmpPrefix := CmpPrefix(config);
    var dirPrefix := DirPrefix(config);
    var cmpSelector := Or(d.component.selector, Str(ToJsString(cmpPrefix) + "-" + inputName));
    var dirSelector := Or(d.directive.selector, Str(ToJsString(dirPrefix) + upper(inputName)));
    var styleExt := Or(d.component.styleext, d.styleExt);
    var routingScope := Or(d.ngModule.routingScope, Str("Child"));
    var importCommonModule := d.ngModule.commonModule;
    var routing := Or(d.ngModule.routing, Bool(false));
    [Str(inputName),
     Str(upper(inputName)),
     d.interface.prefix,
     cmpPrefix,
     dirPrefix,
     cmpSelector,
     dirSelector,
     d.component.viewEncapsulation,
     d.component.changeDetection,
     d.component.inlineTemplate,
     d.component.inlineStyle,
     styleExt,
     routing,
     routingScope,
     importCommonModule,
     Strings(params)]
  }

  // ---------------------------------------------------------------------------
  // The derivation rules

  /** Both prefixes fall back to the first application's prefix when the
      configured one is absent or empty. */
  lemma PrefixFallbacks(config: Config, inputName: string, params: seq<string>, upper: string -> string)
    requires PrefixesResolvable(config)
    ensures var args := ArgumentVector(config, inputName, params, upper);
      && (Truthy(config.defaults.component.prefix) ==> args[3] == config.defaults.component.prefix)
      && (!Truthy(config.defaults.component.prefix) ==> args[3] == config.apps[0].prefix)
      && (Truthy(config.defaults.directive.prefix) ==> args[4] == config.defaults.directive.prefix)
      && (!Truthy(config.defaults.directive.prefix) ==> args[4] == config.apps[0].prefix)
  {
  }

  /** An unset component selector is `<cmpPrefix>-<inputName>`; an unset
      directive selector is `<dirPrefix><toUpperCase(inputName)>`. */
  lemma SelectorDefaults(config: Config, inputName: string, params: seq<string>, upper: string -> string)
    requires PrefixesResolvable(config)
    ensures var args := ArgumentVector(config, inputName, params, upper);
      && (Truthy(config.defaults.component.selector) ==> args[5] == config.defaults.component.selector)
      && (!Truthy(config.defaults.component.selector) ==>
            args[5] == Str(ToJsString(args[3]) + "-" + inputName))
      && (Truthy(config.defaults.directive.selector) ==> args[6] == config.defaults.directive.selector)
      && (!Truthy(config.defaults.directive.selector) ==>
            args[6] == Str(ToJsString(args[4]) + upper(inputName)))
  {
  }

  /** The style extension, routing scope and routing flag fall back to the
      global style extension, "Child" and false; the common-module flag is
      passed through as configured. */
  lemma OtherDefaults(config: Config, inputName: string, params: seq<string>, upper: string -> string)
    requires PrefixesResolvable(config)
    ensures var args := ArgumentVector(config, inputName, params, upper);
      && args[11] == (if Truthy(config.defaults.component.styleext) then config.defaults.component.styleext
                      else config.defaults.styleExt)
      && args[12] == (if Truthy(config.defaults.ngModule.routing) then config.defaults.ngModule.routing
                      else Bool(false))
      && args[13] == (if Truthy(config.defaults.ngModule.routingScope) then config.defaults.ngModule.routingScope
                      else Str("Child"))
      && args[14] == config.defaults.ngModule.commonModule
  {
  }

  /** The name, its upper-cased form, the caller's parameters and the fields
      without a default reach the template unchanged. */
  lemma PassThroughArguments(config: Config, inputName: string, params: seq<string>, upper: string -> string)
    requires PrefixesResolvable(config)
    ensures var args := ArgumentVector(config, inputName, params, upper);
      && args[0] == Str(inputName)
      && args[1] == Str(upper(inputName))
      && args[2] == config.defaults.interface.prefix
      && args[7] == config.defaults.component.viewEncapsulation
      && args[8] == config.defaults.component.changeDetection
      && args[9] == config.defaults.component.inlineTemplate
      && args[10] == config.defaults.component.inlineStyle
      && args[15] == Strings(params)
  {
  }

  /** With application prefix "app" and nothing configured for components,
      rendering "widget" binds the component selector "app-widget". */
  lemma WidgetSelector(config: Config, upper: string -> string)
    requires config.apps == [App(Str("app"))]
    requires !Truthy(config.defaults.component.prefix) && !Truthy(config.defaults.component.selector)
    ensures var args := ArgumentVector(config, "widget", [], upper);
      args[0] == Str("widget") && args[5] == Str("app-widget")
  {
  }
}
