/**
 * The older engine of tasks/create.js: parameters come from the identity,
 * the version option and the command line, the file name may be computed by
 * `fileNameResolve`, and an existing destination always aborts the task.
 * The module-level variables of the task become the fields of CreateTask,
 * so they persist from one run of the task to the next as they do there.
 */
module Create {
  import opened JsValues
  import opened Strings
  import opened OrderedMaps
  import opened Placeholders

  /** `NEW_LINE`: this variant always uses "\n". */
  const NEW_LINE: string := "\n"

  /** The options configured for the task target; a missing key falls back to the task's default. */
  datatype TaskConfig = TaskConfig(
    username: Option<string>,
    email: Option<string>,
    version: Option<string>,
    fileName: Option<string>,
    cwd: Option<string>,
    fileNameResolve: Option<OrderedMap<string> -> string>,  // present when it is a function
    template: string,
    params: Option<seq<string>>)                            // present when it is an array

  /** The options after merging with the defaults. */
  datatype CreateOptions = CreateOptions(
    username: string,
    email: string,
    version: string,
    fileName: string,
    cwd: string,
    fileNameResolve: Option<OrderedMap<string> -> string>,
    template: string,
    params: Option<seq<string>>)

  /** The two ways a run is aborted through `grunt.fail.fatal`. */
  datatype Failure = TemplateMissing(path: string) | DestinationExists(path: string)

  function Message(f: Failure): (r: string)
  {
    match f
    case TemplateMissing(p) => "Template doesn't exists! [" + p + "]"
    case DestinationExists(p) => "Destination file exists! [" + p + "]"
  }

  datatype TaskOutcome = Written | Fatal(failure: Failure)

  /** `this.options({...})` with the identity from git (empty when the lookup failed) and the fixed defaults. */
  function MergeOptions(config: TaskConfig, gitName: string, gitEmail: string): (r: CreateOptions)
  {
    CreateOptions(
      if config.username.Some? then config.username.value else gitName,
      if config.email.Some? then config.email.value else gitEmail,
      if config.version.Some? then config.version.value else "0.1.0",
      if config.fileName.Some? then config.fileName.value else "{{name}}.ts",
      if config.cwd.Some? then config.cwd.value else "",
      config.fileNameResolve,
      config.template,
      config.params)
  }

  /** Unset options take the defaults `{{name}}.ts`, `0.1.0`, an empty cwd and the git identity; set ones win. */
  lemma DefaultsApplied(config: TaskConfig, gitName: string, gitEmail: string)
    ensures var o := MergeOptions(config, gitName, gitEmail);
      && (config.fileName.None? ==> o.fileName == "{{name}}.ts")
      && (config.version.None? ==> o.version == "0.1.0")
      && (config.cwd.None? ==> o.cwd == "")
      && (config.username.None? ==> o.username == gitName)
      && (config.email.None? ==> o.email == gitEmail)
      && (config.fileName.Some? ==> o.fileName == config.fileName.value)
      && (config.version.Some? ==> o.version == config.version.value)
      && (config.cwd.Some? ==> o.cwd == config.cwd.value)
      && (config.username.Some? ==> o.username == config.username.value)
      && (config.email.Some? ==> o.email == config.email.value)
      && o.fileNameResolve == config.fileNameResolve && o.template == config.template && o.params == config.params
  {
  }

  /** `grunt.option(name) || ''`. */
  function CliText(v: JsValue): (r: string)
  {
    if Truthy(v) then v.s else ""
  }

  /** The three assignments at the start of `prepareParameters`. */
  function BaseParameters(params: OrderedMap<string>, o: CreateOptions): (r: OrderedMap<string>)
  {
    Set(Set(Set(params, "username", o.username), "email", o.email), "version", o.version)
  }

  /** The parameters after the `forEach` over the listed names has visited `names`. */
  function Listed(params: OrderedMap<string>, names: seq<string>, cli: string -> JsValue): (r: OrderedMap<string>)
    decreases |names|
  {
    if names == [] then params
    else
      var last := names[|names| - 1];
      Set(Listed(params, names[..|names| - 1], cli), last, CliText(cli(last)))
  }

  /** `prepareParameters`. */
  function PreparedParameters(params: OrderedMap<string>, o: CreateOptions, cli: string -> JsValue): (r: OrderedMap<string>)
  {
    var base := BaseParameters(params, o);
    if o.params.Some? then Listed(base, o.params.value, cli) else base
  }

  /** A listed name takes its command-line value, or the empty string when that is falsy. */
  lemma {:induction false} ListedLookup(params: OrderedMap<string>, names: seq<string>, cli: string -> JsValue, n: string)
    decreases |names|
    ensures Lookup(Listed(params, names, cli), n) ==
      if n in names then Some(CliText(cli(n))) else Lookup(params, n)
  {
    if names != [] {
      var init := names[..|names| - 1];
      var last := names[|names| - 1];
      assert names == init + [last];
      ListedLookup(params, init, cli, n);
      LookupSet(Listed(params, init, cli), last, CliText(cli(last)), n);
    }
  }

  /**
   * After `prepareParameters`, every listed name holds its command-line
   * value or '' (overriding `username`, `email` and `version` when listed);
   * otherwise those three hold the options' values and any other parameter
   * keeps what an earlier run left in it.
   */
  lemma PreparedLookup(params: OrderedMap<string>, o: CreateOptions, cli: string -> JsValue, n: string)
    ensures Lookup(PreparedParameters(params, o, cli), n) ==
      if o.params.Some? && n in o.params.value then Some(CliText(cli(n)))
      else if n == "version" then Some(o.version)
      else if n == "email" then Some(o.email)
      else if n == "username" then Some(o.username)
      else Lookup(params, n)
  {
    var p1 := Set(params, "username", o.username);
    var p2 := Set(p1, "email", o.email);
    LookupSet(params, "username", o.username, n);
    LookupSet(p1, "email", o.email, n);
    LookupSet(p2, "version", o.version, n);
    if o.params.Some? {
      ListedLookup(BaseParameters(params, o), o.params.value, cli, n);
    }
  }

  /** The file name before expansion: `fileNameResolve(parameters)` when that is a function. */
  function BaseFileName(o: CreateOptions, params: OrderedMap<string>): (r: string)
  {
    if o.fileNameResolve.Some? then o.fileNameResolve.value(params) else o.fileName
  }

  /** Each line after expansion is the expansion of the line before; the number of lines is kept. */
  predicate ExpandedLines(params: OrderedMap<string>, before: seq<string>, after: seq<string>)
  {
    |after| == |before| &&
    forall i :: 0 <= i < |before| ==> after[i] == Expanded(params, before[i])
  }

  class CreateTask {
    var options: CreateOptions
    var parameters: OrderedMap<string>
    var destinationFile: string
    var template: seq<string>
    /** Paths reported as saved. */
    var log: seq<string>
    /** Every (path, content) handed to the file-write collaborator, in order. */
    var writes: seq<(string, string)>

    constructor ()
      ensures options == CreateOptions("", "", "", "", "", None, "", None)
      ensures parameters == [] && destinationFile == "" && template == []
      ensures log == [] && writes == []
    {
      options := CreateOptions("", "", "", "", "", None, "", None);
      parameters := [];
      destinationFile := "";
      template := [];
      log := [];
      writes := [];
    }

    /** `expandString`: each parameter, in order, replaces the first `{{name}}` of the string. */
    method ExpandString(str: string) returns (r: string)
      ensures r == Expanded(parameters, str)
    {
      r := str;
      var i := 0;
      while i < |parameters|
        invariant 0 <= i <= |parameters|
        invariant r == Expanded(parameters[..i], str)
      {
        assert parameters[..i + 1][..i] == parameters[..i];
        r := ReplaceFirst(r, Placeholder(parameters[i].0), parameters[i].1);
        i := i + 1;
      }
      assert parameters[..i] == parameters;
    }

    /** `expandTemplate`: every line is replaced by its expansion; the number of lines is kept. */
    method ExpandTemplate()
      modifies this`template
      ensures ExpandedLines(parameters, old(template), template)
    {
      var idx := 0;
      while idx < |template|
        invariant 0 <= idx <= |template| == |old(template)|
        invariant forall i :: 0 <= i < idx ==> template[i] == Expanded(parameters, old(template)[i])
        invariant forall i :: idx <= i < |template| ==> template[i] == old(template)[i]
      {
        var expanded := ExpandString(template[idx]);
        template := template[idx := expanded];
        idx := idx + 1;
      }
    }

    /** `prepareParameters`. */
    method PrepareParameters(cli: string -> JsValue)
      modifies this`parameters
      ensures parameters == PreparedParameters(old(parameters), options, cli)
    {
      parameters := Set(parameters, "username", options.username);
      parameters := Set(parameters, "email", options.email);
      parameters := Set(parameters, "version", options.version);
      if options.params.Some? {
        var names := options.params.value;
        var i := 0;
        while i < |names|
          invariant 0 <= i <= |names|
          invariant parameters == Listed(BaseParameters(old(parameters), options), names[..i], cli)
        {
          assert names[..i + 1][..i] == names[..i];
          parameters := Set(parameters, names[i], CliText(cli(names[i])));
          i := i + 1;
        }
        assert names[..i] == names;
      }
    }

    /**
     * The destination step: the file name (computed by `fileNameResolve` when
     * that is a function) is expanded, stored back, and joined to `cwd`.
     */
    method ResolveDestination(pathJoin: seq<string> -> string)
      modifies this`options, this`destinationFile
      ensures var name := Expanded(parameters, BaseFileName(old(options), parameters));
        && options == old(options).(fileName := name)
        && destinationFile == pathJoin([options.cwd, name])
    {
      if options.fileNameResolve.Some? {
        options := options.(fileName := options.fileNameResolve.value(parameters));
      }
      var name := ExpandString(options.fileName);
      options := options.(fileName := name);
      destinationFile := pathJoin([options.cwd, options.fileName]);
    }

    /**
     * The task body after the identity lookup: merge the options, load the
     * template (fatal when it is missing), prepare the parameters, resolve and
     * expand the file name, abort when the destination exists, and only then
     * expand the template and write it.
     */
    method Run(config: TaskConfig, gitName: string, gitEmail: string, cli: string -> JsValue,
               fileExists: string -> bool, readFile: string -> string,
               pathJoin: seq<string> -> string) returns (r: TaskOutcome)
      modifies this
      ensures var o := MergeOptions(config, gitName, gitEmail);
        !fileExists(o.template) ==>
          && r == Fatal(TemplateMissing(o.template))
          && options == o && parameters == old(parameters) && destinationFile == old(destinationFile)
          && template == old(template) && log == old(log) && writes == old(writes)
      ensures var o := MergeOptions(config, gitName, gitEmail);
        fileExists(o.template) ==>
          var ps := PreparedParameters(old(parameters), o, cli);
          var name := Expanded(ps, BaseFileName(o, ps));
          var dest := pathJoin([o.cwd, name]);
          var lines := Split(readFile(o.template), NEW_LINE);
          && parameters == ps
          && options == o.(fileName := name)
          && destinationFile == dest
          && (if fileExists(dest) then
                && r == Fatal(DestinationExists(dest))
                && template == lines && log == old(log) && writes == old(writes)
              else
                && r == Written
                && ExpandedLines(ps, lines, template)
                && log == old(log) + [dest]
                && writes == old(writes) + [(dest, Join(template, NEW_LINE))])
    {
      options := MergeOptions(config, gitName, gitEmail);
      if !fileExists(options.template) {
        return Fatal(TemplateMissing(options.template));
      }
      template := Split(readFile(options.template), NEW_LINE);
      r := Generate(cli, fileExists, pathJoin);
    }

    /** The rest of the task once the template is loaded: everything from `prepareParameters` on. */
    method Generate(cli: string -> JsValue, fileExists: string -> bool, pathJoin: seq<string> -> string)
      returns (r: TaskOutcome)
      modifies this`options, this`parameters, this`destinationFile, this`template, this`log, this`writes
      ensures var ps := PreparedParameters(old(parameters), old(options), cli);
        var name := Expanded(ps, BaseFileName(old(options), ps));
        var dest := pathJoin([old(options).cwd, name]);
        && parameters == ps
        && options == old(options).(fileName := name)
        && destinationFile == dest
        && (if fileExists(dest) then
              && r == Fatal(DestinationExists(dest))
              && template == old(template) && log == old(log) && writes == old(writes)
            else
              && r == Written
              && ExpandedLines(ps, old(template), template)
              && log == old(log) + [dest]
              && writes == old(writes) + [(dest, Join(template, NEW_LINE))])
    {
      PrepareParameters(cli);

      ResolveDestination(pathJoin);

      if fileExists(destinationFile) {
        return Fatal(DestinationExists(destinationFile));
      }

      ExpandTemplate();
      Write();
      r := Written;
    }

    /** The write of the joined lines to the destination, and its log line. */
    method Write()
      modifies this`writes, this`log
      ensures writes == old(writes) + [(destinationFile, Join(template, NEW_LINE))]
      ensures log == old(log) + [destinationFile]
    {
      writes := writes + [(destinationFile, Join(template, NEW_LINE))];
      log := log + [destinationFile];
    }
  }
}
