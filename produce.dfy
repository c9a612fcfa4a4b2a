/**
 * The ProduceModule engine of lib/ProduceModule.js: it collects variable
 * values from the command line and declared defaults, validates them,
 * expands them into the file name and the template lines, and saves the
 * result under the `block` / `warning` overwrite policy.
 *
 * The specification functions come first; the class ProduceModule at the
 * end holds the engine's state and its imperative operations, each proved
 * against those functions.
 */
module Produce {
  import opened JsValues
  import opened Strings
  import opened OrderedMaps
  import opened Placeholders

  /** One entry of `options.variables`. */
  datatype VarSpec = VarSpec(
    default: JsValue,
    required: bool,                     // the property is exactly `true`
    validate: Option<JsValue -> bool>)  // present when the property is a function

  /** `options.fileName`, told apart by `grunt.util.kindOf`. */
  datatype FileNameSetting =
    | NamePattern(pattern: string)
    | NameFunction(resolve: OrderedMap<JsValue> -> string)
    | NameOther  // missing, or neither a string nor a function

  /** The task options the engine reads and updates. */
  datatype Options = Options(
    variables: OrderedMap<VarSpec>,
    fileName: FileNameSetting,
    template: JsValue,       // Undefined stands for any value that is not a string
    fileOverwrite: JsValue,
    username: string,
    email: string)

  /** The exceptions the engine throws, one constructor per message. */
  datatype Error =
    | FileNameInvalid
    | TemplateInvalid
    | OverwritePolicyInvalid
    | Required(name: string)
    | Incorrect(name: string)
    | Undeclared(name: string)  // reading `.required` / `.validate` of a missing declaration
    | DestinationExists(path: string)

  /** The text thrown for each error. */
  function Message(e: Error): (r: string)
  {
    match e
    case FileNameInvalid => "fileName is required and must be a string or function"
    case TemplateInvalid => "template is required and must be a string"
    case OverwritePolicyInvalid => "options.fileOverwrite must be equal to \"block\" or \"warning\"!"
    case Required(n) => "Variable [" + n + "] is required"
    case Incorrect(n) => "Variable [" + n + "] value is incorrect"
    case Undeclared(n) => "TypeError: variable [" + n + "] has no declaration"
    case DestinationExists(p) => "Destination file exists! [" + p + "]"
  }

  /** Normal return, or the first exception thrown. */
  datatype Outcome = Pass | Fail(error: Error)

  /** What the engine writes to the task runner's log. */
  datatype LogEntry =
    | UnusedVariable(placeholder: string, line: nat)
    | OverwriteWarning(path: string)
    | Saved(path: string)

  /** A question handed to the prompt service. */
  datatype Question = Question(name: string, message: string, default: JsValue)

  // ---------------------------------------------------------------------
  // Expansion

  /** The replacement text each variable contributes, in variable order. */
  function Substitutions(vars: OrderedMap<JsValue>): (subs: seq<(string, string)>)
    ensures |subs| == |vars|
    ensures forall i :: 0 <= i < |vars| ==> subs[i] == (vars[i].0, Render(vars[i].1))
  {
    seq(|vars|, i requires 0 <= i < |vars| => (vars[i].0, Render(vars[i].1)))
  }

  /** The warnings `expandTemplate` logs for one expanded line, numbered from 1. */
  function LineWarnings(line: string, lineNo: nat): (r: seq<LogEntry>)
  {
    var ms := UnusedMatches(line);
    seq(|ms|, i requires 0 <= i < |ms| => UnusedVariable(ms[i], lineNo))
  }

  /** The warnings for a whole expanded template, line by line. */
  function TemplateWarnings(lines: seq<string>): (r: seq<LogEntry>)
    decreases |lines|
  {
    if lines == [] then []
    else TemplateWarnings(lines[..|lines| - 1]) + LineWarnings(lines[|lines| - 1], |lines|)
  }

  lemma AppendAssociative<T>(a: seq<T>, b: seq<T>, c: seq<T>)
    ensures a + b + c == a + (b + c)
  {
  }

  /** Expanding one more line adds that line's warnings at the end. */
  lemma TemplateWarningsSnoc(done: seq<string>, line: string)
    ensures TemplateWarnings(done + [line]) == TemplateWarnings(done) + LineWarnings(line, |done| + 1)
  {
    assert (done + [line])[..|done|] == done;
  }

  /** Every warning names a leftover match of the line it is tagged with. */
  lemma {:induction false} WarningsTagged(lines: seq<string>)
    decreases |lines|
    ensures forall w :: w in TemplateWarnings(lines) ==>
      && w.UnusedVariable?
      && 1 <= w.line <= |lines|
      && w.placeholder in UnusedMatches(lines[w.line - 1])
  {
    if lines != [] {
      var init := lines[..|lines| - 1];
      WarningsTagged(init);
      forall w | w in TemplateWarnings(lines)
        ensures w.UnusedVariable? && 1 <= w.line <= |lines| && w.placeholder in UnusedMatches(lines[w.line - 1])
      {
        if w in TemplateWarnings(init) {
          assert lines[w.line - 1] == init[w.line - 1];
        } else {
          assert w in LineWarnings(lines[|lines| - 1], |lines|);
        }
      }
    }
  }

  /** Every leftover match of every line is warned about, with its 1-based line number. */
  lemma {:induction false} EveryMatchWarned(lines: seq<string>, k: nat, m: string)
    requires k < |lines| && m in UnusedMatches(lines[k])
    decreases |lines|
    ensures UnusedVariable(m, k + 1) in TemplateWarnings(lines)
  {
    var init := lines[..|lines| - 1];
    if k == |lines| - 1 {
      var ms := UnusedMatches(lines[k]);
      var i :| 0 <= i < |ms| && ms[i] == m;
      assert LineWarnings(lines[k], k + 1)[i] == UnusedVariable(m, k + 1);
    } else {
      assert init[k] == lines[k];
      EveryMatchWarned(init, k, m);
    }
  }

  /**
   * A `{{name}}` still present in an expanded line is warned about: some
   * warning for that line names a match that contains it.
   */
  lemma LeftoverPlaceholderWarned(lines: seq<string>, k: nat, name: string, p: nat)
    requires k < |lines| && PlainName(name) && OccursAt(lines[k], Placeholder(name), p)
    ensures exists m :: UnusedVariable(m, k + 1) in TemplateWarnings(lines) && Occurs(m, Placeholder(name))
  {
    PlaceholderInLineReported(lines[k], name, p);
    var m :| m in UnusedMatches(lines[k]) && Occurs(m, Placeholder(name));
    EveryMatchWarned(lines, k, m);
  }

  // ---------------------------------------------------------------------
  // Validation

  /** The exception `validate` throws for one variable, if any. */
  function VarFault(name: string, value: JsValue, specs: OrderedMap<VarSpec>): (r: Option<Error>)
  {
    match Lookup(specs, name)
    case None => Some(Undeclared(name))
    case Some(spec) =>
      if value.Undefined? && spec.required then Some(Required(name))
      else if spec.validate.Some? && !spec.validate.value(value) then Some(Incorrect(name))
      else None
  }

  /**
   * The required check fires exactly for an undefined value of a variable
   * declared `required: true`; an empty string never triggers it.
   */
  lemma RequiredOnlyWhenUndefined(name: string, value: JsValue, specs: OrderedMap<VarSpec>)
    ensures VarFault(name, value, specs) == Some(Required(name)) <==>
      value == Undefined && Lookup(specs, name).Some? && Lookup(specs, name).value.required
    ensures VarFault(name, Str(""), specs) != Some(Required(name))
  {
  }

  /**
   * The custom check fires exactly when no required error comes first and
   * the declared predicate rejects the value.
   */
  lemma IncorrectWhenPredicateRejects(name: string, value: JsValue, specs: OrderedMap<VarSpec>)
    ensures VarFault(name, value, specs) == Some(Incorrect(name)) <==>
      && Lookup(specs, name).Some?
      && var spec := Lookup(specs, name).value;
      && !(value.Undefined? && spec.required)
      && spec.validate.Some?
      && !spec.validate.value(value)
  {
  }

  /** `validate`: the first variable, in enumeration order, that has a fault decides the outcome. */
  function Validation(vars: OrderedMap<JsValue>, specs: OrderedMap<VarSpec>): (r: Outcome)
    decreases |vars|
  {
    if vars == [] then Pass
    else match VarFault(vars[0].0, vars[0].1, specs)
      case Some(e) => Fail(e)
      case None => Validation(vars[1..], specs)
  }

  /** `validate` returns normally exactly when no variable has a fault. */
  lemma {:induction false} ValidationPasses(vars: OrderedMap<JsValue>, specs: OrderedMap<VarSpec>)
    decreases |vars|
    ensures Validation(vars, specs) == Pass <==>
      forall k :: 0 <= k < |vars| ==> VarFault(vars[k].0, vars[k].1, specs) == None
  {
    if vars != [] {
      ValidationPasses(vars[1..], specs);
      assert forall k :: 1 <= k < |vars| ==> vars[1..][k - 1] == vars[k];
    }
  }

  /** When variable `k` is the first with a fault, its fault is what `validate` throws. */
  lemma {:induction false} ValidationFirstFault(vars: OrderedMap<JsValue>, specs: OrderedMap<VarSpec>, k: nat, e: Error)
    requires k < |vars|
    requires forall i :: 0 <= i < k ==> VarFault(vars[i].0, vars[i].1, specs) == None
    requires VarFault(vars[k].0, vars[k].1, specs) == Some(e)
    decreases k
    ensures Validation(vars, specs) == Fail(e)
  {
    if k > 0 {
      assert VarFault(vars[0].0, vars[0].1, specs) == None;
      ValidationFirstFault(vars[1..], specs, k - 1, e);
    }
  }

  /** Whatever `validate` throws comes from the first variable that has a fault. */
  lemma {:induction false} ValidationFaultHasCause(vars: OrderedMap<JsValue>, specs: OrderedMap<VarSpec>, e: Error)
    requires Validation(vars, specs) == Fail(e)
    decreases |vars|
    ensures exists k ::
      && 0 <= k < |vars|
      && (forall i :: 0 <= i < k ==> VarFault(vars[i].0, vars[i].1, specs) == None)
      && VarFault(vars[k].0, vars[k].1, specs) == Some(e)
  {
    if VarFault(vars[0].0, vars[0].1, specs) == None {
      var rest := vars[1..];
      ValidationFaultHasCause(rest, specs, e);
      var k :| 0 <= k < |rest|
        && (forall i :: 0 <= i < k ==> VarFault(rest[i].0, rest[i].1, specs) == None)
        && VarFault(rest[k].0, rest[k].1, specs) == Some(e);
      assert forall i :: 1 <= i < k + 1 ==> vars[i] == rest[i - 1];
      assert vars[k + 1] == rest[k];
    }
  }

  // ---------------------------------------------------------------------
  // Variable preparation

  /** The declaration of `username` / `email` after `_prepareVariables` sets its default. */
  function WithDefault(found: Option<VarSpec>, value: JsValue): (r: VarSpec)
  {
    match found
    case None => VarSpec(value, false, None)
    case Some(spec) => spec.(default := value)
  }

  /** The two injections at the start of `_prepareVariables`, `username` first. */
  function InjectIdentity(specs: OrderedMap<VarSpec>, username: string, email: string): (r: OrderedMap<VarSpec>)
  {
    var withUser := Set(specs, "username", WithDefault(Lookup(specs, "username"), Str(username)));
    Set(withUser, "email", WithDefault(Lookup(withUser, "email"), Str(email)))
  }

  /**
   * After the injection `username` and `email` are declared with the given
   * defaults; a declaration they already had keeps its other fields; every
   * other declaration is untouched.
   */
  lemma InjectIdentityLookup(specs: OrderedMap<VarSpec>, username: string, email: string, n: string)
    ensures var injected := Lookup(InjectIdentity(specs, username, email), n);
      && (n == "username" ==> injected == Some(WithDefault(Lookup(specs, n), Str(username))))
      && (n == "email" ==> injected == Some(WithDefault(Lookup(specs, n), Str(email))))
      && (n != "username" && n != "email" ==> injected == Lookup(specs, n))
    ensures n == "username" || n == "email" ==>
      Lookup(InjectIdentity(specs, username, email), n).value.default ==
        Str(if n == "username" then username else email)
  {
    var withUser := Set(specs, "username", WithDefault(Lookup(specs, "username"), Str(username)));
    LookupSet(specs, "username", WithDefault(Lookup(specs, "username"), Str(username)), n);
    LookupSet(specs, "username", WithDefault(Lookup(specs, "username"), Str(username)), "email");
    LookupSet(withUser, "email", WithDefault(Lookup(withUser, "email"), Str(email)), n);
  }

  /** The injection keeps the existing names in order, appends missing ones and creates no duplicate. */
  lemma InjectIdentityKeys(specs: OrderedMap<VarSpec>, username: string, email: string)
    requires UniqueKeys(specs)
    ensures var ks := Keys(InjectIdentity(specs, username, email));
      && UniqueKeys(InjectIdentity(specs, username, email))
      && "username" in ks && "email" in ks
      && |Keys(specs)| <= |ks| <= |specs| + 2
      && ks[..|specs|] == Keys(specs)
  {
    var u := WithDefault(Lookup(specs, "username"), Str(username));
    var withUser := Set(specs, "username", u);
    var e := WithDefault(Lookup(withUser, "email"), Str(email));
    KeysSet(specs, "username", u);
    KeysSet(withUser, "email", e);
    UniqueKeysSet(specs, "username", u);
    UniqueKeysSet(withUser, "email", e);
  }

  /** The variables after the resolution loop of `_prepareVariables` has visited `specs`. */
  function Resolved(vars: OrderedMap<JsValue>, specs: OrderedMap<VarSpec>, cli: string -> JsValue): (r: OrderedMap<JsValue>)
    decreases |specs|
  {
    if specs == [] then vars
    else
      var last := specs[|specs| - 1];
      Set(Resolved(vars, specs[..|specs| - 1], cli), last.0, Or(cli(last.0), last.1.default))
  }

  /** How many declared variables have a truthy command-line value. */
  function CliHits(specs: OrderedMap<VarSpec>, cli: string -> JsValue): (r: nat)
    decreases |specs|
  {
    if specs == [] then 0
    else CliHits(specs[..|specs| - 1], cli) + (if Truthy(cli(specs[|specs| - 1].0)) then 1 else 0)
  }

  /**
   * Each declared variable ends up with its command-line value if that is
   * truthy and with its declared default otherwise; variables that are not
   * declared keep their value.
   */
  lemma {:induction false} ResolvedLookup(vars: OrderedMap<JsValue>, specs: OrderedMap<VarSpec>, cli: string -> JsValue, n: string)
    requires UniqueKeys(specs)
    decreases |specs|
    ensures Lookup(Resolved(vars, specs, cli), n) ==
      match Lookup(specs, n)
      case Some(spec) => Some(if Truthy(cli(n)) then cli(n) else spec.default)
      case None => Lookup(vars, n)
  {
    if specs != [] {
      var init := specs[..|specs| - 1];
      var last := specs[|specs| - 1];
      assert specs == init + [last];
      ResolvedLookup(vars, init, cli, n);
      LookupSet(Resolved(vars, init, cli), last.0, Or(cli(last.0), last.1.default), n);
      LookupAppend(init, last, n);
      if n == last.0 {
        LookupKeys(init, n);
        assert Lookup(init, n) == None by {
          forall i | 0 <= i < |init|
            ensures Keys(init)[i] != n
          {
            assert init[i] == specs[i];
          }
        }
      }
    }
  }

  /** Starting from no variables, the resolved variables have exactly the declared names, in order. */
  lemma {:induction false} ResolvedKeys(specs: OrderedMap<VarSpec>, cli: string -> JsValue)
    requires UniqueKeys(specs)
    decreases |specs|
    ensures Keys(Resolved([], specs, cli)) == Keys(specs)
  {
    if specs != [] {
      var init := specs[..|specs| - 1];
      var last := specs[|specs| - 1];
      assert specs == init + [last];
      UniqueKeysSplit(init, last);
      ResolvedKeys(init, cli);
      KeysSet(Resolved([], init, cli), last.0, Or(cli(last.0), last.1.default));
      KeysSnoc(init, last);
    }
  }

  /** `_prepareVariables` reports a command-line hit exactly when some declared variable has a truthy value there. */
  lemma {:induction false} CliHitsPositive(specs: OrderedMap<VarSpec>, cli: string -> JsValue)
    decreases |specs|
    ensures CliHits(specs, cli) != 0 <==> exists k :: 0 <= k < |specs| && Truthy(cli(specs[k].0))
  {
    if specs != [] {
      var init := specs[..|specs| - 1];
      CliHitsPositive(init, cli);
      assert forall k :: 0 <= k < |init| ==> init[k] == specs[k];
    }
  }

  /**
   * After `_prepareVariables`, `username` and `email` hold their truthy
   * command-line value, or else the identity found in the git configuration.
   */
  lemma IdentityResolved(vars: OrderedMap<JsValue>, specs: OrderedMap<VarSpec>, username: string, email: string,
                         cli: string -> JsValue)
    requires UniqueKeys(specs)
    ensures var resolved := Resolved(vars, InjectIdentity(specs, username, email), cli);
      && Lookup(resolved, "username") == Some(Or(cli("username"), Str(username)))
      && Lookup(resolved, "email") == Some(Or(cli("email"), Str(email)))
  {
    var injected := InjectIdentity(specs, username, email);
    InjectIdentityKeys(specs, username, email);
    InjectIdentityLookup(specs, username, email, "username");
    InjectIdentityLookup(specs, username, email, "email");
    ResolvedLookup(vars, injected, cli, "username");
    ResolvedLookup(vars, injected, cli, "email");
  }

  /**
   * An empty command-line value is falsy, so the declared default is used:
   * with an undefined default a required variable then fails validation,
   * while with an empty-string default it does not.
   */
  lemma EmptyCliFallsBack(vars: OrderedMap<JsValue>, specs: OrderedMap<VarSpec>, cli: string -> JsValue, n: string)
    requires UniqueKeys(specs) && Lookup(specs, n).Some? && cli(n) == Str("")
    ensures Lookup(Resolved(vars, specs, cli), n) == Some(Lookup(specs, n).value.default)
    ensures Lookup(specs, n).value.default == Undefined && Lookup(specs, n).value.required ==>
      VarFault(n, Lookup(specs, n).value.default, specs) == Some(Required(n))
    ensures Lookup(specs, n).value.default == Str("") ==>
      VarFault(n, Lookup(specs, n).value.default, specs) != Some(Required(n))
  {
    ResolvedLookup(vars, specs, cli, n);
  }

  // ---------------------------------------------------------------------
  // Answers

  /** The variables after the answer loop of `promptUserAsync` has assigned `answers`. */
  function Merged(vars: OrderedMap<JsValue>, answers: OrderedMap<JsValue>): (r: OrderedMap<JsValue>)
    decreases |answers|
  {
    if answers == [] then vars
    else
      var last := answers[|answers| - 1];
      Set(Merged(vars, answers[..|answers| - 1]), last.0, last.1)
  }

  /** Answered names take the answer; every other variable keeps its value. */
  lemma {:induction false} MergedLookup(vars: OrderedMap<JsValue>, answers: OrderedMap<JsValue>, n: string)
    requires UniqueKeys(answers)
    decreases |answers|
    ensures Lookup(Merged(vars, answers), n) ==
      if Lookup(answers, n).Some? then Lookup(answers, n) else Lookup(vars, n)
  {
    if answers != [] {
      var init := answers[..|answers| - 1];
      var last := answers[|answers| - 1];
      assert answers == init + [last];
      MergedLookup(vars, init, n);
      LookupSet(Merged(vars, init), last.0, last.1, n);
      LookupAppend(init, last, n);
      if n == last.0 {
        LookupKeys(init, n);
        assert Lookup(init, n) == None by {
          forall i | 0 <= i < |init|
            ensures Keys(init)[i] != n
          {
            assert init[i] == answers[i];
          }
        }
      }
    }
  }

  /** Answers for names that are already variables change no variable's position. */
  lemma {:induction false} MergedKeys(vars: OrderedMap<JsValue>, answers: OrderedMap<JsValue>)
    requires forall k :: 0 <= k < |answers| ==> answers[k].0 in Keys(vars)
    decreases |answers|
    ensures Keys(Merged(vars, answers)) == Keys(vars)
  {
    if answers != [] {
      var init := answers[..|answers| - 1];
      var last := answers[|answers| - 1];
      MergedKeys(vars, init);
      KeysSet(Merged(vars, init), last.0, last.1);
    }
  }

  /** The answers the prompt service returns when every question is left at its default. */
  function DefaultAnswers(questions: seq<Question>): (answers: OrderedMap<JsValue>)
    ensures |answers| == |questions|
    ensures forall i :: 0 <= i < |questions| ==> answers[i] == (questions[i].name, questions[i].default)
  {
    seq(|questions|, i requires 0 <= i < |questions| => (questions[i].name, questions[i].default))
  }

  /** Re-assigning the first `n` variables their own values, in order, changes nothing. */
  lemma {:induction false} OwnValuesPrefix(vars: OrderedMap<JsValue>, answers: OrderedMap<JsValue>, n: nat)
    requires UniqueKeys(vars)
    requires n <= |answers| == |vars|
    requires forall i :: 0 <= i < |vars| ==> answers[i] == vars[i]
    ensures Merged(vars, answers[..n]) == vars
  {
    if n > 0 {
      OwnValuesPrefix(vars, answers, n - 1);
      var prefix := answers[..n];
      assert prefix[..n - 1] == answers[..n - 1];
      assert prefix[n - 1] == vars[n - 1];
      LookupAt(vars, n - 1);
      SetToCurrent(vars, vars[n - 1].0, vars[n - 1].1);
    }
  }

  /** Accepting every offered default leaves the variables exactly as they were. */
  lemma AcceptingDefaultsChangesNothing(vars: OrderedMap<JsValue>, questions: seq<Question>)
    requires UniqueKeys(vars)
    requires |questions| == |vars|
    requires forall i :: 0 <= i < |vars| ==> questions[i] == Question(vars[i].0, vars[i].0, vars[i].1)
    ensures Merged(vars, DefaultAnswers(questions)) == vars
  {
    var answers := DefaultAnswers(questions);
    OwnValuesPrefix(vars, answers, |answers|);
    assert answers[..|answers|] == answers;
  }

  // ---------------------------------------------------------------------
  // Options

  /** `_checkOptions`: the first malformed option, in the order fileName, template, fileOverwrite. */
  function CheckOptions(o: Options): (r: Outcome)
    ensures r == Pass <==>
      && !o.fileName.NameOther?
      && o.template.Str?
      && (o.fileOverwrite == Str("block") || o.fileOverwrite == Str("warning"))
    ensures r == Fail(FileNameInvalid) <==> o.fileName.NameOther?
    ensures r == Fail(TemplateInvalid) <==> !o.fileName.NameOther? && !o.template.Str?
    ensures r.Fail? ==> r.error in {FileNameInvalid, TemplateInvalid, OverwritePolicyInvalid}
  {
    if o.fileName.NameOther? then Fail(FileNameInvalid)
    else if !o.template.Str? then Fail(TemplateInvalid)
    else if o.fileOverwrite != Str("block") && o.fileOverwrite != Str("warning") then Fail(OverwritePolicyInvalid)
    else Pass
  }

  /** The variables' part does not matter to `_checkOptions`. */
  lemma CheckOptionsIgnoresVariables(o: Options, specs: OrderedMap<VarSpec>)
    ensures CheckOptions(o.(variables := specs)) == CheckOptions(o)
  {
  }

  /** The file name before expansion: the pattern, or what the function makes of the variables. */
  function BaseFileName(setting: FileNameSetting, vars: OrderedMap<JsValue>): (r: string)
    requires !setting.NameOther?
  {
    match setting
    case NamePattern(p) => p
    case NameFunction(f) => f(vars)
  }

  /** The template lines after expansion. */
  predicate ExpandedLines(vars: OrderedMap<JsValue>, before: seq<string>, after: seq<string>)
  {
    |after| == |before| &&
    forall i :: 0 <= i < |before| ==> after[i] == Expanded(Substitutions(vars), before[i])
  }

  // ---------------------------------------------------------------------
  // The engine

  class ProduceModule {
    const onWindows: bool
    /** The platform line separator used to read template files and to join the saved file. */
    const newLine: string := if onWindows then "\r\n" else "\n"

    var options: Options
    var variables: OrderedMap<JsValue>
    var destinationFile: string
    var template: seq<string>
    var promptUser: bool
    /** Everything logged so far. */
    var log: seq<LogEntry>
    /** Every (path, content) handed to the file-write collaborator, in order. */
    var writes: seq<(string, string)>

    constructor (onWindows: bool)
      ensures this.onWindows == onWindows
      ensures options == Options([], NameOther, Undefined, Undefined, "", "")
      ensures variables == [] && destinationFile == "" && template == []
      ensures !promptUser && log == [] && writes == []
    {
      this.onWindows := onWindows;
      options := Options([], NameOther, Undefined, Undefined, "", "");
      variables := [];
      destinationFile := "";
      template := [];
      promptUser := false;
      log := [];
      writes := [];
    }

    /** `expandString`: each variable, in order, replaces the first `{{name}}` of the string. */
    method ExpandString(str: string) returns (r: string)
      ensures r == Expanded(Substitutions(variables), str)
    {
      var subs := Substitutions(variables);
      r := str;
      var i := 0;
      while i < |variables|
        invariant 0 <= i <= |variables|
        invariant r == Expanded(subs[..i], str)
      {
        assert subs[..i + 1][..i] == subs[..i];
        r := ReplaceFirst(r, Placeholder(variables[i].0), Render(variables[i].1));
        i := i + 1;
      }
      assert subs[..i] == subs;
    }

    /**
     * `expandTemplate`: every line is replaced by its expansion and every
     * leftover `{{...}}` match is logged with its 1-based line number.
     */
    method ExpandTemplate()
      modifies this`template, this`log
      ensures ExpandedLines(variables, old(template), template)
      ensures log == old(log) + TemplateWarnings(template)
    {
      ghost var done: seq<string> := [];
      var idx := 0;
      while idx < |template|
        invariant 0 <= idx <= |template| == |old(template)|
        invariant forall i :: 0 <= i < idx ==> template[i] == Expanded(Substitutions(variables), old(template)[i])
        invariant forall i :: idx <= i < |template| ==> template[i] == old(template)[i]
        invariant |done| == idx && forall i :: 0 <= i < idx ==> done[i] == template[i]
        invariant log == old(log) + TemplateWarnings(done)
      {
        var line := ExpandLine(idx);
        TemplateWarningsSnoc(done, line);
        AppendAssociative(old(log), TemplateWarnings(done), LineWarnings(line, idx + 1));
        done := done + [line];
        idx := idx + 1;
      }
      assert done == template;
    }

    /** One step of the `forEach` over the lines: expand line `idx` in place and report what is left in it. */
    method ExpandLine(idx: nat) returns (expanded: string)
      requires idx < |template|
      modifies this`template, this`log
      ensures expanded == Expanded(Substitutions(variables), old(template)[idx])
      ensures template == old(template)[idx := expanded]
      ensures log == old(log) + LineWarnings(expanded, idx + 1)
    {
      expanded := ExpandString(template[idx]);
      ReportUnused(expanded, idx + 1);
      template := template[idx := expanded];
    }

    /** The `forEach` over the matches of `/{{(.*?)}}/g`: one warning per leftover match, tagged `lineNo`. */
    method ReportUnused(line: string, lineNo: nat)
      modifies this`log
      ensures log == old(log) + LineWarnings(line, lineNo)
    {
      var unused := UnusedMatches(line);
      var k := 0;
      while k < |unused|
        invariant 0 <= k <= |unused|
        invariant log == old(log) + LineWarnings(line, lineNo)[..k]
      {
        log := log + [UnusedVariable(unused[k], lineNo)];
        k := k + 1;
      }
      assert LineWarnings(line, lineNo)[..k] == LineWarnings(line, lineNo);
    }

    /** `validate`: throws the fault of the first variable that has one. */
    method Validate() returns (r: Outcome)
      ensures r == Validation(variables, options.variables)
    {
      var i := 0;
      while i < |variables|
        invariant 0 <= i <= |variables|
        invariant Validation(variables, options.variables) == Validation(variables[i..], options.variables)
      {
        assert variables[i..][0] == variables[i];
        assert variables[i..][1..] == variables[i + 1..];
        var name := variables[i].0;
        var value := variables[i].1;
        var spec := Lookup(options.variables, name);
        if spec.None? {
          return Fail(Undeclared(name));
        }
        if value.Undefined? && spec.value.required {
          return Fail(Required(name));
        }
        if spec.value.validate.Some? && !spec.value.validate.value(value) {
          return Fail(Incorrect(name));
        }
        i := i + 1;
      }
      return Pass;
    }

    /** `getQuestions`: one question per variable, in order, named and labelled by it, offering its value. */
    method GetQuestions() returns (questions: seq<Question>)
      ensures |questions| == |variables|
      ensures forall i :: 0 <= i < |variables| ==>
        questions[i] == Question(variables[i].0, variables[i].0, variables[i].1)
    {
      questions := [];
      var i := 0;
      while i < |variables|
        invariant 0 <= i <= |variables|
        invariant |questions| == i
        invariant forall j :: 0 <= j < i ==> questions[j] == Question(variables[j].0, variables[j].0, variables[j].1)
      {
        questions := questions + [Question(variables[i].0, variables[i].0, variables[i].1)];
        i := i + 1;
      }
    }

    /** The answer loop of `promptUserAsync`: each answer is assigned to its variable. */
    method MergeAnswers(answers: OrderedMap<JsValue>)
      modifies this`variables
      ensures variables == Merged(old(variables), answers)
    {
      var i := 0;
      while i < |answers|
        invariant 0 <= i <= |answers|
        invariant variables == Merged(old(variables), answers[..i])
      {
        assert answers[..i + 1][..i] == answers[..i];
        variables := Set(variables, answers[i].0, answers[i].1);
        i := i + 1;
      }
      assert answers[..i] == answers;
    }

    /** The first half of `_prepareVariables`: `username` and `email` default to the configured identity. */
    method InjectIdentityDefaults()
      modifies this`options
      ensures options == old(options).(variables := InjectIdentity(old(options).variables, old(options).username, old(options).email))
    {
      var specs := options.variables;
      var user := Lookup(specs, "username");
      if user.None? {
        specs := Set(specs, "username", VarSpec(Str(options.username), false, None));
      } else {
        specs := Set(specs, "username", user.value.(default := Str(options.username)));
      }
      var mail := Lookup(specs, "email");
      if mail.None? {
        specs := Set(specs, "email", VarSpec(Str(options.email), false, None));
      } else {
        specs := Set(specs, "email", mail.value.(default := Str(options.email)));
      }
      options := options.(variables := specs);
    }

    /**
     * `_prepareVariables`: declares `username` and `email` with the identity
     * defaults, resolves every declared variable from the command line or its
     * default, and reports whether any command-line value was truthy.
     */
    method PrepareVariables(cli: string -> JsValue) returns (anyFromCli: bool)
      modifies this`options, this`variables
      ensures options == old(options).(variables := InjectIdentity(old(options).variables, old(options).username, old(options).email))
      ensures variables == Resolved(old(variables), options.variables, cli)
      ensures anyFromCli <==> CliHits(options.variables, cli) != 0
    {
      InjectIdentityDefaults();
      var specs := options.variables;

      var count := 0;
      var i := 0;
      while i < |specs|
        modifies this`variables
        invariant 0 <= i <= |specs|
        invariant variables == Resolved(old(variables), specs[..i], cli)
        invariant count == CliHits(specs[..i], cli)
      {
        assert specs[..i + 1][..i] == specs[..i];
        var name := specs[i].0;
        if Truthy(cli(name)) {
          count := count + 1;
        }
        variables := Set(variables, name, Or(cli(name), specs[i].1.default));
        i := i + 1;
      }
      assert specs[..i] == specs;
      anyFromCli := count != 0;
    }

    /**
     * `setup`: records the identity, prepares the variables (before the
     * options are checked), then checks the options and loads the template:
     * from the file it names when that exists, split on the platform line
     * separator, and otherwise from the option text itself, split on "\n".
     */
    method Setup(opts: Options, gitName: string, gitEmail: string, cli: string -> JsValue,
                 fileExists: string -> bool, readFile: string -> string) returns (r: Outcome)
      modifies this`options, this`variables, this`promptUser, this`template
      ensures options == opts.(username := gitName, email := gitEmail,
                               variables := InjectIdentity(opts.variables, gitName, gitEmail))
      ensures variables == Resolved(old(variables), options.variables, cli)
      ensures promptUser <==> CliHits(options.variables, cli) == 0
      ensures r == CheckOptions(opts)
      ensures r.Pass? ==>
        (var path := opts.template.s;
         template == if fileExists(path) then Split(readFile(path), newLine) else Split(path, "\n"))
      ensures r.Fail? ==> template == old(template)
    {
      var identified := opts.(username := gitName, email := gitEmail);
      options := identified;
      var anyFromCli := PrepareVariables(cli);
      assert options == opts.(username := gitName, email := gitEmail,
                              variables := InjectIdentity(opts.variables, gitName, gitEmail));
      promptUser := !anyFromCli;
      r := CheckOptions(options);
      CheckOptionsIgnoresVariables(identified, options.variables);
      assert r == CheckOptions(opts);
      if r.Fail? {
        return;
      }
      LoadTemplate(fileExists, readFile);
    }

    /**
     * The end of `setup`: the template option names a file to read and split
     * on the platform separator, or, when no such file exists, is itself the
     * template text, split on "\n".
     */
    method LoadTemplate(fileExists: string -> bool, readFile: string -> string)
      requires options.template.Str?
      modifies this`template
      ensures var path := options.template.s;
        template == if fileExists(path) then Split(readFile(path), newLine) else Split(path, "\n")
    {
      if fileExists(options.template.s) {
        template := Split(readFile(options.template.s), newLine);
      } else {
        template := Split(options.template.s, "\n");
      }
    }

    /**
     * `saveFile`: validate, resolve and expand the file name, expand the
     * template, apply the overwrite policy, then write. A validation error
     * leaves everything untouched; under `block` an existing destination
     * throws after the expansion and before any write; under `warning` it is
     * logged and the file is written once.
     */
    method SaveFile(fileExists: string -> bool, pathJoin: seq<string> -> string) returns (r: Outcome)
      requires CheckOptions(options).Pass?
      modifies this`options, this`destinationFile, this`template, this`log, this`writes
      ensures Validation(variables, old(options).variables).Fail? ==>
        && r == Validation(variables, old(options).variables)
        && options == old(options) && template == old(template)
        && destinationFile == old(destinationFile) && log == old(log) && writes == old(writes)
      ensures Validation(variables, old(options).variables).Pass? ==>
        var name := Expanded(Substitutions(variables), BaseFileName(old(options).fileName, variables));
        var warned := old(log) + TemplateWarnings(template);
        && options == old(options).(fileName := NamePattern(name))
        && destinationFile == pathJoin([name])
        && ExpandedLines(variables, old(template), template)
        && (if fileExists(destinationFile) && options.fileOverwrite == Str("block") then
              && r == Fail(DestinationExists(destinationFile))
              && log == warned
              && writes == old(writes)
            else
              && r == Pass
              && log == warned + (if fileExists(destinationFile) && options.fileOverwrite == Str("warning")
                                  then [OverwriteWarning(destinationFile)] else [])
                               + [Saved(destinationFile)]
              && writes == old(writes) + [(destinationFile, Join(template, newLine))])
    {
      r := Validate();
      if r.Fail? {
        return;
      }
      r := WriteChecked(fileExists, pathJoin);
    }

    /** `saveFile` once the variables have passed `validate`. */
    method WriteChecked(fileExists: string -> bool, pathJoin: seq<string> -> string) returns (r: Outcome)
      requires CheckOptions(options).Pass?
      modifies this`options, this`destinationFile, this`template, this`log, this`writes
      ensures
        var name := Expanded(Substitutions(variables), BaseFileName(old(options).fileName, variables));
        var warned := old(log) + TemplateWarnings(template);
        && options == old(options).(fileName := NamePattern(name))
        && destinationFile == pathJoin([name])
        && ExpandedLines(variables, old(template), template)
        && (if fileExists(destinationFile) && options.fileOverwrite == Str("block") then
              && r == Fail(DestinationExists(destinationFile))
              && log == warned
              && writes == old(writes)
            else
              && r == Pass
              && log == warned + (if fileExists(destinationFile) && options.fileOverwrite == Str("warning")
                                  then [OverwriteWarning(destinationFile)] else [])
                               + [Saved(destinationFile)]
              && writes == old(writes) + [(destinationFile, Join(template, newLine))])
    {
      ResolveDestination(pathJoin);
      ExpandTemplate();
      ghost var warned := log;
      r := Store(fileExists);
      assert warned == old(log) + TemplateWarnings(template);
    }

    /**
     * The destination step of `saveFile`: the file name (computed by the
     * `fileName` function when it is one) is expanded, stored back as the
     * pattern, and joined into the destination path.
     */
    method ResolveDestination(pathJoin: seq<string> -> string)
      requires options.fileName.NamePattern? || options.fileName.NameFunction?
      modifies this`options, this`destinationFile
      ensures var name := Expanded(Substitutions(variables), BaseFileName(old(options).fileName, variables));
        && options == old(options).(fileName := NamePattern(name))
        && destinationFile == pathJoin([name])
    {
      if options.fileName.NameFunction? {
        options := options.(fileName := NamePattern(options.fileName.resolve(variables)));
      }
      var name := ExpandString(options.fileName.pattern);
      options := options.(fileName := NamePattern(name));
      destinationFile := pathJoin([options.fileName.pattern]);
    }

    /**
     * The write step of `saveFile`: an existing destination is refused under
     * `block` and announced under `warning`; otherwise the lines are joined
     * with the platform separator, written, and the save is logged.
     */
    method Store(fileExists: string -> bool) returns (r: Outcome)
      modifies this`log, this`writes
      ensures if fileExists(destinationFile) && options.fileOverwrite == Str("block") then
          && r == Fail(DestinationExists(destinationFile))
          && log == old(log) && writes == old(writes)
        else
          && r == Pass
          && log == old(log) + (if fileExists(destinationFile) && options.fileOverwrite == Str("warning")
                                then [OverwriteWarning(destinationFile)] else [])
                             + [Saved(destinationFile)]
          && writes == old(writes) + [(destinationFile, Join(template, newLine))]
    {
      if fileExists(destinationFile) {
        if options.fileOverwrite == Str("block") {
          return Fail(DestinationExists(destinationFile));
        }
        if options.fileOverwrite == Str("warning") {
          log := log + [OverwriteWarning(destinationFile)];
        }
      }
      writes := writes + [(destinationFile, Join(template, newLine))];
      log := log + [Saved(destinationFile)];
      r := Pass;
    }
  }
}
