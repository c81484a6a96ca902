/**
 * The local model loader of `src/lib/transformersApi.ts`: two module flags,
 * the pipeline handle `textGenerator` and `isInitializing`, drive a load that
 * is started at most once at a time; a pure language detector and the
 * prompt and message wrapping sit around the model call.
 *
 * The `@xenova/transformers` pipeline is not modelled: how a load settles is
 * a parameter (`outcome`), and the model's text for a prompt is an injected
 * function (`generate`).
 */
module TransformersApi {
  import opened Wrappers
  import opened Strings
  import opened MockApi

  /** The text generation pipeline a load resolves to; the model treats it as
      an opaque value that it only stores and hands back. */
  datatype Handle = Handle(name: string)

  /** `'not_loaded' | 'loading' | 'ready' | 'error'`. */
  datatype ModelStatus = NotLoaded | Loading | Ready | Errored

  function StatusName(s: ModelStatus): (name: string)
    ensures name in ["not_loaded", "loading", "ready", "error"]
    ensures name == "ready" <==> s == Ready
  {
    match s
    case NotLoaded => "not_loaded"
    case Loading => "loading"
    case Ready => "ready"
    case Errored => "error"
  }

  /** What `initializeGenerator` does on entry. */
  datatype Entry =
    | Reuse(handle: Handle)   // a handle exists: return it
    | Wait                    // a load is in flight: wait for it
    | StartLoad               // neither: call `pipeline`

  /** What `initializeGenerator()` resolves to, given the flags on entry and
      how the one pipeline call in flight, or started by this call, settles.
      Only a call that starts the load itself sees the rejection; a waiter
      gets the handle as it is afterwards, null when the load failed. */
  function InitializeOutcome(handle: Option<Handle>, initializing: bool, outcome: Result<Handle>): (r: Result<Option<Handle>>)
    ensures handle.Some? ==> r == Ok(handle)
    ensures handle.None? && !initializing ==> (r.Err? <==> outcome.Err?)
    ensures handle.None? && !initializing && outcome.Err? ==> r.error == outcome.error
    ensures handle.None? && initializing ==> r.Ok?
    ensures r.Ok? && r.value.Some? ==> r.value == handle || (outcome.Ok? && r.value == Some(outcome.value))
    ensures handle.None? && r.Ok? ==> (r.value.Some? <==> outcome.Ok?)
  {
    if handle.Some? then Ok(handle)
    else if initializing then Ok(if outcome.Ok? then Some(outcome.value) else None)
    else if outcome.Ok? then Ok(Some(outcome.value))
    else Err(outcome.error)
  }

  /** The handle after `initializeGenerator()`: a stored handle is kept,
      otherwise it is the resolved one, or still null after a rejection. */
  function HandleAfter(handle: Option<Handle>, outcome: Result<Handle>): (r: Option<Handle>)
    ensures handle.Some? ==> r == handle
    ensures handle.None? ==> (r.Some? <==> outcome.Ok?) && (r.Some? ==> r.value == outcome.value)
  {
    if handle.Some? then handle
    else if outcome.Ok? then Some(outcome.value)
    else None
  }

  /** The module state of `transformersApi.ts`. The ghost counters record how
      many pipeline calls were started and how many of them rejected. */
  class LocalModel {
    var textGenerator: Option<Handle>
    var isInitializing: bool
    ghost var loads: nat
    ghost var failures: nat

    /** Single flight: a load is in flight only while there is no handle, and
        every pipeline call but the one in flight or the one that succeeded
        has failed. So at most one call is ever in flight, and none is started
        once a handle exists. */
    ghost predicate Valid()
      reads this
    {
      (isInitializing ==> textGenerator.None?) &&
      loads == failures + (if isInitializing || textGenerator.Some? then 1 else 0)
    }

    constructor ()
      ensures Valid() && textGenerator.None? && !isInitializing
      ensures loads == 0 && failures == 0
    {
      textGenerator := None;
      isInitializing := false;
      loads := 0;
      failures := 0;
    }

    /** `getModelStatus()`: never `error`, and a failed load is back at
        `not_loaded`. */
    function GetModelStatus(): (s: ModelStatus)
      reads this
      ensures s != Errored
      ensures s == Ready <==> textGenerator.Some?
      ensures s == Loading <==> textGenerator.None? && isInitializing
      ensures s == NotLoaded <==> textGenerator.None? && !isInitializing
    {
      if textGenerator.Some? then Ready
      else if isInitializing then Loading
      else NotLoaded
    }

    /** `isModelReady()`: a handle is stored. */
    function IsModelReady(): (r: bool)
      reads this
      ensures r <==> GetModelStatus() == Ready
    {
      textGenerator.Some?
    }

    /** The entry of `initializeGenerator`: reuse the handle, wait for the load
        in flight, or start the one load, raising `isInitializing`. */
    method Begin() returns (e: Entry)
      requires Valid()
      modifies this
      ensures Valid()
      ensures old(textGenerator).Some? ==> e == Reuse(old(textGenerator).value) && unchanged(this)
      ensures old(textGenerator).None? && old(isInitializing) ==> e == Wait && unchanged(this)
      ensures old(textGenerator).None? && !old(isInitializing) ==>
                e == StartLoad && isInitializing && textGenerator.None? &&
                loads == old(loads) + 1 && failures == old(failures)
    {
      if textGenerator.Some? {
        e := Reuse(textGenerator.value);
      } else if isInitializing {
        e := Wait;
      } else {
        isInitializing := true;
        loads := loads + 1;
        e := StartLoad;
      }
    }

    /** The pipeline call in flight settles: a resolved handle is stored, a
        rejection leaves the handle null, and `finally` clears the flag. */
    method Settle(outcome: Result<Handle>)
      requires Valid() && isInitializing
      modifies this
      ensures Valid() && !isInitializing
      ensures textGenerator == (if outcome.Ok? then Some(outcome.value) else None)
      ensures GetModelStatus() == (if outcome.Ok? then Ready else NotLoaded)
      ensures loads == old(loads)
      ensures failures == old(failures) + (if outcome.Ok? then 0 else 1)
    {
      if outcome.Ok? {
        textGenerator := Some(outcome.value);
      } else {
        failures := failures + 1;
      }
      isInitializing := false;
    }

    /** One test of the wait loop `while (isInitializing)`: `None` while the
        load is in flight, then the handle as it is, possibly null. */
    method Poll() returns (r: Option<Option<Handle>>)
      ensures r.None? <==> isInitializing
      ensures r.Some? ==> r.value == textGenerator
    {
      if isInitializing {
        r := None;
      } else {
        r := Some(textGenerator);
      }
    }

    /** `initializeGenerator()` run to completion. `outcome` is how the one
        pipeline call in flight, or started here, settles. A pipeline call is
        started only when there is no handle and no load in flight, and never
        a second one while waiting. */
    method InitializeGenerator(outcome: Result<Handle>) returns (r: Result<Option<Handle>>)
      requires Valid()
      modifies this
      ensures Valid() && !isInitializing
      ensures r == InitializeOutcome(old(textGenerator), old(isInitializing), outcome)
      ensures textGenerator == HandleAfter(old(textGenerator), outcome)
      ensures loads == old(loads) + (if old(textGenerator).None? && !old(isInitializing) then 1 else 0)
      ensures failures == old(failures) + (if old(textGenerator).None? && outcome.Err? then 1 else 0)
    {
      var e := Begin();
      match e
      case Reuse(h) =>
        r := Ok(Some(h));
      case Wait =>
        // the load in flight settles while this call polls; it starts none
        Settle(outcome);
        var polled := Poll();
        r := Ok(polled.value);
      case StartLoad =>
        Settle(outcome);
        if outcome.Ok? {
          r := Ok(textGenerator);
        } else {
          r := Err(outcome.error);
        }
    }

    /** `preloadModel()`: loads like `initializeGenerator` and swallows the
        error, so it never rejects. */
    method PreloadModel(outcome: Result<Handle>)
      requires Valid()
      modifies this
      ensures Valid() && !isInitializing
      ensures textGenerator == HandleAfter(old(textGenerator), outcome)
      ensures loads == old(loads) + (if old(textGenerator).None? && !old(isInitializing) then 1 else 0)
    {
      var _ := InitializeGenerator(outcome);
    }

    /** `generateCodeWithTransformers(userMessage)`: load (or reuse) the
        handle, then prompt it; every error is rethrown. */
    method GenerateCodeWithTransformers(userMessage: string, outcome: Result<Handle>,
                                        generate: (Handle, string) -> Result<string>,
                                        id: string, now: int) returns (r: Result<Message>)
      requires Valid()
      modifies this
      ensures Valid() && !isInitializing
      ensures textGenerator == HandleAfter(old(textGenerator), outcome)
      ensures loads == old(loads) + (if old(textGenerator).None? && !old(isInitializing) then 1 else 0)
      ensures failures == old(failures) + (if old(textGenerator).None? && outcome.Err? then 1 else 0)
      ensures r == GenerationResult(InitializeOutcome(old(textGenerator), old(isInitializing), outcome),
                                    userMessage, generate, id, now)
    {
      var init := InitializeGenerator(outcome);
      r := GenerationResult(init, userMessage, generate, id, now);
    }
  }

  /** The languages in the order `extractCodeIntent` tries them, each with the
      keys that select it. */
  const LanguageRules: seq<(string, seq<string>)> := [
    ("typescript", ["typescript", "ts"]),
    ("javascript", ["javascript", "js"]),
    ("rust", ["rust"]),
    ("java", ["java"]),
    ("go", ["go", "golang"])]

  /** The language of the first rule one of whose keys the lower-cased
      message contains; `python` when none does. */
  function FirstRule(lower: string, rules: seq<(string, seq<string>)>): string {
    if rules == [] then "python"
    else if ContainsAny(lower, rules[0].1) then rules[0].0
    else FirstRule(lower, rules[1..])
  }

  /** A language other than the default is that of a rule one of whose keys
      the message holds, with no earlier rule matching. */
  lemma {:induction false} FirstRuleMatches(lower: string, rules: seq<(string, seq<string>)>)
    ensures var language := FirstRule(lower, rules);
            language == "python" ||
            exists i :: 0 <= i < |rules| && rules[i].0 == language && ContainsAny(lower, rules[i].1) &&
              forall j :: 0 <= j < i ==> !ContainsAny(lower, rules[j].1)
  {
    if rules != [] && !ContainsAny(lower, rules[0].1) {
      FirstRuleMatches(lower, rules[1..]);
      var language := FirstRule(lower, rules[1..]);
      if language != "python" {
        var i :| 0 <= i < |rules[1..]| && rules[1..][i].0 == language && ContainsAny(lower, rules[1..][i].1) &&
                 forall j :: 0 <= j < i ==> !ContainsAny(lower, rules[1..][j].1);
        assert forall j :: 0 < j <= i ==> rules[1..][j - 1] == rules[j];
        assert rules[i + 1].0 == language && ContainsAny(lower, rules[i + 1].1);
      }
    } else if rules != [] {
      assert rules[0].0 == FirstRule(lower, rules);
    }
  }

  /** Conversely, when some rule matches, the default is not chosen. */
  lemma {:induction false} FirstRuleFound(lower: string, rules: seq<(string, seq<string>)>)
    requires forall i :: 0 <= i < |rules| ==> rules[i].0 != "python"
    ensures (exists i :: 0 <= i < |rules| && ContainsAny(lower, rules[i].1)) ==> FirstRule(lower, rules) != "python"
  {
    if rules != [] && !ContainsAny(lower, rules[0].1) {
      FirstRuleFound(lower, rules[1..]);
      if exists i :: 0 <= i < |rules| && ContainsAny(lower, rules[i].1) {
        var i :| 0 <= i < |rules| && ContainsAny(lower, rules[i].1);
        assert rules[1..][i - 1] == rules[i];
      }
    }
  }

  function RuleLanguage(lower: string): string {
    FirstRule(lower, LanguageRules)
  }

  lemma ContainsEither(s: string, a: string, b: string)
    ensures ContainsAny(s, [a, b]) <==> Contains(s, a) || Contains(s, b)
  {
    assert [a, b][1..] == [b];
  }

  datatype CodeIntent = CodeIntent(task: string, language: string)

  /** The if/else chain of `extractCodeIntent`, on the lower-cased message. */
  function DetectLanguage(lowerMessage: string): (language: string)
    ensures language in {"typescript", "javascript", "rust", "java", "go", "python"}
  {
    if Contains(lowerMessage, "typescript") || Contains(lowerMessage, "ts") then "typescript"
    else if Contains(lowerMessage, "javascript") || Contains(lowerMessage, "js") then "javascript"
    else if Contains(lowerMessage, "rust") then "rust"
    else if Contains(lowerMessage, "java") then "java"
    else if Contains(lowerMessage, "go") || Contains(lowerMessage, "golang") then "go"
    else "python"
  }

  /** One step of the search: the first rule, or the search over the rest. */
  lemma FirstRuleStep(lower: string, rule: (string, seq<string>), rest: seq<(string, seq<string>)>)
    ensures FirstRule(lower, [rule] + rest) ==
              if ContainsAny(lower, rule.1) then rule.0 else FirstRule(lower, rest)
  {
    assert ([rule] + rest)[1..] == rest;
  }

  /** The chain is the first-match search over the rule table. */
  lemma DetectLanguageFollowsRules(lower: string)
    ensures DetectLanguage(lower) == RuleLanguage(lower)
  {
    var rules := LanguageRules;
    FirstRuleStep(lower, rules[0], rules[1..]);
    FirstRuleStep(lower, rules[1], rules[2..]);
    FirstRuleStep(lower, rules[2], rules[3..]);
    FirstRuleStep(lower, rules[3], rules[4..]);
    FirstRuleStep(lower, rules[4], []);
    assert rules == [rules[0]] + rules[1..];
    assert rules[1..] == [rules[1]] + rules[2..];
    assert rules[2..] == [rules[2]] + rules[3..];
    assert rules[3..] == [rules[3]] + rules[4..];
    assert rules[4..] == [rules[4]] + [];
    ContainsEither(lower, "typescript", "ts");
    ContainsEither(lower, "javascript", "js");
    ContainsEither(lower, "go", "golang");
    assert ContainsAny(lower, ["rust"]) == Contains(lower, "rust");
    assert ContainsAny(lower, ["java"]) == Contains(lower, "java");
  }

  /** `extractCodeIntent(userMessage)`: the task is the message as given; the
      language follows the rules in order, on the lower-cased message. */
  function ExtractCodeIntent(userMessage: string): (r: CodeIntent)
    ensures r.task == userMessage
    ensures r.language == RuleLanguage(ToLower(userMessage))
  {
    var lowerMessage := ToLower(userMessage);
    DetectLanguageFollowsRules(lowerMessage);
    CodeIntent(userMessage, DetectLanguage(lowerMessage))
  }

  /** The prompt: the task as a comment, then the start of a Python
      definition, whatever language was detected. */
  function Prompt(task: string): (p: string)
    ensures |p| == |task| + 7
    ensures StartsWith(p, "# ") && p[2..2 + |task|] == task && p[2 + |task|..] == "\ndef "
  {
    "# " + task + "\ndef "
  }

  /** Different tasks give different prompts. */
  lemma PromptInjective(a: string, b: string)
    requires Prompt(a) == Prompt(b)
    ensures a == b
  {
    assert a == Prompt(a)[2..2 + |a|];
  }

  /** The clean-up step: a text that starts with the prompt is rebuilt as
      the prompt followed by the rest, which is the text itself. */
  function CleanOutput(generatedCode: string, prompt: string): (r: string)
    ensures r == generatedCode
  {
    if StartsWith(generatedCode, prompt) then
      assert generatedCode == generatedCode[..|prompt|] + generatedCode[|prompt|..];
      prompt + generatedCode[|prompt|..]
    else
      generatedCode
  }

  function SolutionContent(language: string): string {
    "Here's a " + language + " solution using local AI ⟡"
  }

  /** What `generateCodeWithTransformers` resolves to, given what
      `initializeGenerator` resolved to. A null handle cannot be called; a
      failed load or model call is rethrown; otherwise the reply carries the
      model's text as code and names the detected language. */
  function GenerationResult(init: Result<Option<Handle>>, userMessage: string,
                            generate: (Handle, string) -> Result<string>,
                            id: string, now: int): (r: Result<Message>)
    ensures init.Err? ==> r == Err(init.error)
    ensures init.Ok? && init.value.None? ==> r == Err(GenerationFailed)
    ensures init.Ok? && init.value.Some? ==>
              var reply := generate(init.value.value, Prompt(userMessage));
              (r.Ok? <==> reply.Ok?) && (reply.Err? ==> r.error == reply.error)
    ensures r.Ok? ==>
              var language := ExtractCodeIntent(userMessage).language;
              WellFormedReply(r.value) && r.value.id == id && r.value.timestamp == Clock(now) &&
              r.value.code == Some(generate(init.value.value, Prompt(userMessage)).value) &&
              r.value.language == Some(language) && r.value.content == SolutionContent(language)
  {
    match init
    case Err(e) => Err(e)
    case Ok(None) => Err(GenerationFailed)
    case Ok(Some(generator)) =>
      var intent := ExtractCodeIntent(userMessage);
      var prompt := Prompt(intent.task);
      match generate(generator, prompt)
      case Err(e) => Err(e)
      case Ok(generatedCode) =>
        var code := CleanOutput(generatedCode, prompt);
        Ok(Message(id, Assistant, SolutionContent(intent.language), Some(code), Some(intent.language), Clock(now)))
  }

  /** `"golang"` is checked after `"go"`, which it contains, so it never
      decides anything: the `go` rule fires exactly on `"go"`. */
  lemma GolangIsRedundant(lower: string)
    ensures ContainsAny(lower, LanguageRules[4].1) <==> Contains(lower, "go")
  {
    if Contains(lower, "golang") {
      assert "golang" == "go" + "lang";
      ContainsPrefixOfKey(lower, "go", "lang");
    }
  }

  /** A non-default language is one whose key the lower-cased message holds,
      and no earlier language's key is in it; the default is chosen exactly
      when no language's key is in it. */
  lemma DetectedLanguageHasKey(userMessage: string)
    ensures var language := ExtractCodeIntent(userMessage).language;
            language != "python" ==>
              exists i :: 0 <= i < |LanguageRules| && LanguageRules[i].0 == language &&
                ContainsAny(ToLower(userMessage), LanguageRules[i].1) &&
                forall j :: 0 <= j < i ==> !ContainsAny(ToLower(userMessage), LanguageRules[j].1)
    ensures ExtractCodeIntent(userMessage).language == "python" <==>
              forall i :: 0 <= i < |LanguageRules| ==> !ContainsAny(ToLower(userMessage), LanguageRules[i].1)
  {
    FirstRuleMatches(ToLower(userMessage), LanguageRules);
    FirstRuleFound(ToLower(userMessage), LanguageRules);
  }

  /** The checks are plain substring tests: the `ts` of "lists" selects
      TypeScript, ... */
  lemma ListsIsTypeScript()
    ensures ExtractCodeIntent("lists") == CodeIntent("lists", "typescript")
  {
    LowerIdentity("lists");
    assert OccursAt("lists", "ts", 3);
  }

  /** A message with no `s`, `j` or `u` holds none of the keys tried before
      Go's, so `go` anywhere in it selects Go. */
  lemma GoWhenNoEarlierKey(lower: string)
    requires 's' !in lower && 'j' !in lower && 'u' !in lower && Contains(lower, "go")
    ensures DetectLanguage(lower) == "go"
  {
    AbsentCharOf(lower, "typescript", 's');
    AbsentCharOf(lower, "ts", 's');
    AbsentCharOf(lower, "javascript", 'j');
    AbsentCharOf(lower, "js", 'j');
    AbsentCharOf(lower, "rust", 'u');
    AbsentCharOf(lower, "java", 'j');
  }

  lemma AlgorithmHasGo()
    ensures Contains("algorithm", "go")
  {
    assert OccursAt("algorithm", "go", 2);
  }

  /** ... and the `go` of "algorithm" selects Go. */
  lemma AlgorithmIsGo()
    ensures DetectLanguage("algorithm") == "go"
  {
    AlgorithmHasGo();
    GoWhenNoEarlierKey("algorithm");
  }
}
