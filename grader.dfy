/**
 * `grader.py`: assemble the submission, load the `.env` file, ask the language
 * model for a yes/no verdict through a chain of models and clients, turn the
 * verdict into a grade and ask for follow-up feedback.
 */
module Grader {
  import opened Types
  import opened Text
  import opened EnvFile

  // ------------------------------------------------------------------
  // load_code: the submission text
  // ------------------------------------------------------------------

  /** The file exists and is not empty. */
  predicate Readable(files: map<string, string>, name: string) {
    name in files && files[name] != ""
  }

  /** A file's text under its `# === name ===` header. */
  function Section(name: string, text: string): string {
    "# === " + name + " ===\n" + text
  }

  /** The sections of the listed files, in list order. */
  function Sections(names: seq<string>, files: map<string, string>): (parts: seq<string>)
    requires forall i :: 0 <= i < |names| ==> names[i] in files
    ensures |parts| == |names|
    ensures forall i :: 0 <= i < |names| ==> parts[i] == Section(names[i], files[names[i]])
  {
    if names == [] then []
    else Sections(names[..|names| - 1], files) + [Section(names[|names| - 1], files[names[|names| - 1]])]
  }

  /** The message of the FileNotFoundError raised for a missing or empty file. */
  function MissingFileNote(name: string): string {
    "Required file missing or empty: " + name
  }

  /** The index of the first listed file that is missing or empty. */
  function FirstUnreadable(names: seq<string>, files: map<string, string>): (r: Option<nat>)
    ensures r.None? <==> forall i :: 0 <= i < |names| ==> Readable(files, names[i])
    ensures r.Some? ==> r.value < |names| && !Readable(files, names[r.value])
    ensures r.Some? ==> forall i :: 0 <= i < r.value ==> Readable(files, names[i])
  {
    if names == [] then None
    else if !Readable(files, names[0]) then Some(0)
    else match FirstUnreadable(names[1..], files)
      case None => None
      case Some(i) => Some(i + 1)
  }

  /** What `load_code` returns or raises for the file list `names`. */
  function Submission(names: seq<string>, files: map<string, string>): (r: Result<string, IOError>)
    ensures r.Success? <==> forall i :: 0 <= i < |names| ==> Readable(files, names[i])
    ensures r.Success? ==> r.value == Join(Sections(names, files), "\n\n")
    ensures r.Failure? ==>
      exists i :: 0 <= i < |names| && !Readable(files, names[i])
        && (forall j :: 0 <= j < i ==> Readable(files, names[j]))
        && r.error == FileNotFound(MissingFileNote(names[i]))
  {
    match FirstUnreadable(names, files)
    case Some(i) => Failure(FileNotFound(MissingFileNote(names[i])))
    case None => Success(Join(Sections(names, files), "\n\n"))
  }

  /** A one-file submission is that file's header followed by its text. */
  lemma SubmissionOfOneFile(name: string, files: map<string, string>)
    requires Readable(files, name)
    ensures Submission([name], files) == Success("# === " + name + " ===\n" + files[name])
  {
    assert Sections([name], files)[0] == Section(name, files[name]);
  }

  /** A submission starts with the first file's header and ends with the last file's text. */
  lemma SubmissionShape(names: seq<string>, files: map<string, string>)
    requires |names| > 0 && Submission(names, files).Success?
    ensures StartsWith(Submission(names, files).value, "# === " + names[0] + " ===\n")
    ensures EndsWith(Submission(names, files).value, files[names[|names| - 1]])
  {
    var parts := Sections(names, files);
    var text := Join(parts, "\n\n");
    var head := "# === " + names[0] + " ===\n";
    assert parts[0] == head + files[names[0]];
    assert text[..|parts[0]|] == parts[0];
    assert text[..|head|] == parts[0][..|head|];
    var last := files[names[|names| - 1]];
    assert parts[|parts| - 1] == "# === " + names[|names| - 1] + " ===\n" + last;
    assert text[|text| - |parts[|parts| - 1]|..] == parts[|parts| - 1];
    assert text[|text| - |last|..] == parts[|parts| - 1][|parts[|parts| - 1]| - |last|..];
  }

  /** `load_code(names)` over the filesystem `files`. */
  method LoadCode(names: seq<string>, files: map<string, string>) returns (r: Result<string, IOError>)
    ensures r == Submission(names, files)
  {
    var buf: seq<string> := [];
    for i := 0 to |names|
      invariant forall k :: 0 <= k < i ==> Readable(files, names[k])
      invariant buf == Sections(names[..i], files)
    {
      var name := names[i];
      if name !in files || |files[name]| == 0 {
        return Failure(FileNotFound(MissingFileNote(name)));
      }
      assert names[..i + 1][..i] == names[..i];
      buf := buf + [Section(name, files[name])];
    }
    assert names[..|names|] == names;
    return Success(Join(buf, "\n\n"));
  }

  // ------------------------------------------------------------------
  // load_env_vars: grader.py's own copy of the .env loader
  // ------------------------------------------------------------------

  /** The message of the FileNotFoundError raised when the `.env` file is missing. */
  function MissingEnvNote(path: string): string {
    "Environment file not found: " + path
  }

  /** `load_env_vars(path)`: like `load_env.load`, with a message naming the missing file. */
  method LoadEnvVars(env: Environment, files: map<string, string>, path: string) returns (r: Outcome<IOError>)
    modifies env
    ensures path !in files ==> r == Fail(FileNotFound(MissingEnvNote(path))) && env.vars == old(env.vars)
    ensures path in files ==> r == Pass && env.vars == Loaded(old(env.vars), SplitLines(files[path]))
  {
    if path !in files {
      return Fail(FileNotFound(MissingEnvNote(path)));
    }
    var lines := SplitLines(files[path]);
    for i := 0 to |lines|
      invariant env.vars == Loaded(old(env.vars), lines[..i])
    {
      LoadedPrefix(old(env.vars), lines, i);
      var line := Strip(lines[i]);
      if Skipped(line) {
        continue;
      }
      var j := FirstIndex(line, '=');
      assert ParseLine(lines[i]) == Some(Entry(line[..j], line[j + 1..]));
      env.SetDefault(line[..j], line[j + 1..]);
    }
    assert lines[..|lines|] == lines;
    return Pass;
  }

  // ------------------------------------------------------------------
  // call_openai: which models and clients are tried, in which order
  // ------------------------------------------------------------------

  /** The primary model followed by its fallbacks. */
  const MODEL_CHAIN: seq<string> := ["gpt-4.1-nano-2025-04-14", "gpt-4o-mini", "gpt-3.5-turbo"]

  /** A command-line override counts only when it is a non-empty string (Python truthiness). */
  predicate Overrides(override: Option<string>) {
    override.Some? && override.value != ""
  }

  /** `models_to_try`: the override, if any, replaces the primary model. */
  function ModelsToTry(override: Option<string>): (models: seq<string>)
    ensures |models| == |MODEL_CHAIN| == 3
    ensures !Overrides(override) ==> models == MODEL_CHAIN
    ensures Overrides(override) ==> models[0] == override.value && models[1..] == MODEL_CHAIN[1..]
  {
    if Overrides(override) then [override.value] + MODEL_CHAIN[1..] else MODEL_CHAIN
  }

  /** The two OpenAI clients: the direct one and the default (fallback) one. */
  datatype Route = Direct | Fallback

  /** Which clients were configured. */
  datatype Clients = Clients(direct: bool, fallback: bool)

  /** One request: a model sent through a client. */
  datatype Attempt = Attempt(route: Route, model: string)

  /** Every model of `models`, in order, through `route`. */
  function Through(route: Route, models: seq<string>): (attempts: seq<Attempt>)
    ensures |attempts| == |models|
    ensures forall i :: 0 <= i < |models| ==> attempts[i] == Attempt(route, models[i])
  {
    if models == [] then [] else [Attempt(route, models[0])] + Through(route, models[1..])
  }

  /** Attempts made before the fallback client is used. */
  function DirectCount(clients: Clients, models: seq<string>): nat {
    if clients.direct then |models| else 0
  }

  /** Every attempt `call_openai` may make, in the order it makes them. */
  function Plan(clients: Clients, models: seq<string>): seq<Attempt> {
    (if clients.direct then Through(Direct, models) else [])
      + (if clients.fallback then Through(Fallback, models) else [])
  }

  /** The plan runs every model through the direct client, then every model through the fallback one. */
  lemma PlanOrder(clients: Clients, models: seq<string>)
    ensures |Plan(clients, models)| == DirectCount(clients, models) + (if clients.fallback then |models| else 0)
    ensures forall i :: 0 <= i < DirectCount(clients, models) ==> Plan(clients, models)[i] == Attempt(Direct, models[i])
    ensures forall i :: DirectCount(clients, models) <= i < |Plan(clients, models)| ==>
      Plan(clients, models)[i] == Attempt(Fallback, models[i - DirectCount(clients, models)])
  {
  }

  /** Every direct attempt comes before every fallback attempt. */
  lemma DirectBeforeFallback(clients: Clients, models: seq<string>, i: nat, j: nat)
    requires i < j < |Plan(clients, models)|
    requires Plan(clients, models)[i].route == Fallback
    ensures Plan(clients, models)[j].route == Fallback
  {
    PlanOrder(clients, models);
  }

  /** With both clients and no override, the six attempts run the chain twice. */
  lemma FullPlan()
    ensures Plan(Clients(true, true), ModelsToTry(None)) == [
      Attempt(Direct, "gpt-4.1-nano-2025-04-14"), Attempt(Direct, "gpt-4o-mini"),
      Attempt(Direct, "gpt-3.5-turbo"), Attempt(Fallback, "gpt-4.1-nano-2025-04-14"),
      Attempt(Fallback, "gpt-4o-mini"), Attempt(Fallback, "gpt-3.5-turbo")]
  {
  }

  /** What the service answers to one attempt: its output text, or the exception's message. */
  datatype Reply = Ok(outputText: string) | Err(message: string)

  /** `last_err` after `attempt` failed with `reply`. */
  function FailureNote(attempt: Attempt, reply: Reply): string {
    (if attempt.route == Direct then "Direct API failed: " else "Fallback API failed: ")
      + (if reply.Err? then reply.message else "")
  }

  /** `last_err` after the first `n` attempts have failed: `None` before any attempt. */
  function LastError(plan: seq<Attempt>, replies: seq<Reply>, n: nat): Option<string>
    requires n <= |plan| == |replies|
  {
    if n == 0 then None else Some(FailureNote(plan[n - 1], replies[n - 1]))
  }

  /** Python's rendering of `last_err` in an f-string. */
  function Show(lastErr: Option<string>): string {
    match lastErr
    case None => "None"
    case Some(s) => s
  }

  /** Reply `i` is the first successful one. */
  predicate FirstOkAt(replies: seq<Reply>, i: int) {
    0 <= i < |replies| && replies[i].Ok? && forall k :: 0 <= k < i ==> replies[k].Err?
  }

  /** The index of the first successful reply. */
  function FirstOk(replies: seq<Reply>): (r: Option<nat>)
    ensures r.None? <==> forall k :: 0 <= k < |replies| ==> replies[k].Err?
    ensures r.Some? ==> FirstOkAt(replies, r.value)
    ensures forall i :: FirstOkAt(replies, i) ==> r == Some(i)
  {
    if replies == [] then None
    else if replies[0].Ok? then Some(0)
    else match FirstOk(replies[1..])
      case None => None
      case Some(i) => Some(i + 1)
  }

  /**
   * What `call_openai` returns or raises when attempt `i` of `plan` gets
   * `replies[i]`: the stripped text of the first success, or a RuntimeError
   * quoting the last failure once every attempt has failed.
   */
  function Call(plan: seq<Attempt>, replies: seq<Reply>): (r: Result<string, string>)
    requires |plan| == |replies|
    ensures r.Success? <==> exists i :: 0 <= i < |replies| && replies[i].Ok?
    ensures r.Success? ==> exists i :: FirstOkAt(replies, i) && r.value == Strip(replies[i].outputText)
    ensures r.Failure? ==> r.error == "All API attempts failed: " + Show(LastError(plan, replies, |plan|))
  {
    match FirstOk(replies)
    case Some(i) => Success(Strip(replies[i].outputText))
    case None => Failure("All API attempts failed: " + Show(LastError(plan, replies, |plan|)))
  }

  /** When every attempt fails, the error quotes the last attempt, or `None` when there was none. */
  lemma AllFailedNamesLastAttempt(plan: seq<Attempt>, replies: seq<Reply>)
    requires |plan| == |replies| > 0
    requires forall k :: 0 <= k < |replies| ==> replies[k].Err?
    ensures Call(plan, replies) == Failure("All API attempts failed: "
      + (if plan[|plan| - 1].route == Direct then "Direct API failed: " else "Fallback API failed: ")
      + replies[|replies| - 1].message)
  {
    var last := plan[|plan| - 1];
    var prefix := if last.route == Direct then "Direct API failed: " else "Fallback API failed: ";
    assert FailureNote(last, replies[|replies| - 1]) == prefix + replies[|replies| - 1].message;
    assert "All API attempts failed: " + (prefix + replies[|replies| - 1].message)
        == "All API attempts failed: " + prefix + replies[|replies| - 1].message;
  }

  /** The replies after the first success are never looked at. */
  lemma {:induction false} LaterRepliesIgnored(plan: seq<Attempt>, replies: seq<Reply>, other: seq<Reply>, i: nat)
    requires |plan| == |replies| == |other|
    requires FirstOkAt(replies, i) && replies[..i + 1] == other[..i + 1]
    ensures Call(plan, replies) == Call(plan, other)
  {
    assert forall k :: 0 <= k <= i ==> replies[k] == replies[..i + 1][k] == other[..i + 1][k] == other[k];
    assert FirstOkAt(other, i);
  }

  /**
   * One `for model in models_to_try` loop of `call_openai`: send each model
   * through the client `route`, returning the first success. The attempts of
   * this loop are numbered from `start` on, as in `plan`.
   */
  method TryClient(route: Route, models: seq<string>, ghost plan: seq<Attempt>, replies: seq<Reply>,
                   start: nat, lastErr: Option<string>)
    returns (text: Option<string>, next: nat, lastErr': Option<string>)
    requires |plan| == |replies| && start + |models| <= |plan|
    requires plan[start..start + |models|] == Through(route, models)
    requires forall k :: 0 <= k < start ==> replies[k].Err?
    requires lastErr == LastError(plan, replies, start)
    ensures text.Some? ==> FirstOkAt(replies, next) && text.value == Strip(replies[next].outputText)
    ensures text.None? ==> next == start + |models| && (forall k :: 0 <= k < next ==> replies[k].Err?)
    ensures text.None? ==> lastErr' == LastError(plan, replies, next)
  {
    next, lastErr' := start, lastErr;
    for i := 0 to |models|
      invariant next == start + i
      invariant forall k :: 0 <= k < next ==> replies[k].Err?
      invariant lastErr' == LastError(plan, replies, next)
    {
      var attempt := Attempt(route, models[i]);
      assert plan[next] == plan[start..start + |models|][i] == attempt;
      var reply := replies[next];
      if reply.Ok? {
        return Some(Strip(reply.outputText)), next, lastErr';
      }
      lastErr' := Some(FailureNote(attempt, reply));
      next := next + 1;
    }
    text := None;
  }

  /**
   * `call_openai(dev_msg, user_msg, override)`: try every model with the direct
   * client, if configured, then every model with the fallback client, if
   * configured. The service's answers arrive as `replies`, one per planned
   * attempt; the messages sent do not influence them and are not modelled.
   */
  method CallOpenAI(clients: Clients, override: Option<string>, replies: seq<Reply>) returns (r: Result<string, string>)
    requires |replies| == |Plan(clients, ModelsToTry(override))|
    ensures r == Call(Plan(clients, ModelsToTry(override)), replies)
  {
    var models := ModelsToTry(override);
    ghost var plan := Plan(clients, models);
    var lastErr: Option<string> := None;
    var next := 0;
    var text: Option<string>;
    ghost var direct := if clients.direct then Through(Direct, models) else [];
    assert plan == direct + (if clients.fallback then Through(Fallback, models) else []);
    assert plan[..|direct|] == direct;
    if clients.direct {
      text, next, lastErr := TryClient(Direct, models, plan, replies, 0, lastErr);
      if text.Some? {
        return Success(text.value);
      }
    }
    if clients.fallback {
      assert next == |direct|;
      assert plan[next..] == Through(Fallback, models);
      text, next, lastErr := TryClient(Fallback, models, plan, replies, next, lastErr);
      if text.Some? {
        return Success(text.value);
      }
    }
    assert next == |plan|;
    assert FirstOk(replies) == None;
    return Failure("All API attempts failed: " + Show(lastErr));
  }

  // ------------------------------------------------------------------
  // grade: verdict, follow-up feedback, final report
  // ------------------------------------------------------------------

  /** The grade and warning derived from the model's yes/no reply. */
  datatype Verdict = Verdict(passed: bool, grade: nat, warning: Option<string>)

  /** The note appended to the feedback when the reply was neither yes nor no. */
  function UnexpectedNote(yn: string): string {
    "\U{26A0}\U{FE0F} Note: The "
      + "grader received an unexpected response: '" + yn + "'. Expected 'yes' or 'no'."
  }

  /** The verdict for the lower-cased reply `yn`. */
  function Decide(yn: string): (v: Verdict)
    ensures v.grade == 50 || v.grade == 100
    ensures v.passed <==> v.grade == 100
    ensures v.passed <==> StartsWith(yn, "y")
    ensures v.warning.Some? <==> !StartsWith(yn, "y") && !StartsWith(yn, "n")
    ensures v.warning.Some? ==> v.warning.value == UnexpectedNote(yn)
  {
    if StartsWith(yn, "y") then Verdict(true, 100, None)
    else if StartsWith(yn, "n") then Verdict(false, 50, None)
    else Verdict(false, 50, Some(UnexpectedNote(yn)))
  }

  /** How the verdict reads the (stripped) reply `call_openai` returns, before lower-casing: only its first character counts, in either case. */
  lemma VerdictOfReply(reply: string)
    ensures Decide(Lower(reply)).passed <==> |reply| > 0 && (reply[0] == 'y' || reply[0] == 'Y')
    ensures Decide(Lower(reply)).warning.None? <==>
      |reply| > 0 && (reply[0] == 'y' || reply[0] == 'Y' || reply[0] == 'n' || reply[0] == 'N')
  {
    var yn := Lower(reply);
    StartsWithChar(yn, 'y');
    StartsWithChar(yn, 'n');
  }

  /** A request to the model: its instructions and the user's content. */
  datatype Request = Request(instructions: string, input: string)

  const PRAISE_INSTRUCTIONS := "You are a kind mentor. Give one upbeat sentence of praise."
  const EXPLAIN_INSTRUCTIONS := "You are a kind mentor. In <=2 short sentences explain "
    + "why the code might not run. Keep it friendly for an 11\U{2011}yo."

  /** The follow-up request: praise without the code, or an explanation of the code. */
  function FollowUpRequest(v: Verdict, code: string): Request {
    if v.passed then Request(PRAISE_INSTRUCTIONS, "") else Request(EXPLAIN_INSTRUCTIONS, code)
  }

  /** The follow-up text, with the unexpected-reply note appended when there is one. */
  function FinalFeedback(text: string, v: Verdict): string {
    match v.warning
    case None => text
    case Some(w) => text + "\n\n" + w
  }

  /** The message sent to Codio with grade 0 when the verdict call fails. */
  function ApiErrorNote(error: string): string {
    "\U{26A0}\U{FE0F} Autograder API error: " + error
  }

  /** How one run of `grade` ends. */
  datatype GradeOutcome =
    | Crashed(error: string)              // an exception escaped `grade`
    | ApiFailure(message: string)        // the verdict call failed and was reported
    | Graded(grade: nat, passed: bool, feedback: string)

  /** How a run ended, and the follow-up request it made, if it got that far. */
  datatype Run = Run(outcome: GradeOutcome, followUp: Option<Request>)

  /**
   * The run of `grade` given the assembled submission and the results of the
   * verdict call and the feedback call.
   */
  function GradeRun(code: Result<string, IOError>, verdictCall: Result<string, string>,
                    feedbackCall: Result<string, string>): (run: Run)
    ensures code.Failure? ==> run == Run(Crashed(code.error.message), None)
    ensures code.Success? && verdictCall.Failure? ==> run == Run(ApiFailure(ApiErrorNote(verdictCall.error)), None)
    ensures code.Success? && verdictCall.Success? ==>
      var yn := Lower(verdictCall.value);
      var passed := StartsWith(yn, "y");
      && run.followUp == Some(if passed then Request(PRAISE_INSTRUCTIONS, "") else Request(EXPLAIN_INSTRUCTIONS, code.value))
      && (feedbackCall.Failure? ==> run.outcome == Crashed(feedbackCall.error))
      && (feedbackCall.Success? ==>
            && run.outcome.Graded? && run.outcome.passed == passed
            && run.outcome.grade == (if passed then 100 else 50)
            && run.outcome.feedback == if passed || StartsWith(yn, "n") then feedbackCall.value
                                       else feedbackCall.value + "\n\n" + UnexpectedNote(yn))
  {
    match code
    case Failure(e) => Run(Crashed(e.message), None)
    case Success(text) =>
      match verdictCall
      case Failure(e) => Run(ApiFailure(ApiErrorNote(e)), None)
      case Success(reply) =>
        var v := Decide(Lower(reply));
        var req := FollowUpRequest(v, text);
        match feedbackCall
        case Failure(e) => Run(Crashed(e), Some(req))
        case Success(fb) => Run(Graded(v.grade, v.passed, FinalFeedback(fb, v)), Some(req))
  }

  /** A graded run always gives 50 or 100, and 100 exactly when it passed. */
  lemma GradeIsFiftyOrHundred(code: Result<string, IOError>, verdictCall: Result<string, string>,
                              feedbackCall: Result<string, string>)
    requires GradeRun(code, verdictCall, feedbackCall).outcome.Graded?
    ensures var g := GradeRun(code, verdictCall, feedbackCall).outcome;
      (g.grade == 50 || g.grade == 100) && (g.passed <==> g.grade == 100)
  {
  }

  /** The follow-up call sees the code only when the submission did not pass. */
  lemma FollowUpSeesCodeOnlyOnFailure(code: Result<string, IOError>, verdictCall: Result<string, string>,
                                      feedbackCall: Result<string, string>)
    requires GradeRun(code, verdictCall, feedbackCall).outcome.Graded?
    ensures var run := GradeRun(code, verdictCall, feedbackCall);
      run.followUp.Some? && run.followUp.value.input == if run.outcome.passed then "" else code.value
  {
  }

  /**
   * `grade`: assemble the submission, ask for the verdict, ask for feedback.
   * The verdict call's failure is caught and reported; a missing file or a
   * failing feedback call propagates.
   */
  method Grade(names: seq<string>, files: map<string, string>, clients: Clients, override: Option<string>,
               verdictReplies: seq<Reply>, feedbackReplies: seq<Reply>) returns (run: Run)
    requires |verdictReplies| == |Plan(clients, ModelsToTry(override))|
    requires |feedbackReplies| == |Plan(clients, ModelsToTry(override))|
    ensures var plan := Plan(clients, ModelsToTry(override));
      run == GradeRun(Submission(names, files), Call(plan, verdictReplies), Call(plan, feedbackReplies))
  {
    var code := LoadCode(names, files);
    if code.Failure? {
      return Run(Crashed(code.error.message), None);
    }
    var verdictCall := CallOpenAI(clients, override, verdictReplies);
    if verdictCall.Failure? {
      return Run(ApiFailure(ApiErrorNote(verdictCall.error)), None);
    }
    var yn := Lower(verdictCall.value);
    var v := Decide(yn);
    var request := FollowUpRequest(v, code.value);
    var feedbackCall := CallOpenAI(clients, override, feedbackReplies);
    if feedbackCall.Failure? {
      return Run(Crashed(feedbackCall.error), Some(request));
    }
    var feedback := FinalFeedback(feedbackCall.value, v);
    return Run(Graded(v.grade, v.passed, feedback), Some(request));
  }
}
