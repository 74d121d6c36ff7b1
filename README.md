# Codio grader: a verified model of its core

The Codio grader is a small Python autograder. It collects a student's
files into one submission. It asks an OpenAI language model whether the
submission meets the assignment, and the model answers yes or no. The answer
becomes a grade (100 or 50), and a second call asks for a sentence of
feedback. Before any of this, `grader.py` reads a `.env` file into the process
environment.

This project models that core in Dafny and proves what it promises:

- **`.env` loading** (`load_env.load`, and its copy `grader.load_env_vars`).
  Each line is stripped. Blank lines, `#` comments and lines without `=` are
  skipped. Every other line is split at its first `=`, and the pair is added
  with `os.environ.setdefault`. `EnvFile` gives the reference reading of a
  file: a folded `Loaded` function and a per-key `FirstValue`. Its lemmas
  cover:
  - a variable that is already set keeps its value;
  - for an unset variable, the first line that assigns it wins;
  - the set of keys after loading;
  - loading twice equals loading once;
  - a skipped line can be removed without changing the result.

  `LoadEnv.Load` and `Grader.LoadEnvVars` are the imperative loaders. They
  update an `Environment` object (`os.environ`) line by line, and each is
  proved to end in `Loaded`.
- **Submission assembly** (`load_code`). Each file goes under a
  `# === name ===` header, and the sections are joined by blank lines. The
  first missing or empty file raises `FileNotFoundError`.
- **Model fallback** (`call_openai`). Every model of the chain goes through
  the direct client, then every model through the fallback client. The first
  success is returned, stripped. When all attempts fail, the `RuntimeError`
  quotes the last failure. The service is an oracle: a sequence holding one
  reply per planned attempt.
- **Verdict and feedback** (`grade`):
  - a reply starting with `y` passes with 100;
  - any other reply gets 50;
  - a reply starting with neither `y` nor `n` adds a warning to the feedback;
  - the follow-up call sees the code only when the submission did not pass;
  - a failing verdict call is reported, while a failing feedback call or a
    missing file propagates.

The filesystem is a map from path to text. The process environment is the
`vars` field of `EnvFile.Environment`.

Files:
- `types.dfy` (`Option`, `Result`, `Outcome`, `IOError`)
- `text.dfy` (the `str` methods used)
- `env_file.dfy` (the `.env` format and `os.environ`)
- `load_env.dfy` (`load_env.load`)
- `grader.dfy` (the modelled parts of `grader.py`)

## Model

| member | source | states |
|---|---|---|
| `Text.StartsWithChar` | grader.py:321-324 | `startswith` of a one-character string holds exactly when the string is non-empty and starts with that character |
| `Text.IsSpace` | load_env.py:10 | the ASCII whitespace set of `str.strip()`; used by the contracts of `Text.StripLeft`, `Text.StripRight` and `Text.StripSpec` |
| `Text.StripLeft` | load_env.py:10 | the result is a suffix of `s`; every character removed is whitespace; the result does not start with whitespace |
| `Text.StripRight` | load_env.py:10 | the result is a prefix of `s`; every character removed is whitespace; the result does not end with whitespace |
| `Text.StartsWith` | load_env.py:11 | `s.startswith(p)`: `p` is a prefix of `s`; for one character, see `Text.StartsWithChar` |
| `Text.Strip` | load_env.py:10 | `s.strip()` as `rstrip` after `lstrip`; its properties are stated by `Text.StripSpec`, `Text.StripUntrimmed` and `Text.StripIdempotent` |
| `Text.StripSpec` | load_env.py:10 | `strip()` returns a slice of its input that neither starts nor ends with whitespace, with only whitespace before and after it, and returns the empty string exactly when the input is all whitespace |
| `Text.StripSlice` | grader.py:130 | the slice `strip()` keeps has only whitespace before and after it |
| `Text.StripUntrimmed` | grader.py:130 | a string with no whitespace at either end is returned unchanged |
| `Text.StripIdempotent` | grader.py:184 | stripping twice is stripping once |
| `Text.LowerChar` | grader.py:309 | capital ASCII letters map to their lower-case letter; every other character is unchanged |
| `Text.Lower` | grader.py:309 | `lower()` keeps the length and lower-cases each character in place |
| `Text.FirstIndex` | load_env.py:13 | returns the position of `c` with no earlier `c` |
| `Text.SplitLines` | load_env.py:9 | no line of the result contains a line break |
| `Text.SplitUnlines` | grader.py:129 | splitting text written from break-free lines returns those lines |
| `Text.UnlinesSplit` | grader.py:129 | writing the lines back out returns the text, with a final line break added when it had none |
| `Text.Join` | grader.py:116 | the joined string starts with the first part and ends with the last part; one part is returned unchanged |
| `Text.JoinCons` | grader.py:116 | joining a first part and the rest is the first part, the separator, then the rest joined |
| `EnvFile.ParseLine` | load_env.py:10-13 | a line is skipped exactly when its stripped form is blank, a comment, or has no `=`; otherwise the stripped line is `key=value` with no `=` in `key` |
| `EnvFile.SplitAtFirstEquals` | load_env.py:13 | `split("=", 1)`: the key is the text before the first `=`, and the value keeps every later `=` |
| `EnvFile.LeadingSpaceIgnored` | load_env.py:10-13 | whitespace before a line, including the separators U+001C to U+001F, does not change how the line parses |
| `EnvFile.WithDefault` | load_env.py:14 | `setdefault` adds the key only when it is absent and never changes an existing variable |
| `EnvFile.Skipped` | load_env.py:11 | the three skip tests: blank, starting with `#`, or holding no `=`; used by `EnvFile.ParseLine` and both loaders |
| `EnvFile.ParseLines` | load_env.py:9-13 | one parse per line, in order, proved the same length; its per-line content is stated by `EnvFile.ParseLinesAt` and `EnvFile.ParseLinesConcat` |
| `EnvFile.Step` | load_env.py:11-14 | one iteration of the loop: a skipped line changes nothing, and an accepted one is `setdefault`; see `EnvFile.LoadedPrefix` |
| `EnvFile.Apply` | load_env.py:9-14 | the loop as a fold of `Step` over the parsed lines; related to the per-key reference by `EnvFile.ApplyAt` |
| `EnvFile.Loaded` | load_env.py:9-14 | the environment after loading a file: `Apply` to its parsed lines; the loaders are proved to end in it |
| `EnvFile.FirstValue` | load_env.py:9-14 | the independent reference reading: the value of the first line that assigns a key; characterised by `EnvFile.FirstValueSpec` |
| `EnvFile.ParseLinesAt` | load_env.py:9-13 | the entry for line `i` is the parse of line `i` |
| `EnvFile.ParseLinesConcat` | load_env.py:9-13 | parsing line by line distributes over concatenating files |
| `EnvFile.LoadedPrefix` | load_env.py:9-14 | loading one more line applies exactly that line's step |
| `EnvFile.FirstValueSpec` | load_env.py:9-14 | the reference value of a key is missing exactly when no line assigns it; otherwise it is the value of the first line that does |
| `EnvFile.FirstValueSnoc` | load_env.py:9-14 | a line added at the end matters only for a key that no earlier line assigns |
| `EnvFile.ApplyAt` | load_env.py:9-14 | after loading, a variable is set if and only if it was set before or some line assigns it; its value is the old value if there was one, else the first assigned value |
| `EnvFile.LoadedKeys` | load_env.py:9-14 | the variables after loading are the old ones plus the keys of the accepted lines: nothing else is added and nothing is removed |
| `EnvFile.KeepsExisting` | load_env.py:14 | a variable that is already set is never overwritten |
| `EnvFile.FirstAssignmentWins` | load_env.py:14 | of several lines assigning an unset key, the first one's value is kept |
| `EnvFile.ApplyFirstWins` | load_env.py:14 | the same as `FirstAssignmentWins`, stated on parsed entries |
| `EnvFile.LoadedIsUnion` | load_env.py:9-14 | loading into `env` gives the file's own first-wins assignments overridden by `env` |
| `EnvFile.LoadIdempotent` | load_env.py:9-14 | loading the same file twice gives the same environment as loading it once |
| `EnvFile.SkippedLineIsInert` | load_env.py:11-12 | removing a skipped line from anywhere in the file does not change the result |
| `EnvFile.ApplySkip` | load_env.py:11-12 | a skipped entry anywhere leaves the applied environment unchanged |
| `EnvFile.FirstValueSkip` | load_env.py:11-12 | a skipped entry never changes which assignment comes first |
| `EnvFile.Environment.constructor` | load_env.py:14 | the environment starts with the given variables |
| `EnvFile.Environment.SetDefault` | load_env.py:14 | `os.environ.setdefault`: the new variables are `WithDefault` of the old ones |
| `LoadEnv.Load` | load_env.py:3-16 | a missing file raises a bare `FileNotFoundError` and changes nothing; otherwise the environment ends as `Loaded` of its old value and the file's lines |
| `Grader.Readable` | grader.py:113 | a file exists and is not empty; used by `Grader.Submission` and `Grader.LoadCode` |
| `Grader.Section` | grader.py:115 | one file's `# === name ===` header followed by its text; see `Grader.Sections` and `Grader.SubmissionOfOneFile` |
| `Grader.MissingFileNote` | grader.py:114 | the `FileNotFoundError` text of `load_code`; used by the contract of `Grader.Submission` |
| `Grader.Sections` | grader.py:115 | one `# === name ===` section per file, in list order |
| `Grader.FirstUnreadable` | grader.py:111-114 | returns none exactly when every file exists and is non-empty; otherwise the index of the first missing or empty file |
| `Grader.Submission` | grader.py:109-116 | succeeds if and only if every file exists and is non-empty, and then gives the sections joined by blank lines; otherwise raises `FileNotFoundError` naming the first missing or empty file |
| `Grader.SubmissionOfOneFile` | grader.py:115-116 | a one-file submission is its header followed by the file's text |
| `Grader.SubmissionShape` | grader.py:115-116 | a submission starts with the first file's header and ends with the last file's text |
| `Grader.LoadCode` | grader.py:109-116 | the loop returns or raises exactly what `Submission` states |
| `Grader.LoadEnvVars` | grader.py:121-137 | a missing file raises `FileNotFoundError("Environment file not found: <path>")` and changes nothing; otherwise the environment ends as `Loaded` |
| `Grader.Overrides` | grader.py:165 | the truthiness test `if override_model`: present and non-empty; used by `Grader.ModelsToTry` |
| `Grader.MissingEnvNote` | grader.py:127 | the `FileNotFoundError` text of `load_env_vars`; used by the contract of `Grader.LoadEnvVars` |
| `Grader.MODEL_CHAIN` | grader.py:153-157 | the primary model and its two fallbacks, in order; used by the contracts of `Grader.ModelsToTry` and `Grader.FullPlan` |
| `Grader.ModelsToTry` | grader.py:153-165 | always three models: the chain unchanged without a non-empty override; with one, the override replaces only the primary model |
| `Grader.Through` | grader.py:170-182 | one attempt per model, in order, all through the given client |
| `Grader.Plan` | grader.py:167-213 | every attempt `call_openai` may make, in order; its order is stated by `Grader.PlanOrder` |
| `Grader.PlanOrder` | grader.py:167-213 | the attempts are every model through the direct client, if configured, then every model through the fallback client, if configured |
| `Grader.DirectBeforeFallback` | grader.py:167-213 | no direct attempt comes after a fallback attempt |
| `Grader.FullPlan` | grader.py:153-213 | with both clients and no override, the six attempts run the chain twice: direct first, then fallback |
| `Grader.FailureNote` | grader.py:186-210 | `last_err` after one failed attempt: the client's prefix and the exception text; see `Grader.AllFailedNamesLastAttempt` |
| `Grader.LastError` | grader.py:162-210 | `last_err` after the first `n` failures: `None` at first, then the latest note; kept by the loop invariant of `Grader.TryClient` |
| `Grader.Show` | grader.py:215 | the f-string rendering of `last_err`, with `None` shown as `None`; see `Grader.Call` |
| `Grader.FirstOk` | grader.py:170-208 | the index of the first successful reply, which is unique; none exactly when every reply failed |
| `Grader.Call` | grader.py:159-215 | succeeds if and only if some attempt succeeds, and then returns the stripped text of the first success; otherwise raises `All API attempts failed: <last_err>` |
| `Grader.AllFailedNamesLastAttempt` | grader.py:186-215 | when every attempt fails, the error names the last attempt's client and quotes its exception |
| `Grader.LaterRepliesIgnored` | grader.py:184-208 | replies after the first success never change the result |
| `Grader.TryClient` | grader.py:170-188 | one client's loop: returns the stripped text of the first successful attempt, or reports that every attempt failed and gives the matching `last_err` |
| `Grader.CallOpenAI` | grader.py:159-215 | the two loops return or raise exactly what `Call` states for the planned attempts |
| `Grader.Decide` | grader.py:320-332 | the grade is 50 or 100; the answer passes, with 100, exactly when it starts with `y`; the warning is added exactly when it starts with neither `y` nor `n` |
| `Grader.VerdictOfReply` | grader.py:309-332 | on the (stripped) reply `call_openai` returns, before lower-casing, only the first character matters, in either case |
| `Grader.FollowUpRequest` | grader.py:337-343 | praise instructions and no code after a pass, and explain instructions with the code otherwise; see `Grader.FollowUpSeesCodeOnlyOnFailure` |
| `Grader.FinalFeedback` | grader.py:345-347 | the feedback, with the unexpected-reply note after a blank line when there is one; see `Grader.GradeRun` |
| `Grader.UnexpectedNote` | grader.py:332 | the warning for a reply that is neither yes nor no; used by the contracts of `Grader.Decide` and `Grader.GradeRun` |
| `Grader.PRAISE_INSTRUCTIONS` | grader.py:338 | the follow-up instructions after a pass; used by `Grader.FollowUpRequest` and the contract of `Grader.GradeRun` |
| `Grader.EXPLAIN_INSTRUCTIONS` | grader.py:340-341 | the follow-up instructions after a failure; used by `Grader.FollowUpRequest` and the contract of `Grader.GradeRun` |
| `Grader.ApiErrorNote` | grader.py:312 | the message sent with grade 0 when the verdict call fails; used by the contract of `Grader.GradeRun` |
| `Grader.GradeRun` | grader.py:283-347 | a missing file crashes; a failed verdict call is reported as an API error; otherwise the follow-up request is praise without the code or an explanation with the code, and the feedback carries the warning exactly when the reply started with neither `y` nor `n` |
| `Grader.GradeIsFiftyOrHundred` | grader.py:321-330 | every graded run gets 50 or 100, and 100 exactly when it passed |
| `Grader.FollowUpSeesCodeOnlyOnFailure` | grader.py:337-343 | the follow-up call is sent the code only when the submission did not pass |
| `Grader.Grade` | grader.py:283-347 | `grade` ends as `GradeRun` of the submission and of the two `call_openai` results |

## Left out

- The OpenAI API is not modelled: client construction and the network. `call_openai` receives one reply per attempt from an oracle sequence. The verdict call's `dev_msg` and `user_msg` (grader.py:294-306) are not modelled, because the oracle ignores them. The follow-up call's instructions and input (grader.py:337-343) are modelled by `Grader.FollowUpRequest` and recorded in `Run.followUp`.
- Which clients exist is a parameter. `Clients.direct` means that `CODIO_DIRECT_OPENAI_KEY` is set and `OpenAI(...)` built the client; a failure there is caught and logged (grader.py:84-85). `Clients.fallback` means that `OPENAI_API_KEY` is set. `create_openai_clients` (grader.py:67-100) raises when it ends with neither client. That covers an unset key and a direct client that could not be built. The call happens at import time (grader.py:148-151) and is not modelled.
- `time.sleep(1)` between fallback attempts (grader.py:212) is not modelled, since time is not part of the model.
- Delivery of the result is not modelled: `in_codio`, `codio_send`, the local prints and `sys.exit`. `Grader.GradeRun` stops at the grade, the feedback and the API-error note that would be sent. `notion_log` is also left out, because it is network I/O.
- `load_config`, JSON parsing and argparse are not modelled. The list of file names is a parameter.
- The `DEBUG` logger, the timing with `perf_counter` and the `verbose` prints of the loaders are left out, because they are only output.
- The import-time call `load_env_vars(verbose=False)` on `.env` (grader.py:142-146) is not modelled as a call. It fills `os.environ` before `create_openai_clients` reads the keys (grader.py:150), so its effect reaches the model only through the `Clients` parameter. A missing file there is caught and turned into a printed warning.
- The duplicated module header (grader.py:37-62) is not modelled, since it only redefines imports.
- `Text.SplitLines`: splits only at `'\n'`. Python's `splitlines` also breaks at `\r`, `\r\n` and other Unicode line boundaries.
- `Text.Strip`: removes only the ASCII characters that Python's `str.strip()` treats as whitespace: the space, `\t` to `\r`, and U+001C to U+001F. Python also strips non-ASCII whitespace, such as U+0085, U+00A0 and U+2000 to U+200A, and the model keeps those characters.
- `Text.Lower`: lower-cases only ASCII letters.
- `Grader.Readable`: a path counts as readable when it is in the filesystem map and its text is non-empty. Directories and unreadable files are not modelled.
- `Grader.LoadEnvVars`, `LoadEnv.Load`: a path that exists but cannot be read is not modelled. The environment is a map of strings, with no platform rules on names. So an accepted line `=x` sets the empty key, and a NUL byte goes into a key or value. Python's `os.environ.setdefault` raises `OSError` for an empty name and `ValueError` for a NUL byte, and the lines before it stay applied. The model instead returns `Pass` with the entry added.
