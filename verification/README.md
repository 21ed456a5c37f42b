# Pre-generation hook of the call-scheduling cookiecutter template

This project models the cookiecutter pre-generation hook of the template. The hook runs after
cookiecutter has rendered the user's answers and before it generates the project. It does
three things:

- It checks the rendered `app_name` against `MODULE_REGEX`, which is `^[_a-zA-Z][_a-zA-Z0-9]+$`.
- When the check fails, it adds a problem message that quotes the name.
- When any problem was collected, it writes a report to standard error and exits with status 1.
  Otherwise it runs to its end, which means status 0.

The file also defines `DATABASE_REGEX`, which is `^[_a-zA-Z][-_a-zA-Z0-9]+$`, but never uses it.
It also renders `container_name` and never checks it.

The model has two modules:

- `Patterns` (`patterns.dfy`) writes both patterns as data. A pattern is a head character class
  and a tail class, and each class is a list of literal characters and ranges, as in the source
  pattern text. Python's `re.match` meaning for the shape `^[H][T]+$` is stated in two ways. The
  first is a reference predicate, `FullMatch`: some prefix is consumed by `[H][T]+`, and `$`
  holds where that prefix ends. The second is an executable greedy matcher, `Matches`, proved
  equal to it. Both honour Python's rule that `$` (without MULTILINE) also matches just before a
  single newline that ends the string. The module then relates both patterns to plain
  character tests (`IsModuleName`, `IsDatabaseName`) and proves the edge cases:
  - one-character names are rejected, because the tail uses `+`;
  - a leading digit, a hyphen or any non-ASCII character is rejected by `MODULE_REGEX`;
  - one trailing newline is accepted, but two are not;
  - every module name is a database name, and the converse fails.
- `PreGenHook` (`pre_gen_hook.dfy`) models the script as pure functions. The rendered strings
  are inputs. The result is a `HookOutcome`: the problem list, the standard-error lines and the
  exit status.

## Model

| member | source | states |
|---|---|---|
| Patterns.TailRunEnd | base/hooks/pre_gen_project.py:7 | The greedy `+` run that starts at i ends at k: every character before k is in the class, and the character at k, if there is one, is not. |
| Patterns.Matches | base/hooks/pre_gen_project.py:18 | The greedy matcher succeeds exactly when `re.match` semantics (`FullMatch`) finds a match, so backtracking never changes the answer. |
| Patterns.NoShorterMatch | base/hooks/pre_gen_project.py:7 | If `$` fails at the end of the longest tail run, then no shorter run can reach a position where `$` holds. |
| Patterns.IdentStartClassIff | base/hooks/pre_gen_project.py:7 | The class `[_a-zA-Z]` holds exactly the underscore and the ASCII letters. |
| Patterns.IdentClassIff | base/hooks/pre_gen_project.py:7 | The class `[_a-zA-Z0-9]` holds exactly the underscore, the ASCII letters and the ASCII digits. |
| Patterns.DatabaseTailClassIff | base/hooks/pre_gen_project.py:9 | The class `[-_a-zA-Z0-9]` holds exactly the characters of `[_a-zA-Z0-9]` plus the hyphen. |
| Patterns.FullMatchShape | base/hooks/pre_gen_project.py:7 | A pattern of shape `^[H][T]+$` matches iff it consumes the whole string, or the string ends in one newline and the pattern consumes everything before it. |
| Patterns.ModuleConsumesAllIff | base/hooks/pre_gen_project.py:7 | `[_a-zA-Z][_a-zA-Z0-9]+` consumes a whole string iff it has at least two characters, starts with a letter or underscore, and continues with letters, digits or underscores. |
| Patterns.DatabaseConsumesAllIff | base/hooks/pre_gen_project.py:9 | The same for the database pattern, where hyphens are also allowed after the first character. |
| Patterns.ModuleMatchIff | base/hooks/pre_gen_project.py:7 | `MODULE_REGEX` accepts a string iff it is a module name, or a module name followed by one newline (both directions). |
| Patterns.DatabaseMatchIff | base/hooks/pre_gen_project.py:8-10 | `DATABASE_REGEX` accepts a string iff it is a database name, or a database name followed by one newline. |
| Patterns.ModuleMatchWithoutNewline | base/hooks/pre_gen_project.py:7 | For a string with no newline, acceptance by `MODULE_REGEX` is exactly: length at least 2, a valid first character, and valid later characters. |
| Patterns.OneCharacterRejected | base/hooks/pre_gen_project.py:7-9 | No one-character string matches either pattern, `"a"` and `"_"` included. |
| Patterns.LeadingDigitRejected | base/hooks/pre_gen_project.py:7 | A name that starts with a digit is rejected as a module name. |
| Patterns.HyphenRejected | base/hooks/pre_gen_project.py:7 | A name that contains a hyphen anywhere is rejected as a module name. |
| Patterns.NonAsciiRejected | base/hooks/pre_gen_project.py:7-9 | A name that contains any non-ASCII character is rejected by both patterns, non-ASCII letters included. |
| Patterns.TrailingNewlineAccepted | base/hooks/pre_gen_project.py:7 | A valid module name followed by one newline is still accepted, because of how Python's `$` works. |
| Patterns.SecondNewlineRejected | base/hooks/pre_gen_project.py:7-9 | Any string that ends in two newlines is rejected by both patterns. |
| Patterns.PatternInclusion | base/hooks/pre_gen_project.py:7-10 | Widening the head class and the tail class of a pattern keeps every string it matched. |
| Patterns.ModuleImpliesDatabase | base/hooks/pre_gen_project.py:7-10 | Every string accepted by `MODULE_REGEX` is also accepted by `DATABASE_REGEX`. |
| Patterns.DatabaseStrictlyWider | base/hooks/pre_gen_project.py:7-10 | `"a-b"` is accepted by `DATABASE_REGEX` but not by `MODULE_REGEX`, so the inclusion is strict. |
| PreGenHook.ProblemMessage | base/hooks/pre_gen_project.py:20 | The problem message is the fixed prefix, then the app name verbatim, then the fixed suffix. |
| PreGenHook.ParseProblemMessage | base/hooks/pre_gen_project.py:20 | A name read back from a message is one whose problem message is exactly that text. |
| PreGenHook.ProblemMessageRoundTrip | base/hooks/pre_gen_project.py:20 | The app name can always be read back from its problem message unchanged. |
| PreGenHook.CheckAppName | base/hooks/pre_gen_project.py:16-21 | Earlier problems are kept. Exactly one entry is appended iff the name fails `MODULE_REGEX`, and that entry quotes the name verbatim. |
| PreGenHook.BulletLines | base/hooks/pre_gen_project.py:25-26 | There is one line per problem, in order, and each line is `" - "` followed by the problem. |
| PreGenHook.Report | base/hooks/pre_gen_project.py:23-26 | Standard error stays empty iff there are no problems. Otherwise it gets the header line, then one bulleted line per problem. |
| PreGenHook.Finish | base/hooks/pre_gen_project.py:23-28 | The exit status is 1 iff the problem list is non-empty, and 0 (normal completion) iff it is empty. Standard error is written iff the status is 1, and then it holds exactly the report of the problems. |
| PreGenHook.RunHook | base/hooks/pre_gen_project.py:13-28 | One run of the hook collects at most one problem. |
| PreGenHook.RunHookDecision | base/hooks/pre_gen_project.py:13-28 | End to end, the hook exits 0 iff `app_name` is a module name, optionally followed by one newline. Otherwise it exits 1 with exactly one problem, and that problem quotes the name. Standard error then holds the header line and one bulleted line with that message. |
| PreGenHook.ContainerNameIgnored | base/hooks/pre_gen_project.py:14 | The outcome is the same whatever `container_name` is. |
| PreGenHook.AcceptedExamples | base/hooks/pre_gen_project.py:7-28 | The hook exits 0 for `my_app`, and for `app` followed by a newline. |
| PreGenHook.RejectedExamples | base/hooks/pre_gen_project.py:7-28 | The hook exits 1 for `my-app`, `a`, `_` and `1app`. |

## Left out

- Writing to standard error and calling `sys.exit` are I/O. The model returns the exit status
  and, as each element of `stderr`, the text of one `print` call without its terminating
  newline. A problem that quotes a name containing a newline therefore spans two physical lines
  of output but is still one element.
- Jinja rendering of `{{ cookiecutter.app_name }}` and `{{ cookiecutter.container_name }}` is
  left out. The rendered text lands inside the one-line `"..."` literals of lines 13-14, and the
  model's input is the value Python gives that literal. Quotes, backslashes or line breaks in a
  name change or break the script. A real line break makes line 13 a syntax error, so the hook
  exits 1 with a traceback and never reaches the check. The accepted "name followed by one
  newline" case (`TrailingNewlineAccepted`, `AcceptedExamples`) is therefore reached only through a
  Python escape sequence that denotes a newline, such as `\n`, `\x0a`, `\012` or `\u000a`.
  Jinja passes the backslash through unchanged, and cookiecutter then generates the project with
  that backslash-containing name as given. The model does not cover that step.
- The model follows Python 3, where `app_name` is a Unicode string. Line 1 shows the hook is
  also meant to run under Python 2. There the file has no coding declaration, so a non-ASCII
  rendered name is a syntax error: the hook exits 1 with a traceback and no problem message.
  The model (`NonAsciiRejected`, `RunHook`) gives the problem message instead. The exit status
  is 1 in both readings.
- The model contains no general regular-expression engine. Only the fixed shape `^[H][T]+$` of
  the two patterns is modelled. Python's `re.match` has no flags here, so matching is
  case-sensitive and `$` has its non-MULTILINE meaning.
- Characters are Unicode scalar values. A Python string that holds lone surrogate code points
  has no counterpart in the model.
- What cookiecutter does with a non-zero hook status, which is abort generation, is outside
  this file.
- The rest of the generated application is not part of this model: the call scheduler, the
  telephony client, the HTTP handlers, the validators and the task scripts.
