# pytest-report-api in Dafny

A model of the pytest plugin `pytest_report_api.py`. The plugin reports a
test session to a remote HTTP API: it registers a run once collection is
done, creates a remote test for each setup-phase report made while a run
is registered, finishes it right after that setup report when the API gave
it an id (201 with a `test_id`), and closes the run at session end. It resolves its API URL, token and disabled flag
from the command line, the environment and the ini file. It also adds one
line to the session header.

The model has two pure parts.

- **Configuration** (`options.dfy`, with the Python string built-ins it
  needs in `pytext.dfy`). `Options.Configure` is `_get_options` followed by
  `pytest_configure`. It maps the three layers to a `Config` or to the
  error `getini` or `int()` raises on the disabled flag.
  `Options.ReportHeader` is `pytest_report_header`.
- **Lifecycle** (`lifecycle.dfy`, with the calls, paths and bodies in
  `api.dfy`). Each hook is a function from the session state (the run id)
  and the API's response to the requests it issues, the errors it logs and,
  for the two session-level hooks, the exception it raises. The per-test
  hookwrapper is split in two: `BeforeReport` acquires the test id before
  the report exists and `AfterReport` submits the outcome after it.
  `RunSession` strings the hooks together for a whole session.

The HTTP layer, the host framework and the environment are
inputs. Every operation is a pure function, so resolving the configuration
twice from the same inputs gives the same `Config`.

Where the code and a plain reading of its intent differ, the model follows
the code:

- the disabled flag is not "true if true at any layer". A set
  `PYTEST_REPORT_API_DISABLED` replaces the ini value, so `"0"` re-enables
  reporting that the ini file disables (line 83 against lines 98-106);
- a set but empty `PYTEST_REPORT_API_URL` gives the built-in default, not
  the ini value;
- begin-run and finish-run raise only on 4xx and 5xx statuses
  (`raise_for_status`), not on every non-2xx status;
- a begin-run body whose `run_id` is JSON `null` does not raise. It leaves
  the run unregistered, so nothing further is sent. Only a missing
  `run_id` raises.

## Model

| member | source | states |
|---|---|---|
| Options.ResolveUrl | pytest_report_api.py:85-90 | The command-line URL wins whenever given (even if empty). Otherwise a non-empty env URL wins. A set-but-empty env URL gives `http://localhost:5000` and not the ini value. With env unset, the ini value is used unless it is empty. Only an explicit empty command-line value yields an empty URL. |
| Options.ResolveToken | pytest_report_api.py:92-96 | The token is taken from the command line, else the env variable, else the ini file. It is absent exactly when all three are absent: there is no default. |
| Options.ResolveDisabled | pytest_report_api.py:98-106 | A true command-line flag gives true without reading the env or the ini value. Otherwise an ini value pytest cannot read as a boolean fails, even when the env is set, because `getini` is evaluated as `getenv`'s default. With a readable ini flag, an unset env gives the ini flag, and a set env gives `int(env) != 0` or fails exactly when `int()` rejects the text. |
| Options.DisabledByEnvironment | pytest_report_api.py:98-106 | With the command-line flag off and a numeric env value, the flag is true exactly when some digit of the text is not '0', whatever the ini value. |
| Options.ZeroInEnvironmentOverridesIni | pytest_report_api.py:83-106 | Env `"0"` with ini `true` gives `false`. This shows the docstring's "any level disables" does not hold. |
| Options.WordInEnvironmentFails | pytest_report_api.py:100-106 | A non-numeric env value ("yes") makes configuration fail whatever the ini says. |
| Options.AuthHeaders | pytest_report_api.py:117-121 | The header map has only the key `Authorization`. It is present exactly when the token is non-empty, and then its value is `"token " + token`. |
| Options.Configure | pytest_report_api.py:79-121 | Configuration fails exactly when the command-line flag is off and either the ini flag is unreadable or the env value is set but not an integer. Otherwise URL, token and flag follow the three resolution rules, and the headers are derived from the resolved token. |
| Options.TokenPreview | pytest_report_api.py:128-130 | The preview is `null` exactly when the token is absent or empty. Otherwise it is `*` followed by a prefix of the token of length min(3, length). |
| Options.ReportHeader | pytest_report_api.py:124-133 | When disabled, the line is exactly "Tests will NOT be reported to API". Otherwise it is a different line that starts with "Tests will be reported to " and the quoted URL, and ends with "(token: <preview>)". |
| Options.HeaderShowsTokenPreview | pytest_report_api.py:127-131 | Token "abc123" shows as "(token: *abc)". An absent token shows as "(token: null)". |
| PyText.ParseIntOfString | pytest_report_api.py:100-106 | `int()` reads back every integer `str()` writes, so "0" and "1" give 0 and 1. |
| PyText.ParseIntRejects | pytest_report_api.py:100-106 | Any character other than whitespace, a digit, `_`, `+` or `-` makes `int()` fail. |
| PyText.ParseIntBlank | pytest_report_api.py:100-106 | An empty or all-whitespace value makes `int()` fail. |
| PyText.ParseIntNonZero | pytest_report_api.py:100-106 | A successful `int()` is non-zero exactly when some digit of the text is not '0'. |
| PyText.Upper | pytest_report_api.py:203 | The status sent has the outcome's length and no lower-case letter. Other characters are kept, and each letter is replaced by its capital. |
| PyText.UpperOfOutcomes | pytest_report_api.py:203 | The outcomes "passed", "failed" and "skipped" are sent as "PASSED", "FAILED" and "SKIPPED". |
| Api.DecodeOfCall | pytest_report_api.py:141-204 | The paths `runs/`, `tests/`, `tests/{id}/finish` and `runs/{id}/finish/` together with the bodies identify each call and its ids. Decoding a call's path and body gives the call back. |
| Api.DecodeIsExact | pytest_report_api.py:141-204 | Whatever path and body decode to a call are exactly that call's path and body. |
| Api.Get | pytest_report_api.py:189 | `.get(key)` gives a value exactly when the key is present and not `null`, and it gives that value. |
| Lifecycle.CollectionFinish | pytest_report_api.py:136-148 | When disabled, nothing is sent and nothing raises. Otherwise exactly one `runs/` request is sent. The hook raises exactly on a 4xx/5xx status (`HTTPError`, checked first) or a missing `run_id` (`KeyError`). A run id is kept exactly when the run registered, and it is the response's `run_id`. |
| Lifecycle.BeforeReport | pytest_report_api.py:171-195 | Outside the setup phase, or with no run id, nothing happens. Otherwise exactly one `tests/` request with the test's name is sent. A test id is kept exactly when the status is 201 and `test_id` is non-null. One error is logged exactly when no id is kept. |
| Lifecycle.AfterReport | pytest_report_api.py:197-212 | The finish request is sent exactly when a test id was kept, with the upper-cased outcome as its status. An error is logged exactly when that request gets a status other than 204. |
| Lifecycle.ReportTest | pytest_report_api.py:166-214 | The hook never raises, whatever the HTTP responses. Finish-test (`tests/{test_id}/finish`) is sent exactly when begin-test, in the setup phase of a registered run, got 201 with a non-null `test_id`. At most one error is logged per test. |
| Lifecycle.ReportCalls | pytest_report_api.py:166-214 | Over a session's hook calls, nothing is sent or logged without a run id. Only per-test requests are sent, all with the configured URL and headers. Every finish-test directly follows a begin-test. Tests are begun in setup-call order, and the number finished equals the number created with an id. |
| Lifecycle.SessionFinish | pytest_report_api.py:151-163 | Nothing happens without a run id. Otherwise exactly `runs/{run_id}/finish/` is sent, and the hook raises `HTTPError` carrying the run id exactly on a 4xx/5xx status. |
| Lifecycle.RunSession | pytest_report_api.py:136-214 | A disabled session sends nothing, logs nothing and never raises. Without a registered run, exactly one `runs/` is sent when enabled and nothing else. The session raises exactly when begin-run or finish-run fails, with `HTTPError` for a 4xx/5xx status of either and `KeyError` for a missing `run_id`. A registered run is bracketed by `runs/` and `runs/{run_id}/finish/` with only per-test requests in between, begins one test per setup call in order, and finishes one test per test created with an id. |

## Left out

- `pytest_addoption` (lines 48-76) registers options and ini keys. The
  model takes the values pytest would resolve as inputs, including the ini
  URL's built-in default.
- The ini `report_api_disabled` is taken as a boolean. Older pytest
  releases give `[]` for an unset boolean ini key, on which `int()` raises.
  That case is not modelled.
- A request that gets no HTTP response at all (the API is unreachable, a
  connection drops or times out; no timeout is set) makes `requests.post`
  raise from every hook, the per-test hook included, which aborts the
  session. The model gives every request a response, so its statements
  that the per-test hook never raises and that only begin-run and
  finish-run are fatal hold for every HTTP response, not for a missing one.
- HTTP transport, `requests` and `raise_for_status` internals are replaced
  by a response input: a status code and the top-level JSON fields. A body
  that is not JSON, or not a JSON object, makes `.json()` or `.get` raise.
  That case is not modelled.
- `urljoin` (RFC 3986 section 5.2 reference resolution) is not modelled. A
  request records the base URL and the relative path separately.
- Hook ordering (`tryfirst`/`trylast`), the hookwrapper generator and the
  origin of `report.outcome` are left to pytest. The outcome is an input.
  Because the hook only acts in the setup phase, it is the outcome of the
  setup report.
- After begin-run raises, pytest stops before running tests but still calls
  `pytest_sessionfinish`. `RunSession` models this: no per-test hooks, then
  a session finish that sends nothing.
- The `exitstatus` argument of `pytest_sessionfinish` is unused by the
  source and not modelled.
- Log message texts are not modelled. A log entry records its kind, the test
  name, the id and the status.
- Options.Quoted: `repr()` of the URL is modelled as wrapping it in single
  quotes. The escaping and quote choice `repr()` applies to URLs holding
  quotes, backslashes or unprintable characters are not modelled.
- PyText.ParseInt: non-ASCII decimal digits (which Python's `int()` accepts)
  are rejected. Only ASCII digits are modelled. The limit on the number of
  digits `int()` accepts (4300 by default since Python 3.11, 3.10.7, 3.9.14
  and 3.8.14, and adjustable at run time) is not modelled either, so a
  longer number in the disabled variable is read where Python raises.
- PyText.Upper: only ASCII letters are upper-cased. Python's full Unicode
  case mapping, which can change a string's length, is not modelled.
  pytest's outcomes are ASCII.
