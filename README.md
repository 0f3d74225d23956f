# Amcrest camera client: the request engine

This project models the request engine of the Amcrest camera client,
`Http` in `src/amcrest/http.py`. Every camera operation goes through it.
The engine:

- picks the authentication scheme once, at construction: HTTP Basic first, HTTP Digest if Basic is rejected;
- keeps one `requests.Session` per retry count;
- runs every command through a retry loop with a per-call timeout;
- sends audio uploads as a single POST that ignores a read timeout;
- reads the device name and serial on a best-effort basis;
- exposes a redacted copy of its attribute dictionary.

Network traffic is not modelled. Each request is replaced by an abstract reply
(`Requests.Reply`): a response with a status code and body text, or an exception
that the `requests` library raises by itself (read timeout, connect timeout,
connection failure). `raise_for_status()` is modelled as "status in 400..599
raises an HTTPError". The retry loop takes its replies from an oracle
`replies: nat -> Reply`, where `replies(k)` is the reply to attempt `k`.

Modules:

- `Wrappers`: `Option`, `Result`, `Outcome`.
- `Text`: `str.lower()`, the substring test `p in s`, and `str(n)`, each with its reference meaning.
- `Requests`: replies, HTTP error statuses, and the exceptions the engine raises.
- `Auth`: `_generate_token` as the function `Negotiate`.
- `Retry`: Python's `x or default` for optional numbers, and the specification of the retry loop of `command`.
- `DeviceIdentity`: `_set_name` as the function `SetName`.
- `AmcrestHttp`: the URL format, the `Session` class, and the `Http` class. `Http` holds the session cache (`map<int, Session>`), the retrying `Command` method with its loop, `CommandAudio`, `AsDict` and construction (`Connect`).

The model keeps these details of the code's behaviour:

- Only an HTTPError is retried in `command` (lines 157-165). A timeout or connection error from `session.get` is not an HTTPError, so it propagates on the attempt where it happens; the loop of `command` never retries a timeout (the adapter's own transport retries are left out, see "## Left out").
- `_set_name` swallows only `AttributeError` (line 100); every other lookup failure propagates and aborts construction.
- When the Digest probe's body contains a marker, the bare `raise` (line 92) re-raises the HTTPError of the Basic probe, so the model reports the Basic status.
- A negative effective retry count makes `range(1, 2 + retries)` empty. No attempt runs, and reading `resp` at line 167 raises UnboundLocalError. The model reports this as `UnboundResponse` after 0 attempts.
- `command_audio` never calls `raise_for_status()`. An error status from the POST is therefore not an error.

## Model

| member | source | states |
|---|---|---|
| Text.Contains | src/amcrest/http.py:89-90 | the left-to-right scan for `p in s` holds exactly when `p` starts at some position of `s` |
| Text.IntToStringRoundTrip | src/amcrest/http.py:118-119 | `str(port)` is the decimal text of the port and loses nothing: parsing it gives back the port |
| Text.LowerConcat | src/amcrest/http.py:89-90 | lower-casing works piece by piece over a concatenated body |
| Text.Lower | src/amcrest/http.py:89-90 | `str.lower()` keeps the length and maps every character on its own, ASCII capitals to small letters |
| Text.IntToString | src/amcrest/http.py:118-119 | `str(n)` is the decimal digits of a non-negative number, or a minus sign followed by digits without a leading zero |
| Auth.Negotiate | src/amcrest/http.py:67-93 | Basic is always probed first; Digest is probed exactly when Basic got an HTTP error; a token is produced exactly when Basic passes, or when Basic is rejected and Digest passes with a clean body; the token is bound to the last scheme probed and to the client's user and password |
| Auth.Rejects | src/amcrest/http.py:89-90 | a body is rejected exactly when its lower-cased text contains "invalid" or "error" somewhere |
| Auth.BasicAccepted | src/amcrest/http.py:74-79 | a passing Basic probe yields a Basic credential and no Digest probe is made |
| Auth.DigestChosen | src/amcrest/http.py:81-93 | the result is a Digest credential exactly when Basic was rejected with an HTTP error, Digest passed, and its lower-cased body contains neither "invalid" nor "error" |
| Auth.NegotiationFails | src/amcrest/http.py:81-92 | a Basic transport exception propagates; after a Basic rejection, a Digest transport exception or HTTP error propagates, and a marker in the Digest body re-raises the Basic HTTP error |
| Auth.MarkerInAnyCase | src/amcrest/http.py:89-92 | a Digest body holding "invalid" or "error" in any letter case, anywhere, is rejected |
| Auth.DigestScenario | src/amcrest/http.py:81-93 | Basic answered 401 and Digest answered 200 with body "OK": the client settles on Digest after probing both |
| Auth.InvalidScenario | src/amcrest/http.py:88-92 | a Digest body "Error: Invalid Authority" makes negotiation raise the Basic probe's 401 |
| Retry.PyOr | src/amcrest/http.py:143-144 | the effective value is the argument when it is truthy (present and non-zero), otherwise the stored default |
| Retry.FalsyUsesDefault | src/amcrest/http.py:57-59 | `None` and `0` both resolve to the default; any non-zero argument wins over the default |
| Retry.RunFrom | src/amcrest/http.py:148-165 | from an attempt within budget, the loop makes at least up to that attempt and never more than `retries + 1` attempts; "no response" arises only when the range is empty |
| Retry.RunFromShape | src/amcrest/http.py:148-168 | every attempt before the last failed with an HTTP error; a success returns the last attempt's response; a transport exception is the last attempt's; an HTTP error is raised only on attempt `retries + 1` |
| Retry.AllAttemptsFail | src/amcrest/http.py:148-165 | the command raises an HTTP error exactly when all `retries + 1` attempts fail with one; it then makes exactly `retries + 1` attempts and raises the last one's error |
| Retry.FirstSuccess | src/amcrest/http.py:148-168 | if attempt `k` is the first that passes and `k <= retries + 1`, the command makes exactly `k` attempts and returns that response; every success has that form |
| Retry.TransportErrorStops | src/amcrest/http.py:150-159 | a library exception on attempt `k` ends the command on attempt `k` with that exception; it is not retried |
| Retry.Execute | src/amcrest/http.py:148-168 | the loop of `command` makes at least one and at most `retries + 1` attempts; with a negative count it makes none and the missing response is raised |
| Retry.ServerErrorsThenOk | src/amcrest/http.py:148-168 | two 500 replies then a 200, with at least two retries: the command succeeds after 3 attempts |
| DeviceIdentity.SetName | src/amcrest/http.py:95-102 | an AttributeError from either lookup leaves both name and serial `None`; the two are never half set; both are set exactly when both lookups succeed; any other exception from a lookup propagates unchanged, the name lookup's first |
| DeviceIdentity.SerialIgnoredWithoutName | src/amcrest/http.py:97-99 | the serial is not consulted when the name lookup did not succeed |
| AmcrestHttp.UrlExtendsBase | src/amcrest/http.py:117-122 | a command URL is the base URL followed by the command verbatim; the base URL starts with `protocol://host:` and ends in "/cgi-bin/"; the command can be read back off the URL |
| AmcrestHttp.UrlInjective | src/amcrest/http.py:117-119 | two different commands never share a URL |
| AmcrestHttp.FormatUrl | src/amcrest/http.py:117-119 | the URL is `protocol://host:` followed by `str(port)`, then "/cgi-bin/", then the parameter, each piece recoverable at its place |
| AmcrestHttp.Session.constructor | src/amcrest/http.py:129-132 | a new session is configured with the given retry count and mounted for "http://" and "https://" |
| AmcrestHttp.Http.constructor | src/amcrest/http.py:49-62 | the host is cleaned; the base URL is the URL of the empty command; default retries and timeout are the argument when truthy, else the configured constants; the cache is empty |
| AmcrestHttp.Http.BaseUrl | src/amcrest/http.py:117-119 | the URL of a command is the base URL followed by the command |
| AmcrestHttp.Http.GetBaseUrl | src/amcrest/http.py:121-122 | returns the stored base URL, which is the URL of the empty command and ends in "/cgi-bin/" |
| AmcrestHttp.Http.GenerateToken | src/amcrest/http.py:64-93 | both probes go to the URL of `magicBox.cgi?action=getMachineName`; `_authentication` holds the last scheme probed; `_token` is set to the negotiated credential, or the negotiation error is raised |
| AmcrestHttp.Http.SetIdentity | src/amcrest/http.py:95-102 | `_name` and `_serial` take the identity `SetName` gives; on another exception `_name` keeps what was assigned before it |
| AmcrestHttp.Http.Connect | src/amcrest/http.py:45-65 | construction succeeds exactly when negotiation and the identity lookup both succeed, and otherwise fails with the negotiation error or the identity error; a constructed client is valid, has an empty cache (in the model: the lookups' own `command` calls are not modelled), and holds the negotiated token and the looked-up identity |
| AmcrestHttp.Http.GetSession | src/amcrest/http.py:124-134 | a cached key returns its session and changes nothing; a new key gets exactly one new session configured with that retry count and mounted for "http://" and "https://"; no entry is replaced or removed |
| AmcrestHttp.GetSessionTwice | src/amcrest/http.py:124-134 | asking twice for the same retry count returns one and the same session |
| AmcrestHttp.Http.Command | src/amcrest/http.py:136-168 | runs the retry loop over the effective retry count; every attempt sends the same GET (command URL, token, effective timeout) through the session object cached under that count, configured with it; the cache gains only that key and keeps every old entry |
| AmcrestHttp.Http.CommandAudio | src/amcrest/http.py:170-185 | one POST to the command URL with the effective timeout; it returns normally on any response and on a read timeout; every other exception propagates unchanged |
| AmcrestHttp.Http.Attributes | src/amcrest/http.py:49-65 | the attribute dictionary holds every field `__init__` assigns; `_password` holds the password; `_token` is present once negotiation succeeded and is the only attribute holding the credential |
| AmcrestHttp.Http.AsDict | src/amcrest/http.py:108-114 | a copy of the attributes in which `_token` and `_password` are `'**********'`; every other attribute keeps its value; no credential object remains; the client is not changed |

## Left out

- HTTP traffic through `requests` (`requests.get`, `requests.post`, `Session.get`): replaced by abstract replies supplied as parameters.
- The transport-level retries of `HTTPAdapter(max_retries=...)`: each session records only the count it was configured with and the two prefixes it is mounted on.
- HTTP Basic (RFC 7617) and HTTP Digest (RFC 7616) mechanics: the credential records only the scheme, user and password.
- The `threading.Lock` around the session cache: the cache is modelled sequentially.
- Logging and `verbose`: `verbose` is stored but has no effect.
- What a timeout means in real time: a timeout is an opaque `real` that is passed through.
- Response streaming: a response is a status and its body text.
- `Text.Lower`: lower-cases ASCII letters only; Python's `str.lower()` also maps non-ASCII letters.
- Port, retry count and timeout are modelled as numbers. Python also accepts a port given as a string, which `str` passes through unchanged.
- `amcrest.utils.clean_url` is a parameter of construction. `amcrest.utils.pretty` is folded into the name lookup's result.
- The two defaults from `amcrest.config` (MAX_RETRY_HTTP_CONNECTION, TIMEOUT_HTTP_PROTOCOL) are parameters. `amcrest/config.py` is not part of this model.
- The `machine_name` and `serial_number` properties of the `System` feature class are abstract lookups, and so are the other feature classes. They issue their own `command` calls, which may add the default retry count to the session cache during construction. That effect is not modelled.
- `__repr__`: formats name and serial for display only.
- `amcrest/amcrest_cli.py`: argument parsing and printing, with no engine logic.
