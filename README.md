# wireguard-agent, modelled in Dafny

wireguard-agent runs next to a wg-easy WireGuard server. Its program
(`main.go`) does four things:

- supervises the wg-easy Node process;
- waits for `/etc/wireguard/wg0.json` to appear;
- makes sure that file holds at least one client (`ensureClient`);
- reports the rendered peer configuration of a client to a monitoring
  endpoint.

The report goes out once at startup (`main.go:133`). The monitoring
goroutine then reports again at once on its first pass, so two reports go
out back to back, and after that every 157 seconds, the sleep coming after
each push (`monitoring.go:96-111`). A pass whose `ensureClient` fails is
repeated at once, with no push and no sleep (`continue`). One last report,
with `monitored = 0`, goes out on SIGINT or SIGTERM.

This project models the decision logic of those two files. Everything the
code gets from its environment becomes an explicit input:

- file contents;
- whether a write succeeds;
- the fresh client id;
- the clock;
- the outputs of `wg genkey`, `wg pubkey` and `wg genpsk`;
- the HTTP status code;
- `WG_HOST`.

The model is organised in these modules:

- `Json` (`json.dfy`) is the decoded document as `encoding/json` hands it
  to a `map[string]any`. The type `Body` keeps Go's nil map apart, so that
  `null` is modelled: reading from it acts empty, and assigning into it
  panics.
- `Strings` (`strings.dfy`) covers `strings.TrimRight(s, "\n")`,
  `strings.Join`, splitting on a separator, `%d` on integers, and a reader
  of `%d` output that agrees with `strconv.Atoi` on that output.
- `WgConfig` (`wgconfig.dfy`) is the `WireGuardConfig` record and
  `CreateConfig`, the `Sprintf` template. It also has a parser for the
  rendered text, used to prove that rendering loses nothing.
- `ClientStore` (`clientstore.dfy`) holds the `wgEasyClient` record and its
  JSON form, and `ensureClient`. `Ensure` is the specification function;
  `EnsureClient` is the step-by-step method proved equal to it.
- `Monitoring` (`monitoring.go`'s logic, in `monitoring.dfy`) covers:
  - `getConfig`: `Resolve` up to the `WireGuardConfig` literal, then
    `GetConfig`;
  - the request `sendConfig` builds;
  - one iteration of the `sendMonitoring` loop (`Tick`), as a list of
    visible actions.
- `Startup` (`startup.dfy`) is `main`'s wait for the file and its shared
  retry counter, the first push and the shutdown push. The messages sent to
  the supervisor goroutine appear as `SignalRestart` and `SignalTerminate`
  actions. In the monitoring pass, the first push and the shutdown a Go
  runtime panic appears as the action `Crash`; the wait for the file
  reports it through its outcome `Crashed` instead.

Go runtime panics are modelled as outcomes (`Panicked`, `Crash`), not
excluded by preconditions. These are the type assertions
`content.(map[string]any)`, `clients[key].(map[string]any)` and
`x.(string)`, and the write into the nil map that a `null` document
decodes to.

The map iteration in `getConfig` takes whichever key
`for key := range clients` yields first. That key is a parameter `key`
with the precondition `Admissible`: it is a client id whenever there are
clients. `ErrorsDoNotDependOnPick` shows that every non-panic failure is
the same for every such key.

The template in `monitoring.go:158-169` has eleven lines. The empty line is
at index 5, and a final newline follows, so splitting the rendered text on
`'\n'` gives twelve pieces, the last one empty. `CreateConfigLines` states
this layout.

## Model

| member | source | states |
|---|---|---|
| Json.DecodeBody | main.go:196-199 | Among the files `json.Unmarshal` accepts, decoding into `map[string]any` succeeds exactly for a JSON object or `null`; a file it rejects gives a syntax error. `null` gives the nil map and an object gives its members. A read error is told apart from a syntax or type error. |
| Json.StringMember | monitoring.go:61-67 | `v.(string)` on a member yields text exactly when the member is there and is a string, and then the member is that string. |
| Json.Get | main.go:201 | Indexing the body yields a value exactly when the body is a non-nil map holding the key. A nil map reads as empty. |
| Strings.TrimNewlines | main.go:227-229 | `strings.TrimRight(s, "\n")` returns a prefix of `s` that does not end in `'\n'`, and everything it cut off is `'\n'`. |
| Strings.TrimNewlinesSplitsInput | main.go:227-229 | Every string is its trimmed form followed by a run of newlines. |
| Strings.TrimNewlinesOfPadded | main.go:227-229 | Padding a string that does not end in a newline with any number of newlines and then trimming it gives the string back. The trailing newline that `wg genkey` prints is therefore removed exactly. |
| Strings.Join | monitoring.go:156 | `strings.Join` of no parts is empty, and the joined text starts with the first part. |
| Strings.JoinSeparatorCount | monitoring.go:156 | When no part contains the separator, the joined text holds exactly one separator between each two parts. |
| Strings.SplitJoin | monitoring.go:156 | Splitting `strings.Join(parts, sep)` on `sep` gives `parts` back, when no part contains `sep`. |
| Strings.JoinAvoids | monitoring.go:156 | A character that no part contains, and that is not the separator, does not occur in the joined text. |
| Strings.SplitConcat | monitoring.go:158-169 | Splitting `a + sep + b` is the split of `a` followed by the split of `b`. |
| Strings.NatToDecimal | monitoring.go:161 | `%d` of a natural number is a non-empty string of digits without a leading zero. |
| Strings.IntToDecimal | monitoring.go:161 | `%d` of an integer contains neither a newline nor a comma. |
| Strings.ParseDecimalRoundTrip | monitoring.go:56 | Reading back the `%d` text of any integer gives that integer. On such text the reader agrees with `strconv.Atoi`; it is not `Atoi` in general, since it rejects a leading `+` and has no 64-bit range limit. |
| Monitoring.ListenPortIsWgPort | monitoring.go:56-59 | `strconv.Atoi("51820")` is 51820, so the `invalid port` branch cannot be taken. The listen port printed by `%d` is the text `wgPort` (`main.go:49`). |
| WgConfig.CreateConfig | monitoring.go:155-179 | The rendered text ends with a newline, as the format string does. Its full layout is stated by `CreateConfigLines`. |
| WgConfig.CreateConfigLines | monitoring.go:155-179 | For fields without newlines, the rendered text splits into exactly the twelve pieces of the template, in order: `[Interface]`, the four interface lines, the empty line, `[Peer]`, the four peer lines, and a final empty piece. |
| WgConfig.SplitJoinLines | monitoring.go:158-169 | Text made of newline-terminated lines splits back into those lines plus a final empty piece. |
| WgConfig.PeerTemplateIsLines | monitoring.go:158-169 | The `Sprintf` template is the eleven template lines, each terminated by a newline. |
| WgConfig.StripPrefix | monitoring.go:158-169 | Stripping a template prefix succeeds exactly when the line starts with it, and the line is the prefix followed by the result. |
| WgConfig.CreateConfigRoundTrip | monitoring.go:155-179 | Parsing the rendered text gives back the configuration it was rendered from. This holds for single-line fields, at least one allowed IP, and no comma inside an IP. |
| WgConfig.CreateConfigInjective | monitoring.go:155-179 | Two such configurations that render to the same text are equal: the text lets the receiver recover every field. |
| ClientStore.ClientToJson | main.go:18-29 | The JSON form of a client has exactly the ten tagged keys, holds the keys and address as strings, and decodes back to the same record. |
| ClientStore.Ensure | main.go:189-244 | The outcome of `ensureClient` for each input. A read error, a decode error and each generator failure give their own error, in the order of the code. A non-object `clients` member panics, and so does a `null` document once the keys are generated. A non-empty `clients` object leaves the file alone. Otherwise a successful repair writes the document with only `clients` replaced, by a one-entry map under the new id. The stored object is exactly the JSON form of that record, with its ten members and nothing else. That record has name `default`, address `10.8.0.2`, `enabled`, both timestamps set to now, no expiry, and the trimmed keys. Every error reports `changed = false` and writes nothing. |
| ClientStore.EnsureClient | main.go:189-244 | The imperative `ensureClient`, with a `changed` flag and a `clients` map reassigned into the body, returns exactly what `Ensure` specifies. |
| ClientStore.EnsureIdempotent | main.go:189-244 | Running `ensureClient` again on the document a repair wrote changes nothing and reports no error, whatever the new id, clock, keys or write result. |
| Monitoring.Resolve | monitoring.go:30-70 | Each error of `getConfig` holds exactly under its own condition. A read error gives ReadFailed and a decode error gives DecodeFailed. "No clients" covers a missing, non-object or empty `clients` member, and is checked before the server. "No server" covers a non-object `server`. The call succeeds exactly when the picked client is an object whose `privateKey`, `address` and `preSharedKey` are strings and the server's `publicKey` is a string. In every other case that gets past "no server" it panics. On success the configuration carries the picked client's private key, address and preshared key, the server's public key, port 51820, DNS `1.1.1.1`, allowed IPs `0.0.0.0/0` and the endpoint `WG_HOST:51820`. |
| Monitoring.GetConfig | monitoring.go:30-73 | `getConfig` fails exactly when the lookup does, with the same error. Otherwise it returns the rendering of the resolved configuration. |
| Monitoring.ErrorsDoNotDependOnPick | monitoring.go:50-54 | Which client the map iteration picks does not change any failure of `getConfig` other than a panic. |
| Monitoring.GetConfigLines | monitoring.go:30-72 | The text `getConfig` returns has the picked client's keys and address, the fixed port, DNS, allowed IPs and endpoint, and the server key, each on its own template line. |
| Monitoring.SendConfigRequest | monitoring.go:75-94 | `sendConfig` builds a request exactly when `getConfig` succeeded. It has state 3, `monitored` set to the current Unix time, and the rendered text. |
| Monitoring.Tick | monitoring.go:96-111 | One pass of `sendMonitoring`. A panic in `ensureClient` ends the process. Any other `ensureClient` error skips both the push and the sleep (`continue`). A created client is signalled to the supervisor first, and only then. There is one push exactly when `getConfig` succeeded; it carries state 3, the time and the text. A failed push is only logged: the pass still ends in the 157-second sleep. Nothing else happens: at most one push, never a terminate signal, and the length is fixed by these cases. |
| Monitoring.TickIgnoresPushOutcome | monitoring.go:106-109 | The status code of the push changes nothing except the push's own delivery flag. |
| Startup.VerdictOf | main.go:124-131 | The startup code reads `ensureClient` as "created" exactly for a change without error, and as "already present" exactly for no change and no error. A panic is exactly `EnsurePanicked` and any other error exactly `EnsureErrored`: only the error goes through `fatal` (`main.go:125-126`). |
| Startup.WaitFrom | main.go:107-131 | The `retry:` loop from a given probe, counter and action list. It uses at least one more probe unless the probes ran out. It only appends actions and only counts up. Starting within the budget, it times out with the counter at 16, and otherwise leaves it at 15 at most. |
| Startup.Wait | main.go:107-131 | The whole wait, from `retries := 0`. It times out exactly when the counter reaches 16, and the counter never exceeds 16. |
| Startup.WaitForConfig | main.go:107-131 | The imperative `retry:` loop returns exactly the outcome, number of probes used, final counter and actions of the specification `Wait`. |
| Startup.WaitShape | main.go:107-131 | The wait either uses up its probes or stops at the first probe k that ends it. At k, `retries` equals the number of not-exist results so far. The actions are one sleep per not-exist result and one restart signal per created client, in order, then the terminate signal when the stop is fatal. |
| Startup.WaitStopsAt | main.go:107-131 | The loop stops exactly at the probe `StopsAt` names. |
| Startup.ReadyAtOnce | main.go:110-131 | A file that exists and already has a client goes straight on, without sleeping or signalling. |
| Startup.OtherOpenErrorIsFatal | main.go:110-121 | An open error other than not-exist ends the wait at once through `fatal`, so the last action is the terminate signal. |
| Startup.TimedOutIffSixteenthNotExist | main.go:111-116 | The wait times out exactly on the not-exist result that brings the count to 16, i.e. when `retries > 15`. |
| Startup.SixteenMissesTimeOut | main.go:111-118 | Sixteen not-exist results in a row produce fifteen one-second sleeps followed by the terminate signal. |
| Startup.MissesInARow | main.go:111-118 | n not-exist results within the budget add n to the counter and n one-second sleeps. |
| Startup.BudgetSharedAcrossRestarts | main.go:108-131 | The counter is not reset after a created client: ten misses, a creation and six misses time out. |
| Startup.SleepBudget | main.go:108-131 | However many restarts happen, the whole wait sleeps at most fifteen times. |
| Startup.TraceCounts | main.go:111-131 | The loop sleeps once per not-exist result and signals once per created client. |
| Startup.InitialPush | main.go:133-135 | At startup, a failed `getConfig` or a non-200 push is fatal and ends with the terminate signal. A panic crashes the process instead. A successful `getConfig` is pushed once, with state 3 and the current time. The list is that push alone on status 200, and the push followed by the terminate signal otherwise. |
| Startup.ShutdownRequest | main.go:141-153 | The shutdown report has state 3 and `monitored = 0`. It carries the rendered text, or the empty string when `getConfig` failed. |
| Startup.Shutdown | main.go:138-158 | On a signal, exactly one report is pushed, whatever its status, and then the terminate handshake follows. That report is `ShutdownRequest(config)`. A panic in `getConfig` ends the process first. |
| Startup.RepairThenResolve | main.go:189-244 | After a repair of a document without clients, the new client is the only key `getConfig` can pick. `getConfig` resolves it to the trimmed generated private and preshared keys, the server's public key and the fixed fields. |
| Startup.RepairThenRender | main.go:124-135 | After the repair, the first report's text has the trimmed private key, address `10.8.0.2`, the server's public key and the trimmed preshared key on their template lines. |
| Startup.FirstStartRestartsOnce | main.go:124-131 | On `{"clients":{},"server":{"publicKey":"SRVPUB"}}` the first pass creates a client, and the second pass finds it. The wait ends ready after one restart signal and no sleeps. |
| Startup.FirstStartResolves | main.go:124-135 | On that document, with generator outputs `PRIV\n`, `PUB\n` and `PSK\n`, `getConfig` on the next pass resolves to the keys `PRIV` and `PSK` and the server key `SRVPUB`. |

## Left out

- The supervisor goroutine (`main.go:68-105`) is not modelled: it starts `dumb-init node server.js`, kills and restarts it, and calls `log.Fatal` when the child exits by itself with a non-zero status. A child that exits with status 0 is not fatal: the goroutine then only waits for a restart or termination message. The messages sent to it appear as `SignalRestart` and `SignalTerminate` actions.
- The termination handshake over `termChan` and `processFinishChan` and the final `log.Fatal` inside `fatal` are concurrency and process exit. They are the single action `SignalTerminate`.
- `genPubKey` and the `wg genkey` / `wg genpsk` commands run subprocesses. Their outputs, or their failure, are the inputs `KeyOutputs`. Since the code never checks what they print, the model cannot prove the keys non-empty, well formed or distinct.
- `os.ReadFile`, `os.Open`, `os.WriteFile` and the file mode are inputs. The model has `FileContents`, a `Probe` per open, and the `writeOk` flag. A write that fails half-way, and other writers racing on the file, are not modelled.
- The bytes of JSON are not modelled. `json.Unmarshal` is taken at the level of decoded values. `json.Marshal` of the body and of the request cannot fail on these values, so its error branches (`main.go:233-236`, `monitoring.go:114-117`) are not modelled.
- Json.DecodeBody: the bytes of the file and the float64 decoding of numbers are not modelled. A number float64 cannot hold (such as `1e400`) makes `json.Unmarshal` fail; the model counts that file as `NotJson`. A number is kept as the 64 bits of its float64, so the model does not show that a repair rewrites each number the way `json.Marshal` prints that float64 (`1.0` becomes `1`, and digits beyond float64 precision are lost).
- `sendMonitoringRequest` (HTTP POST with the bearer token) is reduced to the status code. Only a 200 counts as delivered. The request and response bodies and transport errors are not modelled; a transport error behaves like a non-200 status.
- `init` and the environment check in `main` (`main.go:44-61`) are not modelled. `WG_HOST` is the parameter `host`. `POST_CONFIG_DATA_URL` is only checked and never used afterwards.
- `uuid.New`, `time.Now` and `time.Sleep` are inputs, or `Sleep` actions. An `Instant` is kept as its RFC 3339 text.
- Logging (`log.Println`) is not modelled.
- `Monitoring.ListenPortIsWgPort`: the `invalid port` branch of `getConfig` (`monitoring.go:57-59`) is not part of `Resolve`, because `strconv.Atoi` of the constant `"51820"` cannot fail, as this lemma shows.
- `Monitoring.Tick`: the infinite `for` loop of `sendMonitoring` is modelled one pass at a time. The inputs of the passes are independent, and nothing links one pass's write to the next pass's read.
- `Startup.WaitForConfig`: the loop runs over a finite sequence of probe results. When they run out it reports `Waiting` rather than running forever.
- `WgConfig.CreateConfigRoundTrip`: the round trip is stated only for single-line fields, an allowed IP with no comma, and at least one allowed IP. A field containing a newline makes the rendered text ambiguous, and the code does not rule that out.
