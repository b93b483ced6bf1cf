# BenchClient — a Dafny model of xmrig's benchmark client

xmrig runs its built-in benchmark through `BenchClient`, a pretend pool client. It builds a
synthetic job: an all-zero blob, maximum difficulty, height 1 and the requested benchmark
size. It hands this job to the miner through the usual client-listener callbacks, then reports
the final hash sum. There are four modes:

- **STATIC_BENCH**: run locally, no reference hash unless the reference table knows one.
- **STATIC_VERIFY**: run locally against a configured hash and seed.
- **ONLINE_BENCH**: ask the benchmark service to create a job (`POST /1/benchmark`), then
  report the start and the result with `PATCH /1/benchmark/<id>` and a bearer token.
- **ONLINE_VERIFY**: fetch a recorded benchmark (`GET /1/benchmark/<id>`) and rerun it
  against its hash.

The model is a Dafny class, `Bench.BenchClient`. Its fields are the ones the C++ callbacks
update: `mode`, `job`, `token`, `hash`, `startTime`, `doneTime`, `threads` and
`hasHttpListener`. Every effect the client has on the outside world is appended, in order,
to the field `events`:

- listener calls (`LoginSuccess`, `JobReceived`);
- creation of the HTTP listener;
- HTTP requests (method, path, Authorization header, body record);
- log lines ("benchmark finished" with its verdict, "benchmark submitted", "benchmark failed");
- the exit prompt.

Each method's postcondition gives the complete new state in terms of the old state. It says
exactly which events were appended.

The object invariant `Valid()` states what holds between any two callbacks:

- without the HTTP feature only the static modes exist;
- a static run never holds a token, never creates the HTTP listener and never sends a request;
- `doneTime` is non-zero only while a token is held, so it stays 0 in the static modes;
- ONLINE_BENCH keeps the configured hash;
- the HTTP listener is created at most once;
- every PATCH carries an `Authorization: Bearer <non-empty token>` header;
- every login notification is immediately followed by the job;
- in ONLINE_BENCH the exit prompt only ever comes right after the "benchmark submitted" line.

Collaborators whose code is not part of this model become constructor parameters:

- `seedAccepts`: whether `Job::setSeedHash` accepts a seed text;
- `referenceTable`: `BenchState::referenceHash`, keyed by algorithm, size and thread count;
- `httpFeature`: the `XMRIG_FEATURE_HTTP` build switch.

JSON documents are records of their string members and unsigned members. `Json::getString`
gives null (`None`) for a missing member, and `Json::getUint` gives 0.

The module `Hex` models `fmt::format("{:016X}", x)` and `strtoull(s, nullptr, 16)`. It proves
that the reported hash sum is 16 upper-case digits, zero-padded, and that it parses back to the
same value. `BenchScenarios` drives complete runs of each kind of client, the way the backend
and the transport call it back, and states the whole trace each run produces.

In ONLINE_BENCH, `referenceHash()` returns the stored `m_hash`, the configured hash, which
may be non-zero (BenchClient.cpp:199-200).

## Model

| member | source | states |
|---|---|---|
| Hex.Format016X | src/base/net/stratum/benchmark/BenchClient.cpp:123 | the hash sum sent in the done update is exactly 16 upper-case hexadecimal digits |
| Hex.ParseFormatRoundTrip | src/base/net/stratum/benchmark/BenchClient.cpp:123 | strtoull in base 16 applied to the `{:016X}` text of any 64-bit hash sum gives back that hash sum |
| Hex.FormatFixedLeadingZeros | src/base/net/stratum/benchmark/BenchClient.cpp:133 | a hash sum below 16^k is printed with its leading 16-k digits '0' (the `%016` zero padding) |
| Hex.ParseHex | src/base/net/stratum/benchmark/BenchClient.cpp:279 | the value of the leading hex digits, saturated at 2^64-1; 0 when there are none; a digit string whose value fits is read exactly |
| Hex.ParseHexStopsAtNonDigit | src/base/net/stratum/benchmark/BenchClient.cpp:279 | strtoull reads only the leading hexadecimal digits: anything after the first non-digit does not change the value |
| BenchTypes.OrEmpty | src/base/net/stratum/benchmark/BenchClient.cpp:266-269 | a null string from the JSON document becomes the empty id or token; a present one is copied as is |
| BenchTypes.AlgorithmOf | src/base/net/stratum/benchmark/BenchClient.cpp:282 | a missing "algo" member gives the null-name algorithm; a present one is passed on by name |
| BenchTypes.GetString | src/base/net/stratum/benchmark/BenchClient.cpp:266-269 | a member is read exactly when it is present, with its value |
| BenchTypes.GetUint | src/base/net/stratum/benchmark/BenchClient.cpp:284 | the fetched size is the "size" member, or 0 when it is missing |
| BenchTypes.Judge | src/base/net/stratum/benchmark/BenchClient.cpp:130-131 | the verdict is match iff the reference is non-zero and equal to the result, mismatch iff it is non-zero and different, neutral iff it is 0 |
| BenchTypes.ReportedHashVerifies | src/base/net/stratum/benchmark/BenchClient.cpp:277-280 | a hash sum reported by ONLINE_BENCH and fetched back by ONLINE_VERIFY is matched by exactly the same result and missed by every other one (neutral if it was 0) |
| Bench.FetchedHash | src/base/net/stratum/benchmark/BenchClient.cpp:277-280 | `m_hash` is replaced by the parsed "hash" member when that member is present, and kept otherwise |
| Bench.BenchClient.constructor | src/base/net/stratum/benchmark/BenchClient.cpp:36-78 | the job gets a 224-digit zero blob, the configured algorithm, difficulty 2^64-1, height 1 and the configured size, and nothing is emitted. Submit selects ONLINE_BENCH; otherwise a configured id selects ONLINE_VERIFY and copies id and token; otherwise the id is "00000000" and the mode is STATIC_VERIFY iff the hash is non-zero and the seed is accepted, else STATIC_BENCH with the 64-digit zero seed when `setSeedHash` accepts it |
| Bench.BenchClient.ReferenceHash | src/base/net/stratum/benchmark/BenchClient.cpp:197-204 | a non-zero `m_hash` is the reference in every mode; ONLINE_BENCH returns `m_hash` even when it is 0 and never consults the table; otherwise the table for (algorithm, size, threads) decides |
| Bench.BenchClient.SetSeedHash | src/base/net/stratum/benchmark/BenchClient.cpp:70-77 | the seed is replaced exactly when the offered seed is non-null and accepted, and the result says whether it was |
| Bench.BenchClient.Connect | src/base/net/stratum/benchmark/BenchClient.cpp:87-104 | static modes emit login then job and nothing else; ONLINE_BENCH emits only a POST to /1/benchmark; ONLINE_VERIFY emits only a GET to /1/benchmark/<id>; the listener is created if it did not exist yet |
| Bench.BenchClient.Start | src/base/net/stratum/benchmark/BenchClient.cpp:213-217 | exactly two listener notifications, login success then the current job, and no state change |
| Bench.BenchClient.CreateHttpListener | src/base/net/stratum/benchmark/BenchClient.cpp:241-246 | the HTTP listener exists afterwards and was created only if it did not exist before |
| Bench.BenchClient.CreateBench | src/base/net/stratum/benchmark/BenchClient.cpp:222-238 | one POST to /1/benchmark with no authorisation, carrying the configured size and algorithm |
| Bench.BenchClient.GetBench | src/base/net/stratum/benchmark/BenchClient.cpp:249-255 | one GET to /1/benchmark/<job id> with no authorisation |
| Bench.BenchClient.Update | src/base/net/stratum/benchmark/BenchClient.cpp:290-298 | needs a non-empty token; emits one PATCH to /1/benchmark/<job id> carrying "Bearer <token>" |
| Bench.BenchClient.OnBenchStart | src/base/net/stratum/benchmark/BenchClient.cpp:141-158 | records the start time and thread count; emits a PATCH with threads and start time only in ONLINE_BENCH |
| Bench.BenchClient.OnBenchDone | src/base/net/stratum/benchmark/BenchClient.cpp:113-138 | `doneTime` is set and a PATCH with the done time and 16-digit hash is emitted iff a token is held; the finished line carries the verdict against the reference hash; the exit prompt follows iff the mode is not ONLINE_BENCH |
| Bench.BenchClient.LogFinished | src/base/net/stratum/benchmark/BenchClient.cpp:130-133 | the finished line carries the result and its verdict against `referenceHash()` |
| Bench.BenchClient.PrintExit | src/base/net/stratum/benchmark/BenchClient.cpp:207-210 | one exit prompt; in ONLINE_BENCH it is allowed only right after the submitted line |
| Bench.BenchClient.SetError | src/base/net/stratum/benchmark/BenchClient.cpp:258-261 | one failure line and no state change |
| Bench.BenchClient.OnHttpData | src/base/net/stratum/benchmark/BenchClient.cpp:161-194 | a parse failure, then a status other than 200, only log an error and change nothing; with `doneTime` set the response logs the submitted URL and prompts for exit; with `startTime` set it is ignored; only with both 0 does it reach startBench (ONLINE_BENCH) or startVerify (any other mode) |
| Bench.BenchClient.AfterCreate | src/base/net/stratum/benchmark/BenchClient.cpp:266-267 | after the create response the job id is the response's id and the seed is its seed when accepted, and nothing else of the job changes |
| Bench.BenchClient.AfterFetch | src/base/net/stratum/benchmark/BenchClient.cpp:282-284 | after the fetch response the algorithm, size and (when accepted) seed are the response's, and nothing else of the job changes |
| Bench.BenchClient.StartBench | src/base/net/stratum/benchmark/BenchClient.cpp:264-272 | id, seed and token are replaced from the response before login and job are notified, and the notified job is the updated one |
| Bench.BenchClient.StartVerify | src/base/net/stratum/benchmark/BenchClient.cpp:275-287 | `m_hash` is replaced only when a hash string is present; algorithm, seed and size are always replaced; all before login and job are notified |
| BenchScenarios.StaticRun | src/base/net/stratum/benchmark/BenchClient.cpp:87-93 | a static run emits exactly login, the placeholder job, the finished line judged against the configured hash or else the table, and the exit prompt; no HTTP traffic |
| BenchScenarios.OnlineBenchSetup | src/base/net/stratum/benchmark/BenchClient.cpp:264-272 | after connect and the create response the job carries the service's id and the client holds its token, with exactly one POST before the login and job notifications |
| BenchScenarios.OnlineBenchRun | src/base/net/stratum/benchmark/BenchClient.cpp:113-194 | a full ONLINE_BENCH run emits one POST, one login and job, the start and done PATCHes to /1/benchmark/<id> with the issued bearer token, the finished line, and only then the submitted URL and the exit prompt |
| BenchScenarios.OnlineVerifySetup | src/base/net/stratum/benchmark/BenchClient.cpp:275-287 | after connect and the fetch response the fetched hash, algorithm and size are in place before the only login and job notifications |
| BenchScenarios.OnlineVerifyRun | src/base/net/stratum/benchmark/BenchClient.cpp:113-138 | a tokenless ONLINE_VERIFY run emits one GET, one login and job, the finished line judged against the fetched hash or else the table, and the exit prompt; a fetched hash that ONLINE_BENCH reported is matched exactly by the same result |

## Left out

- Console text, colour escapes and the elapsed time `(ts - m_startTime) / 1000.0` are left out. They are formatting and floating point. The finished line keeps only the result and the verdict.
- The JSON bodies built with rapidjson are reduced to records. The "version" member (`APP_VERSION`), `Cpu::toJSON` and `IBackend::toJSON` are foreign calls and are left out. So is the backend pointer kept by `onBenchStart`.
- The fetch transport is not modelled. That covers `FetchRequest`, the API host, port and TLS flag, and the internals of `HttpListener`. A request is an event with its method, path, Authorization header and body record.
- `BenchState::setListener`, `BenchState::destroy` (the destructor) and `setPool` are left out. They only register or store objects and make no decisions.
- Bench.BenchClient.StartVerify: `strtoull` is modelled as a plain hexadecimal-digit parser that saturates at 2^64-1. It does not skip leading whitespace, read a sign or a "0x" prefix, or set `errno`.
- Bench.BenchClient.SetSeedHash: the validation inside `Job::setSeedHash` is not part of this model. It is an opaque acceptance predicate. A null seed is always rejected, and a rejected seed leaves the job's seed unchanged.
- BenchTypes.AlgorithmOf: resolving a name to an algorithm is done by `Algorithm`, which is not part of this model. In xmrig an unknown name also gives an invalid algorithm; the model keeps any present name as it is.
- `BenchState::referenceHash` is not part of this model. The reference table is an opaque function of algorithm, size and thread count.
- Bench.BenchClient.OnBenchStart: the source only asserts that a token is held when a PATCH is sent. The model states this assertion as a precondition in ONLINE_BENCH and does not model what a release build would send without a token.
- Concurrency is not modelled. The callbacks are assumed to be serialised, as the component requires.
- The job's blob and seed are kept as the hex text handed to `Job`, not as decoded bytes.
