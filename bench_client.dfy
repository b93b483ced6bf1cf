/** BenchClient: the pretend pool client that feeds the backend a synthetic benchmark job,
    talks to the benchmark service in the online modes, and reports the hash sum.
    Listener notifications, HTTP requests and log lines are appended to `events`. */
module Bench {
  import opened Hex
  import opened BenchTypes

  /** Everything about a BenchClient that its callbacks can change. */
  datatype ClientState = ClientState(
    mode: Mode,
    job: Job,
    token: string,
    hash: uint64,
    startTime: uint64,
    doneTime: uint64,
    threads: uint32,
    hasHttpListener: bool,
    events: seq<Event>)

  /** The events that createHttpListener adds: one creation, the first time only. */
  function ListenerEvents(existed: bool): seq<Event> {
    if existed then [] else [HttpListenerCreated]
  }

  /** m_hash after a fetch: replaced by the parsed "hash" member when there is one. */
  function FetchedHash(current: uint64, doc: Json): (r: uint64)
    ensures HashKey in doc.strings ==> r == ParseHex(doc.strings[HashKey])
    ensures HashKey !in doc.strings ==> r == current
  {
    var text := GetString(doc, HashKey);
    if text.Some? then ParseHex(text.value) else current
  }

  class BenchClient {
    /** The benchmark configuration (m_benchmark). */
    const config: BenchConfig
    /** Whether xmrig was built with XMRIG_FEATURE_HTTP. */
    const httpFeature: bool
    /** Whether Job::setSeedHash accepts a seed hash text. */
    const seedAccepts: string -> bool
    /** BenchState::referenceHash: known hash sum per (algorithm, size, threads), 0 if unknown. */
    const referenceTable: (Algorithm, uint32, uint32) -> uint64

    var mode: Mode
    var job: Job
    var token: string
    var hash: uint64
    var startTime: uint64
    var doneTime: uint64
    var threads: uint32
    var hasHttpListener: bool
    var events: seq<Event>

    function State(): ClientState
      reads this
    {
      ClientState(mode, job, token, hash, startTime, doneTime, threads, hasHttpListener, events)
    }

    /** The invariant every callback keeps. */
    ghost predicate Valid()
      reads this
    {
      // without the HTTP feature only the static modes exist
      (!httpFeature ==> mode.IsStatic()) &&
      // static runs never hold a token nor talk to the service
      (mode.IsStatic() ==> token == [] && !hasHttpListener) &&
      // the completion time is recorded only when the result is reported with a token
      (doneTime != 0 ==> token != []) &&
      // ONLINE_BENCH never replaces the configured hash
      (mode == OnlineBench ==> hash == config.hash) &&
      // the HTTP listener is created at most once
      CountKind(events, ListenerKind) == (if hasHttpListener then 1 else 0) &&
      // only online modes send requests, and every PATCH carries a bearer token
      (forall i | 0 <= i < |events| && events[i].Request? ::
         !mode.IsStatic() && (events[i].verb == Patch ==> IsBearerAuth(events[i].auth))) &&
      // start() always notifies login success immediately followed by the job
      (forall i | 0 <= i < |events| && events[i].LoginSuccess? ::
         i + 1 < |events| && events[i + 1].JobReceived?) &&
      // ONLINE_BENCH prompts for exit only right after the service acknowledged the result
      (mode == OnlineBench ==>
         forall i | 0 <= i < |events| && events[i].ExitPrompt? :: 0 < i && events[i - 1].Submitted?)
    }

    /** The job after Job::setSeedHash(seed): a null or rejected seed leaves it as it was. */
    function Seeded(j: Job, seed: Option<string>): (r: Job)
      ensures seed.Some? && seedAccepts(seed.value) ==> r == j.(seed := seed.value)
      ensures !(seed.Some? && seedAccepts(seed.value)) ==> r == j
    {
      if seed.Some? && seedAccepts(seed.value) then j.(seed := seed.value) else j
    }

    /** The hash sum a finished run is compared with: a configured or fetched hash wins;
        ONLINE_BENCH uses its configured hash even when it is 0; otherwise the table decides. */
    function ReferenceHash(): (r: uint64)
      reads this
      ensures hash != 0 ==> r == hash
      ensures mode == OnlineBench ==> r == hash
      ensures hash == 0 && mode != OnlineBench ==> r == referenceTable(job.algorithm, job.benchSize, threads)
    {
      if hash != 0 || mode == OnlineBench then hash
      else referenceTable(job.algorithm, job.benchSize, threads)
    }

    constructor (config: BenchConfig, httpFeature: bool, seedAccepts: string -> bool,
                 referenceTable: (Algorithm, uint32, uint32) -> uint64)
      ensures Valid()
      ensures this.config == config && this.httpFeature == httpFeature
      ensures this.seedAccepts == seedAccepts && this.referenceTable == referenceTable
      ensures job.blob == ZeroBlob && job.algorithm == config.algorithm && job.diff == U64_MAX
      ensures job.height == 1 && job.benchSize == config.size
      ensures hash == config.hash && startTime == 0 && doneTime == 0 && threads == 0
      ensures !hasHttpListener && events == []
      ensures httpFeature && config.submit ==>
        mode == OnlineBench && job.id == [] && job.seed == [] && token == []
      ensures httpFeature && !config.submit && config.id != [] ==>
        mode == OnlineVerify && job.id == config.id && job.seed == [] && token == config.token
      ensures !httpFeature || (!config.submit && config.id == []) ==>
        job.id == PlaceholderId && token == [] &&
        (mode == StaticVerify <==> config.hash != 0 && config.seed.Some? && seedAccepts(config.seed.value)) &&
        (mode == StaticVerify ==> job.seed == config.seed.value) &&
        (mode != StaticVerify ==>
           mode == StaticBench && job.seed == if seedAccepts(ZeroSeed) then ZeroSeed else [])
    {
      this.config := config;
      this.httpFeature := httpFeature;
      this.seedAccepts := seedAccepts;
      this.referenceTable := referenceTable;
      mode := StaticBench;
      hash := config.hash;
      job := EmptyJob;
      token := [];
      startTime, doneTime, threads := 0, 0, 0;
      hasHttpListener := false;
      events := [];
      new;
      job := job.(blob := ZeroBlob, algorithm := config.algorithm, diff := U64_MAX, height := 1,
                  benchSize := config.size);
      if httpFeature && config.submit {
        mode := OnlineBench;
        return;
      }
      if httpFeature && config.id != [] {
        job := job.(id := config.id);
        token := config.token;
        mode := OnlineVerify;
        return;
      }
      job := job.(id := PlaceholderId);
      if hash != 0 {
        var accepted := SetSeedHash(config.seed);
        if accepted {
          mode := StaticVerify;
          return;
        }
      }
      var _ := SetSeedHash(Some(ZeroSeed));
    }

    /** Job::setSeedHash on the client's job. */
    method SetSeedHash(seed: Option<string>) returns (accepted: bool)
      modifies this
      ensures accepted <==> seed.Some? && seedAccepts(seed.value)
      ensures State() == old(State()).(job := Seeded(old(job), seed))
    {
      accepted := seed.Some? && seedAccepts(seed.value);
      if accepted {
        job := job.(seed := seed.value);
      }
    }

    /** Leaves the idle state: static modes start at once, ONLINE_BENCH asks the service to
        create a benchmark, ONLINE_VERIFY fetches the recorded one. */
    method Connect()
      requires Valid()
      modifies this
      ensures Valid()
      ensures mode.IsStatic() ==>
        State() == old(State()).(events := old(events) + [LoginSuccess, JobReceived(job)])
      ensures mode == OnlineBench ==>
        State() == old(State()).(hasHttpListener := true,
          events := old(events) + ListenerEvents(old(hasHttpListener)) +
                    [Request(Post, ApiPath, None, CreateBody(config.size, config.algorithm))])
      ensures mode == OnlineVerify ==>
        State() == old(State()).(hasHttpListener := true,
          events := old(events) + ListenerEvents(old(hasHttpListener)) +
                    [Request(Get, JobPath(job.id), None, NoBody)])
    {
      if !httpFeature {
        Start();
        return;
      }
      match mode
      case StaticBench => Start();
      case StaticVerify => Start();
      case OnlineBench => CreateBench();
      case OnlineVerify => GetBench();
    }

    /** Tells the listener that login succeeded, then hands it the job. */
    method Start()
      requires Valid()
      modifies this
      ensures Valid()
      ensures State() == old(State()).(events := old(events) + [LoginSuccess, JobReceived(job)])
    {
      var added := [LoginSuccess, JobReceived(job)];
      CountKindAppend(events, added, ListenerKind);
      events := events + added;
    }

    method CreateHttpListener()
      requires Valid() && !mode.IsStatic()
      modifies this
      ensures Valid()
      ensures State() == old(State()).(hasHttpListener := true,
                                       events := old(events) + ListenerEvents(old(hasHttpListener)))
    {
      if !hasHttpListener {
        CountKindAppend(events, [HttpListenerCreated], ListenerKind);
        hasHttpListener := true;
        events := events + [HttpListenerCreated];
      }
    }

    /** POST /1/benchmark with the configured size and algorithm. */
    method CreateBench()
      requires Valid() && mode == OnlineBench
      modifies this
      ensures Valid()
      ensures State() == old(State()).(hasHttpListener := true,
        events := old(events) + ListenerEvents(old(hasHttpListener)) +
                  [Request(Post, ApiPath, None, CreateBody(config.size, config.algorithm))])
    {
      CreateHttpListener();
      var added := [Request(Post, ApiPath, None, CreateBody(config.size, config.algorithm))];
      CountKindAppend(events, added, ListenerKind);
      events := events + added;
    }

    /** GET /1/benchmark/<job id>. */
    method GetBench()
      requires Valid() && mode == OnlineVerify
      modifies this
      ensures Valid()
      ensures State() == old(State()).(hasHttpListener := true,
        events := old(events) + ListenerEvents(old(hasHttpListener)) +
                  [Request(Get, JobPath(job.id), None, NoBody)])
    {
      CreateHttpListener();
      var added := [Request(Get, JobPath(job.id), None, NoBody)];
      CountKindAppend(events, added, ListenerKind);
      events := events + added;
    }

    /** PATCH /1/benchmark/<job id>, authorised with the bearer token. */
    method Update(body: RequestBody)
      requires Valid() && token != []
      modifies this
      ensures Valid()
      ensures State() == old(State()).(
        events := old(events) + [Request(Patch, JobPath(job.id), Some(Bearer(token)), body)])
    {
      var added := [Request(Patch, JobPath(job.id), Some(Bearer(token)), body)];
      CountKindAppend(events, added, ListenerKind);
      events := events + added;
    }

    /** The backend started: record when and on how many threads; ONLINE_BENCH tells the
        service. The source asserts that a token is held whenever it sends a PATCH. */
    method OnBenchStart(ts: uint64, threadCount: uint32)
      requires Valid()
      requires httpFeature && mode == OnlineBench ==> token != []
      modifies this
      ensures Valid()
      ensures State() == old(State()).(startTime := ts, threads := threadCount,
        events := old(events) +
          if httpFeature && mode == OnlineBench
          then [Request(Patch, JobPath(job.id), Some(Bearer(token)), StartBody(threadCount, ts))]
          else [])
    {
      startTime := ts;
      threads := threadCount;
      if httpFeature && mode == OnlineBench {
        Update(StartBody(threadCount, ts));
      }
    }

    /** The backend finished with hash sum `result`: report it to the service when a token is
        held, log it against the reference, and prompt for exit unless ONLINE_BENCH still
        waits for the service's acknowledgement. */
    method OnBenchDone(result: uint64, ts: uint64)
      requires Valid()
      modifies this
      ensures Valid()
      ensures State() == old(State()).(
        doneTime := if httpFeature && token != [] then ts else old(doneTime),
        events := old(events) +
          (if httpFeature && token != []
           then [Request(Patch, JobPath(job.id), Some(Bearer(token)), DoneBody(ts, Format016X(result)))]
           else []) +
          [BenchFinished(result, Judge(result, ReferenceHash()))] +
          (if mode != OnlineBench then [ExitPrompt] else []))
    {
      if httpFeature && token != [] {
        doneTime := ts;
        Update(DoneBody(doneTime, Format016X(result)));
      }
      LogFinished(result);
      if mode != OnlineBench {
        PrintExit();
      }
    }

    /** The "benchmark finished" line: the hash sum, coloured by its verdict. */
    method LogFinished(result: uint64)
      requires Valid()
      modifies this
      ensures Valid()
      ensures State() == old(State()).(
        events := old(events) + [BenchFinished(result, Judge(result, ReferenceHash()))])
    {
      var added := [BenchFinished(result, Judge(result, ReferenceHash()))];
      CountKindAppend(events, added, ListenerKind);
      events := events + added;
    }

    /** The "press Ctrl+C to exit" line; in ONLINE_BENCH only after "benchmark submitted". */
    method PrintExit()
      requires Valid()
      requires mode == OnlineBench ==> events != [] && events[|events| - 1].Submitted?
      modifies this
      ensures Valid()
      ensures State() == old(State()).(events := old(events) + [ExitPrompt])
    {
      CountKindAppend(events, [ExitPrompt], ListenerKind);
      events := events + [ExitPrompt];
    }

    /** Routes every response from the service: errors are logged and change nothing; once
        the result was reported the response is the acknowledgement; once the backend
        started it is ignored; otherwise it completes the job and starts the run. */
    method OnHttpData(data: HttpData)
      requires Valid()
      modifies this
      ensures Valid()
      ensures !httpFeature ==> State() == old(State())
      ensures httpFeature && data.body.Malformed? ==>
        State() == old(State()).(events := old(events) + [Failed(ParseFailure(data.body.message))])
      ensures httpFeature && data.body.Parsed? && data.status != 200 ==>
        State() == old(State()).(events := old(events) + [Failed(StatusFailure(data.status))])
      ensures httpFeature && data.body.Parsed? && data.status == 200 && old(doneTime) != 0 ==>
        State() == old(State()).(events := old(events) + [Submitted(SubmittedUrl(job.id)), ExitPrompt])
      ensures httpFeature && data.body.Parsed? && data.status == 200 && old(doneTime) == 0 &&
              old(startTime) != 0 ==>
        State() == old(State())
      ensures httpFeature && data.body.Parsed? && data.status == 200 && old(doneTime) == 0 &&
              old(startTime) == 0 && mode == OnlineBench ==>
        State() == old(State()).(job := AfterCreate(old(job), data.body.doc),
                                 token := OrEmpty(GetString(data.body.doc, TokenKey)),
                                 events := old(events) + [LoginSuccess, JobReceived(job)])
      ensures httpFeature && data.body.Parsed? && data.status == 200 && old(doneTime) == 0 &&
              old(startTime) == 0 && mode != OnlineBench ==>
        State() == old(State()).(hash := FetchedHash(old(hash), data.body.doc),
                                 job := AfterFetch(old(job), data.body.doc),
                                 events := old(events) + [LoginSuccess, JobReceived(job)])
    {
      if !httpFeature {
        return;
      }
      if data.body.Malformed? {
        SetError(ParseFailure(data.body.message));
        return;
      }
      if data.status != 200 {
        SetError(StatusFailure(data.status));
        return;
      }
      if doneTime != 0 {
        CountKindAppend(events, [Submitted(SubmittedUrl(job.id))], ListenerKind);
        events := events + [Submitted(SubmittedUrl(job.id))];
        PrintExit();
        return;
      }
      if startTime != 0 {
        return;
      }
      if mode == OnlineBench {
        StartBench(data.body.doc);
      } else {
        StartVerify(data.body.doc);
      }
    }

    /** Logs "benchmark failed" and abandons the flow. */
    method SetError(failure: Failure)
      requires Valid()
      modifies this
      ensures Valid()
      ensures State() == old(State()).(events := old(events) + [Failed(failure)])
    {
      CountKindAppend(events, [Failed(failure)], ListenerKind);
      events := events + [Failed(failure)];
    }

    /** The job once the create response's id and seed replaced the placeholders. */
    function AfterCreate(j: Job, doc: Json): (r: Job)
      ensures r.id == OrEmpty(GetString(doc, IdKey))
      ensures r.seed == (if GetString(doc, SeedKey).Some? && seedAccepts(doc.strings[SeedKey])
                         then doc.strings[SeedKey] else j.seed)
      ensures r.(id := j.id, seed := j.seed) == j
    {
      Seeded(j.(id := OrEmpty(GetString(doc, IdKey))), GetString(doc, SeedKey))
    }

    /** The job once the fetched algorithm, seed and size replaced the configured ones. */
    function AfterFetch(j: Job, doc: Json): (r: Job)
      ensures r.algorithm == AlgorithmOf(GetString(doc, AlgoKey))
      ensures r.benchSize == GetUint(doc, SizeKey)
      ensures r.seed == (if GetString(doc, SeedKey).Some? && seedAccepts(doc.strings[SeedKey])
                         then doc.strings[SeedKey] else j.seed)
      ensures r.(algorithm := j.algorithm, benchSize := j.benchSize, seed := j.seed) == j
    {
      Seeded(j.(algorithm := AlgorithmOf(GetString(doc, AlgoKey))), GetString(doc, SeedKey))
        .(benchSize := GetUint(doc, SizeKey))
    }

    /** ONLINE_BENCH: take the id, seed and token the service assigned, then start. */
    method StartBench(doc: Json)
      requires Valid() && mode == OnlineBench && doneTime == 0
      modifies this
      ensures Valid()
      ensures State() == old(State()).(job := AfterCreate(old(job), doc),
                                       token := OrEmpty(GetString(doc, TokenKey)),
                                       events := old(events) + [LoginSuccess, JobReceived(job)])
    {
      job := job.(id := OrEmpty(GetString(doc, IdKey)));
      var _ := SetSeedHash(GetString(doc, SeedKey));
      token := OrEmpty(GetString(doc, TokenKey));
      Start();
    }

    /** ONLINE_VERIFY: take the recorded hash (when present), algorithm, seed and size,
        then start. */
    method StartVerify(doc: Json)
      requires Valid() && mode != OnlineBench
      modifies this
      ensures Valid()
      ensures State() == old(State()).(hash := FetchedHash(old(hash), doc),
                                       job := AfterFetch(old(job), doc),
                                       events := old(events) + [LoginSuccess, JobReceived(job)])
    {
      var text := GetString(doc, HashKey);
      if text.Some? {
        hash := ParseHex(text.value);
      }
      job := job.(algorithm := AlgorithmOf(GetString(doc, AlgoKey)));
      var _ := SetSeedHash(GetString(doc, SeedKey));
      job := job.(benchSize := GetUint(doc, SizeKey));
      Start();
    }
  }
}
