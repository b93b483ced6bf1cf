/** Complete runs of a BenchClient, one per kind of benchmark, driven the way the backend and
    the HTTP transport call it back: what the listener, the service and the console see. */
module BenchScenarios {
  import opened Hex
  import opened BenchTypes
  import opened Bench

  /** STATIC_BENCH or STATIC_VERIFY: connect, the backend starts and finishes. The job is
      announced once, after login, nothing goes to the service, and the result is judged
      against the configured hash or else the reference table. */
  method StaticRun(config: BenchConfig, httpFeature: bool, seedAccepts: string -> bool,
                   referenceTable: (Algorithm, uint32, uint32) -> uint64,
                   threadCount: uint32, startTs: uint64, doneTs: uint64, result: uint64)
    returns (events: seq<Event>)
    requires !httpFeature || (!config.submit && config.id == [])
    ensures |events| == 4
    ensures events[0] == LoginSuccess
    ensures events[1].JobReceived? && events[1].job.id == PlaceholderId
    ensures events[1].job.blob == ZeroBlob && events[1].job.diff == U64_MAX
    ensures events[1].job.height == 1 && events[1].job.benchSize == config.size
    ensures events[2] == BenchFinished(result, Judge(result,
      if config.hash != 0 then config.hash else referenceTable(config.algorithm, config.size, threadCount)))
    ensures events[3] == ExitPrompt
  {
    var client := new BenchClient(config, httpFeature, seedAccepts, referenceTable);
    client.Connect();
    client.OnBenchStart(startTs, threadCount);
    client.OnBenchDone(result, doneTs);
    events := client.events;
  }

  /** ONLINE_BENCH up to the job announcement: connect, then the service's create
      response supplies the id, seed and token. */
  method OnlineBenchSetup(config: BenchConfig, seedAccepts: string -> bool,
                          referenceTable: (Algorithm, uint32, uint32) -> uint64, created: Json)
    returns (client: BenchClient)
    requires config.submit
    ensures fresh(client) && client.Valid()
    ensures client.config == config && client.httpFeature && client.mode == OnlineBench
    ensures client.referenceTable == referenceTable && client.seedAccepts == seedAccepts
    ensures client.job.id == OrEmpty(GetString(created, IdKey))
    ensures client.token == OrEmpty(GetString(created, TokenKey))
    ensures client.hash == config.hash && client.startTime == 0 && client.doneTime == 0
    ensures client.events == [HttpListenerCreated,
                              Request(Post, ApiPath, None, CreateBody(config.size, config.algorithm)),
                              LoginSuccess, JobReceived(client.job)]
  {
    client := new BenchClient(config, true, seedAccepts, referenceTable);
    client.Connect();
    client.OnHttpData(HttpData(200, Parsed(created)));
  }

  /** ONLINE_BENCH: the service creates the benchmark, the backend runs, both updates carry
      the bearer token the service issued, and the exit prompt comes only after the service
      acknowledged the result. Timestamps are non-zero, as a steady clock's are. */
  method OnlineBenchRun(config: BenchConfig, seedAccepts: string -> bool,
                        referenceTable: (Algorithm, uint32, uint32) -> uint64,
                        created: Json, ack: Json,
                        threadCount: uint32, startTs: uint64, doneTs: uint64, result: uint64)
    returns (events: seq<Event>)
    requires config.submit
    requires TokenKey in created.strings && created.strings[TokenKey] != []
    requires startTs != 0 && doneTs != 0
    ensures var id, auth := OrEmpty(GetString(created, IdKey)), Some(Bearer(created.strings[TokenKey]));
      |events| == 9 &&
      events[0] == HttpListenerCreated &&
      events[1] == Request(Post, ApiPath, None, CreateBody(config.size, config.algorithm)) &&
      events[2] == LoginSuccess &&
      events[3].JobReceived? && events[3].job.id == id &&
      events[4] == Request(Patch, JobPath(id), auth, StartBody(threadCount, startTs)) &&
      events[5] == Request(Patch, JobPath(id), auth, DoneBody(doneTs, Format016X(result))) &&
      events[6] == BenchFinished(result, Judge(result, config.hash)) &&
      events[7] == Submitted(SubmittedUrl(id)) &&
      events[8] == ExitPrompt
  {
    ghost var id, auth := OrEmpty(GetString(created, IdKey)), Some(Bearer(created.strings[TokenKey]));
    var client := OnlineBenchSetup(config, seedAccepts, referenceTable, created);
    ghost var announced := client.events;
    client.OnBenchStart(startTs, threadCount);
    ghost var started := client.events;
    assert started == announced + [Request(Patch, JobPath(id), auth, StartBody(threadCount, startTs))];
    client.OnHttpData(HttpData(200, Parsed(ack)));
    assert client.events == started;
    client.OnBenchDone(result, doneTs);
    ghost var finished := client.events;
    assert finished == started + [Request(Patch, JobPath(id), auth, DoneBody(doneTs, Format016X(result))),
                                  BenchFinished(result, Judge(result, config.hash))];
    client.OnHttpData(HttpData(200, Parsed(ack)));
    assert client.events == finished + [Submitted(SubmittedUrl(id)), ExitPrompt];
    events := client.events;
  }

  /** ONLINE_VERIFY up to the job announcement: connect, then the fetched benchmark
      overwrites hash, algorithm, seed and size. */
  method OnlineVerifySetup(config: BenchConfig, seedAccepts: string -> bool,
                           referenceTable: (Algorithm, uint32, uint32) -> uint64, fetched: Json)
    returns (client: BenchClient)
    requires !config.submit && config.id != []
    ensures fresh(client) && client.Valid()
    ensures client.config == config && client.httpFeature && client.mode == OnlineVerify
    ensures client.referenceTable == referenceTable && client.token == config.token
    ensures client.hash == FetchedHash(config.hash, fetched)
    ensures client.job.id == config.id && client.job.algorithm == AlgorithmOf(GetString(fetched, AlgoKey))
    ensures client.job.benchSize == GetUint(fetched, SizeKey)
    ensures client.startTime == 0 && client.doneTime == 0
    ensures client.events == [HttpListenerCreated, Request(Get, JobPath(config.id), None, NoBody),
                              LoginSuccess, JobReceived(client.job)]
  {
    client := new BenchClient(config, true, seedAccepts, referenceTable);
    client.Connect();
    client.OnHttpData(HttpData(200, Parsed(fetched)));
  }

  /** ONLINE_VERIFY without a token: the recorded benchmark is fetched, its hash, algorithm
      and size replace the configured ones before the job is announced, and the result is
      judged against them. A hash that ONLINE_BENCH reported matches exactly its own result. */
  method OnlineVerifyRun(config: BenchConfig, seedAccepts: string -> bool,
                         referenceTable: (Algorithm, uint32, uint32) -> uint64,
                         fetched: Json,
                         threadCount: uint32, startTs: uint64, doneTs: uint64, result: uint64)
    returns (events: seq<Event>)
    requires !config.submit && config.id != [] && config.token == []
    ensures var hash := FetchedHash(config.hash, fetched);
      var algorithm, size := AlgorithmOf(GetString(fetched, AlgoKey)), GetUint(fetched, SizeKey);
      |events| == 6 &&
      events[0] == HttpListenerCreated &&
      events[1] == Request(Get, JobPath(config.id), None, NoBody) &&
      events[2] == LoginSuccess &&
      events[3].JobReceived? && events[3].job.id == config.id &&
      events[3].job.algorithm == algorithm && events[3].job.benchSize == size &&
      events[4] == BenchFinished(result, Judge(result,
        if hash != 0 then hash else referenceTable(algorithm, size, threadCount))) &&
      events[5] == ExitPrompt
    ensures forall recorded: uint64 | recorded != 0 && HashKey in fetched.strings &&
        fetched.strings[HashKey] == Format016X(recorded) ::
      events[4].verdict == (if result == recorded then Match else Mismatch)
  {
    var client := OnlineVerifySetup(config, seedAccepts, referenceTable, fetched);
    ghost var announced := client.events;
    client.OnBenchStart(startTs, threadCount);
    assert client.events == announced;
    client.OnBenchDone(result, doneTs);
    events := client.events;
    assert events == announced + [BenchFinished(result, Judge(result, client.ReferenceHash())), ExitPrompt];
    forall recorded: uint64 | recorded != 0 && HashKey in fetched.strings &&
        fetched.strings[HashKey] == Format016X(recorded)
      ensures events[4].verdict == (if result == recorded then Match else Mismatch)
    {
      ReportedHashVerifies(recorded, result);
    }
  }
}
