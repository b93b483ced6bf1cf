/** Values exchanged by BenchClient: the benchmark configuration it reads, the synthetic job
    it hands to the backend, the JSON documents and HTTP responses it receives, and the
    effects it produces (listener notifications, HTTP requests, log lines). */
module BenchTypes {
  import opened Hex

  datatype Option<T> = None | Some(value: T)

  /** A `const char *` turned into an xmrig String: a null pointer becomes the empty string. */
  function OrEmpty(s: Option<string>): (r: string)
    ensures s.Some? ==> r == s.value
    ensures s.None? ==> r == []
  {
    if s.Some? then s.value else []
  }

  /** An algorithm as BenchClient sees it: built from a name, or invalid when the name is null.
      Resolving names to algorithm ids happens in Algorithm, which is not part of this model. */
  datatype Algorithm = InvalidAlgorithm | Algorithm(name: string)

  function AlgorithmOf(name: Option<string>): (a: Algorithm)
    ensures a.InvalidAlgorithm? <==> name.None?
    ensures name.Some? ==> a.name == name.value
  {
    if name.Some? then Algorithm(name.value) else InvalidAlgorithm
  }

  /** The four ways a benchmark runs; chosen once, when the client is built. */
  datatype Mode = StaticBench | StaticVerify | OnlineBench | OnlineVerify {
    predicate IsStatic() {
      this == StaticBench || this == StaticVerify
    }
  }

  /** What BenchClient reads from BenchConfig: size, algorithm, the fixed hash (0 = none),
      the seed (None = null), the remote job id and token, and the submit flag. */
  datatype BenchConfig = BenchConfig(
    size: uint32,
    algorithm: Algorithm,
    hash: uint64,
    seed: Option<string>,
    id: string,
    token: string,
    submit: bool)

  /** The job fields BenchClient sets. Blob and seed are kept as the hex text handed to Job. */
  datatype Job = Job(
    blob: string,
    algorithm: Algorithm,
    diff: uint64,
    height: uint64,
    seed: string,
    benchSize: uint32,
    id: string)

  /** A default-constructed Job: every field empty or zero. */
  const EmptyJob := Job([], InvalidAlgorithm, 0, 0, [], 0, [])

  /** Job::kMaxSeedSize, in bytes. */
  const MaxSeedSize := 32
  /** Size of the placeholder block template, in bytes. */
  const BlobSize := 112
  const PlaceholderId := "00000000"

  function Zeros(n: nat): (s: string)
    ensures |s| == n && forall i | 0 <= i < n :: s[i] == '0'
  {
    seq(n, _ => '0')
  }

  /** The placeholder blob: two hex digits per byte, all '0'. */
  const ZeroBlob := Zeros(2 * BlobSize)
  /** The placeholder blob cut to 2 * kMaxSeedSize characters, used as the seed hash. */
  const ZeroSeed := Zeros(2 * MaxSeedSize)

  /** A parsed JSON object, reduced to its string members and its unsigned members. */
  datatype Json = Json(strings: map<string, string>, uints: map<string, uint32>)

  /** Json::getString: the member's text, or null when it is absent or not a string. */
  function GetString(doc: Json, key: string): (r: Option<string>)
    ensures r.Some? <==> key in doc.strings
    ensures r.Some? ==> r.value == doc.strings[key]
  {
    if key in doc.strings then Some(doc.strings[key]) else None
  }

  /** Json::getUint: the member's value, or 0 when it is absent or not an unsigned number. */
  function GetUint(doc: Json, key: string): (r: uint32)
    ensures key in doc.uints ==> r == doc.uints[key]
    ensures key !in doc.uints ==> r == 0
  {
    if key in doc.uints then doc.uints[key] else 0
  }

  /** BenchConfig's member names, as used in the service's JSON. */
  const IdKey := "id"
  const SeedKey := "seed"
  const TokenKey := "token"
  const HashKey := "hash"
  const AlgoKey := "algo"
  const SizeKey := "size"

  /** The body of an HTTP response, after HttpData::json() tried to parse it. */
  datatype ParsedBody = Parsed(doc: Json) | Malformed(message: string)

  datatype HttpData = HttpData(status: nat, body: ParsedBody)

  datatype HttpMethod = Get | Post | Patch

  /** Request bodies as records of the fields BenchClient fills in itself. */
  datatype RequestBody =
    | NoBody
    | CreateBody(size: uint32, algorithm: Algorithm)
    | StartBody(threads: uint32, steadyStartTs: uint64)
    | DoneBody(steadyDoneTs: uint64, hash: string)

  const ApiPath := "/1/benchmark"

  function JobPath(id: string): (p: string)
    ensures p == ApiPath + "/" + id
    ensures |p| == |ApiPath| + 1 + |id| && p[|ApiPath| + 1..] == id
  {
    ApiPath + "/" + id
  }

  function Bearer(token: string): (h: string)
    ensures |h| == 7 + |token| && h[..7] == "Bearer " && h[7..] == token
  {
    "Bearer " + token
  }

  /** An Authorization header carrying a non-empty bearer token. */
  predicate IsBearerAuth(auth: Option<string>) {
    auth.Some? && |auth.value| > 7 && auth.value[..7] == "Bearer "
  }

  function SubmittedUrl(id: string): string {
    "https://xmrig.com/benchmark/" + id
  }

  /** Why an HTTP response was rejected: the parser's message, or a status other than 200. */
  datatype Failure = ParseFailure(message: string) | StatusFailure(status: nat)

  /** The colour of the hash sum in the "benchmark finished" line. */
  datatype Verdict = Match | Mismatch | Unknown

  /** Green when the result equals a known reference, red when it differs from one,
      neutral when no reference is known (0). */
  function Judge(result: uint64, reference: uint64): (v: Verdict)
    ensures v == Match <==> reference != 0 && result == reference
    ensures v == Mismatch <==> reference != 0 && result != reference
    ensures v == Unknown <==> reference == 0
  {
    if reference == 0 then Unknown else if result == reference then Match else Mismatch
  }

  /** A hash sum that ONLINE_BENCH reported, fetched back by ONLINE_VERIFY, is the
      reference that the same result matches and every other result misses. */
  lemma ReportedHashVerifies(reported: uint64, result: uint64)
    ensures Judge(result, ParseHex(Format016X(reported))) ==
      if reported == 0 then Unknown else if result == reported then Match else Mismatch
  {
    ParseFormatRoundTrip(reported);
  }

  /** Everything BenchClient makes happen outside itself, in order. */
  datatype Event =
    | LoginSuccess                              // IClientListener::onLoginSuccess
    | JobReceived(job: Job)                     // IClientListener::onJobReceived
    | HttpListenerCreated                       // the shared HttpListener is made
    | Request(verb: HttpMethod, path: string, auth: Option<string>, body: RequestBody)
    | BenchFinished(result: uint64, verdict: Verdict)  // "benchmark finished" line
    | Submitted(url: string)                    // "benchmark submitted" line
    | ExitPrompt                                // "press Ctrl+C to exit"
    | Failed(failure: Failure)                  // "benchmark failed" line
  {
    function Kind(): EventKind {
      match this
      case LoginSuccess => LoginKind
      case JobReceived(_) => JobKind
      case HttpListenerCreated => ListenerKind
      case Request(_, _, _, _) => RequestKind
      case BenchFinished(_, _) => FinishedKind
      case Submitted(_) => SubmittedKind
      case ExitPrompt => ExitKind
      case Failed(_) => FailedKind
    }
  }

  datatype EventKind =
    LoginKind | JobKind | ListenerKind | RequestKind | FinishedKind | SubmittedKind | ExitKind | FailedKind

  function CountKind(events: seq<Event>, k: EventKind): (n: nat)
    ensures n <= |events|
    ensures n == 0 <==> forall i | 0 <= i < |events| :: events[i].Kind() != k
  {
    if events == [] then 0
    else (if events[0].Kind() == k then 1 else 0) + CountKind(events[1..], k)
  }

  lemma {:induction false} CountKindAppend(a: seq<Event>, b: seq<Event>, k: EventKind)
    ensures CountKind(a + b, k) == CountKind(a, k) + CountKind(b, k)
  {
    if a != [] {
      assert (a + b)[0] == a[0] && (a + b)[1..] == a[1..] + b;
      CountKindAppend(a[1..], b, k);
    } else {
      assert a + b == b;
    }
  }
}
