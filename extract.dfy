/** The Extract stage: pulling the four raw collections from the public
    Warframe API with a bounded retry, and keeping only the arcanes out of
    the general item list. The network, the clock and the files are not
    modelled: what each request yields is a parameter, a sleep is a counted
    event, and a saved file is a value the run hands back. */
module Extract {
  import opened Collections
  import opened Json

  const BaseUrl := "https://api.warframestat.us"

  /** `f"{BASE_URL}/{endpoint}"`. */
  function Url(endpoint: string): string
  {
    BaseUrl + "/" + endpoint
  }

  /** The exception `requests` raises for a failed request, a bad status or
      an undecodable body, as far as the stage uses it: its message. */
  datatype RequestError = RequestError(message: string)

  /** What one attempt (`requests.get`, `raise_for_status`, `response.json()`)
      comes to: the decoded list, or the exception. */
  datatype Attempt = Response(data: seq<Item>) | Failure(error: RequestError)

  /** How `fetch_data` ends: it returns the data, returns `None` because it
      made no attempt at all, re-raises the last exception, or fails in
      `time.sleep`, which refuses a negative delay with a `ValueError` that
      the `except` clause does not catch. */
  datatype Fetch = Returned(data: seq<Item>) | ReturnedNone | Raised(error: RequestError) | SleepRefused(delay: int)

  /** The first of the first `n` attempts that succeeds, if any. */
  function FirstSuccess(attempts: nat -> Attempt, n: nat): (r: Option<nat>)
    ensures r.Some? ==> r.value < n && attempts(r.value).Response?
    ensures forall i :: 0 <= i < n && (r.None? || i < r.value) ==> attempts(i).Failure?
  {
    if n == 0 then None
    else
      match FirstSuccess(attempts, n - 1)
      case Some(i) => Some(i)
      case None => if attempts(n - 1).Response? then Some(n - 1) else None
  }

  /** How many attempts `fetch_data` can make: `retries`, except that a
      negative delay stops the loop at the first sleep, after one attempt. */
  function Reachable(retries: int, delay: int): nat
  {
    if retries <= 0 then 0 else if delay < 0 then 1 else retries
  }

  /** What `fetch_data` comes to with `retries` allowed attempts. */
  function FetchOutcome(retries: int, delay: int, attempts: nat -> Attempt): Fetch
  {
    if retries <= 0 then ReturnedNone
    else
      match FirstSuccess(attempts, Reachable(retries, delay))
      case Some(i) => Returned(attempts(i).data)
      case None =>
        if Reachable(retries, delay) < retries then SleepRefused(delay)
        else Raised(attempts(retries - 1).error)
  }

  /** `fetch_data(endpoint, retries, delay)`, with `attempts(i)` standing for
      what the i-th request to `Url(endpoint)` yields. Returns the outcome,
      the number of requests made and the sleeps taken between them. */
  method FetchData(endpoint: string, retries: int, delay: int, attempts: nat -> Attempt)
    returns (r: Fetch, requests: nat, sleeps: seq<int>)
    ensures r == FetchOutcome(retries, delay, attempts)
    ensures retries <= 0 ==> requests == 0 && sleeps == []
    ensures retries > 0 ==> 1 <= requests <= retries
    ensures r.Returned? ==> FirstSuccess(attempts, retries) == Some(requests - 1)
    ensures r.Raised? ==> requests == retries && FirstSuccess(attempts, retries) == None
    ensures r.SleepRefused? ==> delay < 0 && requests == 1 < retries && attempts(0).Failure?
    ensures |sleeps| == if r.Returned? || r.Raised? then requests - 1 else 0
    ensures forall i :: 0 <= i < |sleeps| ==> sleeps[i] == delay
    ensures delay < 0 ==> sleeps == []
  {
    requests, sleeps := 0, [];
    var attempt := 0;
    while attempt < retries
      invariant attempt == 0 || 0 < attempt < retries
      invariant delay < 0 ==> attempt == 0
      invariant requests == attempt == |sleeps|
      invariant FirstSuccess(attempts, attempt) == None
      invariant forall i :: 0 <= i < |sleeps| ==> sleeps[i] == delay
    {
      requests := requests + 1;
      match attempts(attempt)
      case Response(data) =>
        r := Returned(data);
        return;
      case Failure(e) =>
        if attempt < retries - 1 {
          if delay < 0 {
            r := SleepRefused(delay);
            return;
          }
          sleeps := sleeps + [delay];
        } else {
          r := Raised(e);
          return;
        }
      attempt := attempt + 1;
    }
    r := ReturnedNone;
  }

  // ------------------------------------------------------------ Properties

  /** Every request goes under the API's base address, and two endpoints
      share a URL only when they are the same endpoint. */
  lemma UrlShape(endpoint: string, other: string)
    ensures Url(endpoint)[..|BaseUrl| + 1] == BaseUrl + "/"
    ensures Url(endpoint)[|BaseUrl| + 1..] == endpoint
    ensures Url(endpoint) == Url(other) ==> endpoint == other
  {
    if Url(endpoint) == Url(other) {
      assert endpoint == Url(endpoint)[|BaseUrl| + 1..];
      assert other == Url(other)[|BaseUrl| + 1..];
    }
  }

  /** What `fetch_data` promises with a delay `time.sleep` accepts: no
      attempt at all when `retries` is not positive; otherwise the data of the
      first successful attempt when there is one, and the last attempt's
      exception when every attempt fails. */
  lemma FetchCases(retries: int, delay: int, attempts: nat -> Attempt)
    requires delay >= 0
    ensures retries <= 0 ==> FetchOutcome(retries, delay, attempts) == ReturnedNone
    ensures retries > 0 ==> FetchOutcome(retries, delay, attempts) != ReturnedNone
    ensures forall i :: (0 <= i < retries && attempts(i).Response?
      && (forall j :: 0 <= j < i ==> attempts(j).Failure?)) ==>
      FetchOutcome(retries, delay, attempts) == Returned(attempts(i).data)
    ensures retries > 0 && (forall j :: 0 <= j < retries ==> attempts(j).Failure?) ==>
      FetchOutcome(retries, delay, attempts) == Raised(attempts(retries - 1).error)
  {
    forall i | 0 <= i < retries && attempts(i).Response? && (forall j :: 0 <= j < i ==> attempts(j).Failure?)
      ensures FetchOutcome(retries, delay, attempts) == Returned(attempts(i).data)
    {
      var first := FirstSuccess(attempts, retries);
      assert first == Some(i);
    }
    if retries > 0 && (forall j :: 0 <= j < retries ==> attempts(j).Failure?) {
      var first := FirstSuccess(attempts, retries);
      assert first.None?;
    }
  }

  /** With a negative delay the first attempt decides: its data, or, when
      another attempt is allowed, the `ValueError` of `time.sleep` instead of
      a retry. */
  lemma NegativeDelay(retries: int, delay: int, attempts: nat -> Attempt)
    requires retries > 0 && delay < 0
    ensures attempts(0).Response? ==> FetchOutcome(retries, delay, attempts) == Returned(attempts(0).data)
    ensures attempts(0).Failure? && retries > 1 ==> FetchOutcome(retries, delay, attempts) == SleepRefused(delay)
    ensures attempts(0).Failure? && retries == 1 ==> FetchOutcome(retries, delay, attempts) == Raised(attempts(0).error)
  {
  }

  /** One more allowed attempt never turns a success into anything else. */
  lemma MoreRetriesKeepSuccess(retries: int, delay: int, attempts: nat -> Attempt)
    requires FetchOutcome(retries, delay, attempts).Returned?
    ensures FetchOutcome(retries + 1, delay, attempts) == FetchOutcome(retries, delay, attempts)
  {
  }

  // --------------------------------------------------------------- Arcanes

  /** `item.get('category') == 'Arcanes'`. */
  predicate IsArcane(item: Item)
  {
    HasCategory(item, "Arcanes")
  }

  /** `[item for item in items if item.get('category') == 'Arcanes']`. */
  function Arcanes(items: seq<Item>): seq<Item>
  {
    Filter(items, IsArcane)
  }

  /** An item is kept exactly when it is an arcane. */
  lemma ArcanesExact(items: seq<Item>, x: Item)
    ensures x in Arcanes(items) <==> x in items && Get(x, "category") == Str("Arcanes")
  {
    FilterKeepsAccepted(items, IsArcane, x);
  }

  /** The arcanes keep the order of the item list: the k-th one is the item
      at the k-th arcane position, and every arcane position is used. */
  lemma ArcanesInOrder(items: seq<Item>)
    ensures var p := KeptPositions(items, IsArcane);
      |p| == |Arcanes(items)|
      && (forall k :: 0 <= k < |p| ==> Arcanes(items)[k] == items[p[k]])
      && (forall k, l :: 0 <= k < l < |p| ==> p[k] < p[l])
      && (forall i :: 0 <= i < |items| && IsArcane(items[i]) ==> i in p)
  {
    FilterAtKeptPositions(items, IsArcane);
    KeptPositionsComplete(items, IsArcane);
  }

  // ------------------------------------------------------------ Extraction

  /** The endpoints `run_extraction` fetches and the files it writes, in
      order; the last file holds only the arcanes among the items. */
  const Endpoints: seq<string> := ["warframes", "weapons", "mods", "items"]
  const FileNames: seq<string> := ["warframes.json", "weapons.json", "mods.json", "arcanes.json"]

  /** `fetch_data`'s default number of attempts and pause in seconds. */
  const Retries := 3
  const Delay := 2

  /** A file written by `save_json`. */
  datatype SavedFile = SavedFile(name: string, data: seq<Item>)

  /** Where a run of the extraction stands: the endpoints requested so far,
      the files written so far, and the exception that ended it, if any. */
  datatype Run = Run(requested: seq<string>, saved: seq<SavedFile>, failure: Option<RequestError>)

  /** The data written for the i-th endpoint once it has been fetched. */
  function Saved(i: nat, data: seq<Item>): seq<Item>
    requires i < 4
  {
    if i == 3 then Arcanes(data) else data
  }

  /** The run after its first `k` steps: a step is skipped once an earlier
      one failed; otherwise it requests its endpoint and either writes its
      file or records the exception. */
  function Extraction(network: string -> nat -> Attempt, k: nat): Run
    requires k <= 4
  {
    if k == 0 then Run([], [], None)
    else
      var before := Extraction(network, k - 1);
      if before.failure.Some? then before
      else
        var requested := before.requested + [Endpoints[k - 1]];
        match FetchOutcome(Retries, Delay, network(Endpoints[k - 1]))
        case Returned(data) =>
          Run(requested, before.saved + [SavedFile(FileNames[k - 1], Saved(k - 1, data))], None)
        case Raised(e) => Run(requested, before.saved, Some(e))
  }

  /** Step `i` fetched its endpoint and wrote `file` from the data. */
  predicate Written(network: string -> nat -> Attempt, i: nat, file: SavedFile)
    requires i < 4
  {
    var outcome := FetchOutcome(Retries, Delay, network(Endpoints[i]));
    outcome.Returned? && file == SavedFile(FileNames[i], Saved(i, outcome.data))
  }

  /** What `run_extraction` promises after `k` steps: the endpoints are
      requested in order until one fails; the first failure stops every
      later request and write and is the exception of the step that raised
      it. */
  lemma {:induction false} ExtractionOrder(network: string -> nat -> Attempt, k: nat)
    requires k <= 4
    ensures var run := Extraction(network, k);
      && |run.saved| <= k
      && (run.failure.None? <==> |run.saved| == k)
      && run.requested == Endpoints[..if run.failure.None? then k else |run.saved| + 1]
      && (run.failure.Some? ==>
            FetchOutcome(Retries, Delay, network(Endpoints[|run.saved|])) == Raised(run.failure.value))
  {
    if k > 0 {
      ExtractionOrder(network, k - 1);
      var before := Extraction(network, k - 1);
      var run := Extraction(network, k);
      if before.failure.None? {
        assert Endpoints[..k] == Endpoints[..k - 1] + [Endpoints[k - 1]];
        var outcome := FetchOutcome(Retries, Delay, network(Endpoints[k - 1]));
        if outcome.Returned? {
          assert |run.saved| == |before.saved| + 1 && run.failure.None?;
        } else {
          assert run.saved == before.saved && run.failure == Some(outcome.error);
        }
      } else {
        assert run == before;
      }
    }
  }

  /** ... and every file written, the earlier ones included, holds the data
      its own step fetched: the arcanes only, for the item list. */
  lemma {:induction false} ExtractionWrites(network: string -> nat -> Attempt, k: nat)
    requires k <= 4
    ensures var run := Extraction(network, k);
      |run.saved| <= k && forall i :: 0 <= i < |run.saved| ==> Written(network, i, run.saved[i])
  {
    if k > 0 {
      ExtractionWrites(network, k - 1);
      var before := Extraction(network, k - 1);
      var run := Extraction(network, k);
      if before.failure.None? {
        var outcome := FetchOutcome(Retries, Delay, network(Endpoints[k - 1]));
        if outcome.Returned? {
          ExtractionOrder(network, k - 1);
          assert run.saved == before.saved + [SavedFile(FileNames[k - 1], Saved(k - 1, outcome.data))];
          assert Written(network, k - 1, run.saved[k - 1]);
        } else {
          assert run.saved == before.saved;
        }
      } else {
        assert run == before;
      }
    }
  }

  /** A failure is final: the steps after it change nothing. */
  lemma {:induction false} FailureIsFinal(network: string -> nat -> Attempt, k: nat)
    requires k <= 4 && Extraction(network, k).failure.Some?
    ensures Extraction(network, 4) == Extraction(network, k)
    decreases 4 - k
  {
    if k < 4 {
      FailureIsFinal(network, k + 1);
    }
  }

  /** `run_extraction`, with `network(endpoint)(i)` standing for what the
      i-th request to that endpoint yields. The exception that ends the run
      early is logged and not raised further: it is handed back as
      `failure`. */
  method RunExtraction(network: string -> nat -> Attempt)
    returns (requested: seq<string>, saved: seq<SavedFile>, failure: Option<RequestError>)
    ensures Run(requested, saved, failure) == Extraction(network, 4)
  {
    requested, saved, failure := [], [], None;

    var warframes, _, _ := FetchData("warframes", Retries, Delay, network("warframes"));
    requested := requested + ["warframes"];
    match warframes
    case Raised(e) =>
      failure := Some(e);
      FailureIsFinal(network, 1);
      return;
    case Returned(data) =>
      saved := saved + [SavedFile("warframes.json", data)];
    assert Run(requested, saved, failure) == Extraction(network, 1);

    var weapons, _, _ := FetchData("weapons", Retries, Delay, network("weapons"));
    requested := requested + ["weapons"];
    match weapons
    case Raised(e) =>
      failure := Some(e);
      FailureIsFinal(network, 2);
      return;
    case Returned(data) =>
      saved := saved + [SavedFile("weapons.json", data)];
    assert Run(requested, saved, failure) == Extraction(network, 2);

    var mods, _, _ := FetchData("mods", Retries, Delay, network("mods"));
    requested := requested + ["mods"];
    match mods
    case Raised(e) =>
      failure := Some(e);
      FailureIsFinal(network, 3);
      return;
    case Returned(data) =>
      saved := saved + [SavedFile("mods.json", data)];
    assert Run(requested, saved, failure) == Extraction(network, 3);

    var items, _, _ := FetchData("items", Retries, Delay, network("items"));
    requested := requested + ["items"];
    match items
    case Raised(e) =>
      failure := Some(e);
      return;
    case Returned(data) =>
      var arcanes := Arcanes(data);
      saved := saved + [SavedFile("arcanes.json", arcanes)];
  }
}
