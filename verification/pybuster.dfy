/** The package `pybuster`: candidate generation, classification by status
    code, the wildcard gate and the dedup ledger that the workers of
    `bust_url` keep while they drain the queue. The HTTP client is the
    `Fetcher` oracle; the workers are run one `process_url` at a time, in
    queue order. */
module Pybuster {
  import opened Http
  import opened Candidates
  import opened Ledger

  const SUCCESS_CODES: seq<int> := [200, 204, 301, 302, 307, 403]

  /** The path segment the wildcard probe asks for. */
  const PROBE_MARKER: string := "l392392392lol"

  datatype Result = Result(url: string, hit: bool, responseCode: int)

  /** `Result.__eq__`: results are equal iff their URLs are. */
  predicate SameResult(a: Result, b: Result) {
    a.url == b.url
  }

  /** Python's `r in results` on a list of `Result`s, which goes through
      `__eq__`: it holds iff some result has the URL of `r`, whatever the hit
      flags and codes. */
  function Contains(results: seq<Result>, r: Result): (b: bool)
    ensures b <==> exists i :: 0 <= i < |results| && SameResult(results[i], r)
  {
    if results == [] then false
    else if SameResult(results[0], r) then true
    else
      var found := Contains(results[1..], r);
      assert forall i :: 0 < i < |results| ==> results[i] == results[1..][i - 1];
      found
  }

  /** No two results are equal under `Result.__eq__`. */
  predicate DistinctUrls(results: seq<Result>) {
    forall i, j :: 0 <= i < j < |results| ==> results[i].url != results[j].url
  }

  /** The decision of `_decide_url` without an override: `None` when the fetch
      raised, otherwise a result for `url` carrying the response code, a hit
      iff that code is a success code. */
  function DecideUrl(url: string, fetch: Fetcher, successCodes: seq<int>): (r: Option<Result>)
    ensures r.None? <==> fetch(url).None?
    ensures r.Some? ==> r.value.url == url && r.value.responseCode == fetch(url).value
    ensures r.Some? ==> (r.value.hit <==> fetch(url).value in successCodes)
  {
    match fetch(url)
    case None => None
    case Some(code) => Some(Result(url, code in successCodes, code))
  }

  /** What `process_url` appends to `results` for a URL it classifies. */
  function HitOf(url: string, fetch: Fetcher, successCodes: seq<int>): seq<Result> {
    match DecideUrl(url, fetch, successCodes)
    case Some(r) => if r.hit then [r] else []
    case None => []
  }

  /** The results appended when the classifier is called on `urls` in order:
      at most one per URL, each a hit for one of them. */
  function Hits(fetch: Fetcher, successCodes: seq<int>, urls: seq<string>): (r: seq<Result>)
    ensures |r| <= |urls|
    ensures forall x :: x in r ==> x.hit && x.url in urls
  {
    if urls == [] then [] else HitOf(urls[0], fetch, successCodes) + Hits(fetch, successCodes, urls[1..])
  }

  lemma {:induction false} HitsConcat(fetch: Fetcher, successCodes: seq<int>, a: seq<string>, b: seq<string>)
    ensures Hits(fetch, successCodes, a + b) == Hits(fetch, successCodes, a) + Hits(fetch, successCodes, b)
  {
    if a == [] {
      assert a + b == b;
    } else {
      assert (a + b)[0] == a[0] && (a + b)[1..] == a[1..] + b;
      HitsConcat(fetch, successCodes, a[1..], b);
    }
  }

  /** A result is among the hits of `urls` iff its URL is one of them and the
      decision for that URL is exactly that result, and a hit. */
  lemma {:induction false} HitsExact(fetch: Fetcher, successCodes: seq<int>, urls: seq<string>, r: Result)
    ensures r in Hits(fetch, successCodes, urls)
            <==> r.url in urls && r.hit && DecideUrl(r.url, fetch, successCodes) == Some(r)
  {
    if urls != [] {
      HitsExact(fetch, successCodes, urls[1..], r);
      assert urls == [urls[0]] + urls[1..];
    }
  }

  /** Classifying distinct URLs yields results no two of which are equal. */
  lemma {:induction false} HitsDistinct(fetch: Fetcher, successCodes: seq<int>, urls: seq<string>)
    requires NoDup(urls)
    ensures DistinctUrls(Hits(fetch, successCodes, urls))
  {
    if urls != [] {
      var rest := urls[1..];
      assert NoDup(rest) by {
        forall i, j | 0 <= i < j < |rest| ensures rest[i] != rest[j] {
          assert rest[i] == urls[i + 1] && rest[j] == urls[j + 1];
        }
      }
      HitsDistinct(fetch, successCodes, rest);
      var tail := Hits(fetch, successCodes, rest);
      forall k | 0 <= k < |tail| ensures tail[k].url != urls[0] {
        HitsExact(fetch, successCodes, rest, tail[k]);
      }
    }
  }

  /** How many of `urls` the classifier fails on (the fetch raised). */
  function Failures(fetch: Fetcher, urls: seq<string>): nat {
    if urls == [] then 0 else (if fetch(urls[0]).None? then 1 else 0) + Failures(fetch, urls[1..])
  }

  lemma {:induction false} FailuresConcat(fetch: Fetcher, a: seq<string>, b: seq<string>)
    ensures Failures(fetch, a + b) == Failures(fetch, a) + Failures(fetch, b)
  {
    if a == [] {
      assert a + b == b;
    } else {
      assert (a + b)[0] == a[0] && (a + b)[1..] == a[1..] + b;
      FailuresConcat(fetch, a[1..], b);
    }
  }

  lemma {:induction false} FailuresAtMost(fetch: Fetcher, urls: seq<string>)
    ensures Failures(fetch, urls) <= |urls|
  {
    if urls != [] {
      FailuresAtMost(fetch, urls[1..]);
    }
  }

  lemma {:induction false} NoFailures(fetch: Fetcher, urls: seq<string>)
    requires forall u :: u in urls ==> fetch(u).Some?
    ensures Failures(fetch, urls) == 0
  {
    if urls != [] {
      NoFailures(fetch, urls[1..]);
    }
  }

  /** Whether the workers pull every candidate before all `threads` of them
      have died: the last candidate is pulled while fewer than `threads`
      classifications have raised. With no worker started (`range(threads)`
      is empty for `threads <= 0`) only an empty queue is drained; with more
      workers than candidates every candidate is pulled. */
  predicate AllPulled(fetch: Fetcher, candidates: seq<string>, threads: int): (b: bool)
    ensures threads <= 0 ==> (b <==> candidates == [])
    ensures |candidates| <= threads ==> b
  {
    candidates == [] ||
      var allButLast := candidates[..|candidates| - 1];
      FailuresAtMost(fetch, FirstNew(allButLast, {}));
      Failures(fetch, FirstNew(allButLast, {})) < threads
  }

  /** With at least one worker and a server that always answers, every
      candidate is pulled. */
  lemma AnsweringServerIsDrained(fetch: Fetcher, candidates: seq<string>, threads: nat)
    requires threads >= 1
    requires forall u :: u in candidates ==> fetch(u).Some?
    ensures AllPulled(fetch, candidates, threads)
  {
    if candidates != [] {
      FirstNewSpec(candidates[..|candidates| - 1], {});
      NoFailures(fetch, FirstNew(candidates[..|candidates| - 1], {}));
    }
  }

  datatype Gate = Proceed | Wildcard | ProbeRaised

  /** The wildcard check of `bust_url`. The probe fetch is outside any `try`,
      so a probe that raises makes `bust_url` raise. */
  function WildcardCheck(url: string, fetch: Fetcher, successCodes: seq<int>): (g: Gate)
    ensures g == ProbeRaised <==> fetch(ProbeUrl(url, PROBE_MARKER)).None?
    ensures g == Wildcard <==> exists code :: fetch(ProbeUrl(url, PROBE_MARKER)) == Some(code) && code in successCodes
  {
    match fetch(ProbeUrl(url, PROBE_MARKER))
    case None => ProbeRaised
    case Some(code) => if code in successCodes then Wildcard else Proceed
  }

  /** The gate aborts exactly when the probe, classified like any candidate,
      would be a hit; it raises exactly when classifying the probe would give
      no result. */
  lemma WildcardIsProbeHit(url: string, fetch: Fetcher, successCodes: seq<int>)
    ensures WildcardCheck(url, fetch, successCodes) == Wildcard
            <==> HitOf(ProbeUrl(url, PROBE_MARKER), fetch, successCodes) != []
    ensures WildcardCheck(url, fetch, successCodes) == ProbeRaised
            <==> DecideUrl(ProbeUrl(url, PROBE_MARKER), fetch, successCodes).None?
  {
  }

  /** What one `process_url` call did with the URL it pulled. `Raised` is the
      `AttributeError` of `result.hit` on a `None` decision: it leaves the
      worker's loop and ends that worker. */
  datatype Step = Skipped | Classified | Raised

  datatype JoinStatus = Joined | TimedOut

  /** The state shared by the workers of one `bust_url` run: the queue `q`
      with its count of unacknowledged tasks, the ledger sets and the result
      list. `classified` records, in order, every URL handed to the classifier. */
  class Buster {
    var queue: seq<string>
    var unfinished: nat
    var fetching: set<string>
    var fetched: set<string>
    var results: seq<Result>
    ghost var classified: seq<string>

    /** Between two `process_url` calls: every pulled task is acknowledged,
        every URL started is finished, each URL was classified once, and the
        results are distinct hits for classified URLs. */
    ghost predicate Valid()
      reads this
    {
      && unfinished == |queue|
      && fetching == fetched
      && NoDup(classified)
      && Elems(classified) == fetching
      && (forall r :: r in results ==> r.hit && r.url in fetched)
      && DistinctUrls(results)
    }

    /** The queue filled with the candidates and an empty ledger. */
    constructor (candidates: seq<string>)
      ensures Valid()
      ensures queue == candidates && fetching == {} && fetched == {}
      ensures results == [] && classified == []
    {
      queue := candidates;
      unfinished := |candidates|;
      fetching, fetched, results := {}, {}, [];
      classified := [];
    }

    /** One `process_url`: pull the head of the queue; skip it if it is
        already in `fetching`; otherwise mark it, classify it, mark it
        fetched and keep a hit; acknowledge the task in every case. */
    method ProcessUrl(fetch: Fetcher, successCodes: seq<int>) returns (step: Step)
      requires Valid()
      requires queue != []
      modifies this
      ensures Valid()
      ensures queue == old(queue)[1..] && unfinished == old(unfinished) - 1
      ensures fetching == old(fetching) + {old(queue)[0]}
      ensures classified == old(classified) + NewIn(old(queue)[0], old(fetching))
      ensures results == old(results) + Hits(fetch, successCodes, NewIn(old(queue)[0], old(fetching)))
      ensures step == Skipped <==> old(queue)[0] in old(fetching)
      ensures step == Skipped ==>
                fetching == old(fetching) && fetched == old(fetched)
                && classified == old(classified) && results == old(results)
      ensures step == Raised <==> old(queue)[0] !in old(fetching) && fetch(old(queue)[0]).None?
    {
      var url := queue[0];
      queue := queue[1..];
      if url in fetching {
        step := Skipped;
      } else {
        fetching := fetching + {url};
        classified := classified + [url];
        var result := DecideUrl(url, fetch, successCodes);
        fetched := fetched + {url};
        match result
        case None =>
          step := Raised;
        case Some(r) =>
          if r.hit {
            results := results + [r];
          }
          step := Classified;
      }
      unfinished := unfinished - 1;
    }

    /** After pulling `pulled` from a queue that was `q0`, starting from a
        ledger `seen0` and logs `log0` and `res0`: the rest of the queue is
        left, everything pulled is in `fetching`, and the first new
        occurrences were classified, in order, with their hits kept. */
    ghost predicate Progress(fetch: Fetcher, successCodes: seq<int>, q0: seq<string>, seen0: set<string>,
                             log0: seq<string>, res0: seq<Result>, pulled: seq<string>)
      reads this
    {
      && q0 == pulled + queue
      && fetching == seen0 + Elems(pulled)
      && classified == log0 + FirstNew(pulled, seen0)
      && results == res0 + Hits(fetch, successCodes, FirstNew(pulled, seen0))
    }

    /** One more `process_url` keeps `Progress` with the pulled URL added, and
        it raises exactly when that URL is new and its fetch raises. */
    method PullNext(fetch: Fetcher, successCodes: seq<int>, ghost q0: seq<string>, ghost seen0: set<string>,
                    ghost log0: seq<string>, ghost res0: seq<Result>, ghost pulled: seq<string>)
      returns (step: Step)
      requires Valid() && queue != []
      requires Progress(fetch, successCodes, q0, seen0, log0, res0, pulled)
      modifies this
      ensures Valid()
      ensures Progress(fetch, successCodes, q0, seen0, log0, res0, pulled + [old(queue)[0]])
      ensures Failures(fetch, FirstNew(pulled + [old(queue)[0]], seen0))
              == Failures(fetch, FirstNew(pulled, seen0)) + (if step == Raised then 1 else 0)
    {
      ghost var url := queue[0];
      ghost var before := FirstNew(pulled, seen0);
      ghost var now := NewIn(url, fetching);
      ElemsSnoc(pulled, url);
      FirstNewSnoc(pulled, url, seen0);
      HitsConcat(fetch, successCodes, before, now);
      FailuresConcat(fetch, before, now);
      AppendAssoc(log0, before, now);
      AppendAssoc(res0, Hits(fetch, successCodes, before), Hits(fetch, successCodes, now));
      AppendAssoc(pulled, [url], queue[1..]);
      step := ProcessUrl(fetch, successCodes);
    }

    /** `threads` workers running `process_url` until the queue is empty or
        every worker has died of a raised classification; `q.join` then
        returns if every task was acknowledged and times out otherwise. The
        ghost out-parameter `pulled` is the part of the queue the workers
        took, in order. */
    method Drain(fetch: Fetcher, successCodes: seq<int>, threads: nat)
      returns (status: JoinStatus, ghost pulled: seq<string>)
      requires Valid()
      modifies this
      ensures Valid()
      ensures old(queue) == pulled + queue
      ensures status == Joined <==> unfinished == 0
      ensures fetching == fetched == old(fetching) + Elems(pulled)
      ensures classified == old(classified) + FirstNew(pulled, old(fetching))
      ensures results == old(results) + Hits(fetch, successCodes, FirstNew(pulled, old(fetching)))
      ensures queue != [] ==> Failures(fetch, FirstNew(pulled, old(fetching))) == threads
      ensures pulled != [] ==> Failures(fetch, FirstNew(pulled[..|pulled| - 1], old(fetching))) < threads
    {
      ghost var q0, seen0, log0, res0 := queue, fetching, classified, results;
      pulled := [];
      assert Elems(pulled) == {} && FirstNew(pulled, seen0) == [];
      var failures := 0;
      while queue != [] && failures < threads
        invariant Valid()
        invariant Progress(fetch, successCodes, q0, seen0, log0, res0, pulled)
        invariant failures == Failures(fetch, FirstNew(pulled, seen0)) <= threads
        invariant pulled != [] ==> Failures(fetch, FirstNew(pulled[..|pulled| - 1], seen0)) < threads
        decreases |queue|
      {
        ghost var url := queue[0];
        var step := PullNext(fetch, successCodes, q0, seen0, log0, res0, pulled);
        if step == Raised {
          failures := failures + 1;
        }
        assert (pulled + [url])[..|pulled|] == pulled;
        pulled := pulled + [url];
      }
      status := if unfinished == 0 then Joined else TimedOut;
    }
  }

  /** If the first `k` candidates, `k` short of all of them, already hold
      `threads` raised classifications, the last candidate is never pulled. */
  lemma StalledBeforeLast(fetch: Fetcher, candidates: seq<string>, k: nat, threads: nat)
    requires k < |candidates|
    requires Failures(fetch, FirstNew(candidates[..k], {})) == threads
    ensures !AllPulled(fetch, candidates, threads)
  {
    var pulled := FirstNew(candidates[..k], {});
    var allButLast := FirstNew(candidates[..|candidates| - 1], {});
    FirstNewPrefix(candidates[..k], candidates[..|candidates| - 1], {});
    assert allButLast == pulled + allButLast[|pulled|..];
    FailuresConcat(fetch, pulled, allButLast[|pulled|..]);
  }

  /** Draining all candidates from an empty ledger classifies each distinct
      candidate once and keeps exactly one result per distinct candidate whose
      decision is a hit. */
  lemma DrainedResults(fetch: Fetcher, successCodes: seq<int>, candidates: seq<string>)
    ensures var log := FirstNew(candidates, {});
            var results := Hits(fetch, successCodes, log);
            && NoDup(log) && |log| == |Elems(candidates)|
            && DistinctUrls(results)
            && (forall r :: r in results
                  <==> r.url in candidates && r.hit && DecideUrl(r.url, fetch, successCodes) == Some(r))
  {
    var log := FirstNew(candidates, {});
    OncePerDistinct(candidates);
    FirstNewSpec(candidates, {});
    HitsDistinct(fetch, successCodes, log);
    forall r ensures r in Hits(fetch, successCodes, log)
                     <==> r.url in candidates && r.hit && DecideUrl(r.url, fetch, successCodes) == Some(r)
    {
      HitsExact(fetch, successCodes, log, r);
    }
  }

  /** How a `bust_url` run ends: with the hits, with the `RuntimeError` of a
      wildcard response, with the exception of a probe fetch that raised, or
      with the timeout of `q.join` when all workers died before the queue
      was drained. */
  datatype Outcome = Found(results: seq<Result>) | WildcardAbort | ProbeError | JoinTimeout

  /** The second half of `bust_url`, once the wildcard check has passed: a
      fresh ledger, `threads` workers draining the queue of `candidates`,
      `q.join`, the `fetching == fetched` assertion and the return of the
      results. The ghost out-parameters are the URLs handed to the
      classifier, in order, and the final `fetched` set. */
  method RunWorkers(candidates: seq<string>, threads: int, successCodes: seq<int>, fetch: Fetcher)
    returns (outcome: Outcome, ghost classifiedLog: seq<string>, ghost ledger: set<string>)
    ensures outcome.Found? || outcome.JoinTimeout?
    ensures outcome.Found? <==> AllPulled(fetch, candidates, threads)
    ensures outcome.Found? ==>
              && ledger == Elems(candidates)
              && classifiedLog == FirstNew(candidates, {})
              && outcome.results == Hits(fetch, successCodes, classifiedLog)
  {
    var workers: nat := if threads < 0 then 0 else threads;
    var buster := new Buster(candidates);
    var status, pulled := buster.Drain(fetch, successCodes, workers);
    classifiedLog, ledger := buster.classified, buster.fetched;
    assert AllPulled(fetch, candidates, threads) == AllPulled(fetch, candidates, workers);
    if status == TimedOut {
      assert pulled == candidates[..|pulled|];
      StalledBeforeLast(fetch, candidates, |pulled|, workers);
      return JoinTimeout, classifiedLog, ledger;
    }
    assert buster.fetching == buster.fetched;
    assert pulled == candidates;
    outcome := Found(buster.results);
  }

  /** `bust_url`. The ghost out-parameters are the URLs handed to the
      classifier, in order, and the final `fetched` set. */
  method BustUrl(url: string, wordList: seq<string>, threads: int, successCodes: seq<int>, fetch: Fetcher)
    returns (outcome: Outcome, ghost classifiedLog: seq<string>, ghost ledger: set<string>)
    ensures outcome.WildcardAbort? <==> WildcardCheck(url, fetch, successCodes) == Wildcard
    ensures outcome.ProbeError? <==> WildcardCheck(url, fetch, successCodes) == ProbeRaised
    ensures WildcardCheck(url, fetch, successCodes) != Proceed ==> classifiedLog == []
    ensures outcome.Found?
            <==> WildcardCheck(url, fetch, successCodes) == Proceed
                 && AllPulled(fetch, BusterList(url, wordList), threads)
    ensures outcome.Found? ==>
              var candidates := BusterList(url, wordList);
              && ledger == Elems(candidates)
              && classifiedLog == FirstNew(candidates, {})
              && NoDup(classifiedLog) && |classifiedLog| == |Elems(candidates)|
              && outcome.results == Hits(fetch, successCodes, classifiedLog)
              && DistinctUrls(outcome.results)
              && (forall r :: r in outcome.results
                    <==> r.url in candidates && r.hit && DecideUrl(r.url, fetch, successCodes) == Some(r))
  {
    var candidates := BusterList(url, wordList);
    var gate := WildcardCheck(url, fetch, successCodes);
    if gate == Wildcard {
      return WildcardAbort, [], {};
    }
    if gate == ProbeRaised {
      return ProbeError, [], {};
    }
    outcome, classifiedLog, ledger := RunWorkers(candidates, threads, successCodes, fetch);
    DrainedResults(fetch, successCodes, candidates);
  }

  /** The server of the repository's test: 200 for `robots.txt` under the
      root, 404 for every other path. */
  function RobotsServer(u: string): Option<int> {
    if u == "http://www.google.com/robots.txt" then Some(200) else Some(404)
  }

  /** The repository's test scenario: that server passes the wildcard gate
      and is drained by 10 workers, with one result, for `robots.txt`, found
      by `in` with any hit flag and code. */
  lemma RobotsScenario()
    ensures var root := "http://www.google.com/";
            var found := Hits(RobotsServer, SUCCESS_CODES, FirstNew(BusterList(root, ["robots.txt", "fail.txt"]), {}));
            && WildcardCheck(root, RobotsServer, SUCCESS_CODES) == Proceed
            && AllPulled(RobotsServer, BusterList(root, ["robots.txt", "fail.txt"]), 10)
            && found == [Result("http://www.google.com/robots.txt", true, 200)]
            && Contains(found, Result("http://www.google.com/robots.txt", true, 200))
            && |found| == 1
  {
    var root := "http://www.google.com/";
    var good, bad := root + "robots.txt", root + "fail.txt";
    assert good == "http://www.google.com/robots.txt";
    assert good != bad;
    var candidates := BusterList(root, ["robots.txt", "fail.txt"]);
    assert Normalize(root) == root;
    BusterListIsComprehension(root, ["robots.txt", "fail.txt"]);
    assert candidates == [good, bad];
    assert FirstNew(candidates, {}) == [good, bad];
    assert Hits(RobotsServer, SUCCESS_CODES, [bad]) == [];
    assert Hits(RobotsServer, SUCCESS_CODES, [good, bad]) == [Result(good, true, 200)];
  }

  /** The repository's test run itself: `bust_url` on that server returns
      exactly the one result for `robots.txt`. */
  method RobotsRun() returns (outcome: Outcome)
    ensures outcome == Found([Result("http://www.google.com/robots.txt", true, 200)])
  {
    RobotsScenario();
    ghost var log, ledger;
    outcome, log, ledger := BustUrl("http://www.google.com/", ["robots.txt", "fail.txt"], 10, SUCCESS_CODES, RobotsServer);
  }
}
