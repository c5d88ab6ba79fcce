/** The stand-alone script `pybuster.py`, the predecessor of the package: the
    same queue and ledger, but the decision is a boolean (a failed fetch is a
    miss), the results are the hit URLs themselves, and a wildcard response
    makes `bust_url` return `None`. */
module PybusterScript {
  import opened Http
  import opened Candidates
  import opened Ledger

  const HITS: seq<int> := [200, 204, 301, 302, 307, 403]

  /** The path segment the wildcard probe asks for. */
  const PROBE_MARKER: string := "392392392lol"

  /** `decide_url` without an override: a hit iff a response came back with a
      code in `HITS`; a fetch that raised is a miss. */
  function DecideUrl(url: string, fetch: Fetcher): (hit: bool)
    ensures hit <==> exists code :: fetch(url) == Some(code) && code in HITS
  {
    match fetch(url)
    case None => false
    case Some(code) => code in HITS
  }

  /** The URLs appended to `results` when the classifier is called on `urls`
      in order: at most one per URL, each one of them decided a hit. */
  function HitUrls(fetch: Fetcher, urls: seq<string>): (r: seq<string>)
    ensures |r| <= |urls|
    ensures forall u :: u in r ==> u in urls && DecideUrl(u, fetch)
  {
    if urls == [] then []
    else (if DecideUrl(urls[0], fetch) then [urls[0]] else []) + HitUrls(fetch, urls[1..])
  }

  lemma {:induction false} HitUrlsConcat(fetch: Fetcher, a: seq<string>, b: seq<string>)
    ensures HitUrls(fetch, a + b) == HitUrls(fetch, a) + HitUrls(fetch, b)
  {
    if a == [] {
      assert a + b == b;
    } else {
      assert (a + b)[0] == a[0] && (a + b)[1..] == a[1..] + b;
      HitUrlsConcat(fetch, a[1..], b);
    }
  }

  /** The hits of `urls` are exactly those of its URLs whose decision is a
      hit, and they are distinct when `urls` is. */
  lemma {:induction false} HitUrlsExact(fetch: Fetcher, urls: seq<string>)
    ensures forall u :: u in HitUrls(fetch, urls) <==> u in urls && DecideUrl(u, fetch)
    ensures NoDup(urls) ==> NoDup(HitUrls(fetch, urls))
  {
    if urls != [] {
      var rest := urls[1..];
      HitUrlsExact(fetch, rest);
      assert urls == [urls[0]] + rest;
      if NoDup(urls) {
        assert NoDup(rest) by {
          forall i, j | 0 <= i < j < |rest| ensures rest[i] != rest[j] {
            assert rest[i] == urls[i + 1] && rest[j] == urls[j + 1];
          }
        }
      }
    }
  }

  datatype Gate = Proceed | Wildcard | ProbeRaised

  /** The wildcard check of `bust_url`; the probe fetch is outside any `try`. */
  function WildcardCheck(url: string, fetch: Fetcher): (g: Gate)
    ensures g == ProbeRaised <==> fetch(ProbeUrl(url, PROBE_MARKER)).None?
    ensures g == Wildcard <==> exists code :: fetch(ProbeUrl(url, PROBE_MARKER)) == Some(code) && code in HITS
  {
    match fetch(ProbeUrl(url, PROBE_MARKER))
    case None => ProbeRaised
    case Some(code) => if code in HITS then Wildcard else Proceed
  }

  /** The gate aborts exactly when the probe, decided like any candidate,
      would be a hit. A probe that raises is not a miss here, unlike a
      candidate whose fetch raises. */
  lemma WildcardIsProbeHit(url: string, fetch: Fetcher)
    ensures WildcardCheck(url, fetch) == Wildcard <==> DecideUrl(ProbeUrl(url, PROBE_MARKER), fetch)
    ensures WildcardCheck(url, fetch) == ProbeRaised ==> !DecideUrl(ProbeUrl(url, PROBE_MARKER), fetch)
  {
  }

  datatype JoinStatus = Joined | TimedOut

  /** The state shared by the workers of one `bust_url` run: the queue `q`
      with its count of unacknowledged tasks, the ledger sets and the list of
      hit URLs. `classified` records, in order, every URL handed to the
      classifier. */
  class Buster {
    var queue: seq<string>
    var unfinished: nat
    var fetching: set<string>
    var fetched: set<string>
    var results: seq<string>
    ghost var classified: seq<string>

    /** Between two `process_url` calls: every pulled task is acknowledged,
        every URL started is finished, each URL was classified once, and the
        results are distinct classified URLs. */
    ghost predicate Valid()
      reads this
    {
      && unfinished == |queue|
      && fetching == fetched
      && NoDup(classified)
      && Elems(classified) == fetching
      && Elems(results) <= fetched
      && NoDup(results)
    }

    /** The queue filled with the candidates and an empty ledger. */
    constructor (candidates: seq<string>)
      ensures Valid()
      ensures queue == candidates && fetching == {} && fetched == {}
      ensures results == [] && classified == []
    {
      queue := candidates;
      unfinished := |candidates|;
      fetching, fetched, results := {}, {}, [];
      classified := [];
    }

    /** One `process_url`: pull the head of the queue; skip it if it is
        already in `fetching`; otherwise mark it, classify it, mark it
        fetched and keep it if it is a hit; acknowledge the task in every
        case. */
    method ProcessUrl(fetch: Fetcher)
      requires Valid()
      requires queue != []
      modifies this
      ensures Valid()
      ensures queue == old(queue)[1..] && unfinished == old(unfinished) - 1
      ensures fetching == old(fetching) + {old(queue)[0]}
      ensures classified == old(classified) + NewIn(old(queue)[0], old(fetching))
      ensures results == old(results) + HitUrls(fetch, NewIn(old(queue)[0], old(fetching)))
      ensures old(queue)[0] in old(fetching) ==>
                fetching == old(fetching) && fetched == old(fetched)
                && classified == old(classified) && results == old(results)
    {
      var url := queue[0];
      queue := queue[1..];
      if url !in fetching {
        fetching := fetching + {url};
        classified := classified + [url];
        var decision := DecideUrl(url, fetch);
        fetched := fetched + {url};
        if decision {
          results := results + [url];
        }
      }
      unfinished := unfinished - 1;
    }

    /** After pulling `pulled` from a queue that was `q0`, starting from a
        ledger `seen0` and logs `log0` and `res0`: the rest of the queue is
        left, everything pulled is in `fetching`, and the first new
        occurrences were classified, in order, with their hits kept. */
    ghost predicate Progress(fetch: Fetcher, q0: seq<string>, seen0: set<string>,
                             log0: seq<string>, res0: seq<string>, pulled: seq<string>)
      reads this
    {
      && q0 == pulled + queue
      && fetching == seen0 + Elems(pulled)
      && classified == log0 + FirstNew(pulled, seen0)
      && results == res0 + HitUrls(fetch, FirstNew(pulled, seen0))
    }

    /** One more `process_url` keeps `Progress` with the pulled URL added. */
    method PullNext(fetch: Fetcher, ghost q0: seq<string>, ghost seen0: set<string>,
                    ghost log0: seq<string>, ghost res0: seq<string>, ghost pulled: seq<string>)
      requires Valid() && queue != []
      requires Progress(fetch, q0, seen0, log0, res0, pulled)
      modifies this
      ensures Valid()
      ensures Progress(fetch, q0, seen0, log0, res0, pulled + [old(queue)[0]])
    {
      ghost var url := queue[0];
      ghost var before := FirstNew(pulled, seen0);
      ghost var now := NewIn(url, fetching);
      ElemsSnoc(pulled, url);
      FirstNewSnoc(pulled, url, seen0);
      HitUrlsConcat(fetch, before, now);
      AppendAssoc(log0, before, now);
      AppendAssoc(res0, HitUrls(fetch, before), HitUrls(fetch, now));
      AppendAssoc(pulled, [url], queue[1..]);
      ProcessUrl(fetch);
    }

    /** `threads` workers running `process_url` until the queue is empty (a
        worker never dies here: `decide_url` does not raise); `q.join` then
        returns, unless no worker was started (`range(threads)` is empty for
        `threads <= 0`) and there is something to do. The ghost out-parameter
        `pulled` is the part of the queue the workers took, in order. */
    method Drain(fetch: Fetcher, threads: int) returns (status: JoinStatus, ghost pulled: seq<string>)
      requires Valid()
      modifies this
      ensures Valid()
      ensures old(queue) == pulled + queue
      ensures status == Joined <==> unfinished == 0
      ensures threads > 0 ==> queue == []
      ensures threads <= 0 ==> pulled == []
      ensures fetching == fetched == old(fetching) + Elems(pulled)
      ensures classified == old(classified) + FirstNew(pulled, old(fetching))
      ensures results == old(results) + HitUrls(fetch, FirstNew(pulled, old(fetching)))
    {
      ghost var q0, seen0, log0, res0 := queue, fetching, classified, results;
      pulled := [];
      assert Elems(pulled) == {} && FirstNew(pulled, seen0) == [];
      while queue != [] && threads > 0
        invariant Valid()
        invariant Progress(fetch, q0, seen0, log0, res0, pulled)
        invariant threads <= 0 ==> pulled == []
        decreases |queue|
      {
        ghost var url := queue[0];
        PullNext(fetch, q0, seen0, log0, res0, pulled);
        pulled := pulled + [url];
      }
      status := if unfinished == 0 then Joined else TimedOut;
    }
  }

  /** How a `bust_url` run ends: with the hit URLs, with `None` after a
      wildcard response, with the exception of a probe fetch that raised, or
      with the timeout of `q.join` when no worker was started. */
  datatype Outcome = Found(results: seq<string>) | WildcardAbort | ProbeError | JoinTimeout

  /** `bust_url`, with the word list as a parameter in place of the global
      `WORD_LIST`. The ghost out-parameters are the URLs handed to the
      classifier, in order, and the final `fetched` set. */
  method BustUrl(url: string, wordList: seq<string>, threads: int, fetch: Fetcher)
    returns (outcome: Outcome, ghost classifiedLog: seq<string>, ghost ledger: set<string>)
    ensures outcome.WildcardAbort? <==> WildcardCheck(url, fetch) == Wildcard
    ensures outcome.ProbeError? <==> WildcardCheck(url, fetch) == ProbeRaised
    ensures WildcardCheck(url, fetch) != Proceed ==> classifiedLog == []
    ensures outcome.Found? <==> WildcardCheck(url, fetch) == Proceed && (threads > 0 || wordList == [])
    ensures outcome.Found? ==>
              var candidates := BusterList(url, wordList);
              && ledger == Elems(candidates)
              && classifiedLog == FirstNew(candidates, {})
              && outcome.results == HitUrls(fetch, classifiedLog)
              && NoDup(outcome.results)
              && (forall u :: u in outcome.results <==> u in candidates && DecideUrl(u, fetch))
  {
    var candidates := BusterList(url, wordList);
    classifiedLog, ledger := [], {};
    var gate := WildcardCheck(url, fetch);
    if gate == Wildcard {
      return WildcardAbort, classifiedLog, ledger;
    }
    if gate == ProbeRaised {
      return ProbeError, classifiedLog, ledger;
    }
    var buster := new Buster(candidates);
    var status, pulled := buster.Drain(fetch, threads);
    classifiedLog, ledger := buster.classified, buster.fetched;
    if status == TimedOut {
      return JoinTimeout, classifiedLog, ledger;
    }
    assert buster.fetching == buster.fetched;
    assert pulled == candidates;
    DrainedResults(fetch, candidates);
    outcome := Found(buster.results);
  }

  /** Draining all candidates from an empty ledger keeps each distinct
      candidate whose decision is a hit, once. */
  lemma DrainedResults(fetch: Fetcher, candidates: seq<string>)
    ensures var results := HitUrls(fetch, FirstNew(candidates, {}));
            && NoDup(results)
            && (forall u :: u in results <==> u in candidates && DecideUrl(u, fetch))
  {
    FirstNewSpec(candidates, {});
    HitUrlsExact(fetch, FirstNew(candidates, {}));
  }
}
