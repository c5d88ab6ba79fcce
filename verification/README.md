# pybuster, modelled in Dafny

pybuster is a dirbuster. It takes a root URL and a word list and builds one
candidate URL per word. It first sends a wildcard probe: one request for a
path that cannot exist. If that probe looks like a hit, the server answers
every path and the scan is aborted. Otherwise a pool of tornado coroutines
drains a queue of the candidates. A dedup ledger (`fetching`, `fetched`)
makes sure each URL is classified once. The hits are collected in
`results`. The repository holds two versions of this engine: the package
`pybuster/__init__.py` and the older script `pybuster.py`.

The model has five modules:

- `Http`: the HTTP client as an oracle `Fetcher = string -> Option<int>`.
  It gives the status code of the response, or `None` when the fetch raises.
- `Candidates`: root normalisation, the candidate list and the probe URL.
  The code is the same in both versions, except for the probe's marker.
- `Ledger`: `FirstNew(q, seen)`, the URLs of queue `q` that reach the
  classifier when `seen` is already in `fetching`, in order. It is the
  reference the workers' bookkeeping is proved against.
- `Pybuster` (the package): `DecideUrl`, the wildcard gate, and a class
  `Buster` holding the queue, the ledger sets and the result list. The class
  has `ProcessUrl` and the `Drain` loop. `BustUrl` runs the whole scan.
- `PybusterScript` (the script): the same structure, with a boolean
  decision and URL strings as results.

The workers run one `process_url` at a time, in queue order. Under tornado's
single-threaded loop there is no `yield` between the membership test and
`fetching.add`, so a sequential model gives the same ledger.

A worker can die in the package. When a fetch raises, `_decide_url` returns
`None`. `process_url` still adds the URL to `fetched`. Then `result.hit`
raises `AttributeError`, the `finally` clause calls `q.task_done()`, and the
exception leaves the worker's loop, which ends that worker. Every failing URL
therefore takes a distinct worker. So the workers pull exactly
the shortest prefix of the queue that holds `threads` failures, or the whole
queue. `Drain` models this with a count of raised steps. `AllPulled` states
when the last candidate gets pulled. When it does not, `q.join` times out and
`BustUrl` ends in `JoinTimeout`.

What is proved, in short:

- `fetching == fetched` holds between any two `process_url` calls. This is a
  class invariant, so the assertion at the end of `bust_url` always holds on
  the path that reaches it.
- After a full drain, `fetched` is the set of candidates. The classifier was
  called once per distinct candidate, in queue order. `results` holds exactly
  one entry per distinct candidate whose decision is a hit, and none for
  misses.
- A URL already in `fetching` is skipped. Nothing changes except the queue
  and one `task_done`.
- The run aborts iff the probe's code is a success code. It raises iff the
  probe fetch raises. In both cases nothing is classified.

Two behaviours of the code are worth stating outright:

- A failed fetch does not produce a non-hit `Result`. In the package
  `_decide_url` returns `None`, and `process_url` then raises, as described
  above.
- `q.join(timeout=...)` raises on timeout. No partial results are returned.

## Model

| member | source | states |
|---|---|---|
| `Candidates.Normalize` | pybuster/__init__.py:94 | the normalised root ends with `/`, extends the root by at most one character, and equals the root iff the root already ends with `/` |
| `Candidates.NormalizeIdempotent` | pybuster.py:88 | normalising twice is normalising once: an already-normalised root is unchanged |
| `Candidates.BusterList` | pybuster/__init__.py:92-95 | one candidate per word: the list is as long as the word list |
| `Candidates.BusterListAt` | pybuster/__init__.py:95 | candidate i is `normalize(root) + word_list[i]`, and stripping the normalised root from it gives back word i |
| `Candidates.BusterListIsComprehension` | pybuster.py:86-89 | the recursive candidate list equals the comprehension `[root + x for x in words]`: same order, same length, duplicates kept |
| `Candidates.BusterListElems` | pybuster/__init__.py:92-95 | the set of candidates is `{normalize(root) + w : w in word_list}` |
| `Ledger.FirstNew` | pybuster/__init__.py:64-68 | the URLs handed to the classifier, in queue order: at most one per pulled URL, and a head of the queue not yet in `fetching` comes first |
| `Ledger.FirstNewSpec` | pybuster/__init__.py:64-68 | the URLs that pass the `in fetching` test are exactly the queue's URLs not already fetching, each once |
| `Ledger.FirstNewConcat` | pybuster/__init__.py:61-70 | draining `a` then `b` classifies what `a` classifies, then what `b` has that is new after `a` |
| `Ledger.OncePerDistinct` | pybuster/__init__.py:57-70 | from an empty ledger, the classifier is called on every distinct queued URL exactly once: no duplicates, same set, count equal to the number of distinct URLs |
| `Pybuster.Contains` | pybuster/__init__.py:120 | `r in results` through `Result.__eq__` holds iff some result has the same URL, whatever its hit flag and code |
| `Pybuster.DecideUrl` | pybuster/__init__.py:24-29 | no result iff the fetch raised; otherwise a result for the same URL carrying the response code, a hit iff the code is a success code |
| `Pybuster.Hits` | pybuster/__init__.py:72-73 | the results appended while classifying URLs in order: at most one per URL, each a hit for one of those URLs |
| `Pybuster.HitsExact` | pybuster/__init__.py:72-73 | a result is kept for classified URLs iff its URL was classified, it is a hit, and it is exactly that URL's decision |
| `Pybuster.HitsDistinct` | pybuster/__init__.py:65-73 | classifying distinct URLs keeps results no two of which are equal under `__eq__` |
| `Pybuster.AllPulled` | pybuster/__init__.py:79-86 | whether the last candidate gets pulled before every worker has died; with no worker started (`threads <= 0`) only an empty queue is drained, and with at least as many workers as candidates every candidate is pulled |
| `Pybuster.AnsweringServerIsDrained` | pybuster/__init__.py:79-86 | with at least one worker and a server that always answers, every candidate is pulled |
| `Pybuster.StalledBeforeLast` | pybuster/__init__.py:85-86 | once the pulled prefix holds `threads` raised classifications short of the end, the last candidate is never pulled |
| `Candidates.ProbeUrl` | pybuster/__init__.py:48 | the probe is the unnormalised root, a slash and the marker (`l392392392lol` in the package, `392392392lol` in the script), so a root ending in `/` gives a `//` in the probe |
| `Pybuster.WildcardCheck` | pybuster/__init__.py:48-53 | the gate raises iff the probe fetch raises, and aborts iff the probe's code is a success code |
| `Pybuster.WildcardIsProbeHit` | pybuster/__init__.py:48-53 | the gate aborts iff classifying the probe would give a hit, and raises iff classifying it would give no result |
| `Pybuster.Buster.constructor` | pybuster/__init__.py:44-57 | the queue holds the candidates, every one unacknowledged; the ledger sets and results start empty |
| `Pybuster.Buster.ProcessUrl` | pybuster/__init__.py:61-76 | pops the head and acknowledges it once; a URL already fetching changes nothing else; a new URL enters `fetching` and `fetched` and is classified once; a hit is appended; the step raises iff the fetch raised; `Valid` (ledger equality, one classification per URL, distinct hit results) is kept |
| `Pybuster.Buster.PullNext` | pybuster/__init__.py:79-81 | one more `process_url` extends the drained prefix by one URL and counts a raised step |
| `Pybuster.Buster.Drain` | pybuster/__init__.py:78-86 | the workers pull a prefix `pulled` of the queue; afterwards `fetching == fetched ==` the old ledger plus the pulled URLs; the classifier has seen `FirstNew` of the prefix and the results are its hits; the prefix stops at the `threads`-th raise; `q.join` succeeds iff the queue is empty |
| `Pybuster.DrainedResults` | pybuster/__init__.py:57-73 | draining the candidates from an empty ledger classifies each distinct candidate once, and keeps exactly one result per distinct hit candidate and none for misses |
| `Pybuster.RunWorkers` | pybuster/__init__.py:57-89 | the run returns results iff every candidate is pulled, and then `fetched` is the candidate set, the classifier saw `FirstNew(candidates)`, and the results are its hits; otherwise `q.join` times out |
| `Pybuster.BustUrl` | pybuster/__init__.py:41-89 | aborts iff the probe code is a success code and raises iff the probe fetch raises, both without classifying anything; otherwise returns results iff all candidates are pulled, and those results are exactly one per distinct hit candidate |
| `Pybuster.RobotsScenario` | test_pybuster.py:3-11 | with 200 for `robots.txt` and 404 elsewhere, the wildcard gate passes, the run is drained with 10 workers, it yields exactly one result, and `Result(url + 'robots.txt', True, 200) in results` |
| `Pybuster.RobotsRun` | test_pybuster.py:3-9 | `bust_url` on that server with the test's word list returns exactly `[Result(url + 'robots.txt', True, 200)]` |
| `PybusterScript.DecideUrl` | pybuster.py:17-23 | a hit iff a response came back with a code in `HITS`; a raised fetch is a miss |
| `PybusterScript.HitUrls` | pybuster.py:66-67 | the URLs appended while classifying URLs in order: at most one per URL, each one of those URLs decided a hit |
| `PybusterScript.HitUrlsExact` | pybuster.py:62-67 | the kept URLs are exactly the classified URLs whose decision is a hit, and are distinct when the classified URLs are |
| `PybusterScript.WildcardCheck` | pybuster.py:41-47 | the gate raises iff the probe fetch raises, and returns `None` iff the probe's code is in `HITS` |
| `PybusterScript.WildcardIsProbeHit` | pybuster.py:41-47 | the gate aborts iff the probe, decided like a candidate, is a hit |
| `PybusterScript.Buster.constructor` | pybuster.py:38-51 | the queue holds the candidates, every one unacknowledged; the ledger sets and results start empty |
| `PybusterScript.Buster.ProcessUrl` | pybuster.py:55-70 | pops the head and acknowledges it once; a URL already fetching changes nothing else; a new URL enters `fetching` and `fetched`, is classified once and kept iff a hit; `Valid` is kept |
| `PybusterScript.Buster.PullNext` | pybuster.py:72-75 | one more `process_url` extends the drained prefix by one URL |
| `PybusterScript.Buster.Drain` | pybuster.py:72-80 | with at least one worker the whole queue is drained, with none (`threads <= 0`) nothing is pulled; afterwards `fetching == fetched ==` the old ledger plus the queue; the classifier has seen `FirstNew` of the queue and the results are its hit URLs |
| `PybusterScript.DrainedResults` | pybuster.py:51-67 | draining from an empty ledger keeps each distinct candidate whose decision is a hit, exactly once |
| `PybusterScript.BustUrl` | pybuster.py:35-83 | returns `None` iff the probe code is in `HITS` and raises iff the probe fetch raises, both without classifying anything; otherwise returns results iff there is a worker or nothing to do, and then the results are exactly the distinct hit candidates, each once |

## Left out

- The HTTP fetch is a foreign network call. It is the `Fetcher` parameter. TLS options, redirects and response bodies are not modelled.
- The `override` hook of `_decide_url` and `decide_url` is not modelled. Without an override, both functions return the plain decision.
- Concurrency is not modelled. The workers are interleaved one whole `process_url` at a time, in queue order, and the worker count only matters through worker death. In tornado the membership test and `fetching.add` run with no `yield` between them, so the ledger comes out the same.
- `Pybuster.Buster.Drain`, `Pybuster.RunWorkers` and `Pybuster.BustUrl` fix `results` to queue order: the hits of `FirstNew(candidates)` in that order. In the code each worker appends when its own fetch completes, so with several workers the list is in completion order. Only the set-level statements (`DistinctUrls`, and which results are in the list) describe the code for every interleaving. The same holds for the script's `results`.
- The wall-clock timeout of `q.join` (300 seconds) is not modelled. The oracle answers at once, so only the timeout caused by every worker having died (`JoinTimeout`) is modelled. The invariant `fetching == fetched` is proved to hold on that path too, although the code never reaches its assertion there.
- `Result.__str__`, `__repr__` and `__hash__` are not modelled. `__str__` joins a string and an int, which raises, and `__hash__` returns a string. The namedtuple `Result` is replaced by the class right after it.
- Printing, logging, `sys.exit(2)` under `__main__`, the click CLI, `run`/`IOLoop.run_sync` and the module-level read of `wordlist.txt` are I/O glue and are not modelled. `WORD_LIST` becomes the `wordList` parameter of `PybusterScript.BustUrl`.
- Under `__main__`, the wildcard path exits with status 2 instead of raising or returning `None`. The model keeps the library behaviour, `WildcardAbort`.
- The defaults `threads=10` and `success_codes=SUCCESS_CODES` of `bust_url` are not modelled as defaults. Callers pass both, and `SUCCESS_CODES` and `HITS` are constants of the model.
- Packaging (`setup.py`) is not part of this model.
