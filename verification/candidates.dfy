/** Candidate generation: the root URL, normalised to end in a slash, joined
    with every entry of the word list in order. */
module Candidates {

  predicate EndsWithSlash(s: string) {
    |s| > 0 && s[|s| - 1] == '/'
  }

  /** The root with a slash appended, unless it already ends in one. */
  function Normalize(root: string): (r: string)
    ensures EndsWithSlash(r)
    ensures root <= r && |r| <= |root| + 1
    ensures r == root <==> EndsWithSlash(root)
  {
    if EndsWithSlash(root) then root else root + "/"
  }

  lemma NormalizeIdempotent(root: string)
    ensures Normalize(Normalize(root)) == Normalize(root)
  {
  }

  /** The URL of the wildcard probe: `marker` appended to the root after a
      slash. The root is not normalised first, so a root that already ends in
      a slash gives a probe with a double slash. */
  function ProbeUrl(url: string, marker: string): (r: string)
    ensures r == Normalize(url) + (if EndsWithSlash(url) then "/" else "") + marker
    ensures EndsWithSlash(url) ==> r[|url| - 1..|url| + 1] == "//"
  {
    url + "/" + marker
  }

  /** Each word of `words`, in order, prefixed with `root`. */
  function Prefixed(root: string, words: seq<string>): (r: seq<string>)
    ensures |r| == |words|
  {
    if words == [] then [] else [root + words[0]] + Prefixed(root, words[1..])
  }

  /** The candidate URLs for `root` and `wordList`, in word-list order. */
  function BusterList(root: string, wordList: seq<string>): (r: seq<string>)
    ensures |r| == |wordList|
  {
    Prefixed(Normalize(root), wordList)
  }

  lemma {:induction false} PrefixedAt(root: string, words: seq<string>, i: nat)
    requires i < |words|
    ensures Prefixed(root, words)[i] == root + words[i]
  {
    if i > 0 {
      PrefixedAt(root, words[1..], i - 1);
    }
  }

  /** Element i of the candidate list is the normalised root followed by
      word i, so the word can be read back off the candidate. */
  lemma BusterListAt(root: string, wordList: seq<string>, i: nat)
    requires i < |wordList|
    ensures BusterList(root, wordList)[i] == Normalize(root) + wordList[i]
    ensures Normalize(root) <= BusterList(root, wordList)[i]
    ensures BusterList(root, wordList)[i][|Normalize(root)|..] == wordList[i]
  {
    PrefixedAt(Normalize(root), wordList, i);
  }

  /** The candidate list is the list comprehension over the word list: same
      length, same order, duplicates kept. */
  lemma BusterListIsComprehension(root: string, wordList: seq<string>)
    ensures BusterList(root, wordList)
            == seq(|wordList|, i requires 0 <= i < |wordList| => Normalize(root) + wordList[i])
  {
    forall i | 0 <= i < |wordList|
      ensures BusterList(root, wordList)[i] == Normalize(root) + wordList[i]
    {
      BusterListAt(root, wordList, i);
    }
  }

  /** The set of candidates is `{normalize(root) + w : w in wordList}`. */
  lemma BusterListElems(root: string, wordList: seq<string>)
    ensures (set u | u in BusterList(root, wordList)) == (set w | w in wordList :: Normalize(root) + w)
  {
    var r := BusterList(root, wordList);
    forall u | u in r
      ensures u in (set w | w in wordList :: Normalize(root) + w)
    {
      var i :| 0 <= i < |r| && r[i] == u;
      BusterListAt(root, wordList, i);
    }
    forall w | w in wordList
      ensures Normalize(root) + w in r
    {
      var i :| 0 <= i < |wordList| && wordList[i] == w;
      BusterListAt(root, wordList, i);
    }
  }
}
