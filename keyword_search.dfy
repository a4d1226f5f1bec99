/** `search_documents_by_keyword`: a linear scan over the loaded documents
    that keeps, in document order, those whose text contains the keyword,
    and stops as soon as enough hits have been collected. */
module KeywordSearch {
  import opened Strings

  /** A loaded document: its text and its metadata (for instance "source"). */
  datatype Document = Document(pageContent: string, metadata: map<string, string>)

  /** The default `max_results` of the Python function. */
  const DefaultMaxResults: int := 10

  /** The document's text contains the keyword (Python's `keyword in page_content`). */
  predicate Hits(keyword: string, doc: Document) {
    Contains(doc.pageContent, keyword)
  }

  /** Every hit of `docs`, in document order: what an unbounded scan collects. */
  function Matches(keyword: string, docs: seq<Document>): seq<Document>
  {
    if docs == [] then []
    else (if Hits(keyword, docs[0]) then [docs[0]] else []) + Matches(keyword, docs[1..])
  }

  /** How many hits end the scan. The limit is checked only after a hit has
      been appended, so a limit of zero or less still lets one hit through. */
  function StopCount(maxResults: int): (n: int)
    ensures n >= 1
    ensures maxResults >= 1 ==> n == maxResults
    ensures maxResults <= 0 ==> n == 1
  {
    if maxResults >= 1 then maxResults else 1
  }

  function Min(a: int, b: int): int { if a <= b then a else b }

  /** What the search returns: the first `StopCount(maxResults)` hits. */
  function FirstMatches(keyword: string, docs: seq<Document>, maxResults: int): (r: seq<Document>)
    ensures maxResults >= 1 ==> |r| <= maxResults
    ensures maxResults <= 0 ==> |r| <= 1
  {
    var hits := Matches(keyword, docs);
    hits[..Min(|hits|, StopCount(maxResults))]
  }

  /** `a` can be obtained from `b` by deleting elements: same relative order. */
  predicate IsSubsequence(a: seq<Document>, b: seq<Document>)
    decreases |b|
  {
    if a == [] then true
    else if b == [] then false
    else (a[0] == b[0] && IsSubsequence(a[1..], b[1..])) || IsSubsequence(a, b[1..])
  }

  /** The scan over a concatenation is the scan of each part, in turn. */
  lemma {:induction false} MatchesAppend(keyword: string, a: seq<Document>, b: seq<Document>)
    ensures Matches(keyword, a + b) == Matches(keyword, a) + Matches(keyword, b)
    decreases |a|
  {
    if a != [] {
      assert (a + b)[1..] == a[1..] + b;
      MatchesAppend(keyword, a[1..], b);
    } else {
      assert a + b == b;
    }
  }

  /** The hits are exactly the documents that contain the keyword, in order. */
  lemma {:induction false} MatchesExactly(keyword: string, docs: seq<Document>)
    ensures forall d :: d in Matches(keyword, docs) ==> d in docs && Hits(keyword, d)
    ensures forall d :: d in docs && Hits(keyword, d) ==> d in Matches(keyword, docs)
    ensures IsSubsequence(Matches(keyword, docs), docs)
    decreases |docs|
  {
    if docs != [] {
      MatchesExactly(keyword, docs[1..]);
      var rest := Matches(keyword, docs[1..]);
      if Hits(keyword, docs[0]) {
        assert Matches(keyword, docs) == [docs[0]] + rest;
        assert ([docs[0]] + rest)[1..] == rest;
      } else {
        assert Matches(keyword, docs) == rest;
      }
      forall d | d in docs && Hits(keyword, d)
        ensures d in Matches(keyword, docs)
      {
        if d != docs[0] {
          assert d in docs[1..];
        }
      }
    }
  }

  /** Cutting a subsequence short keeps it a subsequence. */
  lemma {:induction false} SubsequencePrefix(a: seq<Document>, b: seq<Document>, n: nat)
    requires IsSubsequence(a, b) && n <= |a|
    ensures IsSubsequence(a[..n], b)
    decreases |b|
  {
    if n > 0 {
      assert a[..n][0] == a[0];
      if a[0] == b[0] && IsSubsequence(a[1..], b[1..]) {
        assert a[..n][1..] == a[1..][..n - 1];
        SubsequencePrefix(a[1..], b[1..], n - 1);
      } else {
        SubsequencePrefix(a, b[1..], n);
      }
    }
  }

  /** Any prefix of the hits is what the scan finds in some prefix of the
      documents: hits are never skipped. */
  lemma {:induction false} HitPrefixIsScanPrefix(keyword: string, docs: seq<Document>, n: nat)
    requires n <= |Matches(keyword, docs)|
    ensures exists j :: 0 <= j <= |docs| && Matches(keyword, docs[..j]) == Matches(keyword, docs)[..n]
    decreases |docs|
  {
    if docs != [] {
      var init, last := docs[..|docs| - 1], docs[|docs| - 1];
      assert docs == init + [last];
      MatchesAppend(keyword, init, [last]);
      if n <= |Matches(keyword, init)| {
        HitPrefixIsScanPrefix(keyword, init, n);
        var j :| 0 <= j <= |init| && Matches(keyword, init[..j]) == Matches(keyword, init)[..n];
        assert docs[..j] == init[..j];
      } else {
        assert docs[..|docs|] == docs;
      }
    } else {
      assert docs[..0] == docs;
    }
  }

  /** Once `StopCount` hits lie within `docs[..j]`, the rest of the list no
      longer affects the result. */
  lemma StopsAtLimit(keyword: string, docs: seq<Document>, j: nat, maxResults: int)
    requires j <= |docs|
    requires |Matches(keyword, docs[..j])| == StopCount(maxResults)
    ensures FirstMatches(keyword, docs, maxResults) == Matches(keyword, docs[..j])
  {
    assert docs == docs[..j] + docs[j..];
    MatchesAppend(keyword, docs[..j], docs[j..]);
  }

  /** Every returned document contains the keyword as a contiguous substring,
      and comes from the input list. */
  lemma ResultsContainKeyword(keyword: string, docs: seq<Document>, maxResults: int)
    ensures forall d :: d in FirstMatches(keyword, docs, maxResults) ==>
      d in docs && exists i: nat :: OccursAt(d.pageContent, keyword, i)
  {
    MatchesExactly(keyword, docs);
    forall d | d in FirstMatches(keyword, docs, maxResults)
      ensures d in docs && exists i: nat :: OccursAt(d.pageContent, keyword, i)
    {
      ContainsIff(d.pageContent, keyword);
    }
  }

  /** The result keeps the input order, and is exactly the hits of some
      prefix of the documents: the first ones, none skipped. */
  lemma ResultsAreFirstInOrder(keyword: string, docs: seq<Document>, maxResults: int)
    ensures IsSubsequence(FirstMatches(keyword, docs, maxResults), docs)
    ensures exists j :: (0 <= j <= |docs| &&
      FirstMatches(keyword, docs, maxResults) == Matches(keyword, docs[..j]))
  {
    var hits := Matches(keyword, docs);
    var n := Min(|hits|, StopCount(maxResults));
    MatchesExactly(keyword, docs);
    SubsequencePrefix(hits, docs, n);
    HitPrefixIsScanPrefix(keyword, docs, n);
  }

  /** When there are no more hits than the limit allows, all of them are
      returned: no document containing the keyword is missing. */
  lemma FewHitsAllReturned(keyword: string, docs: seq<Document>, maxResults: int)
    requires |Matches(keyword, docs)| <= StopCount(maxResults)
    ensures FirstMatches(keyword, docs, maxResults) == Matches(keyword, docs)
    ensures forall d :: d in docs && Hits(keyword, d) ==> d in FirstMatches(keyword, docs, maxResults)
  {
  }

  /** With the limit reached, exactly `StopCount(maxResults)` documents come back. */
  lemma ManyHitsFillTheLimit(keyword: string, docs: seq<Document>, maxResults: int)
    requires |Matches(keyword, docs)| >= StopCount(maxResults)
    ensures |FirstMatches(keyword, docs, maxResults)| == StopCount(maxResults)
  {
  }

  /** An empty document list gives an empty result. */
  lemma NoDocumentsNoResults(keyword: string, maxResults: int)
    ensures FirstMatches(keyword, [], maxResults) == []
  {
  }

  /** The empty keyword is found in every document. */
  lemma {:induction false} EmptyKeywordMatchesAll(docs: seq<Document>)
    ensures Matches("", docs) == docs
    decreases |docs|
  {
    if docs != [] {
      EmptyKeyEverywhere(docs[0].pageContent);
      EmptyKeywordMatchesAll(docs[1..]);
    }
  }

  /** So an empty keyword returns the leading documents, up to the limit. */
  lemma EmptyKeywordTakesLeadingDocuments(docs: seq<Document>, maxResults: int)
    ensures FirstMatches("", docs, maxResults) == docs[..Min(|docs|, StopCount(maxResults))]
  {
    EmptyKeywordMatchesAll(docs);
  }

  /** The scan itself, loop and early exit as in the Python function. */
  method SearchDocumentsByKeyword(keyword: string, docsAll: seq<Document>, maxResults: int := DefaultMaxResults)
    returns (results: seq<Document>)
    ensures results == FirstMatches(keyword, docsAll, maxResults)
  {
    results := [];
    var i := 0;
    while i < |docsAll|
      invariant 0 <= i <= |docsAll|
      invariant results == Matches(keyword, docsAll[..i])
      invariant |results| < StopCount(maxResults)
    {
      var doc := docsAll[i];
      assert docsAll[..i + 1] == docsAll[..i] + [doc];
      MatchesAppend(keyword, docsAll[..i], [doc]);
      if Contains(doc.pageContent, keyword) {
        results := results + [doc];
        if |results| >= maxResults {
          StopsAtLimit(keyword, docsAll, i + 1, maxResults);
          break;
        }
      }
      i := i + 1;
    }
    if i == |docsAll| {
      assert docsAll[..i] == docsAll;
      assert results[..|results|] == results;
    }
  }
}
