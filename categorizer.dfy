/**
 * The keyword categoriser of `VOCAnalyzer.generate_full_report`: a team's
 * bucket is the list of review texts that contain at least one of the team's
 * keywords as a case-sensitive substring, in input order.
 */
module Categorizer {
  import opened Strings

  /** `any(k in text for k in keywords)`: never for no keywords, always when the empty keyword is listed. */
  predicate Matches(text: string, keywords: seq<string>)
    ensures keywords == [] ==> !Matches(text, keywords)
    ensures "" in keywords ==> Matches(text, keywords)
  {
    EmptyIsSubstring(text);
    exists k :: k in keywords && IsSubstring(k, text)
  }

  /** With a single keyword, matching is containing that keyword. */
  lemma MatchesSingle(text: string, keyword: string)
    ensures Matches(text, [keyword]) <==> IsSubstring(keyword, text)
  {
    if IsSubstring(keyword, text) {
      assert keyword in [keyword];
    }
  }

  /** The rows of the review table whose text matches any keyword, in table order. */
  function SelectReviews(reviews: seq<string>, keywords: seq<string>): (bucket: seq<string>)
    ensures |bucket| <= |reviews|
    ensures forall k :: 0 <= k < |bucket| ==> Matches(bucket[k], keywords)
    decreases |reviews|
  {
    if |reviews| == 0 then []
    else (if Matches(reviews[0], keywords) then [reviews[0]] else []) + SelectReviews(reviews[1..], keywords)
  }

  /** A review is in the bucket exactly when it is one of the reviews and matches a keyword. */
  lemma {:induction false} SelectMembership(reviews: seq<string>, keywords: seq<string>, text: string)
    ensures text in SelectReviews(reviews, keywords) <==> text in reviews && Matches(text, keywords)
    decreases |reviews|
  {
    if |reviews| > 0 {
      SelectMembership(reviews[1..], keywords, text);
      assert reviews == [reviews[0]] + reviews[1..];
    }
  }

  /** Selection distributes over concatenation, so the bucket keeps the table's order. */
  lemma {:induction false} SelectConcat(xs: seq<string>, ys: seq<string>, keywords: seq<string>)
    ensures SelectReviews(xs + ys, keywords) == SelectReviews(xs, keywords) + SelectReviews(ys, keywords)
    decreases |xs|
  {
    if |xs| == 0 {
      assert xs + ys == ys;
    } else {
      assert (xs + ys)[1..] == xs[1..] + ys;
      SelectConcat(xs[1..], ys, keywords);
    }
  }

  /** A one-row table yields that row exactly when it matches. */
  lemma SelectSingle(text: string, keywords: seq<string>)
    ensures SelectReviews([text], keywords) == if Matches(text, keywords) then [text] else []
  {
    assert [text][1..] == [];
  }

  /** Duplicated rows are kept: each matching text occurs as often as in the table, others not at all. */
  lemma {:induction false} SelectMultiplicity(reviews: seq<string>, keywords: seq<string>, text: string)
    ensures multiset(SelectReviews(reviews, keywords))[text]
         == if Matches(text, keywords) then multiset(reviews)[text] else 0
    decreases |reviews|
  {
    if |reviews| > 0 {
      SelectMultiplicity(reviews[1..], keywords, text);
      assert reviews == [reviews[0]] + reviews[1..];
    }
  }

  /** `any` over no keywords is false: a team without keywords gets an empty bucket. */
  lemma {:induction false} SelectNoKeywords(reviews: seq<string>)
    ensures SelectReviews(reviews, []) == []
    decreases |reviews|
  {
    if |reviews| > 0 {
      SelectNoKeywords(reviews[1..]);
    }
  }

  /** The empty keyword is contained in every text, so a team listing it gets every review. */
  lemma {:induction false} SelectEmptyKeyword(reviews: seq<string>, keywords: seq<string>)
    requires "" in keywords
    ensures SelectReviews(reviews, keywords) == reviews
    decreases |reviews|
  {
    if |reviews| > 0 {
      EmptyIsSubstring(reviews[0]);
      SelectEmptyKeyword(reviews[1..], keywords);
      assert [reviews[0]] + reviews[1..] == reviews;
    }
  }

  /**
   * Membership is not exclusive: a review matching the keywords of two teams
   * lands in both buckets.
   */
  lemma SelectNonExclusive(reviews: seq<string>, keywords1: seq<string>, keywords2: seq<string>, text: string)
    requires text in reviews && Matches(text, keywords1) && Matches(text, keywords2)
    ensures text in SelectReviews(reviews, keywords1) && text in SelectReviews(reviews, keywords2)
  {
    SelectMembership(reviews, keywords1, text);
    SelectMembership(reviews, keywords2, text);
  }
}
