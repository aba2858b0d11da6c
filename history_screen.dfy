/** The history list's search (src/components/HistoryScreen.tsx): the items whose name or
    type contains the query, compared in lower case, and the message shown when nothing is
    left to list. The query starts empty and is only ever replaced as a whole. */
module HistoryScreen {
  import opened Wrappers
  import opened Text
  import opened AppState

  const InitialQuery: string := ""

  /** The filter's predicate: the lowercased query occurs in the lowercased name or type. */
  predicate Keeps(item: AnalysisResult, query: string) {
    Contains(ToLower(item.itemName), ToLower(query)) || Contains(ToLower(item.itemType), ToLower(query))
  }

  /** `items.filter(...)`: the kept items, in their original order. */
  function Filter(items: seq<AnalysisResult>, query: string): (r: seq<AnalysisResult>)
    ensures |r| <= |items|
    ensures forall k :: 0 <= k < |r| ==> r[k] in items && Keeps(r[k], query)
  {
    if items == [] then []
    else
      var rest := Filter(items[1..], query);
      if Keeps(items[0], query) then [items[0]] + rest else rest
  }

  /** `a` is `b` with some elements dropped and the rest kept in order. */
  ghost predicate SubsequenceOf<T>(a: seq<T>, b: seq<T>)
    decreases |b|
  {
    if b == [] then a == []
    else (a != [] && a[0] == b[0] && SubsequenceOf(a[1..], b[1..])) || SubsequenceOf(a, b[1..])
  }

  /** An item is listed exactly when it is in the history and matches the query. */
  lemma {:induction false} FilterMembership(items: seq<AnalysisResult>, query: string, x: AnalysisResult)
    ensures x in Filter(items, query) <==> x in items && Keeps(x, query)
  {
    if items != [] {
      FilterMembership(items[1..], query, x);
      assert items == [items[0]] + items[1..];
    }
  }

  /** The list is an order-preserving subsequence of the history. */
  lemma {:induction false} FilterIsSubsequence(items: seq<AnalysisResult>, query: string)
    ensures SubsequenceOf(Filter(items, query), items)
  {
    if items != [] {
      FilterIsSubsequence(items[1..], query);
      var rest := Filter(items[1..], query);
      if Keeps(items[0], query) {
        assert ([items[0]] + rest)[1..] == rest;
      }
    }
  }

  /** Every copy of a matching item is listed, and no copy of any other: the list holds
      each value exactly as often as the history does when it matches, and never otherwise. */
  lemma {:induction false} FilterCounts(items: seq<AnalysisResult>, query: string, x: AnalysisResult)
    ensures multiset(Filter(items, query))[x] == if Keeps(x, query) then multiset(items)[x] else 0
  {
    if items != [] {
      FilterCounts(items[1..], query, x);
      assert items == [items[0]] + items[1..];
      assert multiset(items) == multiset([items[0]]) + multiset(items[1..]);
      var rest := Filter(items[1..], query);
      if Keeps(items[0], query) {
        assert multiset([items[0]] + rest) == multiset([items[0]]) + multiset(rest);
      }
    }
  }

  /** The empty query (the initial one) lists the whole history. */
  lemma {:induction false} EmptyQueryKeepsAll(items: seq<AnalysisResult>)
    ensures Filter(items, InitialQuery) == items
  {
    if items != [] {
      ContainsEmpty(ToLower(items[0].itemName));
      EmptyQueryKeepsAll(items[1..]);
    }
  }

  /** A query and its lowercased form list the same items. */
  lemma {:induction false} CaseInsensitive(items: seq<AnalysisResult>, query: string)
    ensures Filter(items, ToLower(query)) == Filter(items, query)
  {
    LowerIdempotent(query);
    if items != [] {
      CaseInsensitive(items[1..], query);
    }
  }

  /** Narrowing the query narrows the list: an item kept for `longer` is kept for any
      `shorter` query that occurs in it. */
  lemma {:induction false} NarrowingQuery(items: seq<AnalysisResult>, shorter: string, longer: string, x: AnalysisResult)
    requires Contains(longer, shorter)
    requires x in Filter(items, longer)
    ensures x in Filter(items, shorter)
  {
    FilterMembership(items, longer, x);
    FilterMembership(items, shorter, x);
    LowerKeepsOccurrence(longer, shorter);
    if Contains(ToLower(x.itemName), ToLower(longer)) {
      ContainsTransitive(ToLower(x.itemName), ToLower(longer), ToLower(shorter));
    } else {
      ContainsTransitive(ToLower(x.itemType), ToLower(longer), ToLower(shorter));
    }
  }

  /** The two lines of the empty state. */
  datatype EmptyState = EmptyState(message: string, hint: string)

  const NoEvaluationsYet: EmptyState := EmptyState("لا توجد تقييمات بعد", "ابدأ بتقييم أول غرض لك")
  const NoResults: EmptyState := EmptyState("لا توجد نتائج", "جرب كلمات بحث أخرى")

  /** What the list area shows instead of items, if anything. */
  function EmptyStateShown(items: seq<AnalysisResult>, query: string): Option<EmptyState> {
    if |Filter(items, query)| == 0 then
      Some(if |items| == 0 then NoEvaluationsYet else NoResults)
    else None
  }

  /** The empty state shows exactly when the list is empty; it says "no evaluations yet"
      for an empty history and "no results" for a history the query filtered out. */
  lemma {:induction false} EmptyStateCases(items: seq<AnalysisResult>, query: string)
    ensures EmptyStateShown(items, query).Some? <==> Filter(items, query) == []
    ensures items == [] ==> EmptyStateShown(items, query) == Some(NoEvaluationsYet)
    ensures items != [] && Filter(items, query) == [] ==> EmptyStateShown(items, query) == Some(NoResults)
    ensures items != [] && query == InitialQuery ==> EmptyStateShown(items, query) == None
  {
    if query == InitialQuery {
      EmptyQueryKeepsAll(items);
    }
  }
}
