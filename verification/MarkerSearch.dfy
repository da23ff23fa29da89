/** The paginated search for the comments of an issue that carry a marker. */
module MarkerSearch {
  import opened Wrappers

  datatype Comment = Comment(identifier: string, body: string, url: string)

  /** An element of a page: a comment, or something that cannot be read as one. */
  datatype Item = Readable(comment: Comment) | Malformed

  datatype PageReply = Failed(error: string) | NotAList | Items(items: seq<Item>)

  datatype SearchResult = Found(comments: seq<Comment>, complete: bool) | ContractError | ReadFailed(error: string)

  const PageSize: nat := 100

  predicate OccursAt(body: string, marker: string, i: int) {
    0 <= i <= |body| - |marker| && body[i..i + |marker|] == marker
  }

  predicate Contains(body: string, marker: string) {
    exists i | 0 <= i <= |body| :: OccursAt(body, marker, i)
  }

  predicate AllReadable(items: seq<Item>) {
    forall i | 0 <= i < |items| :: items[i].Readable?
  }

  /** The marker-bearing comments, in order. */
  function Matching(items: seq<Item>, marker: string): seq<Comment> {
    if items == [] then []
    else
      (if items[0].Readable? && Contains(items[0].comment.body, marker) then [items[0].comment] else [])
      + Matching(items[1..], marker)
  }

  lemma {:induction false} MatchingAppend(a: seq<Item>, b: seq<Item>, marker: string)
    ensures Matching(a + b, marker) == Matching(a, marker) + Matching(b, marker)
    decreases |a|
  {
    if a == [] {
      assert a + b == b;
    } else {
      assert (a + b)[1..] == a[1..] + b;
      MatchingAppend(a[1..], b, marker);
    }
  }

  lemma {:induction false} NoMatchIff(items: seq<Item>, marker: string)
    requires AllReadable(items)
    ensures Matching(items, marker) == []
       <==> forall i | 0 <= i < |items| :: !Contains(items[i].comment.body, marker)
    decreases |items|
  {
    if items != [] {
      NoMatchIff(items[1..], marker);
      forall i | 1 <= i < |items| ensures items[i] == items[1..][i - 1] {
      }
    }
  }

  function Prepend(comments: seq<Comment>, r: SearchResult): SearchResult {
    if r.Found? then Found(comments + r.comments, r.complete) else r
  }

  /** What a search answers that has reached `page` with `seen` comments behind it. */
  function SearchFrom(pages: nat -> PageReply, marker: string, maxPages: nat, maxItems: nat, page: nat, seen: nat)
    : SearchResult
    requires 1 <= page <= maxPages
    decreases maxPages - page
  {
    match pages(page)
    case Failed(error) => ReadFailed(error)
    case NotAList => ContractError
    case Items(items) =>
      if !AllReadable(items) then ContractError
      else if |items| < PageSize then Found(Matching(items, marker), true)
      else if page == maxPages || seen + |items| >= maxItems then Found(Matching(items, marker), false)
      else Prepend(Matching(items, marker), SearchFrom(pages, marker, maxPages, maxItems, page + 1, seen + |items|))
  }

  method Normalize(items: seq<Item>) returns (comments: Option<seq<Comment>>)
    ensures comments.Some? <==> AllReadable(items)
    ensures comments.Some? ==>
              && |comments.value| == |items|
              && forall i | 0 <= i < |items| :: comments.value[i] == items[i].comment
  {
    var read: seq<Comment> := [];
    for i := 0 to |items|
      invariant |read| == i && forall k | 0 <= k < i :: items[k].Readable? && read[k] == items[k].comment
    {
      if items[i].Malformed? { return None; }
      read := read + [items[i].comment];
    }
    return Some(read);
  }

  method FilterByMarker(items: seq<Item>, comments: seq<Comment>, marker: string) returns (matches: seq<Comment>)
    requires |comments| == |items| && AllReadable(items)
    requires forall i | 0 <= i < |items| :: comments[i] == items[i].comment
    ensures matches == Matching(items, marker)
  {
    matches := [];
    for i := 0 to |comments|
      invariant matches == Matching(items[..i], marker)
    {
      assert items[..i + 1] == items[..i] + [items[i]];
      MatchingAppend(items[..i], [items[i]], marker);
      if Contains(comments[i].body, marker) { matches := matches + [comments[i]]; }
    }
    assert items[..|comments|] == items;
  }

  /** The search loop, for any provider. */
  method FindCommentsByMarker(pages: nat -> PageReply, marker: string, maxPages: nat, maxItems: nat)
    returns (r: SearchResult)
    requires maxPages >= 1
    ensures r == SearchFrom(pages, marker, maxPages, maxItems, 1, 0)
  {
    var matches: seq<Comment> := [];
    var seen: nat, complete := 0, true;
    var page: nat := 1;
    while page <= maxPages
      invariant 1 <= page <= maxPages && complete
      invariant SearchFrom(pages, marker, maxPages, maxItems, 1, 0)
             == Prepend(matches, SearchFrom(pages, marker, maxPages, maxItems, page, seen))
      decreases maxPages - page
    {
      var reply := pages(page);
      match reply {
        case Failed(error) => return ReadFailed(error);
        case NotAList => return ContractError;
        case Items(items) =>
          var comments := Normalize(items);
          if comments.None? { return ContractError; }
          var found := FilterByMarker(items, comments.value, marker);
          seen := seen + |comments.value|;
          matches := matches + found;
          if |comments.value| < PageSize { break; }
          if page == maxPages || seen >= maxItems {
            complete := false;
            break;
          }
      }
      page := page + 1;
    }
    return Found(matches, complete);
  }

  // ---------------------------------------------------------------- against a list of comments

  function Page(items: seq<Item>, page: nat): seq<Item>
    requires page >= 1
  {
    var from := (page - 1) * PageSize;
    if |items| <= from then [] else if |items| <= from + PageSize then items[from..] else items[from..from + PageSize]
  }

  /** A provider that serves one unchanging list of comments. */
  function Serving(items: seq<Item>): nat -> PageReply {
    (page: nat) => if page >= 1 then Items(Page(items, page)) else NotAList
  }

  /** The last page a search may read. */
  function LastPage(maxPages: nat, maxItems: nat): nat {
    var byItems := (maxItems + PageSize - 1) / PageSize;
    if maxPages < byItems then maxPages else byItems
  }

  function Reach(items: seq<Item>, maxPages: nat, maxItems: nat): nat {
    var limit := PageSize * LastPage(maxPages, maxItems);
    if |items| < limit then |items| else limit
  }

  lemma LastPageIsReached(page: nat, maxPages: nat, maxItems: nat)
    requires 1 <= page <= LastPage(maxPages, maxItems)
    ensures page == LastPage(maxPages, maxItems) <==> page == maxPages || PageSize * page >= maxItems
  {
  }

  /** Page `page` is the slice that starts at its offset; it is full exactly when the list reaches its end. */
  lemma PageIs(items: seq<Item>, page: nat)
    requires page >= 1 && 100 * (page - 1) <= |items|
    ensures
      var from := 100 * (page - 1);
      Page(items, page) == items[from..if |items| < from + 100 then |items| else from + 100]
  {
  }

  lemma Cut(items: seq<Item>, a: nat, b: nat, c: nat)
    requires a <= b <= c <= |items|
    ensures items[a..c] == items[a..b] + items[b..c]
  {
  }

  lemma {:induction false} SearchOfList(items: seq<Item>, marker: string, maxPages: nat, maxItems: nat, page: nat)
    requires 1 <= page <= LastPage(maxPages, maxItems)
    requires PageSize * (page - 1) <= |items|
    ensures
      var rest := items[PageSize * (page - 1)..Reach(items, maxPages, maxItems)];
      SearchFrom(Serving(items), marker, maxPages, maxItems, page, PageSize * (page - 1))
      == if AllReadable(rest) then Found(Matching(rest, marker), |items| < PageSize * LastPage(maxPages, maxItems))
         else ContractError
    decreases maxPages - page
  {
    var from := PageSize * (page - 1);
    var reach := Reach(items, maxPages, maxItems);
    var here := Page(items, page);
    LastPageIsReached(page, maxPages, maxItems);
    PageIs(items, page);
    if |here| < PageSize || page == LastPage(maxPages, maxItems) {
      assert here == items[from..reach];
    } else {
      var next := items[from + PageSize..reach];
      Cut(items, from, from + PageSize, reach);
      MatchingAppend(here, next, marker);
      AllReadableAppend(here, next);
      SearchOfList(items, marker, maxPages, maxItems, page + 1);
      assert PageSize * (page + 1 - 1) == from + PageSize;
    }
  }

  lemma AllReadableAppend(a: seq<Item>, b: seq<Item>)
    ensures AllReadable(a + b) <==> AllReadable(a) && AllReadable(b)
  {
    if AllReadable(a + b) {
      forall i | 0 <= i < |a| ensures a[i].Readable? { assert (a + b)[i] == a[i]; }
      forall i | 0 <= i < |b| ensures b[i].Readable? { assert (a + b)[|a| + i] == b[i]; }
    }
  }

  /**
   For a list of any length: the search fails exactly when an element within reach cannot be read; it is complete
   exactly when the last page it may read is not full; it always reports the matches of what it reached, in order.
   */
  lemma SearchIsExact(items: seq<Item>, marker: string, maxPages: nat, maxItems: nat)
    requires maxPages >= 1 && maxItems >= 1
    ensures
      var r := SearchFrom(Serving(items), marker, maxPages, maxItems, 1, 0);
      var full := |items| / 100;
      && (r.Found? <==> AllReadable(items[..Reach(items, maxPages, maxItems)]))
      && (!r.Found? ==> r.ContractError?)
      && (r.Found? ==>
            && r.comments == Matching(items[..Reach(items, maxPages, maxItems)], marker)
            && (r.complete <==> full < maxPages && (full == 0 || 100 * full < maxItems))
            && (r.complete ==> r.comments == Matching(items, marker)))
  {
    SearchOfList(items, marker, maxPages, maxItems, 1);
    assert items[0..Reach(items, maxPages, maxItems)] == items[..Reach(items, maxPages, maxItems)];
    assert items[..|items|] == items;
    CompleteIff(|items|, maxPages, maxItems);
  }

  lemma CompleteIff(n: nat, maxPages: nat, maxItems: nat)
    requires maxPages >= 1 && maxItems >= 1
    ensures
      n < PageSize * LastPage(maxPages, maxItems)
      <==> n / PageSize < maxPages && (n / PageSize == 0 || PageSize * (n / PageSize) < maxItems)
  {
  }

  /** A complete and empty answer means that no comment of the issue carries the marker, and conversely. */
  lemma EmptyAndCompleteIff(items: seq<Item>, marker: string, maxPages: nat, maxItems: nat)
    requires maxPages >= 1 && maxItems >= 1 && AllReadable(items)
    ensures
      SearchFrom(Serving(items), marker, maxPages, maxItems, 1, 0) == Found([], true)
      <==> && |items| < PageSize * LastPage(maxPages, maxItems)
           && forall i | 0 <= i < |items| :: !Contains(items[i].comment.body, marker)
  {
    SearchOfList(items, marker, maxPages, maxItems, 1);
    if |items| < PageSize * LastPage(maxPages, maxItems) {
      assert items[0..Reach(items, maxPages, maxItems)] == items;
      NoMatchIff(items, marker);
    }
  }

  // ---------------------------------------------------------------- what a match is

  /** A body carries the marker exactly when it can be cut around it. */
  lemma ContainsIff(body: string, marker: string)
    ensures Contains(body, marker) <==> exists before, behind :: body == before + marker + behind
  {
    if Contains(body, marker) {
      var i :| 0 <= i <= |body| && OccursAt(body, marker, i);
      assert body == body[..i] + marker + body[i + |marker|..];
    }
    if exists before, behind :: body == before + marker + behind {
      var before, behind :| body == before + marker + behind;
      assert OccursAt(body, marker, |before|);
    }
  }

  /** Every element contributes its comment, between the matches before and after it, exactly when it is marked. */
  lemma MatchesAreInOrder(items: seq<Item>, marker: string, i: nat)
    requires i < |items|
    ensures
      Matching(items, marker)
      == Matching(items[..i], marker)
         + (if items[i].Readable?
               && exists before, behind :: items[i].comment.body == before + marker + behind
            then [items[i].comment] else [])
         + Matching(items[i + 1..], marker)
    ensures Matching([], marker) == []
  {
    var here := items[i..i + 1];
    assert items == items[..i] + (here + items[i + 1..]);
    MatchingAppend(items[..i], here + items[i + 1..], marker);
    MatchingAppend(here, items[i + 1..], marker);
    if items[i].Readable? { ContainsIff(items[i].comment.body, marker); }
    assert here == [items[i]] && here[1..] == [];
  }
}
