/** Resume tokens: a page token is the id of the first element of the next page. */
module Paging {
  import opened Types
  import opened Sequences

  function Min(a: nat, b: nat): nat {
    if a < b then a else b
  }

  predicate Distinct(ids: seq<string>) {
    forall i, j | 0 <= i < j < |ids| :: ids[i] != ids[j]
  }

  function Position(ids: seq<string>, id: string): (i: nat)
    ensures i <= |ids|
    ensures i < |ids| ==> ids[i] == id
    ensures i == |ids| ==> id !in ids
  {
    if ids == [] then 0
    else if ids[0] == id then 0
    else 1 + Position(ids[1..], id)
  }

  /** Where a page begins: at the token's element, or at the beginning when there is
      no token or no such element. */
  function PageStart(ids: seq<string>, token: Option<string>): (start: nat)
    ensures start <= |ids|
  {
    match token
    case None => 0
    case Some(id) => if id in ids then Position(ids, id) else 0
  }

  /** A token names where its page begins; without one, or with one that names nothing any
      more, a client starts over. */
  lemma PageStartMeaning(ids: seq<string>, token: Option<string>)
    ensures token.Some? && token.value in ids ==>
              PageStart(ids, token) < |ids| && ids[PageStart(ids, token)] == token.value
    ensures token.None? || token.value !in ids ==> PageStart(ids, token) == 0
  {
  }

  function TokenAt(ids: seq<string>, end: nat): string {
    if end < |ids| then ids[end] else ""
  }

  lemma TokenResumes(ids: seq<string>, end: nat)
    requires Distinct(ids) && end < |ids|
    ensures PageStart(ids, Some(TokenAt(ids, end))) == end
  {
    assert ids[end] in ids;
  }

  // ---- Plain paging: consecutive chunks of a fixed size ----

  /** An empty id can only be the first: every other one can serve as a token. */
  predicate TokensNonEmpty(ids: seq<string>) {
    Distinct(ids) && forall i | 1 <= i < |ids| :: ids[i] != ""
  }

  /** All pages a client gets by following tokens from `token` on. */
  function Chunks<T>(items: seq<T>, ids: seq<string>, pageSize: nat, token: Option<string>): seq<seq<T>>
    requires |items| == |ids| && TokensNonEmpty(ids) && pageSize > 0
    decreases |ids| - PageStart(ids, token)
  {
    var start := PageStart(ids, token);
    var end := Min(start + pageSize, |ids|);
    var next := TokenAt(ids, end);
    if next == "" then [items[start..end]]
    else
      TokenResumes(ids, end);
      [items[start..end]] + Chunks(items, ids, pageSize, Some(next))
  }

  /** The token that names the first item behind the page, empty if there is none. */
  function NextToken(ids: seq<string>, pageSize: nat, token: Option<string>): string {
    TokenAt(ids, Min(PageStart(ids, token) + pageSize, |ids|))
  }

  /** The chunks from a token on: its page, and the chunks from the next token on. */
  lemma ChunksUnfold<T>(items: seq<T>, ids: seq<string>, pageSize: nat, token: Option<string>)
    requires |items| == |ids| && TokensNonEmpty(ids) && pageSize > 0
    ensures var next := NextToken(ids, pageSize, token);
            Chunks(items, ids, pageSize, token)
            == [PageFrom(items, ids, pageSize, token)]
               + (if next == "" then [] else Chunks(items, ids, pageSize, Some(next)))
  {
  }

  function PageFrom<T>(items: seq<T>, ids: seq<string>, pageSize: nat, token: Option<string>): seq<T>
    requires |items| == |ids|
  {
    items[PageStart(ids, token)..Min(PageStart(ids, token) + pageSize, |ids|)]
  }

  /** Put together the pages are the list from `start` on, and all but the last are full. */
  ghost predicate Partition<T>(items: seq<T>, start: nat, pages: seq<seq<T>>, pageSize: nat) {
    && start <= |items| && Flatten(pages) == items[start..]
    && (forall i | 0 <= i < |pages| - 1 :: |pages[i]| == pageSize)
  }

  lemma PageThenRest<T>(items: seq<T>, start: nat, end: nat, rest: seq<seq<T>>, pageSize: nat)
    requires start <= end <= |items| && end - start == pageSize && Partition(items, end, rest, pageSize)
    ensures Partition(items, start, [items[start..end]] + rest, pageSize)
  {
    FlattenCons(items[start..end], rest);
    assert items[start..] == items[start..end] + items[end..];
    forall i | 0 <= i < |rest| ensures |([items[start..end]] + rest)[i]| == pageSize {
      assert i > 0 ==> ([items[start..end]] + rest)[i] == rest[i - 1];
    }
  }

  lemma LastPage<T>(items: seq<T>, start: nat, pageSize: nat)
    requires start <= |items|
    ensures Partition(items, start, [items[start..|items|]], pageSize)
  {
    assert [items[start..]] == [] + [items[start..]];
    FlattenSnoc([], items[start..]);
  }

  /** Where the page from a token on ends, and that its token resumes right there. */
  lemma NextPage(ids: seq<string>, pageSize: nat, token: Option<string>)
    requires TokensNonEmpty(ids) && pageSize > 0
    ensures var start, next := PageStart(ids, token), NextToken(ids, pageSize, token);
            var end := Min(start + pageSize, |ids|);
            if next == "" then start <= end == |ids|
            else end == start + pageSize < |ids| && PageStart(ids, Some(next)) == end
  {
    var end := Min(PageStart(ids, token) + pageSize, |ids|);
    if end < |ids| {
      TokenResumes(ids, end);
    }
  }

  lemma PagePrepended<T>(items: seq<T>, start: nat, end: nat, pages: seq<seq<T>>, rest: seq<seq<T>>, more: bool,
                         pageSize: nat)
    requires start <= end <= |items| && pages == [items[start..end]] + rest
    requires if more then end - start == pageSize && Partition(items, end, rest, pageSize)
             else rest == [] && end == |items|
    ensures Partition(items, start, pages, pageSize)
  {
    if more {
      PageThenRest(items, start, end, rest, pageSize);
    } else {
      LastPage(items, start, pageSize);
      assert pages == [items[start..|items|]];
    }
  }

  lemma PagesOneMore<T>(items: seq<T>, ids: seq<string>, pageSize: nat, token: Option<string>,
                        pages: seq<seq<T>>, rest: seq<seq<T>>)
    requires |items| == |ids| && TokensNonEmpty(ids) && pageSize > 0
    requires pages == [PageFrom(items, ids, pageSize, token)] + rest
    requires var next := NextToken(ids, pageSize, token);
             if next == "" then rest == [] else Partition(items, PageStart(ids, Some(next)), rest, pageSize)
    ensures Partition(items, PageStart(ids, token), pages, pageSize)
  {
    var start := PageStart(ids, token);
    NextPage(ids, pageSize, token);
    PagePrepended(items, start, Min(start + pageSize, |ids|), pages, rest, NextToken(ids, pageSize, token) != "",
                  pageSize);
  }

  /** The pages partition the rest of the list: in order, nothing twice, nothing left
      out, every page but the last full. */
  lemma {:induction false} ChunksPartition<T>(items: seq<T>, ids: seq<string>, pageSize: nat, token: Option<string>)
    requires |items| == |ids| && TokensNonEmpty(ids) && pageSize > 0
    ensures Partition(items, PageStart(ids, token), Chunks(items, ids, pageSize, token), pageSize)
    decreases |ids| - PageStart(ids, token)
  {
    var next := NextToken(ids, pageSize, token);
    ChunksUnfold(items, ids, pageSize, token);
    NextPage(ids, pageSize, token);
    if next == "" {
      PagesOneMore(items, ids, pageSize, token, Chunks(items, ids, pageSize, token), []);
    } else {
      var rest := Chunks(items, ids, pageSize, Some(next));
      ChunksPartition(items, ids, pageSize, Some(next));
      PagesOneMore(items, ids, pageSize, token, Chunks(items, ids, pageSize, token), rest);
    }
  }
}
