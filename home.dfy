/** The listing page component `Home` (src/pages/index.tsx, lines 37-103): its two pieces
    of state, the "load more" transition, and when the "load more" control is shown. */
module HomePage {
  import opened Optional
  import opened Posts
  import opened StaticGeneration

  /** What fetching a URL yields at the time of one click: the parsed payload, or `None`
      when the request, the JSON parse or the reading of `results` fails. */
  type Fetch = string -> Option<ApiResponse>

  /** JavaScript truthiness of the cursor, as tested by `if (nextPage)` and
      `{nextPage && ...}`: present, not null and not the empty string. */
  predicate HasNextPage(cursor: Option<string>): (truthy: bool)
    ensures !truthy <==> cursor == None || cursor == Some("")
  {
    cursor.Some? && cursor.value != ""
  }

  /** The component's state: `posts` and `nextPage`. */
  datatype PageState = PageState(posts: seq<Post>, nextPage: Option<string>)

  /** The state the `useState` hooks start from. */
  function InitialState(postsPagination: PostPagination): (s: PageState)
    ensures s.posts == postsPagination.results && s.nextPage == postsPagination.nextPage
  {
    var PostPagination(nextPage, results) := postsPagination;
    PageState(results, nextPage)
  }

  /** The state after one call of `loadPosts` whose fetch settles with `fetch(url)`. */
  function Load(s: PageState, fetch: Fetch): (r: PageState)
    ensures !HasNextPage(s.nextPage) ==> r == s
    ensures HasNextPage(s.nextPage) && fetch(s.nextPage.value).None? ==> r == s
    ensures HasNextPage(s.nextPage) && fetch(s.nextPage.value).Some? ==>
              var response := fetch(s.nextPage.value).value;
              && r.nextPage == response.nextPage
              && |r.posts| == |response.results| + |s.posts|
              && r.posts[|response.results|..] == s.posts
              && forall i :: 0 <= i < |response.results| ==>
                   r.posts[i] == Summarize(response.results[i])
  {
    if !HasNextPage(s.nextPage) then s
    else match fetch(s.nextPage.value)
      case None => s
      case Some(response) =>
        var newPosts := Summaries(response.results);
        PageState(newPosts + s.posts, response.nextPage)
  }

  /** The state after a sequence of clicks, each with what its fetch yields. */
  function LoadEach(s: PageState, clicks: seq<Fetch>): PageState
    decreases |clicks|
  {
    if clicks == [] then s else LoadEach(Load(s, clicks[0]), clicks[1..])
  }

  predicate IsSuffix(tail: seq<Post>, whole: seq<Post>) {
    |tail| <= |whole| && whole[|whole| - |tail|..] == tail
  }

  /** A fetch that succeeds with one document and no further page. */
  function OnePostFetch(doc: RawDocument): Fetch {
    (url: string) => Some(ApiResponse([doc], None))
  }

  /** Clicking can change the state exactly when the cursor is truthy: with no next page
      every click is a no-op, and with one some response changes the list. */
  lemma LoadChangesStateIffNextPage(s: PageState)
    ensures HasNextPage(s.nextPage) <==> exists fetch: Fetch :: Load(s, fetch) != s
  {
    if HasNextPage(s.nextPage) {
      var doc := RawDocument(None, None, RawData(None, None, None, map[]), map[]);
      var fetch := OnePostFetch(doc);
      assert |Load(s, fetch).posts| == |s.posts| + 1;
    }
  }

  /** Posts once shown are never lost or reordered: whatever the clicks fetch, the list
      before them stays an unchanged suffix of the list after them. */
  lemma {:induction false} LoadEachKeepsEarlierPosts(s: PageState, clicks: seq<Fetch>)
    ensures IsSuffix(s.posts, LoadEach(s, clicks).posts)
    decreases |clicks|
  {
    if clicks != [] {
      var next := Load(s, clicks[0]);
      LoadEachKeepsEarlierPosts(next, clicks[1..]);
      var final := LoadEach(next, clicks[1..]).posts;
      assert IsSuffix(s.posts, next.posts);
      assert final[|final| - |next.posts|..][|next.posts| - |s.posts|..] == final[|final| - |s.posts|..];
    }
  }

  /** Once the cursor is falsy the control is gone for good: no later click changes anything. */
  lemma {:induction false} LastPageIsFinal(s: PageState, clicks: seq<Fetch>)
    requires !HasNextPage(s.nextPage)
    ensures LoadEach(s, clicks) == s
    decreases |clicks|
  {
    if clicks != [] {
      LastPageIsFinal(Load(s, clicks[0]), clicks[1..]);
    }
  }

  /** Failed fetches leave no trace: clicks whose fetch of the current cursor fails give
      back the state they started from. */
  lemma {:induction false} FailedLoadsChangeNothing(s: PageState, clicks: seq<Fetch>)
    requires HasNextPage(s.nextPage) ==>
               forall i :: 0 <= i < |clicks| ==> clicks[i](s.nextPage.value).None?
    ensures LoadEach(s, clicks) == s
    decreases |clicks|
  {
    if clicks != [] {
      FailedLoadsChangeNothing(Load(s, clicks[0]), clicks[1..]);
    }
  }

  /** The cursor in force before click `i` when the clicks fetch `pages` in turn. */
  function CursorBefore(start: Option<string>, pages: seq<ApiResponse>, i: nat): Option<string>
    requires i <= |pages|
  {
    if i == 0 then start else pages[i - 1].nextPage
  }

  /** Every click finds a truthy cursor and its fetch of that cursor succeeds with the
      next of `pages`. */
  predicate FollowsPages(start: Option<string>, clicks: seq<Fetch>, pages: seq<ApiResponse>) {
    && |clicks| == |pages|
    && forall i :: 0 <= i < |clicks| ==>
         HasNextPage(CursorBefore(start, pages, i)) &&
         clicks[i](CursorBefore(start, pages, i).value) == Some(pages[i])
  }

  /** The documents of the fetched pages, the page fetched last first. */
  function NewestFirst(pages: seq<ApiResponse>): seq<RawDocument> {
    if pages == [] then [] else NewestFirst(pages[1..]) + pages[0].results
  }

  /** One click whose fetch of the current cursor succeeds with `page`. */
  lemma LoadSucceeds(s: PageState, fetch: Fetch, page: ApiResponse)
    requires HasNextPage(s.nextPage) && fetch(s.nextPage.value) == Some(page)
    ensures Load(s, fetch) == PageState(Summaries(page.results) + s.posts, page.nextPage)
  {
  }

  /** After the first of the clicks, the remaining clicks follow the remaining pages. */
  lemma FollowsPagesTail(start: Option<string>, clicks: seq<Fetch>, pages: seq<ApiResponse>)
    requires FollowsPages(start, clicks, pages) && clicks != []
    ensures FollowsPages(pages[0].nextPage, clicks[1..], pages[1..])
  {
    forall i | 0 <= i < |clicks[1..]|
      ensures HasNextPage(CursorBefore(pages[0].nextPage, pages[1..], i))
      ensures clicks[1..][i](CursorBefore(pages[0].nextPage, pages[1..], i).value) == Some(pages[1..][i])
    {
      assert CursorBefore(pages[0].nextPage, pages[1..], i) == CursorBefore(start, pages, i + 1);
    }
  }

  /** Putting two mapped pages in front of a list, one after the other, is putting their
      concatenation, mapped, in front of it. */
  lemma PrependTwice(older: seq<RawDocument>, newest: seq<RawDocument>, shown: seq<Post>)
    ensures Summaries(older) + (Summaries(newest) + shown) == Summaries(older + newest) + shown
  {
  }

  /** Clicks that each succeed at the current cursor put each fetched page, mapped, in
      front of the list, and leave the last page's cursor. */
  lemma {:induction false} LoadEachFollowingPages(s: PageState, clicks: seq<Fetch>,
                                                  pages: seq<ApiResponse>)
    requires FollowsPages(s.nextPage, clicks, pages)
    ensures LoadEach(s, clicks).posts == Summaries(NewestFirst(pages)) + s.posts
    ensures LoadEach(s, clicks).nextPage ==
              if pages == [] then s.nextPage else pages[|pages| - 1].nextPage
    decreases |clicks|
  {
    if clicks != [] {
      assert CursorBefore(s.nextPage, pages, 0) == s.nextPage;
      LoadSucceeds(s, clicks[0], pages[0]);
      var next := Load(s, clicks[0]);
      FollowsPagesTail(s.nextPage, clicks, pages);
      LoadEachFollowingPages(next, clicks[1..], pages[1..]);
      assert LoadEach(s, clicks) == LoadEach(next, clicks[1..]);
      assert NewestFirst(pages) == NewestFirst(pages[1..]) + pages[0].results;
      PrependTwice(NewestFirst(pages[1..]), pages[0].results, s.posts);
      assert pages[1..] != [] ==> pages[1..][|pages[1..]| - 1] == pages[|pages| - 1];
    }
  }

  /** From the build-time page, clicks that follow the cursor chain show the projection of
      all fetched documents, newest page first, followed by the first page. */
  lemma LoadedListAfterBuild(first: ApiResponse, clicks: seq<Fetch>, pages: seq<ApiResponse>)
    requires FollowsPages(first.nextPage, clicks, pages)
    ensures LoadEach(InitialState(GetStaticProps(first).props.postsPagination), clicks).posts
              == Summaries(NewestFirst(pages) + first.results)
  {
    var s := InitialState(GetStaticProps(first).props.postsPagination);
    assert s.posts == Summaries(first.results);
    LoadEachFollowingPages(s, clicks, pages);
    SummariesAppend(NewestFirst(pages), first.results);
  }

  /** A first page [A, B, C] with cursor "url1", then a click whose fetch of "url1" returns
      [D, E] and a null cursor: the list shown is [D, E, A, B, C] and the control is gone. */
  lemma TwoPageExample(a: RawDocument, b: RawDocument, c: RawDocument,
                       d: RawDocument, e: RawDocument)
    ensures var props := GetStaticProps(ApiResponse([a, b, c], Some("url1")));
            var fetch := (url: string) =>
              if url == "url1" then Some(ApiResponse([d, e], None)) else None;
            var s := Load(InitialState(props.props.postsPagination), fetch);
            && s.posts == Summaries([d, e, a, b, c])
            && !HasNextPage(s.nextPage)
  {
  }

  /** The mounted `Home` component with its two `useState` cells. */
  class Home {
    var posts: seq<Post>
    var nextPage: Option<string>

    function State(): PageState
      reads this
    {
      PageState(posts, nextPage)
    }

    /** `Home({ postsPagination })`: both cells start from the build-time props. */
    constructor (postsPagination: PostPagination)
      ensures State() == InitialState(postsPagination)
      ensures posts == postsPagination.results && nextPage == postsPagination.nextPage
    {
      posts := postsPagination.results;
      nextPage := postsPagination.nextPage;
    }

    /** `{nextPage && <strong onClick={loadPosts}>...}`: the "load more" control is
        rendered exactly when a click on it can change the page. */
    function ShowsLoadMore(): (shown: bool)
      reads this
      ensures shown <==> exists fetch: Fetch :: Load(State(), fetch) != State()
    {
      LoadChangesStateIffNextPage(State());
      HasNextPage(nextPage)
    }

    /** `loadPosts()`: follow the cursor once. `alerted` says that the error alert was
        raised, which happens exactly when the fetch failed; the state then stays as it was. */
    method LoadPosts(fetch: Fetch) returns (alerted: bool)
      modifies this
      ensures State() == Load(old(State()), fetch)
      ensures alerted <==> HasNextPage(old(nextPage)) && fetch(old(nextPage).value).None?
      ensures !HasNextPage(old(nextPage)) || alerted ==>
                posts == old(posts) && nextPage == old(nextPage)
      ensures HasNextPage(old(nextPage)) && !alerted ==>
                var response := fetch(old(nextPage).value).value;
                && nextPage == response.nextPage
                && posts == Summaries(response.results) + old(posts)
    {
      alerted := false;
      if HasNextPage(nextPage) {
        var fetched := fetch(nextPage.value);
        match fetched {
          case None =>
            alerted := true;
          case Some(data) =>
            var newPosts := Summaries(data.results);
            nextPage := data.nextPage;
            posts := newPosts + posts;
        }
      }
    }
  }

  /** A build followed by two clicks, the first failing and the second succeeding. */
  method ClickTwice(a: RawDocument, b: RawDocument, d: RawDocument)
  {
    var props := GetStaticProps(ApiResponse([a, b], Some("url1")));
    var home := new Home(props.props.postsPagination);
    assert home.ShowsLoadMore() by { assert "url1" != ""; }
    var offline: Fetch := (url: string) => None;
    var alerted := home.LoadPosts(offline);
    assert alerted && home.posts == Summaries([a, b]);
    var online: Fetch := (url: string) => Some(ApiResponse([d], Some("")));
    alerted := home.LoadPosts(online);
    assert !alerted && home.posts == [Summarize(d), Summarize(a), Summarize(b)];
    assert !home.ShowsLoadMore();
  }
}
