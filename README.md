# Blog listing page: post summaries and "load more" pagination

This project models the listing page of a statically generated blog whose posts come
from the Prismic content API. It covers two parts of `src/pages/index.tsx`:

- **The post summary projection.** A content-API document becomes a `Post` that keeps
  only `uid`, `first_publication_date` (null stays null), `data.title`, `data.subtitle`
  and `data.author`. `getStaticProps` maps it over the query's `results` at build time,
  and `loadPosts` does the same, inline, over each fetched page.
- **The "load more" state of the `Home` component.** The component holds `posts` and the
  cursor `nextPage`, both starting from the build-time props. While the cursor is truthy,
  the page shows a "load more" control. A click fetches the cursor URL. On success, the
  cursor becomes the response's `next_page` and the new summaries go *before* the posts
  already shown. On failure, an alert is raised and nothing changes.

Modules:

- `Optional` (`option.dfy`): `Option`, for JavaScript's `null`/`undefined`.
- `Posts` (`posts.dfy`): the `Post`, `PostPagination` and raw-document types, plus
  `Summarize` and `Summaries` (the `results.map(...)`).
- `StaticGeneration` (`static_props.dfy`): `GetStaticProps` as a pure props builder from
  a given query response, with the revalidation interval `60 * 3`.
- `HomePage` (`home.dfy`): the pure transition `Load` on a `PageState`, and the class
  `Home`, whose fields `posts` and `nextPage` the method `LoadPosts` updates in place.
  `ClickTwice` is only an example client: a build, then a failed click and a
  successful one. It models no lines of its own.

Modelling choices:

- A cursor is an `Option<string>`: `None` is `null` or `undefined`. The source's
  `if (nextPage)` and `{nextPage && ...}` test JavaScript truthiness. The model writes
  that test as `HasNextPage`, so an empty-string cursor counts as "no next page".
- The three text fields `title`, `subtitle` and `author` are nullable. The content API
  sends `null` for an empty text field, and the projection copies it as is.
- A raw document keeps the fields the projection drops in two opaque `others` maps, one at
  the top level and one inside `data`. That way "drops every other field" can be stated.
- A fetch is a parameter of type `string -> Option<ApiResponse>`: what fetching a URL
  yields at the time of that click. `None` stands for a rejected request, a body that is
  not JSON, or a payload whose `results` cannot be mapped. All three reach the `.catch`.
  Each click gets its own fetch, so a retry after a failure can succeed.
- The code declares `next_page: string`, but the content API sends `null` on the last
  page. The model follows the runtime value, so the cursor is nullable.
- Posts load as `[...newPosts, ...posts]`: the new page goes in front. The model keeps
  that order as written.

## Model

| member | source | states |
|---|---|---|
| `Posts.Summarize` | src/pages/index.tsx:116-124 | the summary's `uid`, `first_publication_date` (null stays null), title, subtitle and author are the document's, copied verbatim |
| `Posts.Summaries` | src/pages/index.tsx:116 | mapping keeps length and order: the i-th summary is the projection of the i-th document |
| `Posts.SummarizeKeepsOnlySummaryFields` | src/pages/index.tsx:47-55 | two documents have equal summaries if and only if they agree on the five kept fields, so every other field is dropped |
| `Posts.SummarizeIdempotent` | src/pages/index.tsx:116-124 | projecting an object that already is a `Post` gives it back unchanged |
| `Posts.SummariesIdempotent` | src/pages/index.tsx:47-55 | mapping the projection over a list of `Post`s gives the same list back |
| `Posts.SummariesAppend` | src/pages/index.tsx:47-58 | mapping a concatenation equals concatenating the mapped parts |
| `StaticGeneration.GetStaticProps` | src/pages/index.tsx:105-137 | the props pass `next_page` through unchanged, hold the projected results in order, and revalidate after 180 seconds |
| `HomePage.HasNextPage` | src/pages/index.tsx:43 | the truthiness test of `if (nextPage)` and `{nextPage && ...}`: the cursor is falsy exactly when it is null/undefined or the empty string |
| `HomePage.InitialState` | src/pages/index.tsx:38-40 | the page starts with `posts` equal to the props' `results` and `nextPage` equal to the props' `next_page` |
| `HomePage.Load` | src/pages/index.tsx:42-64 | with a falsy cursor or a failed fetch the state is unchanged. On success, the cursor is the response's `next_page`, the length is the old length plus the new results, the old posts are an unchanged suffix, and the leading posts are the projected new results |
| `HomePage.LoadChangesStateIffNextPage` | src/pages/index.tsx:43 | a click can change the state if and only if the cursor is truthy |
| `HomePage.LoadEachKeepsEarlierPosts` | src/pages/index.tsx:58 | over any sequence of clicks, the earlier list stays an unchanged suffix of the later one |
| `HomePage.LastPageIsFinal` | src/pages/index.tsx:43-57 | once the cursor is falsy, no sequence of clicks changes the state |
| `HomePage.FailedLoadsChangeNothing` | src/pages/index.tsx:60-62 | clicks whose fetch of the current cursor fails leave both `posts` and `nextPage` as they were |
| `HomePage.LoadEachFollowingPages` | src/pages/index.tsx:44-58 | clicks that each succeed at the cursor then in force give the list of all fetched pages, mapped, last-fetched page first, followed by the earlier list, and leave the last page's `next_page` as the cursor |
| `HomePage.LoadedListAfterBuild` | src/pages/index.tsx:38-58 | from the build-time props, such clicks show exactly the projection of the fetched pages' documents, newest page first, followed by the first page's documents |
| `HomePage.TwoPageExample` | src/pages/index.tsx:42-64 | a first page [A, B, C] with cursor "url1", then a fetch of "url1" returning [D, E] and null, shows [D, E, A, B, C] with no next page |
| `HomePage.Home.constructor` | src/pages/index.tsx:37-40 | both state cells start from the build-time `postsPagination` |
| `HomePage.Home.ShowsLoadMore` | src/pages/index.tsx:94-98 | the "load more" control is rendered exactly when a click on it can change the page |
| `HomePage.Home.LoadPosts` | src/pages/index.tsx:42-64 | the new state is `Load` of the old state. With a falsy cursor or a failure, `posts` and `nextPage` are unchanged. On success, `nextPage` is the response's `next_page` and `posts` is the new summaries followed by the old posts. The alert is raised exactly on failure |

## Left out

- The content-API query in `getStaticProps` (lines 106-112) is an external call. Its
  response is an input, and the `document.type` predicate, field list and `pageSize: 3`
  belong to the API.
- `fetch(nextPage)` and `response.json()` (lines 44-45) are I/O. Their outcome is the
  `Fetch` parameter.
- The alert dialog (line 61) is a side effect. `Home.LoadPosts` only reports, in
  `alerted`, that it was raised.
- Concurrency is not modelled. The promise chain, a double click that races two fetches,
  and the stale `posts` captured at click time (line 58, last write wins) are left out.
  Each click is one atomic, sequential step.
- JSX rendering, styling, icons, `Head`, `Header` and the `Link` to `/post/<uid>`
  (lines 66-102) are presentation. Only the condition that shows the "load more"
  control is modelled.
- Date formatting of `first_publication_date` with `date-fns` and the pt-BR locale
  (lines 82-84) is a foreign library call.
- The framework's revalidation scheduling is left out. Only the interval, 180 seconds,
  is modelled.
- A document without a `data` object would make the projection throw. The model's raw
  documents always have one. During a load such a payload counts as a failed fetch
  (`None`).
- The detail page, `src/pages/post/[slug].tsx`, is not part of this model. That includes
  its reading-time estimate and its own projection.
