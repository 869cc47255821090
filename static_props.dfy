/** `getStaticProps` of the listing page (src/pages/index.tsx, lines 105-137), given the
    response of the content-API query instead of running it. */
module StaticGeneration {
  import opened Optional
  import opened Posts

  /** `timeToRevalidate`: the page is regenerated every three minutes. */
  const TimeToRevalidate: nat := 60 * 3

  datatype HomeProps = HomeProps(postsPagination: PostPagination)

  /** `{ props, revalidate }` as handed to the framework. */
  datatype StaticPropsResult = StaticPropsResult(props: HomeProps, revalidate: nat)

  function GetStaticProps(response: ApiResponse): (r: StaticPropsResult)
    ensures r.props.postsPagination.nextPage == response.nextPage
    ensures |r.props.postsPagination.results| == |response.results|
    ensures forall i :: 0 <= i < |response.results| ==>
              r.props.postsPagination.results[i] == Summarize(response.results[i])
    ensures r.revalidate == 180
  {
    var nextPage, results := response.nextPage, response.results;
    var posts := Summaries(results);
    StaticPropsResult(HomeProps(PostPagination(nextPage, posts)), TimeToRevalidate)
  }
}
