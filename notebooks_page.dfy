/** The notebook listing page's static props: the first page of posts and
    the page count. The posts come from a loader outside this model. */
module NotebooksPage {

  /** POSTS_PER_PAGE. */
  const PostsPerPage: nat := 5

  datatype Pagination = Pagination(currentPage: nat, totalPages: nat)

  datatype StaticProps<T> = StaticProps(initialDisplayPosts: seq<T>, pagination: Pagination, posts: seq<T>)

  /** `Math.ceil(x)`: the least integer not below x. */
  function Ceil(x: real): (c: int)
    ensures c as real >= x
    ensures (c - 1) as real < x
  {
    if x.Floor as real == x then x.Floor else x.Floor + 1
  }

  /** `s.slice(start, end)` for non-negative arguments: both ends are clamped
      to the length, and an empty list results when start is not before end. */
  function Slice<T>(s: seq<T>, start: nat, end: nat): (r: seq<T>)
    ensures start <= end ==> |r| == (if end <= |s| then end else |s|) - (if start <= |s| then start else |s|)
    ensures end <= start ==> r == []
    ensures forall i :: 0 <= i < |r| ==> r[i] == s[start + i]
  {
    var from := if start <= |s| then start else |s|;
    var to := if end <= |s| then end else |s|;
    if from < to then s[from..to] else []
  }

  /** `Math.ceil(posts.length / POSTS_PER_PAGE)`, over exact division. */
  function TotalPages(count: nat): (pages: nat)
    ensures PostsPerPage * pages >= count
    ensures pages > 0 ==> PostsPerPage * (pages - 1) < count
  {
    var c := Ceil(count as real / PostsPerPage as real);
    assert c as real >= 0.0;
    c
  }

  /** The page count is the ceiling division `(count + 4) / 5`. */
  lemma TotalPagesIsCeilingDivision(count: nat)
    ensures TotalPages(count) == (count + PostsPerPage - 1) / PostsPerPage
  {
  }

  /** No smaller number of pages holds all the posts. */
  lemma TotalPagesIsLeast(count: nat, pages: nat)
    requires PostsPerPage * pages >= count
    ensures TotalPages(count) <= pages
  {
  }

  /** getStaticProps once the posts are loaded: the first page, page 1 of
      the page count, and the posts themselves unchanged. */
  function GetStaticProps<T>(posts: seq<T>): (props: StaticProps<T>)
    ensures props.posts == posts
    ensures |posts| <= PostsPerPage ==> props.initialDisplayPosts == posts
    ensures |posts| > PostsPerPage ==> props.initialDisplayPosts == posts[..PostsPerPage]
    ensures props.pagination.currentPage == 1
    ensures props.pagination.totalPages == (|posts| + PostsPerPage - 1) / PostsPerPage
    ensures |posts| == 0 <==> props.pagination.totalPages == 0
  {
    TotalPagesIsCeilingDivision(|posts|);
    var first := Slice(posts, 0, PostsPerPage);
    assert |posts| <= PostsPerPage ==> first == posts;
    assert |posts| > PostsPerPage ==> first == posts[..PostsPerPage];
    StaticProps(first, Pagination(1, TotalPages(|posts|)), posts)
  }
}
