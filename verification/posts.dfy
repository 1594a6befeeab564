/**
  The posts demo: `GetPostsUseCase` keeps the posts with a non-blank title
  and treats an empty result as a failure; `PostsViewModel.loadPosts` folds
  the result into `PostsUIState`.
 */
module Posts {
  import opened Optional
  import opened Text

  /** A post as the repository returns it. */
  datatype Post = Post(id: int, title: string, body: string)

  /** A `Throwable`, reduced to its (nullable) message. */
  datatype Exception = Exception(message: Option<string>)

  /** What `repository.getPosts()` does: return a list or throw. */
  datatype Fetch = Fetched(posts: seq<Post>) | Threw(error: Exception)

  /** Kotlin's `Result<List<Posts>>`. */
  datatype PostsResult = Success(posts: seq<Post>) | Failure(error: Exception)

  const NoValidPosts: string := "No se encontraron post válidos"

  predicate Valid(p: Post) {
    !IsBlank(p.title)
  }

  /** `posts.filter { it.title.isNotBlank() }`. */
  function FilterValid(ps: seq<Post>): (kept: seq<Post>)
    ensures |kept| <= |ps|
    ensures forall p :: p in kept <==> p in ps && Valid(p)
    decreases |ps|
  {
    if |ps| == 0 then []
    else FilterValid(ps[..|ps| - 1]) + (if Valid(ps[|ps| - 1]) then [ps[|ps| - 1]] else [])
  }

  /** Filtering distributes over concatenation, so the kept posts stay in their original order. */
  lemma {:induction false} FilterValidConcat(a: seq<Post>, b: seq<Post>)
    ensures FilterValid(a + b) == FilterValid(a) + FilterValid(b)
    decreases |b|
  {
    if |b| > 0 {
      assert (a + b)[..|a + b| - 1] == a + b[..|b| - 1];
      FilterValidConcat(a, b[..|b| - 1]);
    } else {
      assert a + b == a;
    }
  }

  /** A list whose titles are all non-blank is kept whole. */
  lemma {:induction false} AllValidKept(ps: seq<Post>)
    requires forall i :: 0 <= i < |ps| ==> Valid(ps[i])
    ensures FilterValid(ps) == ps
    decreases |ps|
  {
    if |ps| > 0 {
      var init := ps[..|ps| - 1];
      assert forall i :: 0 <= i < |init| ==> init[i] == ps[i];
      AllValidKept(init);
      var last := ps[|ps| - 1];
      assert Valid(last);
      assert FilterValid(ps) == FilterValid(init) + [last];
      assert ps == init + [last];
    }
  }

  /** Nothing is dropped exactly when every title is non-blank. */
  lemma FilterValidKeepsAllIffAllValid(ps: seq<Post>)
    ensures FilterValid(ps) == ps <==> forall i :: 0 <= i < |ps| ==> Valid(ps[i])
  {
    if FilterValid(ps) == ps {
      forall i | 0 <= i < |ps|
        ensures Valid(ps[i])
      {
        assert ps[i] in FilterValid(ps);
      }
    }
    if forall i :: 0 <= i < |ps| ==> Valid(ps[i]) {
      AllValidKept(ps);
    }
  }

  /** `GetPostsUseCase.invoke()`. */
  function GetPosts(fetch: Fetch): (r: PostsResult)
    ensures fetch.Threw? ==> r == Failure(fetch.error)
    ensures fetch.Fetched? && (exists p :: p in fetch.posts && Valid(p)) ==> r == Success(FilterValid(fetch.posts))
    ensures fetch.Fetched? && (forall p :: p in fetch.posts ==> !Valid(p)) ==> r == Failure(Exception(Some("No se encontraron post válidos")))
    ensures r.Success? ==> |r.posts| > 0 && forall p :: p in r.posts ==> Valid(p)
  {
    match fetch
    case Threw(e) => Failure(e)
    case Fetched(ps) =>
      var kept := FilterValid(ps);
      if |kept| == 0 then Failure(Exception(Some(NoValidPosts)))
      else assert kept[0] in kept; Success(kept)
  }

  datatype PostsUIState = PostsUIState(isLoading: bool, posts: seq<Post>, error: Option<string>, isRefreshing: bool)

  function Initial(): (s: PostsUIState)
    ensures !s.isLoading && s.posts == [] && s.error.None? && !s.isRefreshing
  {
    PostsUIState(false, [], None, false)
  }

  /** The first update of `loadPosts`, run from `init`. */
  function BeginLoad(s: PostsUIState): (r: PostsUIState)
    ensures r.isLoading
    ensures r.posts == s.posts && r.error == s.error && r.isRefreshing == s.isRefreshing
  {
    s.(isLoading := true)
  }

  /** The `fold`: success shows the list and keeps any old error; failure shows the message and keeps the list. */
  function FinishLoad(s: PostsUIState, result: PostsResult): (r: PostsUIState)
    ensures !r.isLoading && r.isRefreshing == s.isRefreshing
    ensures result.Success? ==> r.posts == result.posts && r.error == s.error
    ensures result.Failure? ==> r.error == result.error.message && r.posts == s.posts
  {
    match result
    case Success(list) => s.(isLoading := false, posts := list)
    case Failure(e) => s.(isLoading := false, error := e.message)
  }

  /** The view model as constructed: `init` runs one load against the fetch outcome. */
  function Load(fetch: Fetch): (s: PostsUIState)
    ensures !s.isLoading && !s.isRefreshing
  {
    FinishLoad(BeginLoad(Initial()), GetPosts(fetch))
  }

  /**
    The launched screen ends up showing exactly the posts with a title, in
    order, with no error; or no posts and the failure's message.
   */
  lemma LoadShowsValidPostsOrMessage(fetch: Fetch)
    ensures fetch.Fetched? && FilterValid(fetch.posts) != [] ==>
      Load(fetch) == PostsUIState(false, FilterValid(fetch.posts), None, false)
    ensures fetch.Fetched? && FilterValid(fetch.posts) == [] ==>
      Load(fetch) == PostsUIState(false, [], Some("No se encontraron post válidos"), false)
    ensures fetch.Threw? ==> Load(fetch) == PostsUIState(false, [], fetch.error.message, false)
  {
  }

  /** A thrown exception without a message leaves the screen with neither posts nor an error. */
  lemma SilentFailureShowsNothing()
    ensures Load(Threw(Exception(None))) == PostsUIState(false, [], None, false)
  {
  }
}
