/** The dashboard page (`Home` in src/app/page.tsx): its component state, the
    initial three-way load, user and post clicks, logout, the chart counts and
    which screen is rendered. The state transitions are functions on
    `DashState`; the class `Home` performs them field by field and proves
    that it does. */
module Dashboard {
  import opened Common
  import opened Records

  const LoadFailedMessage: string := "Failed to fetch data."

  /** Every piece of component state of the page. */
  datatype DashState = DashState(
    users: seq<User>,
    posts: seq<Post>,
    postComments: seq<Comment>,
    selectedUser: Option<User>,
    selectedPost: Option<Post>,
    loading: bool,
    error: Option<string>)

  /** The `useState` initial values. */
  function Initial(): DashState {
    DashState([], [], [], None, None, true, None)
  }

  /** The mount effect `fetchData`: users, posts and comments are fetched one
      after the other; unless all three are ok nothing is stored but the
      error message. */
  function Load(s: DashState, users: Fetch<User>, posts: Fetch<Post>, comments: Fetch<Comment>): DashState {
    var started := s.(loading := true);
    if users.Ok? && posts.Ok? && comments.Ok? then
      started.(users := users.data, posts := posts.data, postComments := comments.data, loading := false)
    else
      started.(error := Some(LoadFailedMessage), loading := false)
  }

  /** `handleUserClick` */
  function ClickUser(s: DashState, u: User): DashState {
    s.(selectedUser := Some(u))
  }

  /** The synchronous half of `handlePostClick`: the post is selected before
      its comments are requested. */
  function SelectPost(s: DashState, p: Post): DashState {
    s.(selectedPost := Some(p))
  }

  /** The half of `handlePostClick` that runs when the per-post request
      settles: the comments shown are replaced by the response, or by the
      empty list when the request failed. Nothing compares the response with
      the post selected at that moment. */
  function ReceivePostComments(s: DashState, response: Fetch<Comment>): DashState {
    s.(postComments := if response.Ok? then response.data else [])
  }

  /** `handlePostClick` when no other event intervenes. */
  function ClickPost(s: DashState, p: Post, response: Fetch<Comment>): DashState {
    ReceivePostComments(SelectPost(s, p), response)
  }

  /** One bar of a count chart. */
  datatype Series = Series(name: string, count: nat)

  /** The three chart series: plain lengths of the state's lists. */
  function CountSeries(s: DashState): seq<Series> {
    [Series("Total Users", |s.users|), Series("Total Posts", |s.posts|), Series("Total Comments", |s.postComments|)]
  }

  datatype Screen = LoadingScreen | ErrorScreen(message: string) | MainScreen

  /** The early returns of the render: loading first, then a truthy error. */
  function ScreenOf(s: DashState): Screen {
    if s.loading then LoadingScreen
    else if s.error.Some? && s.error.value != "" then ErrorScreen(s.error.value)
    else MainScreen
  }

  // ---- properties of the transitions -------------------------------------

  /** When any of the three responses fails the load stores nothing: the
      lists stay as they were, the error is set and loading ends. */
  lemma LoadFailure(s: DashState, users: Fetch<User>, posts: Fetch<Post>, comments: Fetch<Comment>)
    requires users.Fail? || posts.Fail? || comments.Fail?
    ensures var r := Load(s, users, posts, comments);
      && r.users == s.users && r.posts == s.posts && r.postComments == s.postComments
      && r.error == Some(LoadFailedMessage) && !r.loading
      && r.selectedUser == s.selectedUser && r.selectedPost == s.selectedPost
  {
  }

  /** When all three responses are ok the lists are exactly the fetched
      arrays, loading ends and the error is left as it was. */
  lemma LoadSuccess(s: DashState, users: seq<User>, posts: seq<Post>, comments: seq<Comment>)
    ensures var r := Load(s, Ok(users), Ok(posts), Ok(comments));
      && r.users == users && r.posts == posts && r.postComments == comments
      && !r.loading && r.error == s.error
  {
  }

  /** From the initial state the load is all or nothing: either every list is
      filled and the main screen shows, or every list is empty and the error
      screen shows. */
  lemma InitialLoadAllOrNothing(users: Fetch<User>, posts: Fetch<Post>, comments: Fetch<Comment>)
    ensures var r := Load(Initial(), users, posts, comments);
      || (&& users.Ok? && posts.Ok? && comments.Ok?
          && r.users == users.data && r.posts == posts.data && r.postComments == comments.data
          && ScreenOf(r) == MainScreen)
      || (&& (users.Fail? || posts.Fail? || comments.Fail?)
          && r.users == [] && r.posts == [] && r.postComments == []
          && ScreenOf(r) == ErrorScreen(LoadFailedMessage))
  {
  }

  /** A user click changes the selected user and nothing else. */
  lemma ClickUserOnlySelects(s: DashState, u: User)
    ensures var r := ClickUser(s, u);
      && r.selectedUser == Some(u)
      && r.users == s.users && r.posts == s.posts && r.postComments == s.postComments
      && r.selectedPost == s.selectedPost && r.loading == s.loading && r.error == s.error
  {
  }

  /** Clicking A, then B, then A again leaves the state clicking A alone
      would. */
  lemma ClickUserLastWins(s: DashState, a: User, b: User)
    ensures ClickUser(ClickUser(ClickUser(s, a), b), a) == ClickUser(s, a)
  {
  }

  /** A post click selects the post whatever the request's outcome, and
      leaves the selected user, the users and the posts alone. */
  lemma ClickPostSelects(s: DashState, p: Post, response: Fetch<Comment>)
    ensures var r := ClickPost(s, p, response);
      && r.selectedPost == Some(p)
      && r.selectedUser == s.selectedUser && r.users == s.users && r.posts == s.posts
      && r.loading == s.loading && r.error == s.error
  {
  }

  /** The comments after a post click are the response alone (or nothing on
      failure): they do not depend on the comments shown before, so they are
      never merged. */
  lemma ClickPostOverwrites(s1: DashState, s2: DashState, p: Post, response: Fetch<Comment>)
    ensures ClickPost(s1, p, response).postComments == ClickPost(s2, p, response).postComments
    ensures response.Ok? ==> ClickPost(s1, p, response).postComments == response.data
    ensures response.Fail? ==> ClickPost(s1, p, response).postComments == []
  {
  }

  /** The "Total Comments" bar counts the comments shown, so after a post
      click it is that post's comment count, not the global total. */
  lemma CommentCountAfterClick(s: DashState, p: Post, response: Fetch<Comment>)
    ensures CountSeries(ClickPost(s, p, response))[2]
      == Series("Total Comments", if response.Ok? then |response.data| else 0)
  {
  }

  /** Without a staleness check, when post P1's request settles after post
      P2's, P1's comments are shown under P2. */
  lemma StaleResponseWins(s: DashState, p1: Post, p2: Post, forP1: seq<Comment>, forP2: seq<Comment>)
    ensures var r := ReceivePostComments(ReceivePostComments(SelectPost(SelectPost(s, p1), p2), Ok(forP2)), Ok(forP1));
      r.selectedPost == Some(p2) && r.postComments == forP1
  {
  }

  /** The loading screen takes precedence over the error screen. */
  lemma LoadingFirst(s: DashState)
    ensures s.loading ==> ScreenOf(s) == LoadingScreen
    ensures ScreenOf(s).ErrorScreen? <==> !s.loading && s.error.Some? && s.error.value != ""
  {
  }

  // ---- the component ------------------------------------------------------

  /** The page component with its `useState` fields. */
  class Home {
    var users: seq<User>
    var posts: seq<Post>
    var postComments: seq<Comment>
    var selectedUser: Option<User>
    var selectedPost: Option<Post>
    var loading: bool
    var error: Option<string>

    function State(): DashState
      reads this
    {
      DashState(users, posts, postComments, selectedUser, selectedPost, loading, error)
    }

    constructor ()
      ensures State() == Initial()
    {
      users, posts, postComments := [], [], [];
      selectedUser, selectedPost := None, None;
      loading, error := true, None;
    }

    method FetchData(usersResponse: Fetch<User>, postsResponse: Fetch<Post>, commentsResponse: Fetch<Comment>)
      modifies this
      ensures State() == Load(old(State()), usersResponse, postsResponse, commentsResponse)
    {
      loading := true;
      if usersResponse.Fail? || postsResponse.Fail? || commentsResponse.Fail? {
        error := Some(LoadFailedMessage);
        loading := false;
        return;
      }
      users := usersResponse.data;
      posts := postsResponse.data;
      postComments := commentsResponse.data;
      loading := false;
    }

    method HandleUserClick(u: User)
      modifies this
      ensures State() == ClickUser(old(State()), u)
    {
      selectedUser := Some(u);
    }

    method HandlePostClick(p: Post, response: Fetch<Comment>)
      modifies this
      ensures State() == ClickPost(old(State()), p, response)
    {
      selectedPost := Some(p);
      if response.Ok? {
        postComments := response.data;
      } else {
        postComments := [];
      }
    }

    /** Logout only navigates: neither the component state nor the stored
        session is touched. */
    method HandleLogout(browser: Browser)
      modifies browser`route
      ensures browser.route == Some(LoginRoute)
      ensures browser.storedUser == old(browser.storedUser)
      ensures State() == old(State())
    {
      browser.route := Some(LoginRoute);
    }
  }
}
