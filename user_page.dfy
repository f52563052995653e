/** The signed-in user's page (`UserPage` in src/app/user/page.tsx): the
    session gate, the join that keeps the user's own posts and the comments
    on them, and logout. */
module UserPage {
  import opened Common
  import opened Records

  // ---- the join -----------------------------------------------------------

  /** `postsData.filter((post) => post.userId === uid)` */
  function OwnPosts(posts: seq<Post>, uid: int): seq<Post> {
    if posts == [] then []
    else (if posts[0].userId == uid then [posts[0]] else []) + OwnPosts(posts[1..], uid)
  }

  /** `postsData.some((post) => post.id === postId && post.userId === uid)` */
  function HasOwnPost(posts: seq<Post>, postId: int, uid: int): bool {
    posts != [] && ((posts[0].id == postId && posts[0].userId == uid) || HasOwnPost(posts[1..], postId, uid))
  }

  /** `commentsData.filter(...)` keeping the comments on one of the user's
      posts. */
  function OwnComments(comments: seq<Comment>, posts: seq<Post>, uid: int): seq<Comment> {
    if comments == [] then []
    else (if HasOwnPost(posts, comments[0].postId, uid) then [comments[0]] else [])
         + OwnComments(comments[1..], posts, uid)
  }

  predicate Distinct<T(==)>(s: seq<T>) {
    forall i, j :: 0 <= i < j < |s| ==> s[i] != s[j]
  }

  // ---- properties of the join ---------------------------------------------

  /** `some` is the existential it reads as. */
  lemma {:induction false} HasOwnPostExists(posts: seq<Post>, postId: int, uid: int)
    ensures HasOwnPost(posts, postId, uid) <==> exists p :: p in posts && p.id == postId && p.userId == uid
  {
    if posts != [] {
      HasOwnPostExists(posts[1..], postId, uid);
      assert forall p :: p in posts <==> p == posts[0] || p in posts[1..];
    }
  }

  /** The kept posts are, in their original order, exactly the posts whose
      author is the user, each as many times as it was fetched. */
  lemma {:induction false} OwnPostsSpec(posts: seq<Post>, uid: int)
    ensures IsSubsequence(OwnPosts(posts, uid), posts)
    ensures forall p :: p in OwnPosts(posts, uid) <==> p in posts && p.userId == uid
    ensures forall p :: multiset(OwnPosts(posts, uid))[p] == (if p.userId == uid then multiset(posts)[p] else 0)
  {
    if posts != [] {
      OwnPostsSpec(posts[1..], uid);
      var rest := OwnPosts(posts[1..], uid);
      assert posts == [posts[0]] + posts[1..];
      if posts[0].userId == uid {
        assert OwnPosts(posts, uid) == [posts[0]] + rest;
        assert ([posts[0]] + rest)[1..] == rest;
      } else {
        assert OwnPosts(posts, uid) == rest;
        SubsequenceOfTail(rest, posts);
      }
      assert forall p :: p in posts <==> p == posts[0] || p in posts[1..];
    }
  }

  /** The kept comments are, in their original order, exactly the comments
      on some post written by the user, each as many times as it was
      fetched. */
  lemma OwnCommentsSpec(comments: seq<Comment>, posts: seq<Post>, uid: int)
    ensures IsSubsequence(OwnComments(comments, posts, uid), comments)
    ensures forall c :: c in OwnComments(comments, posts, uid) <==>
      c in comments && exists p :: p in posts && p.id == c.postId && p.userId == uid
    ensures forall c :: multiset(OwnComments(comments, posts, uid))[c] ==
                (if exists p :: p in posts && p.id == c.postId && p.userId == uid then multiset(comments)[c] else 0)
  {
    OwnCommentsOrder(comments, posts, uid);
    OwnCommentsCount(comments, posts, uid);
    forall c: Comment
      ensures HasOwnPost(posts, c.postId, uid) <==> exists p :: p in posts && p.id == c.postId && p.userId == uid
    {
      HasOwnPostExists(posts, c.postId, uid);
    }
  }

  lemma {:induction false} OwnCommentsOrder(comments: seq<Comment>, posts: seq<Post>, uid: int)
    ensures IsSubsequence(OwnComments(comments, posts, uid), comments)
    ensures forall c :: c in OwnComments(comments, posts, uid) <==>
      c in comments && exists p :: p in posts && p.id == c.postId && p.userId == uid
  {
    if comments != [] {
      OwnCommentsOrder(comments[1..], posts, uid);
      HasOwnPostExists(posts, comments[0].postId, uid);
      var rest := OwnComments(comments[1..], posts, uid);
      if HasOwnPost(posts, comments[0].postId, uid) {
        assert OwnComments(comments, posts, uid) == [comments[0]] + rest;
        assert ([comments[0]] + rest)[1..] == rest;
      } else {
        assert OwnComments(comments, posts, uid) == rest;
        SubsequenceOfTail(rest, comments);
      }
      assert forall c :: c in comments <==> c == comments[0] || c in comments[1..];
    }
  }

  lemma {:induction false} OwnCommentsCount(comments: seq<Comment>, posts: seq<Post>, uid: int)
    ensures forall c :: multiset(OwnComments(comments, posts, uid))[c] ==
                (if HasOwnPost(posts, c.postId, uid) then multiset(comments)[c] else 0)
  {
    if comments != [] {
      OwnCommentsCount(comments[1..], posts, uid);
      assert comments == [comments[0]] + comments[1..];
    }
  }

  /** Every kept comment belongs to one of the kept posts. */
  lemma OwnCommentsOnOwnPosts(comments: seq<Comment>, posts: seq<Post>, uid: int)
    ensures forall c :: c in OwnComments(comments, posts, uid) ==>
      exists p :: p in OwnPosts(posts, uid) && p.id == c.postId
  {
    OwnCommentsSpec(comments, posts, uid);
    OwnPostsSpec(posts, uid);
  }

  /** Filtering again changes nothing. */
  lemma {:induction false} OwnPostsIdempotent(posts: seq<Post>, uid: int)
    ensures OwnPosts(OwnPosts(posts, uid), uid) == OwnPosts(posts, uid)
  {
    if posts != [] {
      OwnPostsIdempotent(posts[1..], uid);
      var rest := OwnPosts(posts[1..], uid);
      if posts[0].userId == uid {
        assert OwnPosts(posts, uid) == [posts[0]] + rest;
        assert ([posts[0]] + rest)[0] == posts[0];
        assert ([posts[0]] + rest)[1..] == rest;
      } else {
        assert OwnPosts(posts, uid) == rest;
      }
    }
  }

  /** No duplicate is introduced: a list without duplicates yields posts and
      comments without duplicates. */
  lemma OwnResultsDistinct(comments: seq<Comment>, posts: seq<Post>, uid: int)
    ensures Distinct(posts) ==> Distinct(OwnPosts(posts, uid))
    ensures Distinct(comments) ==> Distinct(OwnComments(comments, posts, uid))
  {
    OwnPostsSpec(posts, uid);
    OwnCommentsSpec(comments, posts, uid);
    if Distinct(posts) {
      SubsequenceDistinct(OwnPosts(posts, uid), posts);
    }
    if Distinct(comments) {
      SubsequenceDistinct(OwnComments(comments, posts, uid), comments);
    }
  }

  // ---- subsequences -------------------------------------------------------

  lemma {:induction false} SubsequenceMembers<T>(a: seq<T>, b: seq<T>)
    requires IsSubsequence(a, b)
    ensures forall x :: x in a ==> x in b
  {
    if a != [] {
      if a[0] == b[0] && IsSubsequence(a[1..], b[1..]) {
        SubsequenceMembers(a[1..], b[1..]);
        assert forall x :: x in a ==> x == a[0] || x in a[1..];
      } else {
        SubsequenceMembers(a, b[1..]);
      }
    }
  }

  lemma {:induction false} SubsequenceDistinct<T>(a: seq<T>, b: seq<T>)
    requires IsSubsequence(a, b) && Distinct(b)
    ensures Distinct(a)
  {
    if a != [] {
      assert Distinct(b[1..]) by {
        forall i, j | 0 <= i < j < |b[1..]| ensures b[1..][i] != b[1..][j] {
          assert b[1..][i] == b[i + 1] && b[1..][j] == b[j + 1];
        }
      }
      if a[0] == b[0] && IsSubsequence(a[1..], b[1..]) {
        SubsequenceDistinct(a[1..], b[1..]);
        SubsequenceMembers(a[1..], b[1..]);
        forall i, j | 0 <= i < j < |a| ensures a[i] != a[j] {
          if i == 0 {
            assert a[j] == a[1..][j - 1];
            assert a[j] in b[1..];
            var k :| 0 <= k < |b[1..]| && b[1..][k] == a[j];
            assert b[k + 1] == a[j];
          } else {
            assert a[i] == a[1..][i - 1] && a[j] == a[1..][j - 1];
          }
        }
      } else {
        SubsequenceDistinct(a, b[1..]);
      }
    }
  }

  // ---- the component ------------------------------------------------------

  class UserPage {
    var user: Option<User>
    var posts: seq<Post>
    var comments: seq<Comment>

    constructor ()
      ensures user == None && posts == [] && comments == []
    {
      user, posts, comments := None, [], [];
    }

    /** The session gate effect: without a stored session the page goes to
        the login route; with one, `user` becomes the stored record. */
    method CheckSession(browser: Browser)
      modifies this`user, browser`route
      ensures old(browser.storedUser).None? ==> browser.route == Some(LoginRoute) && user == old(user)
      ensures old(browser.storedUser).Some? ==> user == old(browser.storedUser) && browser.route == old(browser.route)
      ensures browser.storedUser == old(browser.storedUser)
    {
      var stored := browser.storedUser;
      if stored.None? {
        browser.route := Some(LoginRoute);
      } else {
        user := stored;
      }
    }

    /** The data effect: only with a user does it fetch (`fetched`); when both
        responses are ok it keeps the user's posts and the comments on them,
        otherwise it leaves both lists as they were. */
    method FetchData(postsResponse: Fetch<Post>, commentsResponse: Fetch<Comment>) returns (fetched: bool)
      modifies this`posts, this`comments
      ensures fetched == user.Some?
      ensures if fetched && postsResponse.Ok? && commentsResponse.Ok? then
          && posts == OwnPosts(postsResponse.data, user.value.id)
          && comments == OwnComments(commentsResponse.data, postsResponse.data, user.value.id)
        else posts == old(posts) && comments == old(comments)
    {
      fetched := user.Some?;
      if !fetched {
        return;
      }
      if postsResponse.Fail? || commentsResponse.Fail? {
        return;
      }
      var postsData := postsResponse.data;
      var commentsData := commentsResponse.data;
      posts := OwnPosts(postsData, user.value.id);
      comments := OwnComments(commentsData, postsData, user.value.id);
    }

    /** Removes the `user` key, then goes to the login route. */
    method HandleLogout(browser: Browser)
      modifies browser
      ensures browser.storedUser == None && browser.route == Some(LoginRoute)
    {
      browser.storedUser := None;
      browser.route := Some(LoginRoute);
    }
  }
}
