/** The gallery store (src/store/galleryStore.ts): the before/after posts,
    newest first, with likes and comments. */
module Gallery {
  import opened Wrappers
  import opened Types
  import Seqs
  import MockData

  /** The sort key of both listings: `createdAt.getTime()`. */
  function PostTime(p: Post): int {
    p.createdAt
  }

  function PostId(p: Post): Id {
    p.id
  }

  /** The selection `post => post.id === id`. */
  function IdIs(id: Id): Post -> bool {
    (p: Post) => p.id == id
  }

  /** The selection `post => post.userId === userId`. */
  function ByUser(userId: Id): Post -> bool {
    (p: Post) => p.userId == userId
  }

  /** The listing order: newest first, posts with the same time in store order. */
  function Newest(ps: seq<Post>): (r: seq<Post>)
    ensures Seqs.SortedDesc(r, PostTime)
    ensures multiset(r) == multiset(ps)
  {
    Seqs.SortDesc(ps, PostTime)
  }

  function AddLike(p: Post): Post {
    p.(likes := p.likes + 1)
  }

  function CommentId(c: Comment): Id {
    c.id
  }

  function AppendComment(c: Comment): Post -> Post {
    (p: Post) => p.(comments := p.comments + [c])
  }

  /** The post `addPost` builds: the next id, no likes, no comments. */
  function NewPost(id: Id, userId: Id, userName: string, userPhotoUrl: Option<string>,
                   beforeImageUrl: string, afterImageUrl: string, description: string, now: Time): Post {
    Post(id, userId, userName, userPhotoUrl, beforeImageUrl, afterImageUrl, description, 0, [], now)
  }

  /** The sum of all likes. */
  function TotalLikes(ps: seq<Post>): int {
    if ps == [] then 0 else ps[0].likes + TotalLikes(ps[1..])
  }

  /** How many posts carry the id. */
  function CountId(ps: seq<Post>, id: Id): nat {
    if ps == [] then 0 else (if ps[0].id == id then 1 else 0) + CountId(ps[1..], id)
  }

  /** A like adds exactly one to the total for each post with that id: an
      unknown id changes nothing, and no other post's likes move. */
  lemma {:induction false} LikeTotal(ps: seq<Post>, id: Id)
    ensures TotalLikes(Seqs.MapIf(ps, IdIs(id), AddLike)) == TotalLikes(ps) + CountId(ps, id)
  {
    if ps != [] {
      LikeTotal(ps[1..], id);
      assert Seqs.MapIf(ps, IdIs(id), AddLike)[1..] == Seqs.MapIf(ps[1..], IdIs(id), AddLike);
    }
  }

  /** The seed posts are numbered 1 and 2. */
  lemma SeedPostsNumbered()
    ensures Numbered(MockData.Posts, PostId)
  {
    var ps := MockData.Posts;
    assert |ps| == 2;
    assert ps[0].id == IdOf(1) && ps[1].id == IdOf(2);
    IdOfNumbered(1, 2);
    IdOfNumbered(2, 2);
  }

  /** Newest first, the seed post 2 comes before post 1. */
  lemma SeedNewest()
    ensures Newest(MockData.Posts) == [MockData.Posts[1], MockData.Posts[0]]
  {
    var ps := MockData.Posts;
    assert ps[1..] == [ps[1]];
    assert Seqs.SortDesc(ps[1..], PostTime) == [ps[1]];
  }

  class GalleryStore {
    var posts: seq<Post>
    var isLoading: bool
    var error: Option<string>

    /** The posts are numbered `1..n` in some order. */
    ghost predicate Valid()
      reads this
    {
      Numbered(posts, PostId)
    }

    constructor ()
      ensures posts == MockData.Posts && !isLoading && error == None
      ensures Valid()
    {
      posts := MockData.Posts;
      isLoading := false;
      error := None;
      SeedPostsNumbered();
    }

    /** `getPosts`: sorts the store's own array in place, newest first, and
        returns it. */
    method GetPosts() returns (r: seq<Post>)
      requires Valid()
      modifies this`posts
      ensures posts == Newest(old(posts)) && r == posts
      ensures Valid()
    {
      posts := Newest(posts);
      NumberedPermutation(old(posts), posts, PostId);
      r := posts;
    }

    /** `getUserPosts`: a user's posts, newest first; the store is not reordered. */
    function GetUserPosts(userId: Id): (r: seq<Post>)
      reads this
      ensures Seqs.SortedDesc(r, PostTime)
      ensures multiset(r) == multiset(Seqs.Filter(posts, ByUser(userId)))
    {
      Newest(Seqs.Filter(posts, ByUser(userId)))
    }

    /** `getPost`: the first post with that id. */
    function GetPost(id: Id): (r: Option<Post>)
      reads this
      ensures r.Some? <==> exists i :: 0 <= i < |posts| && posts[i].id == id
      ensures r.Some? ==> exists i :: 0 <= i < |posts| && posts[i] == r.value && r.value.id == id
                                      && forall j :: 0 <= j < i ==> posts[j].id != id
    {
      Seqs.Find(posts, IdIs(id))
    }

    /** `addPost`: append a new post with the next id, no likes and no comments. */
    method AddPost(userId: Id, userName: string, userPhotoUrl: Option<string>, beforeImageUrl: string,
                   afterImageUrl: string, description: string, now: Time, delay: Delay) returns (r: Result<Post>)
      requires Valid()
      modifies this
      ensures delay.Resolves? ==>
        && r == Success(NewPost(IdOf(|old(posts)| + 1), userId, userName, userPhotoUrl,
                                beforeImageUrl, afterImageUrl, description, now))
        && posts == old(posts) + [r.value] && error == None
        && forall i :: 0 <= i < |old(posts)| ==> old(posts)[i].id != r.value.id
      ensures !delay.Resolves? ==>
        && posts == old(posts)
        && r == Failure(RejectionMessage(delay, "Erro ao adicionar publicação")) && error == Some(r.error)
      ensures !isLoading && Valid()
    {
      isLoading, error := true, None;
      var post := NewPost(IdOf(|posts| + 1), userId, userName, userPhotoUrl,
                          beforeImageUrl, afterImageUrl, description, now);
      if delay.Resolves? {
        FreshId(posts, PostId);
        NumberedAppend(posts, post, PostId);
        posts, isLoading := posts + [post], false;
        r := Success(post);
      } else {
        var message := RejectionMessage(delay, "Erro ao adicionar publicação");
        error, isLoading := Some(message), false;
        r := Failure(message);
      }
    }

    /** `likePost`: one more like on every post with the id; an unknown id
        is not an error. */
    method LikePost(postId: Id, delay: Delay) returns (r: Result<()>)
      requires Valid()
      modifies this
      ensures delay.Resolves? ==>
        posts == Seqs.MapIf(old(posts), IdIs(postId), AddLike) && r == Success(()) && error == None
      ensures !delay.Resolves? ==>
        && posts == old(posts)
        && r == Failure(RejectionMessage(delay, "Erro ao curtir publicação")) && error == Some(r.error)
      ensures !isLoading && Valid()
    {
      isLoading, error := true, None;
      if delay.Resolves? {
        NumberedMapIf(posts, IdIs(postId), AddLike, PostId);
        posts, isLoading := Seqs.MapIf(posts, IdIs(postId), AddLike), false;
        r := Success(());
      } else {
        var message := RejectionMessage(delay, "Erro ao curtir publicação");
        error, isLoading := Some(message), false;
        r := Failure(message);
      }
    }

    /** `addComment`: refuse an unknown post; otherwise number the comment
        after the comments of the post found and append it to every post
        with that id. */
    method AddComment(postId: Id, userId: Id, userName: string, userPhotoUrl: Option<string>,
                      content: string, now: Time, delay: Delay) returns (r: Result<Comment>)
      requires Valid()
      modifies this
      ensures old(GetPost(postId)).None? ==>
        r == Failure("Publicação não encontrada") && posts == old(posts) && error == Some(r.error)
      ensures old(GetPost(postId)).Some? && delay.Resolves? ==>
        var c := Comment(IdOf(|old(GetPost(postId)).value.comments| + 1), userId, userName, userPhotoUrl, content, now);
        && r == Success(c)
        && posts == Seqs.MapIf(old(posts), IdIs(postId), AppendComment(c))
        && GetPost(postId) == Some(AppendComment(c)(old(GetPost(postId)).value))
        && error == None
      ensures old(GetPost(postId)).Some? && !delay.Resolves? ==>
        && posts == old(posts)
        && r == Failure(RejectionMessage(delay, "Erro ao adicionar comentário")) && error == Some(r.error)
      ensures !isLoading && Valid()
    {
      isLoading, error := true, None;
      var post := GetPost(postId);
      if post.None? {
        error, isLoading := Some("Publicação não encontrada"), false;
        return Failure("Publicação não encontrada");
      }
      var comment := Comment(IdOf(|post.value.comments| + 1), userId, userName, userPhotoUrl, content, now);
      if delay.Resolves? {
        NumberedMapIf(posts, IdIs(postId), AppendComment(comment), PostId);
        Seqs.FindAfterMapIf(posts, IdIs(postId), AppendComment(comment));
        posts, isLoading := Seqs.MapIf(posts, IdIs(postId), AppendComment(comment)), false;
        r := Success(comment);
      } else {
        var message := RejectionMessage(delay, "Erro ao adicionar comentário");
        error, isLoading := Some(message), false;
        r := Failure(message);
      }
    }
  }

  /** A user's listing holds each of their posts as often as the store
      does, and no post of anyone else. */
  lemma UserPostsExact(store: GalleryStore, userId: Id, p: Post)
    ensures multiset(store.GetUserPosts(userId))[p] == if p.userId == userId then multiset(store.posts)[p] else 0
  {
    Seqs.FilterCount(store.posts, ByUser(userId), p);
  }

  /** `addComment` numbers a comment after the length of its post's list
      and does not look at the ids already there. A post whose comments are
      numbered 1..n gets a fresh id; but a comment numbered beyond the list,
      such as the seed post 2's comment '3', is repeated once enough new comments
      have been appended. */
  lemma CommentIdFreshness(p: Post, added: seq<Comment>, k: nat)
    ensures Numbered(p.comments, CommentId) ==>
      forall i :: 0 <= i < |p.comments| ==> p.comments[i].id != IdOf(|p.comments| + 1)
    ensures k < |p.comments| && p.comments[k].id == IdOf(|p.comments| + |added| + 1) ==>
      var q := p.(comments := p.comments + added);
      k < |q.comments| && q.comments[k].id == IdOf(|q.comments| + 1)
  {
    if Numbered(p.comments, CommentId) {
      FreshId(p.comments, CommentId);
    }
  }

  /** The seed post 2 is such a post: one comment, numbered '3'. */
  lemma SeedCommentRepeats()
    ensures var p := MockData.Posts[1];
      && |p.comments| == 1 && p.comments[0].id == IdOf(|p.comments| + 2)
      && !Numbered(p.comments, CommentId)
  {
  }
}
