/** An article card's like button: its initial state, the effect that marks the
    card liked for a user in `likedBy`, and `handleLike`. */
module ArticleCard {
  import opened Api
  import opened AuthSlice
  import opened LikeCells
  import opened LikeArticleHook
  import opened DisLikeArticleHook

  /** The article fields the card's like state depends on. */
  datatype Article = Article(id: string, likes: int, likedBy: seq<string>)

  /** `useState(article.likes)` and `useState(false)`. */
  method Mount(article: Article) returns (cells: LikeCells)
    ensures fresh(cells)
    ensures cells.likes == article.likes && !cells.isLiked
  {
    cells := new LikeCells(article.likes, false);
  }

  /** The `likedBy` effect: sets the flag when the current user is in `likedBy`, and
      never clears it. */
  method SyncLikedBy(cells: LikeCells, user: Option<AuthUser>, likedBy: seq<string>)
    modifies cells
    ensures cells.likes == old(cells.likes)
    ensures cells.isLiked == (old(cells.isLiked) || (user.Some? && user.value.id in likedBy))
  {
    if user.Some? && user.value.id in likedBy {
      cells.isLiked := true;
    }
  }

  /** `handleLike`: the hook runs first and the card's own count change comes after
      the awaited call; the flag is set from the value captured before the click. */
  method HandleLike(cells: LikeCells, id: string, isLoggedIn: bool, reply: Reply<()>)
    returns (request: Option<ArticleRequest>, toast: Option<Toast>)
    modifies cells
    ensures !isLoggedIn ==>
      unchanged(cells) && request == None && toast == Some(ErrorToast("Please login to like the article"))
    ensures isLoggedIn ==>
      && request == Some(ArticleRequest(if old(cells.isLiked) then "/disLike-article" else "/like-article", id))
      && cells.isLiked == !old(cells.isLiked)
    ensures isLoggedIn && reply.Ok? ==>
      cells.likes == old(cells.likes) + (if old(cells.isLiked) then -1 else 1)
    ensures isLoggedIn && reply.Failed? ==> cells.likes == old(cells.likes)
    ensures isLoggedIn ==> toast == (if reply.Failed? then GuardedToast(reply.error) else None)
  {
    if !isLoggedIn {
      request, toast := None, Some(ErrorToast("Please login to like the article"));
      return;
    }
    var wasLiked := cells.isLiked;
    var sent;
    if wasLiked {
      sent, toast := HandleDisLikeArticle(id, cells, reply);
      cells.likes := cells.likes - 1;
    } else {
      sent, toast := HandleLikeArticle(id, cells, reply);
      cells.likes := cells.likes + 1;
    }
    request := Some(sent);
    cells.isLiked := !wasLiked;
  }

  /** A failed like on a card showing (not liked, 5) ends at (liked, 5): the count
      is restored but the flag stays flipped. */
  method FailedLikeFlipsFlag() returns (isLiked: bool, likes: int)
    ensures isLiked && likes == 5
  {
    var cells := new LikeCells(5, false);
    var request, toast := HandleLike(cells, "a1", true, Failed(ApiError(Http(500), None)));
    isLiked, likes := cells.isLiked, cells.likes;
  }

  /** `handleLike` with the card's own update applied before the awaited call, which
      is what the hooks' rollbacks are written to undo. */
  method HandleLikeOptimistic(cells: LikeCells, id: string, isLoggedIn: bool, reply: Reply<()>)
    returns (request: Option<ArticleRequest>, toast: Option<Toast>)
    modifies cells
    ensures !isLoggedIn ==>
      unchanged(cells) && request == None && toast == Some(ErrorToast("Please login to like the article"))
    ensures isLoggedIn ==>
      request == Some(ArticleRequest(if old(cells.isLiked) then "/disLike-article" else "/like-article", id))
    ensures isLoggedIn && reply.Ok? ==>
      && cells.isLiked == !old(cells.isLiked)
      && cells.likes == old(cells.likes) + (if old(cells.isLiked) then -1 else 1)
    ensures isLoggedIn && reply.Failed? ==>
      cells.isLiked == old(cells.isLiked) && cells.likes == old(cells.likes)
    ensures isLoggedIn ==> toast == (if reply.Failed? then GuardedToast(reply.error) else None)
  {
    if !isLoggedIn {
      request, toast := None, Some(ErrorToast("Please login to like the article"));
      return;
    }
    var wasLiked := cells.isLiked;
    var sent;
    if wasLiked {
      cells.likes := cells.likes - 1;
      cells.isLiked := false;
      sent, toast := HandleDisLikeArticle(id, cells, reply);
    } else {
      cells.likes := cells.likes + 1;
      cells.isLiked := true;
      sent, toast := HandleLikeArticle(id, cells, reply);
    }
    request := Some(sent);
  }

  /** With the corrected order, the same failed like leaves the card at (not liked, 5). */
  method FailedLikeRestoresCard() returns (isLiked: bool, likes: int)
    ensures !isLiked && likes == 5
  {
    var cells := new LikeCells(5, false);
    var request, toast := HandleLikeOptimistic(cells, "a1", true, Failed(ApiError(Http(500), None)));
    isLiked, likes := cells.isLiked, cells.likes;
  }
}
