/** The two pieces of component state an article card owns, `likes` and `isLiked`,
    which the card hands to the like and unlike hooks as setters. */
module LikeCells {
  class LikeCells {
    var likes: int
    var isLiked: bool

    constructor (likes: int, isLiked: bool)
      ensures this.likes == likes && this.isLiked == isLiked
    {
      this.likes := likes;
      this.isLiked := isLiked;
    }
  }
}

/** `handleLikeArticle`: posts the like; on failure rolls the card's state back by
    one like and clears the flag. It never rethrows. */
module LikeArticleHook {
  import opened Api
  import opened LikeCells

  /** A request body `{ articleId }` sent to an endpoint. */
  datatype ArticleRequest = ArticleRequest(endpoint: string, articleId: string)

  /** The toast a `catch` block that reads `err.data?.message` raises. */
  function GuardedToast(e: ApiError): (t: Option<Toast>)
    ensures t.Some? <==> ServerMessage(e).Some?
    ensures t.Some? ==> t.value == ErrorToast(ServerMessage(e).value)
  {
    match ServerMessage(e)
    case None => None
    case Some(m) => Some(ErrorToast(m))
  }

  method HandleLikeArticle(id: string, cells: LikeCells, reply: Reply<()>)
    returns (request: ArticleRequest, toast: Option<Toast>)
    modifies cells
    ensures request == ArticleRequest("/like-article", id)
    ensures reply.Ok? ==> unchanged(cells) && toast == None
    ensures reply.Failed? ==>
      && cells.likes == old(cells.likes) - 1
      && !cells.isLiked
      && toast == GuardedToast(reply.error)
  {
    request := ArticleRequest("/like-article", id);
    toast := None;
    if reply.Failed? {
      cells.likes := cells.likes - 1;
      cells.isLiked := false;
      toast := GuardedToast(reply.error);
    }
  }
}

/** `handleDisLikeArticle`: posts the unlike; on failure gives the like back and
    sets the flag. It never rethrows. */
module DisLikeArticleHook {
  import opened Api
  import opened LikeCells
  import opened LikeArticleHook

  method HandleDisLikeArticle(id: string, cells: LikeCells, reply: Reply<()>)
    returns (request: ArticleRequest, toast: Option<Toast>)
    modifies cells
    ensures request == ArticleRequest("/disLike-article", id)
    ensures reply.Ok? ==> unchanged(cells) && toast == None
    ensures reply.Failed? ==>
      && cells.likes == old(cells.likes) + 1
      && cells.isLiked
      && toast == GuardedToast(reply.error)
  {
    request := ArticleRequest("/disLike-article", id);
    toast := None;
    if reply.Failed? {
      cells.likes := cells.likes + 1;
      cells.isLiked := true;
      toast := GuardedToast(reply.error);
    }
  }
}

/** `useDeleteArticle`: a per-article loading map, set before the delete request and
    cleared in `finally`. */
module DeleteArticleHook {
  import opened Api

  /** The delete endpoint's answer: `{ message }`. */
  datatype DeleteResponse = DeleteResponse(message: string)

  class DeleteArticle {
    var loadingItems: map<string, bool>

    constructor ()
      ensures loadingItems == map[]
    {
      loadingItems := map[];
    }

    /** `handleDeleteArticle(id)`; `loadingAtRequest` is the map as it stood when the
        request went out. */
    method HandleDeleteArticle(id: string, reply: Reply<DeleteResponse>)
      returns (loadingAtRequest: map<string, bool>, toast: Option<Toast>, completion: Completion)
      modifies this
      ensures loadingAtRequest == old(loadingItems)[id := true]
      ensures loadingItems == old(loadingItems)[id := false]
      ensures reply.Ok? ==> toast == Some(SuccessToast(reply.value.message)) && completion == Normal
      ensures reply.Failed? ==> (toast, completion) == CatchMessage(reply.error)
    {
      loadingItems := loadingItems[id := true];
      loadingAtRequest := loadingItems;
      match reply {
        case Ok(response) =>
          toast, completion := Some(SuccessToast(response.message)), Normal;
        case Failed(err) =>
          var failure := CatchMessage(err);
          toast, completion := failure.0, failure.1;
      }
      // finally
      loadingItems := loadingItems[id := false];
    }
  }
}
