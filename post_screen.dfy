/**
 * The like state of one full-screen post (`PostViewController`): the post
 * it shows and the tint of the heart drawn over the video. Only the like
 * actions are modelled; the tint is the one colour choice they make.
 */
module PostScreen {
  import opened PostModels

  /** The colour the heart image is tinted with. */
  datatype Tint = Red | White

  /** The tint `didTapLike` picks for the new like state. */
  function HeartTint(liked: bool): (t: Tint)
    ensures t == Red <==> liked
    ensures t == White <==> !liked
  {
    if liked then Red else White
  }

  /** Two posts that agree on everything except the like flag. */
  predicate SamePostContent(p: PostModel, q: PostModel)
  {
    p.id == q.id && p.user == q.user && p.fileName == q.fileName && p.caption == q.caption
  }

  /** The post after `didTapLike`: the like flag negated, nothing else touched. */
  function ToggledLike(p: PostModel): (q: PostModel)
    ensures q.isLikedByCurrentUser != p.isLikedByCurrentUser
    ensures SamePostContent(p, q)
  {
    p.(isLikedByCurrentUser := !p.isLikedByCurrentUser)
  }

  /** The post after `didDoubleTap`: liked, nothing else touched. */
  function DoubleTapped(p: PostModel): (q: PostModel)
    ensures q.isLikedByCurrentUser
    ensures SamePostContent(p, q)
  {
    if !p.isLikedByCurrentUser then p.(isLikedByCurrentUser := true) else p
  }

  /** Two taps on the like button give back the post they started from. */
  lemma ToggleTwiceRestores(p: PostModel)
    ensures ToggledLike(ToggledLike(p)) == p
  {
  }

  /** A double tap never unlikes: an already liked post is left exactly as it was, so a second double tap changes nothing. */
  lemma DoubleTapIdempotent(p: PostModel)
    ensures p.isLikedByCurrentUser ==> DoubleTapped(p) == p
    ensures DoubleTapped(DoubleTapped(p)) == DoubleTapped(p)
  {
  }

  /** On an unliked post a double tap and a tap on the button reach the same post. */
  lemma DoubleTapOnUnlikedIsToggle(p: PostModel)
    requires !p.isLikedByCurrentUser
    ensures DoubleTapped(p) == ToggledLike(p)
  {
  }

  /** `PostViewController`: the post it shows (`model`) and the heart's current tint. */
  class PostViewController {
    var model: PostModel
    var heartTint: Tint

    /** `init(model:)` followed by `setUpLikeButton`, which draws the heart white whatever the post's like flag. */
    constructor (model: PostModel)
      ensures this.model == model && heartTint == White
    {
      this.model := model;
      heartTint := White;
    }

    /** `didTapLike`: negates the like flag, then redraws the heart red when liked and white otherwise. */
    method DidTapLike()
      modifies this
      ensures model == ToggledLike(old(model))
      ensures heartTint == HeartTint(model.isLikedByCurrentUser)
    {
      model := model.(isLikedByCurrentUser := !model.isLikedByCurrentUser);
      if model.isLikedByCurrentUser {
        heartTint := Red;
      } else if !model.isLikedByCurrentUser {
        heartTint := White;
      }
    }

    /**
     * `didDoubleTap`: marks the post liked but does not redraw the heart, so
     * after a double tap on an unliked post the heart keeps its old tint.
     */
    method DidDoubleTap()
      modifies this
      ensures model == DoubleTapped(old(model))
      ensures heartTint == old(heartTint)
    {
      if !model.isLikedByCurrentUser {
        model := model.(isLikedByCurrentUser := true);
      }
    }
  }
}
