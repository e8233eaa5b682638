/** The star rating under a menu item: the average, the signed-in user's own rating, rating by
    a click and deleting the rating. The rating service is an oracle whose answers are passed
    in. */
module MenuRatingWidget {
  import opened Wrappers
  import opened Js
  import Session
  import StoredUser

  /** A user's stored rating: its id and value. */
  datatype UserRating = UserRating(id: Scalar, ratingValue: int)

  datatype RatingCall =
    | GetAverage(menuId: Scalar)
    | GetUserRating(userId: Scalar, menuId: Scalar)
    | CreateRating(menuId: Scalar, userId: Scalar, value: int)
    | UpdateRating(ratingId: Scalar, menuId: Scalar, userId: Scalar, value: int)
    | DeleteRating(ratingId: Scalar)

  /** The answers one click may get: the save, the lookup after a create, the average and the
      lookup made to resynchronise after a failure. */
  datatype ClickReplies = ClickReplies(save: Reply, created: Result<Option<UserRating>>,
                                       average: Result<Option<real>>, resync: Result<Option<UserRating>>)

  /** `avgData?.average || 0`. */
  function AverageOrZero(a: Option<real>): real {
    if a.Some? && a.value != 0.0 then a.value else 0.0
  }

  /** Star `i` is filled iff `i <= (hoveredStar || userRating)`. */
  predicate StarFilled(i: int, hovered: int, rating: int) {
    i <= (if hovered != 0 then hovered else rating)
  }

  /** How many of stars 1..n are filled. */
  function FilledCount(n: nat, hovered: int, rating: int): nat {
    if n == 0 then 0 else FilledCount(n - 1, hovered, rating) + (if StarFilled(n, hovered, rating) then 1 else 0)
  }

  function Clamp(v: int, lo: int, hi: int): int {
    if v < lo then lo else if v > hi then hi else v
  }

  /** Of the five stars, exactly the first `hoveredStar || userRating` (clamped to 0..5) are
      filled, so the filled ones are always a prefix. */
  lemma {:induction false} FilledStars(n: nat, hovered: int, rating: int)
    ensures FilledCount(n, hovered, rating) == Clamp(if hovered != 0 then hovered else rating, 0, n)
  {
    if n > 0 {
      FilledStars(n - 1, hovered, rating);
    }
  }

  lemma FilledIsPrefix(i: int, j: int, hovered: int, rating: int)
    requires 1 <= i <= j && StarFilled(j, hovered, rating)
    ensures StarFilled(i, hovered, rating)
  {
  }

  class MenuRating {
    const menuId: Scalar
    const token: Option<string>
    /** `userData?.userId || userData?.id`. */
    const userId: Scalar

    var average: real
    var userRating: int
    var ratingId: Scalar
    var hoveredStar: int
    var sent: seq<RatingCall>

    constructor (menuId: Scalar, token: Option<string>, userId: Scalar)
      ensures this.menuId == menuId && this.token == token && this.userId == userId
      ensures average == 0.0 && userRating == 0 && ratingId == Null && hoveredStar == 0 && sent == []
    {
      this.menuId, this.token, this.userId := menuId, token, userId;
      average, userRating, ratingId, hoveredStar, sent := 0.0, 0, Null, 0, [];
    }

    predicate SignedIn()
      reads this
    {
      Present(token) && Truthy(userId)
    }

    /** `refreshData`: the average, or nothing on failure. */
    method RefreshAverage(reply: Result<Option<real>>)
      modifies this`average, this`sent
      ensures sent == old(sent) + [GetAverage(menuId)]
      ensures average == if reply.Ok? then AverageOrZero(reply.value) else old(average)
    {
      sent := sent + [GetAverage(menuId)];
      if reply.Ok? {
        average := AverageOrZero(reply.value);
      }
    }

    /** Reads back the user's stored rating: its id and value, or none and 0. */
    method Resync(reply: Result<Option<UserRating>>)
      modifies this`ratingId, this`userRating, this`sent
      ensures sent == old(sent) + [GetUserRating(userId, menuId)]
      ensures reply.Ok? && reply.value.Some? ==> ratingId == reply.value.value.id && userRating == reply.value.value.ratingValue
      ensures reply.Ok? && reply.value.None? ==> ratingId == Null && userRating == 0
      ensures reply.Err? ==> ratingId == old(ratingId) && userRating == old(userRating)
    {
      sent := sent + [GetUserRating(userId, menuId)];
      match reply {
        case Ok(Some(r)) =>
          ratingId, userRating := r.id, r.ratingValue;
        case Ok(None) =>
          ratingId, userRating := Null, 0;
        case Err(_) =>
      }
    }

    /** The mount effect: with a menu id, the average, then (signed in) the user's stored
        rating is adopted, or none and 0. A failed average fetch ends it with nothing changed,
        and a failed rating read keeps the held rating. */
    method FetchEffect(average: Result<Option<real>>, own: Result<Option<UserRating>>)
      modifies this`average, this`ratingId, this`userRating, this`sent
      ensures !Truthy(menuId) ==> sent == old(sent) && this.average == old(this.average)
                                  && ratingId == old(ratingId) && userRating == old(userRating)
      ensures Truthy(menuId) && average.Ok? ==> this.average == AverageOrZero(average.value)
      ensures Truthy(menuId) && average.Ok? && SignedIn() ==>
                sent == old(sent) + [GetAverage(menuId), GetUserRating(userId, menuId)]
      ensures Truthy(menuId) && (average.Err? || !SignedIn()) ==>
                sent == old(sent) + [GetAverage(menuId)] && ratingId == old(ratingId) && userRating == old(userRating)
      ensures Truthy(menuId) && average.Err? ==> this.average == old(this.average)
      ensures Truthy(menuId) && average.Ok? && SignedIn() && own.Ok? && own.value.Some? ==>
                ratingId == own.value.value.id && userRating == own.value.value.ratingValue
      ensures Truthy(menuId) && average.Ok? && SignedIn() && own.Ok? && own.value.None? ==>
                ratingId == Null && userRating == 0
      ensures Truthy(menuId) && average.Ok? && SignedIn() && own.Err? ==>
                ratingId == old(ratingId) && userRating == old(userRating)
    {
      if !Truthy(menuId) {
        return;
      }
      sent := sent + [GetAverage(menuId)];
      if average.Err? {
        return;
      }
      this.average := AverageOrZero(average.value);
      if SignedIn() {
        Resync(own);
      }
    }

    /** `handleStarClick(rating)`, reached only when not loading: update the held rating or
        create one and adopt the id read back; on success the clicked value and a fresh average;
        on any failure the stored rating is read back. */
    method StarClick(rating: int, loading: bool, r: ClickReplies)
      modifies this`average, this`ratingId, this`userRating, this`sent
      ensures loading || !SignedIn() ==>
                sent == old(sent) && average == old(average) && ratingId == old(ratingId) && userRating == old(userRating)
      ensures !loading && SignedIn() && Truthy(old(ratingId)) ==>
                |sent| > |old(sent)| && sent[..|old(sent)| + 1] == old(sent) + [UpdateRating(old(ratingId), menuId, userId, rating)]
      ensures !loading && SignedIn() && !Truthy(old(ratingId)) ==>
                |sent| > |old(sent)| && sent[..|old(sent)| + 1] == old(sent) + [CreateRating(menuId, userId, rating)]
      ensures !loading && SignedIn() && Truthy(old(ratingId)) ==>
                sent == old(sent) + [UpdateRating(old(ratingId), menuId, userId, rating),
                                     if r.save.Done? then GetAverage(menuId) else GetUserRating(userId, menuId)]
      ensures !loading && SignedIn() && !Truthy(old(ratingId)) && r.save.Failed? ==>
                sent == old(sent) + [CreateRating(menuId, userId, rating), GetUserRating(userId, menuId)]
      ensures !loading && SignedIn() && !Truthy(old(ratingId)) && r.save.Done? ==>
                sent == old(sent) + [CreateRating(menuId, userId, rating), GetUserRating(userId, menuId),
                                     if r.created.Ok? then GetAverage(menuId) else GetUserRating(userId, menuId)]
      ensures !loading && SignedIn() && r.save.Done? && (Truthy(old(ratingId)) || r.created.Ok?) ==>
                userRating == rating
                && average == (if r.average.Ok? then AverageOrZero(r.average.value) else old(average))
      ensures !loading && SignedIn() && r.save.Done? && Truthy(old(ratingId)) ==> ratingId == old(ratingId)
      ensures !loading && SignedIn() && r.save.Done? && !Truthy(old(ratingId)) && r.created.Ok? ==>
                ratingId == (if r.created.value.Some? then r.created.value.value.id else old(ratingId))
      ensures !loading && SignedIn() && (r.save.Failed? || (!Truthy(old(ratingId)) && r.created.Err?)) ==>
                average == old(average)
                && (r.resync.Ok? && r.resync.value.Some? ==>
                      ratingId == r.resync.value.value.id && userRating == r.resync.value.value.ratingValue)
                && (r.resync.Ok? && r.resync.value.None? ==> ratingId == Null && userRating == 0)
                && (r.resync.Err? ==> ratingId == old(ratingId) && userRating == old(userRating))
    {
      if loading || !SignedIn() {
        return;
      }
      var ok := true;
      if Truthy(ratingId) {
        sent := sent + [UpdateRating(ratingId, menuId, userId, rating)];
        ok := r.save.Done?;
      } else {
        sent := sent + [CreateRating(menuId, userId, rating)];
        if r.save.Failed? {
          ok := false;
        } else {
          sent := sent + [GetUserRating(userId, menuId)];
          match r.created {
            case Ok(Some(made)) => ratingId := made.id;
            case Ok(None) =>
            case Err(_) => ok := false;
          }
        }
      }
      if ok {
        userRating := rating;
        RefreshAverage(r.average);
      } else {
        Resync(r.resync);
      }
    }

    /** `handleDeleteRating`: needs a user, a held rating and the user's confirmation; success
        forgets the rating and refreshes the average, failure changes nothing. */
    method DeleteOwnRating(confirmed: bool, reply: Reply, average: Result<Option<real>>)
      modifies this`average, this`ratingId, this`userRating, this`sent
      ensures !(SignedIn() && Truthy(old(ratingId)) && confirmed) ==>
                sent == old(sent) && ratingId == old(ratingId) && userRating == old(userRating) && this.average == old(this.average)
      ensures SignedIn() && Truthy(old(ratingId)) && confirmed && reply.Done? ==>
                ratingId == Null && userRating == 0 && sent == old(sent) + [DeleteRating(old(ratingId)), GetAverage(menuId)]
                && this.average == (if average.Ok? then AverageOrZero(average.value) else old(this.average))
      ensures SignedIn() && Truthy(old(ratingId)) && confirmed && reply.Failed? ==>
                ratingId == old(ratingId) && userRating == old(userRating) && sent == old(sent) + [DeleteRating(old(ratingId))]
                && this.average == old(this.average)
    {
      if !SignedIn() || !Truthy(ratingId) || !confirmed {
        return;
      }
      sent := sent + [DeleteRating(ratingId)];
      if reply.Done? {
        ratingId, userRating := Null, 0;
        RefreshAverage(average);
      }
    }

    /** Hovering a star highlights up to it; leaving clears the highlight; both are ignored while
        loading. */
    method Hover(star: int, loading: bool)
      modifies this`hoveredStar
      ensures hoveredStar == if loading then old(hoveredStar) else star
    {
      if !loading {
        hoveredStar := star;
      }
    }

    method Leave(loading: bool)
      modifies this`hoveredStar
      ensures hoveredStar == if loading then old(hoveredStar) else 0
    {
      if !loading {
        hoveredStar := 0;
      }
    }
  }

  /** The widget as it renders: `token` and `userId` are read from browser storage first, and
      a stored user text that is not JSON throws before the widget exists. */
  method RenderFromStorage(st: Session.Storage, menuId: Scalar) returns (r: Result<MenuRating>)
    ensures r.Ok? <==> StoredUser.StoredUserId(st).Ok?
    ensures r.Err? ==> r.message == StoredUser.StoredUserId(st).message
    ensures r.Ok? ==> fresh(r.value) && r.value.menuId == menuId
                      && (r.value.token, r.value.userId) == StoredUser.StoredUserId(st).value
                      && r.value.average == 0.0 && r.value.userRating == 0 && r.value.ratingId == Null
                      && r.value.hoveredStar == 0 && r.value.sent == []
  {
    match StoredUser.StoredUserId(st) {
      case Err(e) => r := Err(e);
      case Ok(id) =>
        var w := new MenuRating(menuId, id.0, id.1);
        r := Ok(w);
    }
  }

  /** Rating four and then deleting, with every call answered, shows no stars again. */
  method RateThenDelete() returns (filled: nat)
    ensures filled == 0
  {
    var w := new MenuRating(Num(1), Some("t"), Num(2));
    w.StarClick(4, false, ClickReplies(Done, Ok(Some(UserRating(Num(9), 4))), Ok(Some(4.0)), Ok(None)));
    assert w.ratingId == Num(9);
    w.DeleteOwnRating(true, Done, Ok(None));
    filled := FilledCount(5, w.hoveredStar, w.userRating);
    FilledStars(5, w.hoveredStar, w.userRating);
  }
}
