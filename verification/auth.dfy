/** The authentication gate placed in front of the credits, image and payment
    routes: a `token` header is verified and resolved to a stored user, which is
    attached to the request; any failure ends the request with 401. */
module Auth {
  import opened Values
  import opened ObjectIds
  import opened Store
  import opened Environment
  import opened Envelope

  /** Either the request continues (`next()` is invoked once) with the attached
      user, or it ends with the given response. */
  datatype Gate = Next(user: UserDoc) | Stop(resp: Response)

  const NoTokenMessage := "No token provided"
  const InvalidTokenMessage := "Invalid token"

  /** The user id a token denotes: None when verification throws or the claim
      does not cast to an ObjectId; Some(None) when the `id` claim is absent. */
  function DecodedId(token: string, secret: Option<string>, verify: string -> Option<Claims>): (r: Option<Option<ObjectId>>)
    ensures !Present(secret) ==> r.None?
    ensures forall s :: Present(secret) && verify(token) == Some(Claims(Some(s))) ==> (r.Some? <==> Cast(s).Some?)
  {
    if !Present(secret) then None
    else match verify(token)
      case None => None
      case Some(Claims(None)) => Some(None)
      case Some(Claims(Some(s))) =>
        match Cast(s)
        case None => None
        case Some(id) => Some(Some(id))
  }

  /** The gate. It never sees a store it could change: it only reads `users`. */
  function UserAuth(token: Option<string>, users: seq<UserDoc>, secret: Option<string>, verify: string -> Option<Claims>): (g: Gate)
    ensures !Present(token) ==> g == Stop(Fail(401, NoTokenMessage))
    ensures g.Stop? ==> g.resp.status == 401 && !g.resp.success && g.resp.body == NoBody
    ensures g.Stop? ==> g.resp.message in {NoTokenMessage, InvalidTokenMessage, UserNotFoundMessage}
    ensures Present(token) && DecodedId(token.value, secret, verify).None? ==> g == Stop(Fail(401, InvalidTokenMessage))
    ensures Present(token) && DecodedId(token.value, secret, verify).Some? && g.Stop? ==>
              g == Stop(Fail(401, UserNotFoundMessage))
    ensures g.Next? <==>
              Present(token)
              && DecodedId(token.value, secret, verify).Some?
              && DecodedId(token.value, secret, verify).value.Some?
              && UserIdTaken(users, DecodedId(token.value, secret, verify).value.value)
    ensures g.Next? ==> g.user in users && Some(Some(g.user.id)) == DecodedId(token.value, secret, verify)
    ensures g.Next? ==> forall j :: 0 <= j < |users| && users[j].id == g.user.id ==> UserIndex(users, g.user.id).value <= j
    ensures g.Next? ==> users[UserIndex(users, g.user.id).value] == g.user
  {
    if !Present(token) then Stop(Fail(401, NoTokenMessage))
    else match DecodedId(token.value, secret, verify)
      case None => Stop(Fail(401, InvalidTokenMessage))
      case Some(None) => Stop(Fail(401, UserNotFoundMessage))
      case Some(Some(id)) =>
        match UserIndex(users, id)
        case None => Stop(Fail(401, UserNotFoundMessage))
        case Some(i) => Next(users[i])
  }

  /** A token issued for a stored user's id by an honest token service lets that
      user through, and the attached record is the stored one. */
  lemma IssuedTokenAuthenticates(users: seq<UserDoc>, i: nat, secret: Option<string>,
                                 sign: string -> string, verify: string -> Option<Claims>)
    requires HonestTokens(sign, verify)
    requires Present(secret)
    requires UniqueUserIds(users)
    requires i < |users|
    ensures UserAuth(Some(sign(ToHex(users[i].id))), users, secret, verify) == Next(users[i])
  {
    var id := users[i].id;
    CastToHex(id);
    assert verify(sign(ToHex(id))) == Some(Claims(Some(ToHex(id))));
    assert DecodedId(sign(ToHex(id)), secret, verify) == Some(Some(id));
    UserIndexOfStored(users, i);
  }
}
