/** The image controller: the paid action. A request passes the input, balance
    and configuration checks, the text-to-image provider is called, and only a
    successful call costs the user exactly one credit. */
module ImageController {
  import opened Values
  import opened ObjectIds
  import opened Store
  import opened Environment
  import opened Envelope

  const MissingInputMessage := "User or prompt is missing"
  const InvalidBalanceMessage := "Invalid credit balance detected"
  const NoCreditMessage := "No Credit Balance"
  const MissingKeyMessage := "API Key is missing"
  const GeneratedMessage := "Image Generated"
  /** The data-URL prefix put in front of the provider's base64 image. */
  const ImagePrefix := "data:image/png;base64,"

  /** The attached user's balance, as the request saw it, allows one paid call. */
  predicate HasCredit(user: UserDoc)
  {
    user.creditBalance.Number? && user.creditBalance.value > 0
  }

  /** `generateImage`. `user` is the record the gate attached (a snapshot read
      by the gate); the decrement is applied to the stored document with that
      user's id, and `textToImage(prompt, apiKey)` is the provider's answer. */
  function GenerateImage(user: Option<UserDoc>, prompt: Option<string>, store: Store, env: Env,
                         textToImage: (string, string) -> ImageReply): (out: Outcome)
    ensures out.store.txns == store.txns
    ensures user.None? || !Present(prompt) ==> out == Reject(400, MissingInputMessage, store)
    ensures user.Some? && Present(prompt) && user.value.creditBalance.NotANumber? ==>
              out == Outcome(Response(500, false, InvalidBalanceMessage, BadBalance(user.value)), store, NoCall)
    ensures user.Some? && Present(prompt) && user.value.creditBalance.Number? && !HasCredit(user.value) ==>
              out == Outcome(Response(200, false, NoCreditMessage, Declined(user.value.creditBalance)), store, NoCall)
    ensures user.Some? && Present(prompt) && HasCredit(user.value) && !Present(env.clipdropKey) ==>
              out == Reject(500, MissingKeyMessage, store)
    ensures out.call.TextToImage? <==> user.Some? && Present(prompt) && HasCredit(user.value) && Present(env.clipdropKey)
    ensures out.call.TextToImage? ==> out.call == TextToImage(prompt.value, env.clipdropKey.value)
    ensures !out.resp.success ==> out.store == store
    ensures out.call.TextToImage? && textToImage(prompt.value, env.clipdropKey.value).ImageFailed? ==>
              out.resp == Fail(500, textToImage(prompt.value, env.clipdropKey.value).message)
    ensures out.resp.success <==>
              out.call.TextToImage?
              && textToImage(prompt.value, env.clipdropKey.value).ImageData?
              && UserIdTaken(store.users, user.value.id)
    ensures out.resp.success ==>
              var i := UserIndex(store.users, user.value.id).value;
              && out.store.users == store.users[i := store.users[i].(creditBalance := AddCredits(store.users[i].creditBalance, -1))]
              && out.resp.body == Image(out.store.users[i].creditBalance,
                                        ImagePrefix + textToImage(prompt.value, env.clipdropKey.value).base64)
  {
    if user.None? || !Present(prompt) then Reject(400, MissingInputMessage, store)
    else
      var u := user.value;
      if u.creditBalance.NotANumber? then
        Outcome(Response(500, false, InvalidBalanceMessage, BadBalance(u)), store, NoCall)
      else if u.creditBalance.value <= 0 then
        Outcome(Response(200, false, NoCreditMessage, Declined(u.creditBalance)), store, NoCall)
      else if !Present(env.clipdropKey) then Reject(500, MissingKeyMessage, store)
      else
        var call := TextToImage(prompt.value, env.clipdropKey.value);
        match textToImage(prompt.value, env.clipdropKey.value)
        case ImageFailed(message) => Outcome(Fail(500, message), store, call)
        case ImageData(base64) =>
          var resultImage := ImagePrefix + base64;
          match UserIndex(store.users, u.id)
          case None => Outcome(Fail(500, NullBalanceError), store, call)
          case Some(i) =>
            var updated := store.users[i].(creditBalance := AddCredits(store.users[i].creditBalance, -1));
            var users := store.users[i := updated];
            Outcome(Response(200, true, GeneratedMessage, Image(updated.creditBalance, resultImage)), store.(users := users), call)
  }

  /** When the attached record is the stored one (as it is when the gate has
      just read it), a successful call lowers that stored balance by exactly
      one, and a balance that was not negative stays not negative whatever
      the outcome. */
  lemma ChargeIsOneCredit(user: UserDoc, prompt: Option<string>, store: Store, env: Env,
                          textToImage: (string, string) -> ImageReply, i: nat)
    requires UniqueUserIds(store.users)
    requires i < |store.users| && store.users[i] == user
    ensures var out := GenerateImage(Some(user), prompt, store, env, textToImage);
            && |out.store.users| == |store.users|
            && (out.resp.success ==>
                  && out.store.users[i].creditBalance == Number(user.creditBalance.value - 1)
                  && out.resp.body.creditBalance == out.store.users[i].creditBalance
                  && forall j :: 0 <= j < |store.users| && j != i ==> out.store.users[j] == store.users[j])
            && (NonNegative(user.creditBalance) ==> NonNegative(out.store.users[i].creditBalance))
  {
    UserIndexOfStored(store.users, i);
  }
}
