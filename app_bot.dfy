/** The local-file entry point: the same captcha workflow with the image written to a local
    file, sessions without a creation time, and no expiry sweep. */
module AppBot {
  import opened Common
  import opened CaptchaCodes
  import opened Tokens
  import opened Invites
  import opened Registry

  /** The literal 3 of the wrong-answer branch. */
  const MaxAttempts := 3

  /** An entry of `userCaptchaData`: `{ code, attempts }`. */
  datatype Session = Session(code: string, attempts: nat)

  datatype CallbackReply =
    | InvalidResponse
    | NoActiveSession
    | Solved(invite: Option<string>)
    | IncorrectTryAgain
    | AttemptsExceeded

  /** The process-wide state of the local-file bot. */
  class AppBot {
    var userCaptchaData: map<UserId, Session>
    const invites: InviteBook
    const accounts: Registry

    /** Every live session holds a five-digit code and fewer than three failed attempts, and
        every recorded invite link has a revocation pending. */
    ghost predicate Valid()
      reads this, invites
    {
      && invites.Valid()
      && forall u :: u in userCaptchaData ==>
           IsCode(userCaptchaData[u].code) && userCaptchaData[u].attempts < MaxAttempts
    }

    constructor (accounts: Registry)
      ensures Valid() && fresh(invites)
      ensures userCaptchaData == map[]
      ensures invites.activeInviteLinks == map[] && invites.pendingRevocations == []
      ensures this.accounts == accounts
    {
      userCaptchaData := map[];
      invites := new InviteBook();
      this.accounts := accounts;
    }

    /** The `/start` handler: subscribes the user, replaces any session with a fresh one
        (attempts 0) and returns the 3x3 keyboard of options sent with the image. */
    method Start(userId: UserId, codeDraws: Draw5, correct: Slot, distractors: seq<Draw5>)
      returns (keyboard: seq<seq<Button>>)
      requires Valid()
      requires |distractors| == OptionCount - 1
      modifies this, accounts`subscribedUsers
      ensures Valid()
      ensures accounts.subscribedUsers == old(accounts.subscribedUsers) + {userId}
      ensures userCaptchaData == old(userCaptchaData)[userId := Session(GenerateCode(codeDraws), 0)]
      ensures keyboard == Keyboard(OptionList(GenerateCode(codeDraws), correct, distractors))
    {
      accounts.Subscribe(userId);
      var code := GenerateCode(codeDraws);
      userCaptchaData := userCaptchaData[userId := Session(code, 0)];
      var options := BuildOptions(code, correct, distractors);
      keyboard := Keyboard(options);
    }

    /** The `callback_query` handler. A malformed token, or a token from a user without a
        session, changes nothing. The correct code ends the session and asks for an invite
        link, which is recorded when one is returned. A wrong code counts one more attempt
        and the third ends the session. */
    method OnCallback(userId: UserId, data: string, nowMs: nat, created: Option<string>)
      returns (reply: CallbackReply, request: Option<InviteRequest>)
      requires Valid()
      modifies this, invites
      ensures Valid()
      ensures ParseToken(data).None? ==>
        && reply == InvalidResponse && request == None
        && userCaptchaData == old(userCaptchaData)
        && invites.activeInviteLinks == old(invites.activeInviteLinks)
        && invites.pendingRevocations == old(invites.pendingRevocations)
      ensures ParseToken(data).Some? && userId !in old(userCaptchaData) ==>
        && reply == NoActiveSession && request == None
        && userCaptchaData == old(userCaptchaData)
        && invites.activeInviteLinks == old(invites.activeInviteLinks)
        && invites.pendingRevocations == old(invites.pendingRevocations)
      ensures ParseToken(data).Some? && userId in old(userCaptchaData)
              && ParseToken(data).value == old(userCaptchaData)[userId].code ==>
        && userCaptchaData == old(userCaptchaData) - {userId}
        && request == Some(RequestAt(nowMs))
        && (if LinkCreated(created) then
              && reply == Solved(created)
              && invites.activeInviteLinks == old(invites.activeInviteLinks)[userId := created.value]
              && invites.pendingRevocations == old(invites.pendingRevocations) + [Revocation(userId, created.value, nowMs + InviteLifetimeMs)]
            else
              && reply == Solved(None)
              && invites.activeInviteLinks == old(invites.activeInviteLinks)
              && invites.pendingRevocations == old(invites.pendingRevocations))
      ensures ParseToken(data).Some? && userId in old(userCaptchaData)
              && ParseToken(data).value != old(userCaptchaData)[userId].code ==>
        && request == None
        && invites.activeInviteLinks == old(invites.activeInviteLinks)
        && invites.pendingRevocations == old(invites.pendingRevocations)
        && var s := old(userCaptchaData)[userId];
           if s.attempts + 1 >= MaxAttempts then
             reply == AttemptsExceeded && userCaptchaData == old(userCaptchaData) - {userId}
           else
             reply == IncorrectTryAgain && userCaptchaData == old(userCaptchaData)[userId := s.(attempts := s.attempts + 1)]
    {
      request := None;
      var selected := ParseToken(data);
      if selected.None? {
        reply := InvalidResponse;
        return;
      }
      if userId !in userCaptchaData {
        reply := NoActiveSession;
        return;
      }
      var captchaInfo := userCaptchaData[userId];
      if selected.value == captchaInfo.code {
        userCaptchaData := userCaptchaData - {userId};
        request := Some(RequestAt(nowMs));
        if LinkCreated(created) {
          invites.Record(userId, created.value, nowMs);
          reply := Solved(created);
        } else {
          reply := Solved(None);
        }
      } else {
        var attempts := captchaInfo.attempts + 1;
        if attempts >= MaxAttempts {
          reply := AttemptsExceeded;
          userCaptchaData := userCaptchaData - {userId};
        } else {
          reply := IncorrectTryAgain;
          userCaptchaData := userCaptchaData[userId := captchaInfo.(attempts := attempts)];
        }
      }
    }
  }
}
