/** The image-hosting entry point: per-user captcha sessions with a creation time and a
    hosted image id, the `/start` and `callback_query` handlers, and the minute-by-minute
    expiry sweep. */
module ServerBot {
  import opened Common
  import opened CaptchaCodes
  import opened Tokens
  import opened Invites
  import opened Registry

  /** `captchaTimeout`: five minutes, in milliseconds. */
  const CaptchaTimeoutMs := 5 * 60 * 1000
  /** `maxAttempts`, and the literal 3 of the wrong-answer branch. */
  const MaxAttempts := 3

  /** An entry of `userCaptchaData`: `{ code, attempts, timestamp }` plus the
      `captchaPublicID` stored once the image is hosted. */
  datatype Session = Session(code: string, attempts: nat, timestamp: nat, publicId: Option<string>)

  /** What `createCaptchaImage` resolves to: the upload's `url` and `public_id`. */
  datatype Upload = Upload(url: string, publicId: string)

  /** `!captchaImageURL || !captchaPublicID` is false: both are present and non-empty. */
  predicate UploadUsable(upload: Option<Upload>) {
    upload.Some? && upload.value.url != "" && upload.value.publicId != ""
  }

  /** The guard on `userAttempts` at the top of `/start`. */
  predicate AttemptLimitHit(userAttempts: map<UserId, nat>, userId: UserId) {
    userId in userAttempts && userAttempts[userId] >= MaxAttempts
  }

  /** `Date.now() - data.timestamp > captchaTimeout` (strict). */
  predicate Expired(s: Session, nowMs: nat) {
    nowMs - s.timestamp > CaptchaTimeoutMs
  }

  datatype StartReply =
    | AttemptLimitReached
    | ImageError
    | Challenge(imageUrl: string, keyboard: seq<seq<Button>>)

  datatype CallbackReply =
    | InvalidResponse
    | NoActiveSession
    | Solved(invite: Option<string>)
    | Incorrect(attemptsLeft: nat)
    | AttemptsExceeded

  /** The process-wide state of the image-hosting bot. */
  class ServerBot {
    var userCaptchaData: map<UserId, Session>
    /** Read by `/start` but never written by any handler. */
    var userAttempts: map<UserId, nat>
    const invites: InviteBook
    const accounts: Registry

    /** Every live session holds a five-digit code and fewer than three failed attempts, and
        every recorded invite link has a revocation pending. */
    ghost predicate Valid()
      reads this, invites
    {
      && invites.Valid()
      && forall u :: u in userCaptchaData ==>
           IsCode(userCaptchaData[u].code) && userCaptchaData[u].attempts < MaxAttempts
    }

    constructor (accounts: Registry)
      ensures Valid() && fresh(invites)
      ensures userCaptchaData == map[] && userAttempts == map[]
      ensures invites.activeInviteLinks == map[] && invites.pendingRevocations == []
      ensures this.accounts == accounts
    {
      userCaptchaData := map[];
      userAttempts := map[];
      invites := new InviteBook();
      this.accounts := accounts;
    }

    /** The `/start` handler. Unless the (never populated) `userAttempts` guard fires, the
        user is subscribed and a fresh session replaces any earlier one, before the image is
        produced; the earlier session's hosted image is not released. When hosting fails the
        session stays without an image id; otherwise the user gets the 3x3 keyboard of
        options and the session records the image id. */
    method Start(userId: UserId, nowMs: nat, codeDraws: Draw5, upload: Option<Upload>,
                 correct: Slot, distractors: seq<Draw5>) returns (reply: StartReply)
      requires Valid()
      requires |distractors| == OptionCount - 1
      modifies this, accounts`subscribedUsers
      ensures Valid()
      ensures userAttempts == old(userAttempts)
      ensures AttemptLimitHit(old(userAttempts), userId) ==>
        && reply == AttemptLimitReached
        && userCaptchaData == old(userCaptchaData)
        && accounts.subscribedUsers == old(accounts.subscribedUsers)
      ensures !AttemptLimitHit(old(userAttempts), userId) ==>
        && accounts.subscribedUsers == old(accounts.subscribedUsers) + {userId}
        && var code := GenerateCode(codeDraws);
           if UploadUsable(upload) then
             && userCaptchaData == old(userCaptchaData)[userId := Session(code, 0, nowMs, Some(upload.value.publicId))]
             && reply == Challenge(upload.value.url, Keyboard(OptionList(code, correct, distractors)))
           else
             && userCaptchaData == old(userCaptchaData)[userId := Session(code, 0, nowMs, None)]
             && reply == ImageError
    {
      if AttemptLimitHit(userAttempts, userId) {
        reply := AttemptLimitReached;
        return;
      }
      accounts.Subscribe(userId);
      var code := GenerateCode(codeDraws);
      userCaptchaData := userCaptchaData[userId := Session(code, 0, nowMs, None)];
      if !UploadUsable(upload) {
        reply := ImageError;
        return;
      }
      var options := BuildOptions(code, correct, distractors);
      reply := Challenge(upload.value.url, Keyboard(options));
      userCaptchaData := userCaptchaData[userId := userCaptchaData[userId].(publicId := Some(upload.value.publicId))];
    }

    /** The `callback_query` handler. A malformed token, or a token from a user without a
        session, changes nothing. The correct code ends the session, releases its image and
        asks for an invite link, which is recorded when one is returned. A wrong code counts
        one more attempt; the third ends the session and releases its image. `released` is
        the image id passed to `deleteCaptchaImage`, when the session has one. */
    method OnCallback(userId: UserId, data: string, nowMs: nat, created: Option<string>)
      returns (reply: CallbackReply, released: Option<string>, request: Option<InviteRequest>)
      requires Valid()
      modifies this, invites
      ensures Valid()
      ensures userAttempts == old(userAttempts)
      ensures ParseToken(data).None? ==>
        && reply == InvalidResponse && released == None && request == None
        && userCaptchaData == old(userCaptchaData)
        && invites.activeInviteLinks == old(invites.activeInviteLinks)
        && invites.pendingRevocations == old(invites.pendingRevocations)
      ensures ParseToken(data).Some? && userId !in old(userCaptchaData) ==>
        && reply == NoActiveSession && released == None && request == None
        && userCaptchaData == old(userCaptchaData)
        && invites.activeInviteLinks == old(invites.activeInviteLinks)
        && invites.pendingRevocations == old(invites.pendingRevocations)
      ensures ParseToken(data).Some? && userId in old(userCaptchaData)
              && ParseToken(data).value == old(userCaptchaData)[userId].code ==>
        && userCaptchaData == old(userCaptchaData) - {userId}
        && released == old(userCaptchaData)[userId].publicId
        && request == Some(RequestAt(nowMs))
        && (if LinkCreated(created) then
              && reply == Solved(created)
              && invites.activeInviteLinks == old(invites.activeInviteLinks)[userId := created.value]
              && invites.pendingRevocations == old(invites.pendingRevocations) + [Revocation(userId, created.value, nowMs + InviteLifetimeMs)]
            else
              && reply == Solved(None)
              && invites.activeInviteLinks == old(invites.activeInviteLinks)
              && invites.pendingRevocations == old(invites.pendingRevocations))
      ensures ParseToken(data).Some? && userId in old(userCaptchaData)
              && ParseToken(data).value != old(userCaptchaData)[userId].code ==>
        && request == None
        && invites.activeInviteLinks == old(invites.activeInviteLinks)
        && invites.pendingRevocations == old(invites.pendingRevocations)
        && var s := old(userCaptchaData)[userId];
           if s.attempts + 1 >= MaxAttempts then
             && reply == AttemptsExceeded && released == s.publicId
             && userCaptchaData == old(userCaptchaData) - {userId}
           else
             && reply == Incorrect(MaxAttempts - (s.attempts + 1)) && released == None
             && userCaptchaData == old(userCaptchaData)[userId := s.(attempts := s.attempts + 1)]
    {
      released, request := None, None;
      var selected := ParseToken(data);
      if selected.None? {
        reply := InvalidResponse;
        return;
      }
      if userId !in userCaptchaData {
        reply := NoActiveSession;
        return;
      }
      var captchaInfo := userCaptchaData[userId];
      if selected.value == captchaInfo.code {
        userCaptchaData := userCaptchaData - {userId};
        released := captchaInfo.publicId;
        request := Some(RequestAt(nowMs));
        if LinkCreated(created) {
          invites.Record(userId, created.value, nowMs);
          reply := Solved(created);
        } else {
          reply := Solved(None);
        }
      } else {
        var attempts := captchaInfo.attempts + 1;
        if attempts >= MaxAttempts {
          reply := AttemptsExceeded;
          released := captchaInfo.publicId;
          userCaptchaData := userCaptchaData - {userId};
        } else {
          reply := Incorrect(MaxAttempts - attempts);
          userCaptchaData := userCaptchaData[userId := captchaInfo.(attempts := attempts)];
        }
      }
    }

    /** One run of the `setInterval` callback over the keys present when it starts: it
        removes exactly the sessions older than five minutes (strictly) and returns them,
        their images to be released and their users notified. */
    method Sweep(nowMs: nat) returns (expired: map<UserId, Session>)
      requires Valid()
      modifies this
      ensures Valid()
      ensures userAttempts == old(userAttempts)
      ensures expired == map u | u in old(userCaptchaData) && Expired(old(userCaptchaData)[u], nowMs) :: old(userCaptchaData)[u]
      ensures userCaptchaData == map u | u in old(userCaptchaData) && !Expired(old(userCaptchaData)[u], nowMs) :: old(userCaptchaData)[u]
    {
      expired := map[];
      var keys := userCaptchaData.Keys;
      while keys != {}
        invariant keys <= old(userCaptchaData).Keys
        invariant userCaptchaData == map u | u in old(userCaptchaData) && (u in keys || !Expired(old(userCaptchaData)[u], nowMs)) :: old(userCaptchaData)[u]
        invariant expired == map u | u in old(userCaptchaData) && u !in keys && Expired(old(userCaptchaData)[u], nowMs) :: old(userCaptchaData)[u]
        invariant Valid() && userAttempts == old(userAttempts)
        decreases keys
      {
        var userId :| userId in keys;
        var data := userCaptchaData[userId];
        if nowMs - data.timestamp > CaptchaTimeoutMs {
          expired := expired[userId := data];
          userCaptchaData := userCaptchaData - {userId};
        }
        keys := keys - {userId};
      }
    }
  }
}
