/** End-to-end runs of the handlers, proved from their contracts alone. */
module Scenarios {
  import opened Common
  import opened CaptchaCodes
  import opened Tokens
  import opened Invites
  import opened Registry
  import ServerBot
  import AppBot

  const Alice: UserId := 7
  const Owner: UserId := 1

  function Draws12345(): Draw5 { [1, 2, 3, 4, 5] }
  function Draws00000(): Draw5 { [0, 0, 0, 0, 0] }
  function Distractors(): (ds: seq<Draw5>)
    ensures |ds| == OptionCount - 1
  {
    seq(OptionCount - 1, _ => Draws00000())
  }

  /** The code built from draws 1..5 is not the all-zero distractor. */
  lemma CodeIsNotZeros()
    ensures GenerateCode(Draws12345()) != GenerateCode(Draws00000())
  {
    assert GenerateCode(Draws12345())[0] == '1';
  }

  /** A user starts, presses the button holding the code, gets the invite link, and the
      link's revocation timer removes it from the index again. */
  method SolveAndRevoke() returns (reply: ServerBot.CallbackReply, indexedAfterRevoke: bool)
    ensures reply == ServerBot.Solved(Some("https://t.me/+invite"))
    ensures !indexedAfterRevoke
  {
    var accounts := new Registry({Owner}, {});
    var bot := new ServerBot.ServerBot(accounts);
    var correct: Slot := 4;
    var start := bot.Start(Alice, 0, Draws12345(), Some(ServerBot.Upload("https://img", "img-1")), correct, Distractors());
    assert start.Challenge?;
    ChallengeAnswersWithCode(GenerateCode(Draws12345()), correct, Distractors());
    var button := start.keyboard[correct / 3][correct % 3];
    var released, request;
    reply, released, request := bot.OnCallback(Alice, button.callbackData, 1000, Some("https://t.me/+invite"));
    assert released == Some("img-1") && request == Some(InviteRequest(61, 1));
    assert bot.invites.activeInviteLinks[Alice] == "https://t.me/+invite";
    var revoked := bot.invites.Revoke(0, 61000);
    indexedAfterRevoke := Alice in bot.invites.activeInviteLinks;
  }

  /** Three wrong answers in a row end the session; a fourth finds no session. */
  method ThreeWrongAnswers() returns (replies: seq<ServerBot.CallbackReply>)
    ensures replies == [ServerBot.Incorrect(2), ServerBot.Incorrect(1), ServerBot.AttemptsExceeded, ServerBot.NoActiveSession]
  {
    var accounts := new Registry({}, {});
    var bot := new ServerBot.ServerBot(accounts);
    var start := bot.Start(Alice, 0, Draws12345(), Some(ServerBot.Upload("https://img", "img-1")), 0, Distractors());
    var wrong := Token(1, GenerateCode(Draws00000()));
    DigitStringFree(GenerateCode(Draws00000()));
    TokenRoundTrip(1, GenerateCode(Draws00000()));
    CodeIsNotZeros();
    var r1, x1, q1 := bot.OnCallback(Alice, wrong, 10, None);
    var r2, x2, q2 := bot.OnCallback(Alice, wrong, 20, None);
    var r3, x3, q3 := bot.OnCallback(Alice, wrong, 30, None);
    var r4, x4, q4 := bot.OnCallback(Alice, wrong, 40, None);
    replies := [r1, r2, r3, r4];
  }

  /** A session is kept at exactly five minutes and swept one millisecond later; a press
      after the sweep finds no session. */
  method ExpiryIsStrict() returns (keptAtLimit: bool, reply: ServerBot.CallbackReply)
    ensures keptAtLimit
    ensures reply == ServerBot.NoActiveSession
  {
    var accounts := new Registry({}, {});
    var bot := new ServerBot.ServerBot(accounts);
    var start := bot.Start(Alice, 1000, Draws12345(), None, 0, Distractors());
    assert start == ServerBot.ImageError;
    var expired := bot.Sweep(1000 + ServerBot.CaptchaTimeoutMs);
    keptAtLimit := Alice in bot.userCaptchaData;
    expired := bot.Sweep(1000 + ServerBot.CaptchaTimeoutMs + 1);
    TokenRoundTrip(0, GenerateCode(Draws12345()));
    DigitStringFree(GenerateCode(Draws12345()));
    var released, request;
    reply, released, request := bot.OnCallback(Alice, Token(0, GenerateCode(Draws12345())), 400000, None);
  }

  /** A non-admin cannot add an admin; the set is unchanged. */
  method UnauthorizedAdd() returns (reply: AdminReply, admins: set<UserId>)
    ensures reply == NotAuthorizedForAdmins && admins == {Owner}
  {
    var accounts := new Registry({Owner}, {});
    Decimal.ParseNatToString(Alice);
    reply := accounts.AddAdmin(Alice, Some(Decimal.NatToString(Alice)));
    admins := accounts.adminIds;
  }

  /** An admin adds a user, a second add reports a duplicate, and removing the user
      restores the original admin set. */
  method AddThenRemove() returns (duplicate: AdminReply, admins: set<UserId>)
    ensures duplicate == AlreadyAdmin(Alice)
    ensures admins == {Owner}
  {
    var accounts := new Registry({Owner}, {});
    var arg := Some(Decimal.NatToString(Alice));
    Decimal.ParseNatToString(Alice);
    var added := accounts.AddAdmin(Owner, arg);
    duplicate := accounts.AddAdmin(Owner, arg);
    var removed := accounts.RemoveAdmin(Owner, arg);
    admins := accounts.adminIds;
  }

  /** `/add admin 00` parses to 0 and is rejected like a missing id. */
  method ZeroIdRejected() returns (reply: AdminReply)
    ensures reply == InvalidAdminId
  {
    var accounts := new Registry({Owner}, {});
    reply := accounts.AddAdmin(Owner, Some("00"));
  }

  /** A token with three parts is refused and the session is untouched. */
  method MalformedToken() returns (reply: AppBot.CallbackReply, attempts: nat)
    ensures reply == AppBot.InvalidResponse && attempts == 0
  {
    var accounts := new Registry({}, {});
    var bot := new AppBot.AppBot(accounts);
    var keyboard := bot.Start(Alice, Draws12345(), 0, Distractors());
    var parts := ["captcha", "option", "12345"];
    SplitJoin(parts, Separator);
    assert parts[1..][1..] == ["12345"];
    assert Join(parts, Separator) == "captcha_option_12345";
    var request;
    reply, request := bot.OnCallback(Alice, "captcha_option_12345", 0, None);
    attempts := bot.userCaptchaData[Alice].attempts;
  }

  /** Solving twice within a minute: the first link's timer deletes the user's entry,
      which by then holds the second link. */
  method EarlierTimerDropsNewerLink() returns (secondIndexed: bool)
    ensures !secondIndexed
  {
    var accounts := new Registry({}, {});
    var bot := new AppBot.AppBot(accounts);
    var code := GenerateCode(Draws12345());
    DigitStringFree(code);
    TokenRoundTrip(0, code);
    var keyboard := bot.Start(Alice, Draws12345(), 0, Distractors());
    var r1, q1 := bot.OnCallback(Alice, Token(0, code), 0, Some("first"));
    keyboard := bot.Start(Alice, Draws12345(), 0, Distractors());
    var r2, q2 := bot.OnCallback(Alice, Token(0, code), 10000, Some("second"));
    assert bot.invites.pendingRevocations == [Revocation(Alice, "first", 60000), Revocation(Alice, "second", 70000)];
    var revoked := bot.invites.Revoke(0, 60000);
    secondIndexed := Alice in bot.invites.activeInviteLinks;
  }
}
