/** The two JSON-backed sets, `adminIds` and `subscribedUsers`, and the handlers that
    maintain them: `/add`, `/remove`, `/sendtousers`, `/listusers` and the subscription
    done by `/start`. Saving a set to its file is not modelled. */
module Registry {
  import opened Common
  import opened Decimal
  import opened TextHelpers

  /** The capture group `(\d+)` of the `/add` and `/remove` patterns, when present, is a
      non-empty digit string. */
  predicate WellFormedIdArgument(arg: Option<string>) {
    arg.Some? ==> |arg.value| > 0 && IsDigitString(arg.value)
  }

  /** `match[1] ? parseInt(match[1], 10) : null` followed by `!id`: an absent argument and
      one that parses to 0 are both rejected, so an argument made only of zeros counts as
      missing. */
  function MissingId(arg: Option<string>): (missing: bool)
    requires WellFormedIdArgument(arg)
    ensures missing <==> arg.None? || forall i :: 0 <= i < |arg.value| ==> arg.value[i] == '0'
  {
    arg.None? || ParseDecimal(arg.value) == 0
  }

  function ArgumentId(arg: Option<string>): nat
    requires WellFormedIdArgument(arg) && arg.Some?
  {
    ParseDecimal(arg.value)
  }

  datatype AdminReply =
    | InvalidAdminId
    | NotAuthorizedForAdmins
    | AlreadyAdmin(id: nat)
    | NotAnAdmin(id: nat)
    | AdminAdded(id: nat)
    | AdminRemoved(id: nat)

  /** One delivery attempt of `bot.sendMessage(user, message)` in the broadcast loop. */
  datatype Delivery =
    | Delivered
    | SendFailed(hasResponse: bool, statusCode: int, errorCode: int, description: string)

  /** The broadcast prunes a subscriber only on a 400 response whose description contains
      `PARTICIPANT_ID_INVALID`. */
  predicate PrunesRecipient(d: Delivery) {
    && d.SendFailed?
    && d.hasResponse
    && d.statusCode == 400
    && d.errorCode == 400
    && Contains(d.description, "PARTICIPANT_ID_INVALID")
  }

  datatype BroadcastReply = NotAuthorizedToSend | SentToAll

  /** The outcome of `bot.getChat(userId)`; an absent `last_name` is the empty string. */
  datatype ChatLookup =
    | LookupFailed(message: string)
    | ChatFound(username: string, firstName: string, lastName: string)

  /** `if (user.username)`: the lookup succeeded and the user has a username. */
  predicate HasUsername(l: ChatLookup) {
    l.ChatFound? && l.username != ""
  }

  /** What the `/listusers` loop appends to `userDetails` for one subscriber: nothing for a
      user found without a username, otherwise one newline-terminated line, whose two
      shortened names keep a listed user's line within 70 characters. */
  function DetailLine(u: UserId, l: ChatLookup): (line: string)
    ensures l.ChatFound? ==> (line != "" <==> HasUsername(l))
    ensures line != "" ==> line[|line| - 1] == '\n'
    ensures HasUsername(l) ==> |line| <= 2 * (MaxNameLength + 3) + 4
  {
    match l
    case LookupFailed(message) =>
      "Error retrieving user ID " + NatToString(u) + ": " + message + "\n"
    case ChatFound(username, firstName, lastName) =>
      if username != "" then
        Truncate(firstName + " " + lastName) + " (" + Truncate("@" + username) + ")\n"
      else ""
  }

  /** The lines appended for the subscribers in `order`, in that order. */
  function Details(order: seq<UserId>, lookup: UserId -> ChatLookup): string {
    if order == [] then ""
    else Details(order[..|order| - 1], lookup) + DetailLine(order[|order| - 1], lookup(order[|order| - 1]))
  }

  /** The users `/listusers` keeps in `validUsers`. */
  function Kept(order: seq<UserId>, lookup: UserId -> ChatLookup): (kept: set<UserId>)
    ensures kept <= set u | u in order
    ensures forall u :: u in kept ==> HasUsername(lookup(u))
  {
    if order == [] then {}
    else
      var u := order[|order| - 1];
      Kept(order[..|order| - 1], lookup) + (if HasUsername(lookup(u)) then {u} else {})
  }

  /** The users the loop deletes from `subscribedUsers` while it runs. */
  function Dropped(order: seq<UserId>, lookup: UserId -> ChatLookup): (dropped: set<UserId>)
    ensures dropped <= set u | u in order
    ensures forall u :: u in dropped ==> !HasUsername(lookup(u))
  {
    if order == [] then {}
    else
      var u := order[|order| - 1];
      Dropped(order[..|order| - 1], lookup) + (if HasUsername(lookup(u)) then {} else {u})
  }

  /** The users kept are exactly those listed whose lookup found a username. */
  lemma {:induction false} KeptIsFilter(order: seq<UserId>, lookup: UserId -> ChatLookup)
    ensures Kept(order, lookup) == set u | u in order && HasUsername(lookup(u))
  {
    if order != [] {
      var init := order[..|order| - 1];
      KeptIsFilter(init, lookup);
      assert order == init + [order[|order| - 1]];
    }
  }

  /** The users dropped are exactly those listed whose lookup found no username. */
  lemma {:induction false} DroppedIsFilter(order: seq<UserId>, lookup: UserId -> ChatLookup)
    ensures Dropped(order, lookup) == set u | u in order && !HasUsername(lookup(u))
  {
    if order != [] {
      var init := order[..|order| - 1];
      DroppedIsFilter(init, lookup);
      assert order == init + [order[|order| - 1]];
    }
  }

  /** `order` is `Array.from(users)`: every member of `users` exactly once. */
  predicate Enumerates(order: seq<UserId>, users: set<UserId>) {
    && (forall u :: u in users ==> u in order)
    && (forall i :: 0 <= i < |order| ==> order[i] in users)
    && (forall i, j :: 0 <= i < j < |order| ==> order[i] != order[j])
  }

  /** One more step of the `/listusers` loop appends the next subscriber's line and
      decides whether that subscriber is kept or dropped. */
  lemma ListingStep(order: seq<UserId>, i: nat, lookup: UserId -> ChatLookup)
    requires i < |order|
    ensures Details(order[..i + 1], lookup) == Details(order[..i], lookup) + DetailLine(order[i], lookup(order[i]))
    ensures Kept(order[..i + 1], lookup) == Kept(order[..i], lookup) + (if HasUsername(lookup(order[i])) then {order[i]} else {})
    ensures Dropped(order[..i + 1], lookup) == Dropped(order[..i], lookup) + (if HasUsername(lookup(order[i])) then {} else {order[i]})
  {
    assert order[..i + 1][..i] == order[..i];
  }

  /** Over an enumeration of a set, the users kept are the members with a username. */
  lemma KeptFromEnumeration(order: seq<UserId>, users: set<UserId>, lookup: UserId -> ChatLookup)
    requires Enumerates(order, users)
    ensures Kept(order, lookup) == set u | u in users && HasUsername(lookup(u))
  {
    KeptIsFilter(order, lookup);
  }

  lemma AppendAssociative(a: string, b: string, c: string)
    ensures a + b + c == a + (b + c)
  {
  }

  datatype ListReply = NotAuthorizedToList | NoSubscribers | UserList(chunks: seq<string>)

  /** The header line of the `/listusers` reply. */
  const ListHeader := "Subscribed users:\n"

  class Registry {
    var adminIds: set<UserId>
    var subscribedUsers: set<UserId>

    /** The sets as `loadAdmins` and `loadSubscribers` read them at start-up. */
    constructor (admins: set<UserId>, subscribers: set<UserId>)
      ensures adminIds == admins && subscribedUsers == subscribers
    {
      adminIds := admins;
      subscribedUsers := subscribers;
    }

    /** `subscribedUsers.add(userId)` in `/start`. */
    method Subscribe(userId: UserId)
      modifies this`subscribedUsers
      ensures subscribedUsers == old(subscribedUsers) + {userId}
    {
      subscribedUsers := subscribedUsers + {userId};
    }

    /** `/add admin <id>`: the id must be present and non-zero, the caller an admin and the
        target not yet one; only then does `adminIds` gain exactly the target. */
    method AddAdmin(caller: UserId, arg: Option<string>) returns (reply: AdminReply)
      requires WellFormedIdArgument(arg)
      modifies this`adminIds
      ensures MissingId(arg) ==> reply == InvalidAdminId && adminIds == old(adminIds)
      ensures !MissingId(arg) && caller !in old(adminIds) ==>
        reply == NotAuthorizedForAdmins && adminIds == old(adminIds)
      ensures !MissingId(arg) && caller in old(adminIds) && ArgumentId(arg) in old(adminIds) ==>
        reply == AlreadyAdmin(ArgumentId(arg)) && adminIds == old(adminIds)
      ensures !MissingId(arg) && caller in old(adminIds) && ArgumentId(arg) !in old(adminIds) ==>
        reply == AdminAdded(ArgumentId(arg)) && adminIds == old(adminIds) + {ArgumentId(arg)}
    {
      if MissingId(arg) {
        reply := InvalidAdminId;
        return;
      }
      var newAdminId := ParseDecimal(arg.value);
      if caller !in adminIds {
        reply := NotAuthorizedForAdmins;
        return;
      }
      if newAdminId in adminIds {
        reply := AlreadyAdmin(newAdminId);
        return;
      }
      adminIds := adminIds + {newAdminId};
      reply := AdminAdded(newAdminId);
    }

    /** `/remove admin <id>`: the id must be present and non-zero, the caller an admin and
        the target an admin; only then does `adminIds` lose exactly the target. */
    method RemoveAdmin(caller: UserId, arg: Option<string>) returns (reply: AdminReply)
      requires WellFormedIdArgument(arg)
      modifies this`adminIds
      ensures MissingId(arg) ==> reply == InvalidAdminId && adminIds == old(adminIds)
      ensures !MissingId(arg) && caller !in old(adminIds) ==>
        reply == NotAuthorizedForAdmins && adminIds == old(adminIds)
      ensures !MissingId(arg) && caller in old(adminIds) && ArgumentId(arg) !in old(adminIds) ==>
        reply == NotAnAdmin(ArgumentId(arg)) && adminIds == old(adminIds)
      ensures !MissingId(arg) && caller in old(adminIds) && ArgumentId(arg) in old(adminIds) ==>
        reply == AdminRemoved(ArgumentId(arg)) && adminIds == old(adminIds) - {ArgumentId(arg)}
    {
      if MissingId(arg) {
        reply := InvalidAdminId;
        return;
      }
      var adminIdToRemove := ParseDecimal(arg.value);
      if caller !in adminIds {
        reply := NotAuthorizedForAdmins;
        return;
      }
      if adminIdToRemove !in adminIds {
        reply := NotAnAdmin(adminIdToRemove);
        return;
      }
      adminIds := adminIds - {adminIdToRemove};
      reply := AdminRemoved(adminIdToRemove);
    }

    /** `/sendtousers <msg>`: for an admin, every subscriber is sent the message and those
        whose delivery fails with `PARTICIPANT_ID_INVALID` are pruned; for anyone else
        nothing changes. */
    method Broadcast(caller: UserId, delivery: UserId -> Delivery) returns (reply: BroadcastReply)
      modifies this`subscribedUsers
      ensures caller !in adminIds ==> reply == NotAuthorizedToSend && subscribedUsers == old(subscribedUsers)
      ensures caller in adminIds ==>
        && reply == SentToAll
        && subscribedUsers == set u | u in old(subscribedUsers) && !PrunesRecipient(delivery(u))
    {
      if caller !in adminIds {
        reply := NotAuthorizedToSend;
        return;
      }
      var toVisit := subscribedUsers;
      while toVisit != {}
        invariant toVisit <= old(subscribedUsers)
        invariant subscribedUsers == set u | u in old(subscribedUsers) && (u in toVisit || !PrunesRecipient(delivery(u)))
        decreases toVisit
      {
        var user :| user in toVisit;
        if PrunesRecipient(delivery(user)) {
          subscribedUsers := subscribedUsers - {user};
        }
        toVisit := toVisit - {user};
      }
      reply := SentToAll;
    }

    /** The lookup loop of `/listusers`: appends one line per subscriber in `order`, collects
        the users with a username in `validUsers`, and deletes the others from
        `subscribedUsers` as it goes. */
    method LookUpAll(order: seq<UserId>, lookup: UserId -> ChatLookup) returns (userDetails: string, validUsers: set<UserId>)
      modifies this`subscribedUsers
      ensures userDetails == ListHeader + Details(order, lookup)
      ensures validUsers == Kept(order, lookup)
      ensures subscribedUsers == old(subscribedUsers) - Dropped(order, lookup)
    {
      userDetails := ListHeader;
      validUsers := {};
      for i := 0 to |order|
        invariant userDetails == ListHeader + Details(order[..i], lookup)
        invariant validUsers == Kept(order[..i], lookup)
        invariant subscribedUsers == old(subscribedUsers) - Dropped(order[..i], lookup)
      {
        var userId := order[i];
        ListingStep(order, i, lookup);
        var line := DetailLine(userId, lookup(userId));
        if HasUsername(lookup(userId)) {
          validUsers := validUsers + {userId};
        } else {
          subscribedUsers := subscribedUsers - {userId};
        }
        AppendAssociative(ListHeader, Details(order[..i], lookup), line);
        userDetails := userDetails + line;
      }
      assert order[..|order|] == order;
    }

    /** `/listusers`: for an admin with subscribers, looks every subscriber up in the order of
        `Array.from(subscribedUsers)`, lists those with a username, reports lookup errors,
        and leaves in `subscribedUsers` exactly the users with a username; the listing is
        sent in chunks of at most 4096 characters. */
    method ListUsers(caller: UserId, order: seq<UserId>, lookup: UserId -> ChatLookup) returns (reply: ListReply)
      requires Enumerates(order, subscribedUsers)
      modifies this`subscribedUsers
      ensures caller !in adminIds ==> reply == NotAuthorizedToList && subscribedUsers == old(subscribedUsers)
      ensures caller in adminIds && old(subscribedUsers) == {} ==>
        reply == NoSubscribers && subscribedUsers == old(subscribedUsers)
      ensures caller in adminIds && old(subscribedUsers) != {} ==>
        && subscribedUsers == set u | u in old(subscribedUsers) && HasUsername(lookup(u))
        && reply.UserList?
        && Concat(reply.chunks) == ListHeader + Details(order, lookup)
        && forall k :: 0 <= k < |reply.chunks| ==> 0 < |reply.chunks[k]| <= ChunkSize
    {
      if caller !in adminIds {
        reply := NotAuthorizedToList;
        return;
      }
      if |order| == 0 {
        assert subscribedUsers == {};
        reply := NoSubscribers;
        return;
      }
      var userDetails, validUsers := LookUpAll(order, lookup);
      KeptFromEnumeration(order, old(subscribedUsers), lookup);
      subscribedUsers := validUsers;
      var chunks := ChunkMessage(userDetails, ChunkSize);
      reply := UserList(chunks);
    }
  }
}
