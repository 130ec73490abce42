/** Single-use invite links: the request `generateTimeLimitedLink` makes, and the
    `activeInviteLinks` index with the one-minute revocation timers. */
module Invites {
  import opened Common

  /** Delay of the `setTimeout` that revokes an issued link, in milliseconds. */
  const InviteLifetimeMs := 60000
  /** Validity of a link, in seconds, added to the current time for `expire_date`. */
  const InviteValiditySeconds := 60

  /** The options passed to `createChatInviteLink`. */
  datatype InviteRequest = InviteRequest(expireDate: nat, memberLimit: nat)

  /** `{ expire_date: Math.floor(Date.now() / 1000) + 60, member_limit: 1 }`: the expiry is
      the first whole second at least 60 s after the start of the current second, and the
      link admits one member. */
  function RequestAt(nowMs: nat): (r: InviteRequest)
    ensures r.memberLimit == 1
    ensures (r.expireDate - InviteValiditySeconds) * 1000 <= nowMs < (r.expireDate - InviteValiditySeconds + 1) * 1000
    ensures r.expireDate >= InviteValiditySeconds
  {
    InviteRequest(nowMs / 1000 + InviteValiditySeconds, 1)
  }

  /** `if (channelInvite)`: a link was returned and it is not the empty string. */
  predicate LinkCreated(created: Option<string>) {
    created.Some? && created.value != ""
  }

  /** A pending `setTimeout` callback: at `dueMs` it revokes `link` and deletes the entry
      of `user` from `activeInviteLinks`. */
  datatype Revocation = Revocation(user: UserId, link: string, dueMs: nat)

  /** A revocation of `link` for `user` is pending. */
  ghost predicate Scheduled(pending: seq<Revocation>, user: UserId, link: string) {
    exists i :: 0 <= i < |pending| && pending[i].user == user && pending[i].link == link
  }

  /** `activeInviteLinks` together with the revocation timers not yet fired. */
  class InviteBook {
    var activeInviteLinks: map<UserId, string>
    var pendingRevocations: seq<Revocation>

    /** Every recorded link has a revocation pending for it. */
    ghost predicate Valid()
      reads this
    {
      forall u :: u in activeInviteLinks ==> Scheduled(pendingRevocations, u, activeInviteLinks[u])
    }

    constructor ()
      ensures Valid()
      ensures activeInviteLinks == map[] && pendingRevocations == []
    {
      activeInviteLinks := map[];
      pendingRevocations := [];
    }

    /** `activeInviteLinks[userId] = channelInvite` followed by the one-minute `setTimeout`. */
    method Record(userId: UserId, link: string, nowMs: nat)
      requires Valid()
      modifies this
      ensures Valid()
      ensures activeInviteLinks == old(activeInviteLinks)[userId := link]
      ensures pendingRevocations == old(pendingRevocations) + [Revocation(userId, link, nowMs + InviteLifetimeMs)]
    {
      var r := Revocation(userId, link, nowMs + InviteLifetimeMs);
      activeInviteLinks := activeInviteLinks[userId := link];
      pendingRevocations := pendingRevocations + [r];
      forall u | u in activeInviteLinks
        ensures Scheduled(pendingRevocations, u, activeInviteLinks[u])
      {
        if u == userId {
          assert pendingRevocations[|pendingRevocations| - 1] == r;
        } else {
          var i :| 0 <= i < |old(pendingRevocations)| && old(pendingRevocations)[i].user == u
            && old(pendingRevocations)[i].link == activeInviteLinks[u];
          assert pendingRevocations[i] == old(pendingRevocations)[i];
        }
      }
    }

    /** The timer callback of revocation `i`, run at `nowMs`: `revokeInviteLink(link)` (its
        outcome is only logged) and then `delete activeInviteLinks[userId]`. A timer fires
        only once it is due, and no pending timer falls due before it. The entry is deleted
        by user, so a later link of the same user is dropped from the index as well. */
    method Revoke(i: nat, nowMs: nat) returns (revoked: string)
      requires Valid()
      requires i < |pendingRevocations|
      requires pendingRevocations[i].dueMs <= nowMs
      requires forall j :: 0 <= j < |pendingRevocations| ==> pendingRevocations[i].dueMs <= pendingRevocations[j].dueMs
      modifies this
      ensures Valid()
      ensures revoked == old(pendingRevocations[i].link)
      ensures activeInviteLinks == old(activeInviteLinks) - {old(pendingRevocations[i].user)}
      ensures pendingRevocations == old(pendingRevocations[..i] + pendingRevocations[i + 1..])
    {
      var r := pendingRevocations[i];
      revoked := r.link;
      ghost var before := pendingRevocations;
      activeInviteLinks := activeInviteLinks - {r.user};
      pendingRevocations := pendingRevocations[..i] + pendingRevocations[i + 1..];
      forall u | u in activeInviteLinks
        ensures Scheduled(pendingRevocations, u, activeInviteLinks[u])
      {
        var j :| 0 <= j < |before| && before[j].user == u && before[j].link == activeInviteLinks[u];
        if j < i {
          assert pendingRevocations[j] == before[j];
        } else {
          assert j != i;
          assert pendingRevocations[j - 1] == before[j];
        }
      }
    }
  }
}
