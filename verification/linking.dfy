/** The linking transactions as they run on their tables. */
module Linking {
  import opened Sequences
  import opened LinkingExact
  import opened LinkingState

  class Links {
    var now: Time
    var instances: map<Id, Instance>
    var access: map<Token, Access>
    var history: map<Token, Used>
    var requests: map<Id, Request>
    var authorizations: map<Id, Authorization>
    ghost var minted: set<Token>
    ghost var asked: set<Source>
    ghost var grants: seq<Source>

    ghost function State(): State
      reads this
    {
      LinkingState.State(now, instances, access, history, requests, authorizations, minted, asked, grants)
    }

    /** The live instance a refresh token belongs to. */
    method HolderOf(token: Token) returns (holder: Option<Id>)
      ensures match holder
              case Some(i) => Accepts(State(), token, i)
              case None => forall i :: !Accepts(State(), token, i)
    {
      var found := set i | i in instances && instances[i].refresh == Some(token) && !instances[i].revoked;
      if found == {} {
        assert forall i | Accepts(State(), token, i) :: i in found;
        return None;
      }
      var i :| i in found;
      return Some(i);
    }

    method RevokeInstance(i: Id)
      modifies this`instances, this`access
      ensures State() == Revoked(old(State()), i)
      ensures if i in old(instances) && !old(instances)[i].revoked
              then instances == old(instances)[i := old(instances)[i].(refresh := None, revoked := true)]
                   && (forall t :: t in access <==> t in old(access) && old(access)[t].instance != i)
                   && (forall t | t in access :: access[t] == old(access)[t])
              else instances == old(instances) && access == old(access)
    {
      if i !in instances || instances[i].revoked { return; }
      instances := instances[i := instances[i].(refresh := None, revoked := true)];
      access := map t | t in access && access[t].instance != i :: access[t];
    }

    /** Puts the next pair in the place of an accepted token. */
    method TradeIn(token: Token, i: Id, pair: Pair)
      requires i in instances
      modifies this`instances, this`history, this`access, this`minted
      ensures State() == Rotate(old(State()), token, i, pair)
      ensures instances == old(instances)[i :=
                old(instances)[i].(refresh := Some(pair.refresh), lastSeen := Some(now), latest := pair.refresh)]
      ensures access == old(access)[pair.access := Access(i, now + 15 * 60)]
      ensures history == old(history)[token := Used(i, now + 90 * 24 * 60 * 60)]
    {
      instances := instances[i := instances[i].(refresh := Some(pair.refresh), lastSeen := Some(now),
                                                latest := pair.refresh)];
      history := history[token := Used(i, now + REFRESH_REUSE_WINDOW)];
      access := access[pair.access := Access(i, now + ACCESS_LIFETIME)];
      minted := minted + {pair.refresh, pair.access};
    }

    /** Rotates one refresh token and notices reuse. */
    method Refresh(token: Token, pair: Pair) returns (reply: RefreshReply, holder: Option<Id>)
      requires Minted(State(), pair)
      modifies this
      ensures Allowed(old(State()), Event.Refresh(token, holder, pair))
      ensures (reply, State()) == Refreshed(old(State()), token, holder, pair)
      ensures reply == Rotated <==>
        holder.Some? && now <= LastHeard(old(instances)[holder.value]) + 90 * 24 * 60 * 60
      ensures reply == Rotated ==>
        && instances == old(instances)[holder.value :=
             old(instances)[holder.value].(refresh := Some(pair.refresh), lastSeen := Some(now), latest := pair.refresh)]
        && access == old(access)[pair.access := Access(holder.value, now + 15 * 60)]
        && history == old(history)[token := Used(holder.value, now + 90 * 24 * 60 * 60)]
      ensures reply == Reuse <==> holder.None? && token in old(history) && now < old(history)[token].until
                                  && old(history)[token].instance in old(instances)
      ensures reply == Reuse ==> old(history)[token].instance in instances && instances[old(history)[token].instance].revoked
      ensures holder.Some? && reply != Rotated ==> holder.value in instances && instances[holder.value].revoked
    {
      ghost var s := State();
      holder := HolderOf(token);
      assert State() == s && (holder.None? ==> forall i :: !Accepts(s, token, i));
      assert holder.Some? ==> holder.value in instances && !instances[holder.value].revoked;
      hide Accepts;
      hide Minted;
      hide Rotate;
      if holder.None? {
        if token !in history || history[token].until <= now || history[token].instance !in instances {
          return NotACredential, holder;
        }
        RevokeInstance(history[token].instance);
        return Reuse, holder;
      }
      var i := holder.value;
      var lastActive := instances[i].linkedAt;
      if instances[i].lastSeen.Some? && instances[i].lastSeen.value > lastActive {
        lastActive := instances[i].lastSeen.value;
      }
      if now > lastActive + REFRESH_IDLE_LIFETIME {
        RevokeInstance(i);
        return NotACredential, holder;
      }
      TradeIn(token, i, pair);
      return Rotated, holder;
    }

    /** The instance behind an access token, marked as seen. */
    method Authenticate(token: Token) returns (found: Option<Id>)
      modifies this`instances
      ensures found == Authenticates(old(State()), token)
      ensures State() == Apply(old(State()), Event.Authenticate(token))
      ensures found.Some? <==>
        && token in access && now < access[token].expires && access[token].instance in old(instances)
        && !old(instances)[access[token].instance].revoked
      ensures found.Some? ==>
        && found.value == access[token].instance && found.value in old(instances)
        && instances == old(instances)[found.value := old(instances)[found.value].(lastSeen := Some(now))]
      ensures found.None? ==> instances == old(instances)
    {
      if token !in access || access[token].expires <= now { return None; }
      var i := access[token].instance;
      if i !in instances || instances[i].revoked { return None; }
      instances := instances[i := instances[i].(lastSeen := Some(now))];
      return Some(i);
    }

    method IssueGrant(source: Source, user: Id, instance: Id, pair: Pair)
      modifies this`instances, this`access, this`minted, this`grants
      ensures State() == Granted(old(State()), source, user, instance, pair)
      ensures instances == old(instances)[instance := Instance(user, source, Some(pair.refresh), now, None, false, pair.refresh)]
      ensures access == old(access)[pair.access := Access(instance, now + 15 * 60)]
    {
      instances := instances[instance := Instance(user, source, Some(pair.refresh), now, None, false, pair.refresh)];
      access := access[pair.access := Access(instance, now + ACCESS_LIFETIME)];
      minted := minted + {pair.refresh, pair.access};
      grants := grants + [source];
    }

    /** Checks one device request and gives tokens after approval. */
    method PollRequest(id: Id, instance: Id, pair: Pair) returns (reply: PollReply)
      modifies this
      ensures (reply, State()) == Poll(old(State()), id, instance, pair)
      ensures reply != Grant ==> instances == old(instances) && access == old(access)
      ensures reply == Grant ==>
        && id in old(requests) && old(requests)[id].approvedBy.Some?
        && instances == old(instances)[instance :=
             Instance(old(requests)[id].approvedBy.value, Device(id), Some(pair.refresh), now, None, false, pair.refresh)]
        && access == old(access)[pair.access := Access(instance, now + 15 * 60)]
        && id in requests && requests[id].redeemed
    {
      if id !in requests { return NoRequest; }
      var request := requests[id];
      if request.redeemed { return NoRequest; }
      if now > request.expires { return Expired; }
      if request.deniedBy.Some? { return Denied; }
      var tooSoon := request.lastPolled.Some? && now - request.lastPolled.value < request.interval;
      if !(request.expires > now) { return Broken; }
      var next := request.interval;
      if tooSoon {
        next := if next + SLOW_DOWN < MAX_POLL_INTERVAL then next + SLOW_DOWN else MAX_POLL_INTERVAL;
      }
      requests := requests[id := request.(lastPolled := Some(now), interval := next)];
      if tooSoon { return SlowDown(next); }
      if request.approvedBy.None? { return Waiting; }
      requests := requests[id := requests[id].(redeemed := true)];
      IssueGrant(Device(id), request.approvedBy.value, instance, pair);
      return Grant;
    }

    method ApproveRequest(id: Id, user: Id) returns (approved: bool)
      modifies this`requests
      ensures approved <==> Allowed(old(State()), Approve(id, user))
      ensures approved <==> id in old(requests) && (var r := old(requests)[id];
        OpenTo(r.reviewedBy, r.approvedBy, r.deniedBy, r.redeemed, r.expires, user, now))
      ensures State() == Apply(old(State()), Approve(id, user))
      ensures approved ==>
        id in old(requests) && requests == old(requests)[id :=
          old(requests)[id].(reviewedBy := Some(user), approvedBy := Some(user))]
      ensures !approved ==> requests == old(requests)
    {
      if id !in requests || !Reviewable(requests[id], user, now) { return false; }
      requests := requests[id := requests[id].(reviewedBy := Some(user), approvedBy := Some(user))];
      return true;
    }

    method DenyRequest(id: Id, user: Id) returns (denied: bool)
      modifies this`requests
      ensures denied <==> Allowed(old(State()), Deny(id, user))
      ensures denied <==> id in old(requests) && (var r := old(requests)[id];
        OpenTo(r.reviewedBy, r.approvedBy, r.deniedBy, r.redeemed, r.expires, user, now))
      ensures State() == Apply(old(State()), Deny(id, user))
      ensures denied ==>
        id in old(requests) && requests == old(requests)[id :=
          old(requests)[id].(reviewedBy := Some(user), deniedBy := Some(user))]
      ensures !denied ==> requests == old(requests)
    {
      if id !in requests || !Reviewable(requests[id], user, now) { return false; }
      requests := requests[id := requests[id].(reviewedBy := Some(user), deniedBy := Some(user))];
      return true;
    }

    /** Trades an approved browser code for the first pair of tokens. */
    method ExchangeCode(code: Token, verifier: Id, redirect: string, instance: Id, pair: Pair)
      returns (granted: Option<Id>)
      requires Minted(State(), pair) && instance !in instances
      requires forall a, b | a in authorizations && b in authorizations && authorizations[a].code.Some?
                             && authorizations[a].code == authorizations[b].code :: a == b
      modifies this
      ensures granted.Some? ==>
        && Allowed(old(State()), Exchange(granted.value, code, verifier, redirect, instance, pair))
        && State() == Effect(old(State()), Exchange(granted.value, code, verifier, redirect, instance, pair))
      ensures granted.Some? ==>
        && granted.value in old(authorizations) && old(authorizations)[granted.value].approvedBy.Some?
        && old(authorizations)[granted.value].code == Some(code)
        && old(authorizations)[granted.value].challenge == verifier
        && old(authorizations)[granted.value].redirect == redirect
        && !old(authorizations)[granted.value].redeemed && old(authorizations)[granted.value].deniedBy.None?
        && now < old(authorizations)[granted.value].expires
        && instances == old(instances)[instance :=
             Instance(old(authorizations)[granted.value].approvedBy.value, Browser(granted.value), Some(pair.refresh), now, None,
                      false, pair.refresh)]
        && access == old(access)[pair.access := Access(instance, now + 15 * 60)]
        && authorizations == old(authorizations)[granted.value := old(authorizations)[granted.value].(redeemed := true)]
      ensures granted.None? ==>
        State() == old(State()) && forall id :: !Redeemable(old(State()), id, code, verifier, redirect)
    {
      var found := set a | a in authorizations && authorizations[a].code == Some(code);
      assert forall a | a in authorizations && authorizations[a].code == Some(code) :: a in found;
      if found == {} { return None; }
      var id :| id in found;
      var request := authorizations[id];
      if request.redeemed || request.deniedBy.Some? || request.approvedBy.None? || now > request.expires
         || request.redirect != redirect || request.challenge != verifier {
        return None;
      }
      if !(request.expires > now) { return None; }
      authorizations := authorizations[id := request.(redeemed := true)];
      IssueGrant(Browser(id), request.approvedBy.value, instance, pair);
      return Some(id);
    }
  }
}
