/** The membership transitions of `channel.py` as functions on channel values.
    Each runs the source's guard chain in the source's order (the first failing
    check decides the error kind) and then makes the source's one or two list
    edits. `ChannelOps` applies them to the channel objects in place. */
module Membership {
  import opened Base
  import opened Data

  predicate IsMember(u: User, c: ChannelRecord) {
    u.uId in c.allMembers
  }

  predicate IsOwner(u: User, c: ChannelRecord) {
    u.uId in c.ownerMembers
  }

  /** Owner rights: a channel owner, or a Flockr owner (who need not be a member). */
  predicate HasOwnerRole(u: User, c: ChannelRecord) {
    IsOwner(u, c) || IsGlobalOwner(u)
  }

  /** `channel_invite`: a member adds a registered user to `all_members`
      unless already there, whatever the channel's visibility. */
  function Invite(actor: Option<User>, ch: Option<ChannelRecord>, invited: Option<User>): (r: Result<ChannelRecord>)
    ensures actor.None? ==> r == Err(AccessError)
    ensures actor.Some? && ch.None? ==> r == Err(InputError)
    ensures actor.Some? && ch.Some? && invited.None? ==> r == Err(InputError)
    ensures actor.Some? && ch.Some? && invited.Some? && !IsMember(actor.value, ch.value) ==>
              r == Err(AccessError)
    ensures r.Ok? <==> actor.Some? && ch.Some? && invited.Some? && IsMember(actor.value, ch.value)
    ensures r.Ok? ==> r.value == ch.value.(allMembers := r.value.allMembers)
    ensures r.Ok? ==> ch.value.allMembers <= r.value.allMembers
    ensures r.Ok? ==> forall u :: u in r.value.allMembers <==> u in ch.value.allMembers || u == invited.value.uId
    ensures r.Ok? && WellFormed(ch.value) ==> WellFormed(r.value)
  {
    if actor.None? then Err(AccessError)
    else if ch.None? then Err(InputError)
    else if invited.None? then Err(InputError)
    else if !IsMember(actor.value, ch.value) then Err(AccessError)
    else Ok(ch.value.(allMembers := AppendIfAbsent(ch.value.allMembers, invited.value.uId)))
  }

  /** `channel_join`: anyone may join a public channel, only a Flockr owner a
      private one; joining twice adds nothing. */
  function Join(actor: Option<User>, ch: Option<ChannelRecord>): (r: Result<ChannelRecord>)
    ensures actor.None? ==> r == Err(AccessError)
    ensures actor.Some? && ch.None? ==> r == Err(InputError)
    ensures actor.Some? && ch.Some? && !ch.value.isPublic && !IsGlobalOwner(actor.value) ==>
              r == Err(AccessError)
    ensures r.Ok? <==> actor.Some? && ch.Some? && (ch.value.isPublic || IsGlobalOwner(actor.value))
    ensures r.Ok? ==> r.value == ch.value.(allMembers := r.value.allMembers)
    ensures r.Ok? ==> ch.value.allMembers <= r.value.allMembers
    ensures r.Ok? ==> forall u :: u in r.value.allMembers <==> u in ch.value.allMembers || u == actor.value.uId
    ensures r.Ok? && WellFormed(ch.value) ==> WellFormed(r.value)
  {
    if actor.None? then Err(AccessError)
    else if ch.None? then Err(InputError)
    else if !ch.value.isPublic && !IsGlobalOwner(actor.value) then Err(AccessError)
    else Ok(ch.value.(allMembers := AppendIfAbsent(ch.value.allMembers, actor.value.uId)))
  }

  /** `channel_leave`: a member leaves `all_members` and, if an owner, `owner_members`;
      the other entries keep their order. */
  function Leave(actor: Option<User>, ch: Option<ChannelRecord>): (r: Result<ChannelRecord>)
    ensures actor.None? ==> r == Err(AccessError)
    ensures actor.Some? && ch.None? ==> r == Err(InputError)
    ensures actor.Some? && ch.Some? && !IsMember(actor.value, ch.value) ==> r == Err(AccessError)
    ensures r.Ok? <==> actor.Some? && ch.Some? && IsMember(actor.value, ch.value)
    ensures r.Ok? ==>
      r.value == ch.value.(allMembers := r.value.allMembers, ownerMembers := r.value.ownerMembers)
    ensures r.Ok? ==> r.value.allMembers == Remove(ch.value.allMembers, actor.value.uId)
    ensures r.Ok? ==>
      r.value.ownerMembers == (if IsOwner(actor.value, ch.value)
                               then Remove(ch.value.ownerMembers, actor.value.uId)
                               else ch.value.ownerMembers)
    ensures r.Ok? && WellFormed(ch.value) ==>
      && WellFormed(r.value)
      && !IsMember(actor.value, r.value)
      && !IsOwner(actor.value, r.value)
  {
    if actor.None? then Err(AccessError)
    else if ch.None? then Err(InputError)
    else if !IsMember(actor.value, ch.value) then Err(AccessError)
    else
      var uid := actor.value.uId;
      var c := ch.value;
      var owners := if uid in c.ownerMembers then Remove(c.ownerMembers, uid) else c.ownerMembers;
      RemoveKeeps(c.allMembers, uid);
      RemoveKeeps(c.ownerMembers, uid);
      Ok(c.(allMembers := Remove(c.allMembers, uid), ownerMembers := owners))
  }

  /** `channel_addowner`: an owner (or a Flockr owner) who is also a member promotes
      a member who is not yet an owner. Checks, in order: token, channel, target
      is a member, actor's owner rights, actor's membership, target not an owner. */
  function AddOwner(actor: Option<User>, ch: Option<ChannelRecord>, target: Option<User>): (r: Result<ChannelRecord>)
    ensures actor.None? ==> r == Err(AccessError)
    ensures actor.Some? && ch.None? ==> r == Err(InputError)
    ensures actor.Some? && ch.Some? && (target.None? || !IsMember(target.value, ch.value)) ==>
              r == Err(AccessError)
    ensures actor.Some? && ch.Some? && target.Some? && IsMember(target.value, ch.value)
            && (!HasOwnerRole(actor.value, ch.value) || !IsMember(actor.value, ch.value)) ==>
              r == Err(AccessError)
    ensures actor.Some? && ch.Some? && target.Some? && IsMember(target.value, ch.value)
            && HasOwnerRole(actor.value, ch.value) && IsMember(actor.value, ch.value)
            && IsOwner(target.value, ch.value) ==>
              r == Err(InputError)
    ensures r.Ok? <==>
      && actor.Some? && ch.Some? && target.Some?
      && IsMember(target.value, ch.value) && !IsOwner(target.value, ch.value)
      && HasOwnerRole(actor.value, ch.value) && IsMember(actor.value, ch.value)
    ensures r.Ok? ==> r.value == ch.value.(ownerMembers := ch.value.ownerMembers + [target.value.uId])
    ensures r.Ok? && WellFormed(ch.value) ==> WellFormed(r.value)
  {
    if actor.None? then Err(AccessError)
    else if ch.None? then Err(InputError)
    else if target.None? || !IsMember(target.value, ch.value) then Err(AccessError)
    else if !HasOwnerRole(actor.value, ch.value) then Err(AccessError)
    else if !IsMember(actor.value, ch.value) then Err(AccessError)
    else if IsOwner(target.value, ch.value) then Err(InputError)
    else Ok(ch.value.(ownerMembers := ch.value.ownerMembers + [target.value.uId]))
  }

  /** `channel_removeowner`: the same authorisation as add-owner, then the target
      must be an owner; only the target leaves `owner_members`. The target's
      membership is not checked. */
  function RemoveOwner(actor: Option<User>, ch: Option<ChannelRecord>, target: Option<User>): (r: Result<ChannelRecord>)
    ensures actor.None? ==> r == Err(AccessError)
    ensures actor.Some? && ch.None? ==> r == Err(InputError)
    ensures actor.Some? && ch.Some? && target.None? ==> r == Err(AccessError)
    ensures actor.Some? && ch.Some? && target.Some?
            && (!HasOwnerRole(actor.value, ch.value) || !IsMember(actor.value, ch.value)) ==>
              r == Err(AccessError)
    ensures actor.Some? && ch.Some? && target.Some?
            && HasOwnerRole(actor.value, ch.value) && IsMember(actor.value, ch.value)
            && !IsOwner(target.value, ch.value) ==>
              r == Err(InputError)
    ensures r.Ok? <==>
      && actor.Some? && ch.Some? && target.Some? && IsOwner(target.value, ch.value)
      && HasOwnerRole(actor.value, ch.value) && IsMember(actor.value, ch.value)
    ensures r.Ok? ==>
      r.value == ch.value.(ownerMembers := Remove(ch.value.ownerMembers, target.value.uId))
    ensures r.Ok? && WellFormed(ch.value) ==> WellFormed(r.value) && !IsOwner(target.value, r.value)
  {
    if actor.None? then Err(AccessError)
    else if ch.None? then Err(InputError)
    else if target.None? then Err(AccessError)
    else if !HasOwnerRole(actor.value, ch.value) then Err(AccessError)
    else if !IsMember(actor.value, ch.value) then Err(AccessError)
    else if !IsOwner(target.value, ch.value) then Err(InputError)
    else
      RemoveKeeps(ch.value.ownerMembers, target.value.uId);
      Ok(ch.value.(ownerMembers := Remove(ch.value.ownerMembers, target.value.uId)))
  }

  /** `channel_kick`: checks the actor's membership before its owner rights
      (the reverse of add-owner), refuses to kick an owner or a non-member, and
      removes the target from `all_members` only. */
  function Kick(actor: Option<User>, ch: Option<ChannelRecord>, target: Option<User>): (r: Result<ChannelRecord>)
    ensures actor.None? ==> r == Err(AccessError)
    ensures actor.Some? && ch.None? ==> r == Err(InputError)
    ensures actor.Some? && ch.Some? && target.None? ==> r == Err(AccessError)
    ensures actor.Some? && ch.Some? && target.Some?
            && (!IsMember(actor.value, ch.value) || !HasOwnerRole(actor.value, ch.value)) ==>
              r == Err(AccessError)
    ensures actor.Some? && ch.Some? && target.Some?
            && IsMember(actor.value, ch.value) && HasOwnerRole(actor.value, ch.value)
            && (IsOwner(target.value, ch.value) || !IsMember(target.value, ch.value)) ==>
              r == Err(InputError)
    ensures r.Ok? <==>
      && actor.Some? && ch.Some? && target.Some?
      && IsMember(actor.value, ch.value) && HasOwnerRole(actor.value, ch.value)
      && IsMember(target.value, ch.value) && !IsOwner(target.value, ch.value)
    ensures r.Ok? ==>
      r.value == ch.value.(allMembers := Remove(ch.value.allMembers, target.value.uId))
    ensures r.Ok? && WellFormed(ch.value) ==> WellFormed(r.value) && !IsMember(target.value, r.value)
  {
    if actor.None? then Err(AccessError)
    else if ch.None? then Err(InputError)
    else if target.None? then Err(AccessError)
    else if !IsMember(actor.value, ch.value) then Err(AccessError)
    else if !HasOwnerRole(actor.value, ch.value) then Err(AccessError)
    else if IsOwner(target.value, ch.value) then Err(InputError)
    else if !IsMember(target.value, ch.value) then Err(InputError)
    else
      RemoveKeeps(ch.value.allMembers, target.value.uId);
      Ok(ch.value.(allMembers := Remove(ch.value.allMembers, target.value.uId)))
  }

  /** What `list.remove(x)` keeps of a list that holds `x`: no new entries, and,
      when the list is duplicate-free, every entry but `x` and no duplicate. */
  lemma RemoveKeeps(s: seq<int>, x: int)
    ensures x in s ==> forall y :: y in Remove(s, x) ==> y in s
    ensures x in s && NoDup(s) ==> NoDup(Remove(s, x)) && x !in Remove(s, x)
    ensures x in s && NoDup(s) ==> forall y :: y in Remove(s, x) <==> y in s && y != x
  {
    if x in s {
      var i := IndexOf(s, x);
      forall y | y in Remove(s, x) ensures y in s {
        var k :| 0 <= k < |Remove(s, x)| && Remove(s, x)[k] == y;
        assert s[if k < i then k else k + 1] == y;
      }
      if NoDup(s) {
        RemoveFromNoDup(s, x);
      }
    }
  }

  /** Joining twice changes nothing the second time. */
  lemma JoinIdempotent(actor: Option<User>, ch: Option<ChannelRecord>)
    requires Join(actor, ch).Ok?
    ensures Join(actor, Some(Join(actor, ch).value)) == Join(actor, ch)
  {
  }

  /** After a successful join the actor is in `all_members` exactly once. */
  lemma JoinLeavesActorOnce(actor: Option<User>, ch: ChannelRecord)
    requires WellFormed(ch) && Join(actor, Some(ch)).Ok?
    ensures Count(Join(actor, Some(ch)).value.allMembers, actor.value.uId) == 1
  {
    CountInNoDup(Join(actor, Some(ch)).value.allMembers, actor.value.uId);
  }

  /** A user without Flockr ownership cannot join a private channel. */
  lemma PrivateJoinRefused(actor: User, ch: ChannelRecord)
    requires !ch.isPublic && !IsGlobalOwner(actor)
    ensures Join(Some(actor), Some(ch)) == Err(AccessError)
  {
  }

  /** An invitation's effect does not depend on the channel's visibility. */
  lemma InviteIgnoresVisibility(actor: Option<User>, ch: ChannelRecord, invited: Option<User>, isPublic: bool)
    ensures Invite(actor, Some(ch.(isPublic := isPublic)), invited).Ok? <==> Invite(actor, Some(ch), invited).Ok?
    ensures Invite(actor, Some(ch), invited).Ok? ==>
      Invite(actor, Some(ch.(isPublic := isPublic)), invited).value.allMembers
        == Invite(actor, Some(ch), invited).value.allMembers
  {
  }

  /** Leaving twice: the second call raises `AccessError`. */
  lemma LeaveTwiceRefused(actor: Option<User>, ch: ChannelRecord)
    requires WellFormed(ch) && Leave(actor, Some(ch)).Ok?
    ensures Leave(actor, Some(Leave(actor, Some(ch)).value)) == Err(AccessError)
  {
  }

  /** Add-owner followed by remove-owner of the same target, by the same actor,
      restores `owner_members` exactly. */
  lemma AddThenRemoveOwner(actor: Option<User>, ch: ChannelRecord, target: Option<User>)
    requires AddOwner(actor, Some(ch), target).Ok?
    ensures RemoveOwner(actor, Some(AddOwner(actor, Some(ch), target).value), target) == Ok(ch)
  {
    var promoted := AddOwner(actor, Some(ch), target).value;
    assert IsOwner(target.value, promoted);
    assert HasOwnerRole(actor.value, promoted);
    RemoveAppended(ch.ownerMembers, target.value.uId);
  }

  /** Remove-owner followed by add-owner of the same target restores the owners
      as a set (the target moves to the end of the list). */
  lemma RemoveThenAddOwner(actor: Option<User>, ch: ChannelRecord, target: Option<User>)
    requires WellFormed(ch)
    requires RemoveOwner(actor, Some(ch), target).Ok?
    requires AddOwner(actor, Some(RemoveOwner(actor, Some(ch), target).value), target).Ok?
    ensures var back := AddOwner(actor, Some(RemoveOwner(actor, Some(ch), target).value), target).value;
      && back.allMembers == ch.allMembers
      && |back.ownerMembers| == |ch.ownerMembers|
      && forall u :: u in back.ownerMembers <==> u in ch.ownerMembers
  {
    RemoveFromNoDup(ch.ownerMembers, target.value.uId);
  }

  /** With every owner a member, the add-owner membership check on the actor can
      only stop a Flockr owner who is not in the channel. */
  lemma MembershipCheckStopsOnlyGlobalOwners(actor: User, ch: ChannelRecord)
    requires WellFormed(ch)
    requires HasOwnerRole(actor, ch) && !IsMember(actor, ch)
    ensures IsGlobalOwner(actor) && !IsOwner(actor, ch)
  {
  }

  /** Kick never succeeds against a current owner, and never edits `owner_members`. */
  lemma KickSparesOwners(actor: Option<User>, ch: ChannelRecord, target: Option<User>)
    ensures target.Some? && IsOwner(target.value, ch) ==> !Kick(actor, Some(ch), target).Ok?
    ensures Kick(actor, Some(ch), target).Ok? ==>
      Kick(actor, Some(ch), target).value.ownerMembers == ch.ownerMembers
  {
  }
}
