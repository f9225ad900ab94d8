/** The operations of `channel.py` on the data store. The six membership
    operations resolve their token and ids, run their guard chain and then edit
    one channel object's lists in place; each is proved to have exactly the
    effect of its `Membership` function. `channel_details` and
    `channel_messages` only read, and are functions. */
module ChannelOps {
  import opened Base
  import opened Data
  import opened Membership
  import opened Pagination

  /** `channel_invite` */
  method ChannelInvite(w: Workspace, token: string, channelId: int, uId: int) returns (res: Outcome)
    requires w.Valid()
    modifies w.channels
    ensures w.Valid()
    ensures Applied(res, Invite(UserWithToken(w.users, token), old(w.RecordWithId(channelId)), UserWithId(w.users, uId)),
                    old(w.Records()), w.Records())
  {
    var authUser := UserWithToken(w.users, token);
    var channel := ChannelWithId(w.channels, channelId);
    var invitedUser := UserWithId(w.users, uId);
    assert w.RecordWithId(channelId) == if channel.None? then None else Some(channel.value.Record());
    if authUser.None? {
      return Fail(AccessError);
    } else if channel.None? {
      return Fail(InputError);
    } else if invitedUser.None? {
      return Fail(InputError);
    }
    var c := channel.value;
    if authUser.value.uId !in c.allMembers {
      return Fail(AccessError);
    }
    ghost var before := w.Records();
    ChannelLookup(w, channelId);
    ResolvedIsRegistered(w, invitedUser.value);
    InviteStep(w.users, before, channelId, authUser.value, invitedUser.value);
    if invitedUser.value.uId !in c.allMembers {
      c.allMembers := c.allMembers + [invitedUser.value.uId];
    }
    res := Pass;
    ValidAfterEdit(w, c, before);
  }

  /** `channel_join` */
  method ChannelJoin(w: Workspace, token: string, channelId: int) returns (res: Outcome)
    requires w.Valid()
    modifies w.channels
    ensures w.Valid()
    ensures Applied(res, Join(UserWithToken(w.users, token), old(w.RecordWithId(channelId))),
                    old(w.Records()), w.Records())
  {
    var channel := ChannelWithId(w.channels, channelId);
    var authUser := UserWithToken(w.users, token);
    assert w.RecordWithId(channelId) == if channel.None? then None else Some(channel.value.Record());
    if authUser.None? {
      return Fail(AccessError);
    } else if channel.None? {
      return Fail(InputError);
    }
    var c := channel.value;
    if !c.isPublic && !IsGlobalOwner(authUser.value) {
      return Fail(AccessError);
    }
    ghost var before := w.Records();
    ChannelLookup(w, channelId);
    ResolvedIsRegistered(w, authUser.value);
    JoinStep(w.users, before, channelId, authUser.value);
    if authUser.value.uId !in c.allMembers {
      c.allMembers := c.allMembers + [authUser.value.uId];
    }
    res := Pass;
    ValidAfterEdit(w, c, before);
  }

  /** `channel_leave` */
  method ChannelLeave(w: Workspace, token: string, channelId: int) returns (res: Outcome)
    requires w.Valid()
    modifies w.channels
    ensures w.Valid()
    ensures Applied(res, Leave(UserWithToken(w.users, token), old(w.RecordWithId(channelId))),
                    old(w.Records()), w.Records())
  {
    var authUser := UserWithToken(w.users, token);
    var channel := ChannelWithId(w.channels, channelId);
    assert w.RecordWithId(channelId) == if channel.None? then None else Some(channel.value.Record());
    if authUser.None? {
      return Fail(AccessError);
    } else if channel.None? {
      return Fail(InputError);
    }
    var c := channel.value;
    var uid := authUser.value.uId;
    if uid !in c.allMembers {
      return Fail(AccessError);
    }
    ghost var before := w.Records();
    ChannelLookup(w, channelId);
    LeaveStep(w.users, before, channelId, authUser.value);
    c.allMembers := Remove(c.allMembers, uid);
    if uid in c.ownerMembers {
      c.ownerMembers := Remove(c.ownerMembers, uid);
    }
    res := Pass;
    ValidAfterEdit(w, c, before);
  }

  /** `channel_addowner` */
  method ChannelAddOwner(w: Workspace, token: string, channelId: int, uId: int) returns (res: Outcome)
    requires w.Valid()
    modifies w.channels
    ensures w.Valid()
    ensures Applied(res, AddOwner(UserWithToken(w.users, token), old(w.RecordWithId(channelId)), UserWithId(w.users, uId)),
                    old(w.Records()), w.Records())
  {
    var authUser := UserWithToken(w.users, token);
    var channel := ChannelWithId(w.channels, channelId);
    var newOwner := UserWithId(w.users, uId);
    assert w.RecordWithId(channelId) == if channel.None? then None else Some(channel.value.Record());
    if authUser.None? {
      return Fail(AccessError);
    } else if channel.None? {
      return Fail(InputError);
    }
    var c := channel.value;
    if newOwner.None? || newOwner.value.uId !in c.allMembers {
      return Fail(AccessError);
    } else if authUser.value.uId !in c.ownerMembers && !IsGlobalOwner(authUser.value) {
      return Fail(AccessError);
    } else if authUser.value.uId !in c.allMembers {
      // a Flockr owner who is not a member of the channel is refused here
      return Fail(AccessError);
    } else if newOwner.value.uId in c.ownerMembers {
      return Fail(InputError);
    }
    ghost var before := w.Records();
    ChannelLookup(w, channelId);
    AddOwnerStep(w.users, before, channelId, authUser.value, newOwner.value);
    c.ownerMembers := c.ownerMembers + [newOwner.value.uId];
    res := Pass;
    ValidAfterEdit(w, c, before);
  }

  /** `channel_removeowner` */
  method ChannelRemoveOwner(w: Workspace, token: string, channelId: int, uId: int) returns (res: Outcome)
    requires w.Valid()
    modifies w.channels
    ensures w.Valid()
    ensures Applied(res, RemoveOwner(UserWithToken(w.users, token), old(w.RecordWithId(channelId)), UserWithId(w.users, uId)),
                    old(w.Records()), w.Records())
  {
    var authUser := UserWithToken(w.users, token);
    var channel := ChannelWithId(w.channels, channelId);
    var oldOwner := UserWithId(w.users, uId);
    assert w.RecordWithId(channelId) == if channel.None? then None else Some(channel.value.Record());
    if authUser.None? {
      return Fail(AccessError);
    } else if channel.None? {
      return Fail(InputError);
    } else if oldOwner.None? {
      return Fail(AccessError);
    }
    var c := channel.value;
    if authUser.value.uId !in c.ownerMembers && !IsGlobalOwner(authUser.value) {
      return Fail(AccessError);
    } else if authUser.value.uId !in c.allMembers {
      return Fail(AccessError);
    } else if oldOwner.value.uId !in c.ownerMembers {
      return Fail(InputError);
    }
    ghost var before := w.Records();
    ChannelLookup(w, channelId);
    RemoveOwnerStep(w.users, before, channelId, authUser.value, oldOwner.value);
    c.ownerMembers := Remove(c.ownerMembers, oldOwner.value.uId);
    res := Pass;
    ValidAfterEdit(w, c, before);
  }

  /** `channel_kick` */
  method ChannelKick(w: Workspace, token: string, channelId: int, uId: int) returns (res: Outcome)
    requires w.Valid()
    modifies w.channels
    ensures w.Valid()
    ensures Applied(res, Kick(UserWithToken(w.users, token), old(w.RecordWithId(channelId)), UserWithId(w.users, uId)),
                    old(w.Records()), w.Records())
  {
    var authUser := UserWithToken(w.users, token);
    var channel := ChannelWithId(w.channels, channelId);
    var oldUser := UserWithId(w.users, uId);
    assert w.RecordWithId(channelId) == if channel.None? then None else Some(channel.value.Record());
    if authUser.None? {
      return Fail(AccessError);
    } else if channel.None? {
      return Fail(InputError);
    } else if oldUser.None? {
      return Fail(AccessError);
    }
    var c := channel.value;
    if authUser.value.uId !in c.allMembers {
      return Fail(AccessError);
    } else if authUser.value.uId !in c.ownerMembers && !IsGlobalOwner(authUser.value) {
      return Fail(AccessError);
    } else if oldUser.value.uId in c.ownerMembers {
      return Fail(InputError);
    } else if oldUser.value.uId !in c.allMembers {
      return Fail(InputError);
    }
    ghost var before := w.Records();
    ChannelLookup(w, channelId);
    KickStep(w.users, before, channelId, authUser.value, oldUser.value);
    c.allMembers := Remove(c.allMembers, oldUser.value.uId);
    res := Pass;
    ValidAfterEdit(w, c, before);
  }

  // The store-level facts each successful membership operation needs: the
  // guard chain passes on the stored channel value, and the edited value is
  // still well formed and lists only registered users.

  lemma InviteStep(users: seq<User>, before: seq<ChannelRecord>, id: int, actor: User, invited: User)
    requires ValidStore(users, before) && 1 <= id <= |before| && 1 <= invited.uId <= |users|
    requires IsMember(actor, before[id - 1])
    ensures var r := Invite(Some(actor), Some(before[id - 1]), Some(invited));
      r.Ok? && WellFormed(r.value) && Registered(r.value, |users|)
  {
  }

  lemma JoinStep(users: seq<User>, before: seq<ChannelRecord>, id: int, actor: User)
    requires ValidStore(users, before) && 1 <= id <= |before| && 1 <= actor.uId <= |users|
    requires before[id - 1].isPublic || IsGlobalOwner(actor)
    ensures var r := Join(Some(actor), Some(before[id - 1]));
      r.Ok? && WellFormed(r.value) && Registered(r.value, |users|)
  {
  }

  lemma LeaveStep(users: seq<User>, before: seq<ChannelRecord>, id: int, actor: User)
    requires ValidStore(users, before) && 1 <= id <= |before|
    requires IsMember(actor, before[id - 1])
    ensures var r := Leave(Some(actor), Some(before[id - 1]));
      r.Ok? && WellFormed(r.value) && Registered(r.value, |users|)
  {
    RemoveKeeps(before[id - 1].allMembers, actor.uId);
  }

  lemma AddOwnerStep(users: seq<User>, before: seq<ChannelRecord>, id: int, actor: User, target: User)
    requires ValidStore(users, before) && 1 <= id <= |before|
    requires IsMember(target, before[id - 1]) && !IsOwner(target, before[id - 1])
    requires HasOwnerRole(actor, before[id - 1]) && IsMember(actor, before[id - 1])
    ensures var r := AddOwner(Some(actor), Some(before[id - 1]), Some(target));
      r.Ok? && WellFormed(r.value) && Registered(r.value, |users|)
  {
  }

  lemma RemoveOwnerStep(users: seq<User>, before: seq<ChannelRecord>, id: int, actor: User, target: User)
    requires ValidStore(users, before) && 1 <= id <= |before|
    requires IsOwner(target, before[id - 1])
    requires HasOwnerRole(actor, before[id - 1]) && IsMember(actor, before[id - 1])
    ensures var r := RemoveOwner(Some(actor), Some(before[id - 1]), Some(target));
      r.Ok? && WellFormed(r.value) && Registered(r.value, |users|)
  {
  }

  lemma KickStep(users: seq<User>, before: seq<ChannelRecord>, id: int, actor: User, target: User)
    requires ValidStore(users, before) && 1 <= id <= |before|
    requires IsMember(actor, before[id - 1]) && HasOwnerRole(actor, before[id - 1])
    requires IsMember(target, before[id - 1]) && !IsOwner(target, before[id - 1])
    ensures var r := Kick(Some(actor), Some(before[id - 1]), Some(target));
      r.Ok? && WellFormed(r.value) && Registered(r.value, |users|)
  {
    RemoveKeeps(before[id - 1].allMembers, target.uId);
  }

  /** One entry of `channel_details`' member lists. */
  datatype MemberDetails = MemberDetails(uId: int, nameFirst: string, nameLast: string)

  datatype Details = Details(name: string, ownerMembers: seq<MemberDetails>, allMembers: seq<MemberDetails>)

  /** The display entries of a list of user ids, in list order. */
  function DetailsOf(users: seq<User>, ids: seq<int>): (r: seq<MemberDetails>)
    ensures |r| == |ids|
    ensures forall k :: 0 <= k < |ids| ==> r[k].uId == ids[k]
    ensures forall k :: 0 <= k < |ids| && UserWithId(users, ids[k]).Some? ==>
              && r[k].nameFirst == UserWithId(users, ids[k]).value.nameFirst
              && r[k].nameLast == UserWithId(users, ids[k]).value.nameLast
  {
    seq(|ids|, k requires 0 <= k < |ids| =>
      match UserWithId(users, ids[k])
      case Some(u) => MemberDetails(u.uId, u.nameFirst, u.nameLast)
      case None => MemberDetails(ids[k], "", ""))
  }

  /** `channel_details`: a member sees the channel's name and both member lists. */
  function ChannelDetails(w: Workspace, token: string, channelId: int): (r: Result<Details>)
    reads w, w.channels
    ensures UserWithToken(w.users, token).None? ==> r == Err(AccessError)
    ensures UserWithToken(w.users, token).Some? && w.RecordWithId(channelId).None? ==> r == Err(InputError)
    ensures UserWithToken(w.users, token).Some? && w.RecordWithId(channelId).Some?
            && !IsMember(UserWithToken(w.users, token).value, w.RecordWithId(channelId).value) ==>
              r == Err(AccessError)
    ensures r.Ok? ==>
      var ch := w.RecordWithId(channelId).value;
      && UserWithToken(w.users, token).Some?
      && IsMember(UserWithToken(w.users, token).value, ch)
      && r.value.name == ch.name
      && |r.value.ownerMembers| == |ch.ownerMembers|
      && (forall k :: 0 <= k < |ch.ownerMembers| ==> r.value.ownerMembers[k].uId == ch.ownerMembers[k])
      && |r.value.allMembers| == |ch.allMembers|
      && (forall k :: 0 <= k < |ch.allMembers| ==> r.value.allMembers[k].uId == ch.allMembers[k])
  {
    var authUser := UserWithToken(w.users, token);
    var channel := w.RecordWithId(channelId);
    if authUser.None? then Err(AccessError)
    else if channel.None? then Err(InputError)
    else if !IsMember(authUser.value, channel.value) then Err(AccessError)
    else Ok(Details(channel.value.name,
                    DetailsOf(w.users, channel.value.ownerMembers),
                    DetailsOf(w.users, channel.value.allMembers)))
  }

  /** In a valid store every listed owner and member resolves, so every detail
      entry of either list carries that user's names. */
  lemma DetailsCarryNames(w: Workspace, token: string, channelId: int, k: int)
    requires w.Valid() && ChannelDetails(w, token, channelId).Ok? && 0 <= k
    ensures k < |ChannelDetails(w, token, channelId).value.ownerMembers| ==>
      var e := ChannelDetails(w, token, channelId).value.ownerMembers[k];
      1 <= e.uId <= |w.users| && e == MemberDetails(e.uId, w.users[e.uId - 1].nameFirst, w.users[e.uId - 1].nameLast)
    ensures k < |ChannelDetails(w, token, channelId).value.allMembers| ==>
      var e := ChannelDetails(w, token, channelId).value.allMembers[k];
      1 <= e.uId <= |w.users| && e == MemberDetails(e.uId, w.users[e.uId - 1].nameFirst, w.users[e.uId - 1].nameLast)
  {
    var ch := w.RecordWithId(channelId).value;
    ChannelLookup(w, channelId);
    if k < |ch.ownerMembers| {
      assert ch.ownerMembers[k] in ch.ownerMembers;
      UserLookup(w, ch.ownerMembers[k]);
    }
    if k < |ch.allMembers| {
      assert ch.allMembers[k] in ch.allMembers;
      UserLookup(w, ch.allMembers[k]);
    }
  }

  datatype ReactView = ReactView(reactId: int, uIds: seq<int>, isThisUserReacted: bool)

  datatype MessageView = MessageView(
    messageId: int,
    uId: int,
    timeCreated: int,
    message: string,
    reacts: seq<ReactView>,
    isPinned: bool)

  datatype MessagesPage = MessagesPage(messages: seq<MessageView>, start: int, end: int)

  /** A message as shown to `viewer`: each react says whether the viewer is among its reactors. */
  function ViewOf(m: Message, viewer: int): (v: MessageView)
    ensures v.messageId == m.messageId && v.uId == m.sender && v.isPinned == m.isPinned
    ensures v.timeCreated == m.timeCreated && v.message == m.text
    ensures |v.reacts| == |m.reacts|
    ensures forall j :: 0 <= j < |m.reacts| ==>
      && v.reacts[j].reactId == m.reacts[j].reactId
      && v.reacts[j].uIds == m.reacts[j].reactors
      && (v.reacts[j].isThisUserReacted <==> viewer in m.reacts[j].reactors)
  {
    MessageView(m.messageId, m.sender, m.timeCreated, m.text,
                seq(|m.reacts|, j requires 0 <= j < |m.reacts| =>
                  ReactView(m.reacts[j].reactId, m.reacts[j].reactors, viewer in m.reacts[j].reactors)),
                m.isPinned)
  }

  /** `channel_messages`: a member reads up to 50 messages, newest first, from
      position `start` of the reversed history; `start` may equal the number of
      messages (an empty page) but not exceed it. */
  function ChannelMessages(w: Workspace, token: string, channelId: int, start: int): (r: Result<MessagesPage>)
    reads w, w.channels
    ensures UserWithToken(w.users, token).None? ==> r == Err(AccessError)
    ensures UserWithToken(w.users, token).Some? && w.RecordWithId(channelId).None? ==> r == Err(InputError)
    ensures UserWithToken(w.users, token).Some? && w.RecordWithId(channelId).Some?
            && !IsMember(UserWithToken(w.users, token).value, w.RecordWithId(channelId).value) ==>
              r == Err(AccessError)
    ensures UserWithToken(w.users, token).Some? && w.RecordWithId(channelId).Some?
            && IsMember(UserWithToken(w.users, token).value, w.RecordWithId(channelId).value)
            && (start < 0 || start > |w.RecordWithId(channelId).value.messages|) ==>
              r == Err(InputError)
    ensures r.Ok? ==>
      var msgs := w.RecordWithId(channelId).value.messages;
      var viewer := UserWithToken(w.users, token).value.uId;
      && 0 <= start <= |msgs|
      && r.value.start == start
      && |r.value.messages| == Min(PageSize, |msgs| - start)
      && (forall k :: 0 <= k < |r.value.messages| ==>
            r.value.messages[k] == ViewOf(msgs[|msgs| - 1 - start - k], viewer))
      && r.value.end == PageEnd(msgs, start)
  {
    var authUser := UserWithToken(w.users, token);
    var channel := w.RecordWithId(channelId);
    if authUser.None? then Err(AccessError)
    else if channel.None? then Err(InputError)
    else if !IsMember(authUser.value, channel.value) then Err(AccessError)
    else if start < 0 || start > |channel.value.messages| then Err(InputError)
    else
      var msgs := channel.value.messages;
      var page := Window(msgs, start);
      Ok(MessagesPage(seq(|page|, k requires 0 <= k < |page| => ViewOf(page[k], authUser.value.uId)),
                      start, PageEnd(msgs, start)))
  }
}
