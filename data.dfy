/** The in-memory data store: registered users, channels, and the lookups every
    operation starts with. The store is an explicit object passed to each
    operation instead of a process-wide global. */
module Data {
  import opened Base

  /** A registered user. Channels refer to users by `uId`. */
  datatype User = User(
    uId: int,
    email: string,
    password: string,
    nameFirst: string,
    nameLast: string,
    token: string,
    permissionId: int)

  /** A Flockr owner (`permission_id == 1`) holds owner rights in every channel. */
  predicate IsGlobalOwner(u: User) {
    u.permissionId == 1
  }

  datatype React = React(reactId: int, reactors: seq<int>)

  datatype Message = Message(
    messageId: int,
    sender: int,
    timeCreated: int,
    text: string,
    reacts: seq<React>,
    isPinned: bool)

  /** The value of a channel at one moment. */
  datatype ChannelRecord = ChannelRecord(
    id: int,
    name: string,
    isPublic: bool,
    allMembers: seq<int>,
    ownerMembers: seq<int>,
    messages: seq<Message>)

  /** The member and owner lists hold no duplicates, and every owner is a member. */
  predicate WellFormed(c: ChannelRecord) {
    && NoDup(c.allMembers)
    && NoDup(c.ownerMembers)
    && forall u :: u in c.ownerMembers ==> u in c.allMembers
  }

  /** Every member is one of the first `userCount` registered users. */
  predicate Registered(c: ChannelRecord, userCount: int) {
    forall u :: u in c.allMembers ==> 1 <= u <= userCount
  }

  /** Position of the first user holding the session token, or `|users|`. */
  function TokenIndex(users: seq<User>, token: string): (i: nat)
    ensures i <= |users|
    ensures i < |users| ==> users[i].token == token
    ensures forall j :: 0 <= j < i ==> users[j].token != token
  {
    FirstMatch(users, (u: User) => u.token == token)
  }

  /** `user_with_token`: the first user holding the session token, if any. */
  function UserWithToken(users: seq<User>, token: string): (r: Option<User>)
    ensures r.Some? ==> r.value in users && r.value.token == token
    ensures r.None? ==> forall u :: u in users ==> u.token != token
  {
    var i := TokenIndex(users, token);
    if i < |users| then Some(users[i]) else None
  }

  /** `user_with_id`: the first user with that id, if any. */
  function UserWithId(users: seq<User>, id: int): (r: Option<User>)
    ensures r.Some? ==> r.value in users && r.value.uId == id
    ensures r.None? ==> forall u :: u in users ==> u.uId != id
  {
    var i := FirstMatch(users, (u: User) => u.uId == id);
    if i < |users| then Some(users[i]) else None
  }

  /** Position of the first user registered under that email, or `|users|`. */
  function EmailIndex(users: seq<User>, email: string): (i: nat)
    ensures i <= |users|
    ensures i < |users| ==> users[i].email == email
    ensures forall j :: 0 <= j < i ==> users[j].email != email
  {
    FirstMatch(users, (u: User) => u.email == email)
  }

  /** `user_with_email`: the first user registered under that email, if any. */
  function UserWithEmail(users: seq<User>, email: string): (r: Option<User>)
    ensures r.Some? ==> r.value in users && r.value.email == email
    ensures r.None? ==> forall u :: u in users ==> u.email != email
  {
    var i := EmailIndex(users, email);
    if i < |users| then Some(users[i]) else None
  }

  /** `user_email_list()`: the registered emails, in registration order. */
  function Emails(users: seq<User>): (r: seq<string>)
    ensures |r| == |users|
    ensures forall i :: 0 <= i < |users| ==> r[i] == users[i].email
  {
    seq(|users|, i requires 0 <= i < |users| => users[i].email)
  }

  /** A channel object; its two member lists and its message list are edited in place. */
  class Channel {
    const id: int
    const name: string
    const isPublic: bool
    var allMembers: seq<int>
    var ownerMembers: seq<int>
    var messages: seq<Message>

    /** A new channel whose creator is its sole owner and sole member. */
    constructor (id: int, name: string, isPublic: bool, creator: int)
      ensures Record() == ChannelRecord(id, name, isPublic, [creator], [creator], [])
    {
      this.id := id;
      this.name := name;
      this.isPublic := isPublic;
      allMembers := [creator];
      ownerMembers := [creator];
      messages := [];
    }

    function Record(): ChannelRecord
      reads this
    {
      ChannelRecord(id, name, isPublic, allMembers, ownerMembers, messages)
    }
  }

  /** `channel_with_id`: the first channel with that id, if any. */
  function ChannelWithId(channels: seq<Channel>, id: int): (r: Option<Channel>)
    ensures r.Some? ==> r.value in channels && r.value.id == id
    ensures r.None? ==> forall i :: 0 <= i < |channels| ==> channels[i].id != id
  {
    var i := FirstMatch(channels, (c: Channel) => c.id == id);
    if i < |channels| then Some(channels[i]) else None
  }

  /** The data store: the `users` and `channels` lists. */
  class Workspace {
    var users: seq<User>
    var channels: seq<Channel>

    /** The store as `clear()` leaves it. */
    constructor ()
      ensures users == [] && channels == [] && Valid()
    {
      users := [];
      channels := [];
    }

    /** The store invariant, stated on the values the store holds. */
    ghost predicate Valid()
      reads this, channels
    {
      ValidStore(users, Records())
    }

    /** The value of every channel, in list order. */
    function Records(): (r: seq<ChannelRecord>)
      reads this, channels
      ensures |r| == |channels|
      ensures forall i :: 0 <= i < |channels| ==> r[i] == channels[i].Record()
    {
      seq(|channels|, i requires 0 <= i < |channels| reads this, channels => channels[i].Record())
    }

    /** The value of the channel with that id, if there is one. */
    function RecordWithId(id: int): (r: Option<ChannelRecord>)
      reads this, channels
      ensures r.Some? ==> r.value.id == id && r.value in Records()
      ensures r.None? ==> forall i :: 0 <= i < |channels| ==> channels[i].id != id
    {
      match ChannelWithId(channels, id)
      case None => None
      case Some(c) => Some(c.Record())
    }
  }

  /** In a valid store the channel with id `k` is the `k`-th one. */
  lemma ChannelLookup(w: Workspace, id: int)
    requires w.Valid()
    ensures ChannelWithId(w.channels, id) ==
      if 1 <= id <= |w.channels| then Some(w.channels[id - 1]) else None
    ensures w.RecordWithId(id) ==
      if 1 <= id <= |w.channels| then Some(w.Records()[id - 1]) else None
  {
  }

  /** In a valid store the user with id `k` is the `k`-th one. */
  lemma UserLookup(w: Workspace, id: int)
    requires w.Valid()
    ensures UserWithId(w.users, id) ==
      if 1 <= id <= |w.users| then Some(w.users[id - 1]) else None
  {
  }

  /** A resolved user of a valid store has an id in range. */
  lemma ResolvedIsRegistered(w: Workspace, u: User)
    requires w.Valid() && u in w.users
    ensures 1 <= u.uId <= |w.users|
  {
    var k :| 0 <= k < |w.users| && w.users[k] == u;
  }

  /** An operation's effect on the channel list: on failure nothing changes and
      the error is reported; on success the channel the specification returns
      replaces the channel with the same id, and no other channel changes. */
  ghost predicate Applied(res: Outcome, spec: Result<ChannelRecord>,
                          before: seq<ChannelRecord>, after: seq<ChannelRecord>)
  {
    match spec
    case Err(e) => res == Fail(e) && after == before
    case Ok(c) => res == Pass && 1 <= c.id <= |before| && after == before[c.id - 1 := c]
  }

  /** User and channel ids are positions plus one, emails are unique, and
      every channel is well formed and lists only registered users. */
  predicate ValidStore(users: seq<User>, channels: seq<ChannelRecord>) {
    && (forall i :: 0 <= i < |users| ==> users[i].uId == i + 1)
    && (forall i, j :: 0 <= i < j < |users| ==> users[i].email != users[j].email)
    && (forall i :: 0 <= i < |channels| ==> channels[i].id == i + 1)
    && (forall i :: 0 <= i < |channels| ==>
          WellFormed(channels[i]) && Registered(channels[i], |users|))
  }

  /** Replacing one channel of a valid store by a well-formed value with the
      same id keeps the store valid. */
  lemma ValidAfterReplace(users: seq<User>, channels: seq<ChannelRecord>, c: ChannelRecord)
    requires ValidStore(users, channels)
    requires 1 <= c.id <= |channels| && WellFormed(c) && Registered(c, |users|)
    ensures ValidStore(users, channels[c.id - 1 := c])
  {
  }

  /** The frame of an in-place edit of channel `c` in a store that was valid with
      channel values `before`: when every other channel object still has its old
      value and `c` is still well formed, the store is valid and `Records()`
      differs from `before` at `c`'s position only. */
  lemma ValidAfterEdit(w: Workspace, c: Channel, before: seq<ChannelRecord>)
    requires ValidStore(w.users, before)
    requires |before| == |w.channels| && c in w.channels
    requires forall i :: 0 <= i < |before| && w.channels[i] != c ==> w.channels[i].Record() == before[i]
    requires forall i :: 0 <= i < |before| ==> w.channels[i].id == before[i].id
    requires WellFormed(c.Record()) && Registered(c.Record(), |w.users|)
    ensures 1 <= c.id <= |before|
    ensures w.Records() == before[c.id - 1 := c.Record()]
    ensures w.Valid()
  {
    var k :| 0 <= k < |w.channels| && w.channels[k] == c;
    assert w.Records() == before[c.id - 1 := c.Record()];
    ValidAfterReplace(w.users, before, c.Record());
  }
}
