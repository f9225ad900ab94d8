/** The channel registry of `channels.py`: listing every channel, listing the
    caller's channels, and creating a channel with the next id. */
module ChannelsOps {
  import opened Base
  import opened Data

  /** One entry of a channel listing. */
  datatype ChannelSummary = ChannelSummary(channelId: int, name: string)

  function SummaryOf(c: ChannelRecord): ChannelSummary {
    ChannelSummary(c.id, c.name)
  }

  /** `a` is `b` with some entries dropped, the rest in their order. */
  predicate IsSubsequence<T(==)>(a: seq<T>, b: seq<T>)
    decreases |b|
  {
    if |a| == 0 then true
    else if |b| == 0 then false
    else (a[0] == b[0] && IsSubsequence(a[1..], b[1..])) || IsSubsequence(a, b[1..])
  }

  /** The listing of every channel, one entry per channel, in list order. */
  function Summaries(chs: seq<ChannelRecord>): (r: seq<ChannelSummary>)
    ensures |r| == |chs|
    ensures forall i :: 0 <= i < |chs| ==> r[i] == SummaryOf(chs[i])
  {
    if |chs| == 0 then [] else [SummaryOf(chs[0])] + Summaries(chs[1..])
  }

  /** The listing of the channels whose `all_members` hold `uid`. */
  function MemberSummaries(chs: seq<ChannelRecord>, uid: int): (r: seq<ChannelSummary>)
    ensures IsSubsequence(r, Summaries(chs))
    ensures forall s :: s in r ==> exists i :: 0 <= i < |chs| && uid in chs[i].allMembers && s == SummaryOf(chs[i])
  {
    if |chs| == 0 then []
    else
      var rest := MemberSummaries(chs[1..], uid);
      assert Summaries(chs)[1..] == Summaries(chs[1..]);
      assert forall s :: s in rest ==> exists i :: 0 <= i < |chs| && uid in chs[i].allMembers && s == SummaryOf(chs[i]) by {
        forall s | s in rest
          ensures exists i :: 0 <= i < |chs| && uid in chs[i].allMembers && s == SummaryOf(chs[i])
        {
          var j :| 0 <= j < |chs| - 1 && uid in chs[1..][j].allMembers && s == SummaryOf(chs[1..][j]);
          assert chs[j + 1] == chs[1..][j];
        }
      }
      if uid in chs[0].allMembers then [SummaryOf(chs[0])] + rest else rest
  }

  /** Every channel the caller belongs to appears in the caller's listing. */
  lemma {:induction false} MemberChannelListed(chs: seq<ChannelRecord>, uid: int, i: int)
    requires 0 <= i < |chs| && uid in chs[i].allMembers
    ensures SummaryOf(chs[i]) in MemberSummaries(chs, uid)
  {
    if i > 0 {
      MemberChannelListed(chs[1..], uid, i - 1);
      assert chs[1..][i - 1] == chs[i];
    }
  }

  /** `channels_listall`: every channel, for any resolvable token. */
  function ChannelsListall(w: Workspace, token: string): (r: Result<seq<ChannelSummary>>)
    reads w, w.channels
    ensures UserWithToken(w.users, token).None? <==> r == Err(AccessError)
    ensures r.Ok? ==> |r.value| == |w.channels|
    ensures r.Ok? ==> forall i :: 0 <= i < |w.channels| ==>
              r.value[i] == ChannelSummary(w.channels[i].id, w.channels[i].name)
  {
    if UserWithToken(w.users, token).None? then Err(AccessError)
    else Ok(Summaries(w.Records()))
  }

  /** `channels_list`: the caller's channels, a sub-listing of `channels_listall`. */
  function ChannelsList(w: Workspace, token: string): (r: Result<seq<ChannelSummary>>)
    reads w, w.channels
    ensures UserWithToken(w.users, token).None? <==> r == Err(AccessError)
    ensures r.Ok? ==> IsSubsequence(r.value, ChannelsListall(w, token).value)
    ensures r.Ok? ==> forall s :: s in r.value <==>
              exists i :: 0 <= i < |w.channels| && UserWithToken(w.users, token).value.uId in w.channels[i].allMembers
                          && s == ChannelSummary(w.channels[i].id, w.channels[i].name)
  {
    var authUser := UserWithToken(w.users, token);
    if authUser.None? then Err(AccessError)
    else
      var chs := w.Records();
      var r := MemberSummaries(chs, authUser.value.uId);
      assert forall i :: 0 <= i < |w.channels| && authUser.value.uId in w.channels[i].allMembers ==>
               ChannelSummary(w.channels[i].id, w.channels[i].name) in r by {
        forall i | 0 <= i < |w.channels| && authUser.value.uId in w.channels[i].allMembers
          ensures ChannelSummary(w.channels[i].id, w.channels[i].name) in r
        {
          MemberChannelListed(chs, authUser.value.uId, i);
        }
      }
      Ok(r)
  }

  /** The name rule of `channels_create`: 1 to 20 characters, not all whitespace. */
  predicate ValidChannelName(name: string) {
    0 < |name| <= 20 && !IsSpace(name)
  }

  /** `channels_create` as a function of the caller and the number of existing
      channels: the name checks come before the token check. */
  function Create(actor: Option<User>, name: string, isPublic: bool, count: nat): (r: Result<ChannelRecord>)
    ensures !ValidChannelName(name) <==> r == Err(InputError)
    ensures ValidChannelName(name) && actor.None? <==> r == Err(AccessError)
    ensures r.Ok? ==> r.value == ChannelRecord(count + 1, name, isPublic, [actor.value.uId], [actor.value.uId], [])
  {
    if |name| > 20 then Err(InputError)
    else if |name| == 0 then Err(InputError)
    else if IsSpace(name) then Err(InputError)
    else if actor.None? then Err(AccessError)
    else
      var uid := actor.value.uId;
      Ok(ChannelRecord(count + 1, name, isPublic, [uid], [uid], []))
  }

  /** A name that breaks the rule is reported as `InputError` whatever the token. */
  lemma BadNameBeatsBadToken(name: string, isPublic: bool, count: nat)
    requires |name| > 20 || IsSpace(name) || name == []
    ensures Create(None, name, isPublic, count) == Err(InputError)
  {
  }

  /** `channels_create` on the store: appends a new channel object whose id is one
      more than the old number of channels. */
  method ChannelsCreate(w: Workspace, token: string, name: string, isPublic: bool) returns (r: Result<int>)
    requires w.Valid()
    modifies w
    ensures w.Valid() && w.users == old(w.users)
    ensures match Create(UserWithToken(w.users, token), name, isPublic, old(|w.channels|))
      case Err(e) => r == Err(e) && w.channels == old(w.channels)
      case Ok(c) =>
        && r == Ok(c.id)
        && |w.channels| == old(|w.channels|) + 1
        && w.channels[..old(|w.channels|)] == old(w.channels)
        && fresh(w.channels[old(|w.channels|)])
        && w.Records() == old(w.Records()) + [c]
  {
    var authUser := UserWithToken(w.users, token);
    if |name| > 20 {
      return Err(InputError);
    } else if |name| == 0 {
      return Err(InputError);
    } else if IsSpace(name) {
      return Err(InputError);
    } else if authUser.None? {
      return Err(AccessError);
    }
    ResolvedIsRegistered(w, authUser.value);
    ghost var before := w.Records();
    var channelId := |w.channels| + 1;
    var c := new Channel(channelId, name, isPublic, authUser.value.uId);
    w.channels := w.channels + [c];
    r := Ok(channelId);
    assert w.Records() == before + [c.Record()];
  }

  /** A created channel lists its creator among the creator's channels. */
  lemma CreatorListsNewChannel(actor: User, name: string, isPublic: bool, chs: seq<ChannelRecord>)
    requires Create(Some(actor), name, isPublic, |chs|).Ok?
    ensures var c := Create(Some(actor), name, isPublic, |chs|).value;
      SummaryOf(c) in MemberSummaries(chs + [c], actor.uId)
  {
    var c := Create(Some(actor), name, isPublic, |chs|).value;
    MemberChannelListed(chs + [c], actor.uId, |chs|);
  }
}
