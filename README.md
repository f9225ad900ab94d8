# Flockr channels, membership and sessions in Dafny

This project models the core of Flockr, a small in-process messaging
workspace. It covers three Python files:

- `src/channel.py`: the six membership operations, each an ordered chain of
  guard checks followed by one or two in-place edits of a channel's
  `all_members` / `owner_members` lists; plus `channel_details` and the paginated
  `channel_messages`.
- `src/channels.py`: creating a channel with the next id, and listing all
  channels or the caller's channels.
- `src/auth.py`: the validation chains of `auth_register` and `auth_login`, and
  the token changes of login and logout.

Modules:

- `Base`: error kinds, `Option`/`Result`, and Python's `list.remove`, the
  append-if-absent idiom and `str.isspace`.
- `Data`: user and message records, the `Channel` class whose lists change in
  place, the `Workspace` store object with its `users` and `channels` lists,
  the lookups, and the store invariant `ValidStore`.
- `Membership`: the membership transitions as functions on channel values.
  Each function checks in the source's order, so the first failing check decides
  between `InputError` and `AccessError`.
- `Pagination`: the page window and the `end` sentinel.
- `ChannelOps`: the `channel.py` entry points on the store. The six mutating
  operations are methods that edit one `Channel` object in place. Each is proved
  to have exactly the effect of its `Membership` function on that channel, to
  leave every other channel alone, and to keep the store invariant.
- `ChannelsOps`: the `channels.py` entry points.
- `Auth`: the `auth.py` entry points.

The store invariant says that:

- user ids and channel ids are list positions plus one;
- emails are unique;
- no member or owner list holds a duplicate;
- every owner is a member;
- every member id names a registered user.

No operation checks "every owner is a member" directly, but every modelled
operation preserves it, and the model proves so. Users are referred to by id
throughout. Because ids are unique, a membership test on ids agrees with the
source's membership test on user objects.

## Model

| member | source | states |
|---|---|---|
| `Base.FirstMatch` | src/channel.py:13-15 | A lookup returns the first position that matches, with no match before it, or the list length when nothing matches. |
| `Base.Remove` | src/channel.py:156 | `list.remove(x)` drops exactly the first occurrence of `x`; the list is one shorter and otherwise in the same order. |
| `Base.AppendIfAbsent` | src/channel.py:28-29 | Append-if-absent leaves `x` in the list and keeps the old list as a prefix. It adds at most one entry, adds no element other than `x`, and keeps a duplicate-free list duplicate-free. |
| `Base.RemoveFromNoDup` | src/channel.py:156-160 | Removing a member from a duplicate-free list removes it entirely, keeps every other entry, and keeps the list duplicate-free. |
| `Base.RemoveAppended` | src/channel.py:252 | Removing an entry that was just appended, and was absent before, restores the list exactly. |
| `Base.IsSpaceChar` | src/channels.py:46 | One character of Python's `str.isspace`: the Unicode whitespace set (space, tab to carriage return, the four separators U+1C..U+1F, U+85, U+A0, U+1680, U+2000..U+200A, U+2028, U+2029, U+202F, U+205F, U+3000). |
| `Base.IsSpace` | src/auth.py:70 | `str.isspace`: the string is non-empty and every character is whitespace. |
| `Base.CountInNoDup` | src/channel.py:184-186 | In a duplicate-free list, a present entry occurs exactly once. |
| `Data.IsGlobalOwner` | src/channel.py:181 | A Flockr owner is a user whose `permission_id` is 1. |
| `Data.TokenIndex` | src/channel.py:13 | Position of the first user holding the token; every earlier user holds a different token. |
| `Data.UserWithToken` | src/channel.py:13 | Token lookup: a user holding the token, or none when no user holds it. |
| `Data.UserWithId` | src/channel.py:15 | Id lookup: a user with that id, or none when no user has it. |
| `Data.EmailIndex` | src/auth.py:11 | Position of the first user registered under the email. |
| `Data.UserWithEmail` | src/auth.py:11 | Email lookup: a user with that email, or none when nobody registered it. |
| `Data.Emails` | src/auth.py:61 | The email list holds one entry per user, in registration order. |
| `Data.ChannelWithId` | src/channel.py:14 | Channel lookup: a channel object with that id, or none when no channel has it. |
| `Data.Channel.constructor` | src/channels.py:55-62 | A new channel has the creator as sole owner and sole member, no messages, and the given name and visibility. |
| `Data.Workspace.RecordWithId` | src/channel.py:14 | The value of the channel with that id, taken from the channel list. |
| `Data.Workspace.constructor` | src/channels.py:1 | The shared store that `channels.py` imports starts with no users and no channels, and the empty store is valid. The store's initial contents and its `clear()` live in `data.py`, which is not part of this model. |
| `Data.ChannelLookup` | src/channel.py:14 | In a valid store, the channel with id `k` is the `k`-th channel, and an id outside `1..n` finds no channel. |
| `Data.UserLookup` | src/channel.py:15 | In a valid store, the user with id `k` is the `k`-th user. |
| `Data.ValidAfterEdit` | src/channel.py:156-160 | Editing one channel object in place, keeping it well formed, keeps the store valid and changes only that channel's entry in the list of channel values. |
| `Membership.IsMember` | src/channel.py:24 | Channel membership: the user's id is in `all_members`; the same test recurs at src/channel.py:28, 51, 96, 152, 185, 208, 212, 245, 277 and 285. Ids stand for the source's user objects. |
| `Membership.IsOwner` | src/channel.py:159 | Channel ownership: the user's id is in `owner_members`; the same test recurs at src/channel.py:210, 215, 243, 248, 280 and 282. |
| `Membership.HasOwnerRole` | src/channel.py:210 | Owner rights: the actor is in `owner_members` or is a Flockr owner; the same test recurs at src/channel.py:243 and :280. |
| `Membership.Invite` | src/channel.py:18-29 | Checks in order: token, then channel, then invited user (`InputError`), then the actor's membership (`AccessError`). It adds the invited id if absent, changes nothing else, and keeps the channel well formed. It succeeds exactly when every check passes. |
| `Membership.Join` | src/channel.py:177-186 | Checks token, then channel. A private channel admits only a Flockr owner. On success the actor is a member, nothing else changes, and the channel stays well formed. It succeeds exactly when every check passes. |
| `Membership.Leave` | src/channel.py:148-160 | A non-member is refused with `AccessError`. The actor is removed from `all_members`, and from `owner_members` if an owner. The remaining entries keep their order, and the actor ends up in neither list. It succeeds exactly when every check passes. |
| `Membership.AddOwner` | src/channel.py:204-219 | The six checks in source order: token, channel, target membership, owner rights, actor membership, target already owner. On success exactly the target is appended to `owner_members` and `all_members` is unchanged. It succeeds exactly when every check passes. |
| `Membership.RemoveOwner` | src/channel.py:237-252 | Checks unknown target, owner rights, actor membership, then target not an owner (`InputError`). Only the target leaves `owner_members`. It succeeds exactly when every check passes. |
| `Membership.Kick` | src/channel.py:271-289 | Checks actor membership before owner rights. Refuses an owner or a non-member target with `InputError`. Removes only the target from `all_members`; `owner_members` is unchanged. It succeeds exactly when every check passes. |
| `Membership.JoinIdempotent` | src/channel.py:184-186 | Joining again after a successful join changes nothing. |
| `Membership.JoinLeavesActorOnce` | src/channel.py:184-186 | After a successful join, the actor occurs exactly once in `all_members`. |
| `Membership.PrivateJoinRefused` | src/channel.py:181-182 | A user who is not a Flockr owner cannot join a private channel (`AccessError`). |
| `Membership.InviteIgnoresVisibility` | src/channel.py:24-29 | Whether an invitation succeeds, and the resulting member list, do not depend on the channel being public. |
| `Membership.LeaveTwiceRefused` | src/channel.py:152-153 | A second leave by the same user raises `AccessError`. |
| `Membership.AddThenRemoveOwner` | src/channel.py:219 | Add-owner followed by remove-owner of the same target restores the channel exactly. |
| `Membership.RemoveThenAddOwner` | src/channel.py:252 | Remove-owner followed by add-owner restores the owner set and its size; members are unchanged. |
| `Membership.MembershipCheckStopsOnlyGlobalOwners` | src/channel.py:212-214 | Since every owner is a member, the actor-membership check of add-owner can only stop a Flockr owner who is not in the channel. |
| `Membership.KickSparesOwners` | src/channel.py:282-289 | Kick never succeeds against an owner and never changes `owner_members`. |
| `Pagination.Reverse` | src/channel.py:103 | Reversal keeps the length; position `i` holds the entry `i` places from the end. |
| `Pagination.Window` | src/channel.py:103 | The page holds `min(50, len - start)` messages; entry `k` is message `len - 1 - start - k`, that is, newest first after skipping `start`. |
| `Pagination.HasId` | src/channel.py:110 | The `any(...)` test: some message of the page has the given id. |
| `Pagination.PageEnd` | src/channel.py:104-111 | `end` is either `-1` or `start + 50`. |
| `Pagination.LastPageEnds` | src/channel.py:108-111 | Whatever the ids, a page that reaches the oldest message has `end == -1`. |
| `Pagination.EndIsSentinelIffLastPage` | src/channel.py:104-111 | With unique message ids, `end == -1` exactly when `start + 50 >= len`. Otherwise `end == start + 50 < len`. |
| `ChannelOps.ChannelInvite` | src/channel.py:5-32 | The store ends as `Invite` prescribes. On failure nothing changes. On success only the invited channel's value changes, and the store stays valid. |
| `ChannelOps.ChannelJoin` | src/channel.py:166-189 | The store ends as `Join` prescribes: only that channel changes, or nothing on failure. The store stays valid. |
| `ChannelOps.ChannelLeave` | src/channel.py:137-163 | The store ends as `Leave` prescribes: only that channel changes, or nothing on failure. The store stays valid. |
| `ChannelOps.ChannelAddOwner` | src/channel.py:192-222 | The store ends as `AddOwner` prescribes: only that channel changes, or nothing on failure. The store stays valid. |
| `ChannelOps.ChannelRemoveOwner` | src/channel.py:225-255 | The store ends as `RemoveOwner` prescribes: only that channel changes, or nothing on failure. The store stays valid. |
| `ChannelOps.ChannelKick` | src/channel.py:259-292 | The store ends as `Kick` prescribes: only that channel changes, or nothing on failure. The store stays valid. |
| `ChannelOps.DetailsOf` | src/channel.py:56-72 | One detail entry per listed id, in list order, carrying that id and, when the id resolves, the user's names. |
| `ChannelOps.ChannelDetails` | src/channel.py:35-73 | Errors: token (`AccessError`), then channel (`InputError`), then membership (`AccessError`). On success it returns the name and both member lists, position by position. |
| `ChannelOps.DetailsCarryNames` | src/channel.py:56-72 | In a valid store, every entry of both `owner_members` and `all_members` carries the id and the first and last names of the registered user with that id. |
| `ChannelOps.ViewOf` | src/channel.py:114-129 | A message view copies the message's fields. Each react's `is_this_user_reacted` holds exactly when the viewer is among its reactors. |
| `ChannelOps.ChannelMessages` | src/channel.py:76-134 | Errors in source order, including `start` outside `0..len` (`InputError`). A page holds `min(50, len - start)` views, newest first, and `end` is the sentinel of `PageEnd`. |
| `ChannelsOps.SummaryOf` | src/channels.py:13-16 | One listing entry: the channel's `channel_id` and `name`, as built again at src/channels.py:29-32. |
| `ChannelsOps.Summaries` | src/channels.py:27-34 | One entry per channel, in list order. |
| `ChannelsOps.MemberSummaries` | src/channels.py:11-19 | The caller's listing is a subsequence of the full listing, and every entry is a channel whose members include the caller. |
| `ChannelsOps.MemberChannelListed` | src/channels.py:17 | Every channel whose members include the caller appears in the caller's listing. |
| `ChannelsOps.ChannelsListall` | src/channels.py:21-35 | `AccessError` exactly when the token does not resolve; otherwise one entry per channel, in order. |
| `ChannelsOps.ChannelsList` | src/channels.py:4-19 | `AccessError` exactly when the token does not resolve. Otherwise it returns a subsequence of `channels_listall` holding exactly the caller's channels. |
| `ChannelsOps.ValidChannelName` | src/channels.py:40-48 | A channel name is accepted exactly when it has 1 to 20 characters and is not all whitespace. |
| `ChannelsOps.Create` | src/channels.py:40-62 | A name outside 1..20 characters, or all whitespace, gives `InputError` whatever the token. A valid name with a bad token gives `AccessError`. Otherwise the new channel gets id `count + 1` and the creator as sole owner and member. |
| `ChannelsOps.BadNameBeatsBadToken` | src/channels.py:40-51 | A bad name with an unresolvable token reports `InputError`, not `AccessError`. |
| `ChannelsOps.ChannelsCreate` | src/channels.py:37-66 | On success the channel list grows by exactly one fresh channel with id old length + 1, and the old channels are unchanged. On failure nothing changes. Users are untouched and the store stays valid. |
| `ChannelsOps.CreatorListsNewChannel` | src/channels.py:55-62 | The creator's listing includes the channel just created. |
| `Auth.NameLengthOk` | src/auth.py:67 | `len(name) in range(1, 51)`: 1 to 50 characters; used for the first name and, at src/auth.py:73, the last name. |
| `Auth.RegisterCheck` | src/auth.py:58-78 | The first failing check, in source order: email format, email taken, password under 6, first-name length, first name blank, last-name length, last name blank. It passes exactly when all of them hold. |
| `Auth.EmailListMatchesLookup` | src/auth.py:61 | An email is in the email list exactly when the email lookup finds a user. |
| `Auth.RegisterTwiceRefused` | src/auth.py:61-63 | Registering again under an email just registered is refused as taken. |
| `Auth.AuthRegister` | src/auth.py:51-88 | On failure (`InputError`) nothing changes. On success exactly one user, with id old count + 1, is appended, no other user changes, channels are untouched, and the store stays valid. |
| `Auth.LoginCheck` | src/auth.py:13-21 | The first failing check, in source order: format, registration, password. It passes exactly when all three hold. |
| `Auth.AuthLogin` | src/auth.py:5-29 | On failure nothing changes. On success only the token of the user registered under that email is replaced, and the result is that user's id with the new token. |
| `Auth.LoginTokenResolves` | src/auth.py:24-28 | After logging in with a token nobody held, the token resolves to the user who logged in. |
| `Auth.AuthLogout` | src/auth.py:32-48 | An unresolvable token gives `AccessError` and changes nothing. Otherwise only the holder's token becomes empty, and the result is `true`. |
| `Auth.LogoutEndsSession` | src/auth.py:38-44 | When one user alone holds a non-empty token, the token resolves to nobody after logout. |

## Left out

- `data.py` is not part of this model:
  - the lookups `user_with_token`, `user_with_id`, `user_with_email` and `channel_with_id` are modelled as first-match searches over the lists;
  - `Data.UserWithToken` therefore does not treat the empty token specially: after `Auth.AuthLogout` the token `""` resolves to the first logged-out user, and every operation accepts it as that user. Whether `data.py` rejects `""` is not known to this model, so `Auth.LogoutEndsSession` is stated for non-empty tokens only;
  - `user_email_list` is modelled as the list of emails;
  - `clear` is the `Workspace` constructor.
- The `User` constructor is not part of this model. A new user's id is taken to be the old number of users plus one, which the store invariant also states. Its permission id and token are parameters of `Auth.AuthRegister`.
- `valid_email` is a parameter of the functions that use it; its regular expression is not modelled.
- Password hashing is left out: `verify_password` is modelled as equality with the stored password.
- Token generation is left out: each fresh token is a parameter.
- Exception messages are left out; only the error kind is kept. `Auth.RegisterCheck` and `Auth.LoginCheck` name the failing check.
- `channels.py` keeps channels as dictionaries of user ids, while `channel.py` keeps objects holding `User` references. Both are modelled with one channel class holding user ids.
- `ChannelOps.DetailsOf`: an id that names no user gets empty names. This cannot happen in a valid store (`ChannelOps.DetailsCarryNames`).
- Sending messages, reacting, pinning and timestamps are not in the modelled files. Messages and reacts are plain values that `channel_messages` only reads.
- The HTTP layer and the process-wide global store are left out. The store is an explicit object passed to each operation, and nothing runs concurrently.
- Users are values in the store's user list. Login and logout replace the token of one list entry instead of assigning a field of a shared user object.
- Every operation requires the store invariant and preserves it. A store that breaks it, such as one with duplicate emails or ids that are not positions, is not modelled.
