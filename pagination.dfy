/** The page window of `channel_messages`: at most 50 messages, newest first,
    and the `end` value that is `-1` once the oldest message has been returned. */
module Pagination {
  import opened Base
  import opened Data

  /** The largest number of messages one call returns. */
  const PageSize: nat := 50

  /** `list(reversed(s))` */
  function Reverse<T>(s: seq<T>): (r: seq<T>)
    ensures |r| == |s|
    ensures forall i :: 0 <= i < |s| ==> r[i] == s[|s| - 1 - i]
  {
    if |s| == 0 then [] else Reverse(s[1..]) + [s[0]]
  }

  /** `list(reversed(messages))[start : start + 50]` for a start inside the list:
      the messages newest first, skipping the `start` most recent ones. */
  function Window(msgs: seq<Message>, start: int): (page: seq<Message>)
    requires 0 <= start <= |msgs|
    ensures |page| == Min(PageSize, |msgs| - start)
    ensures forall k :: 0 <= k < |page| ==> page[k] == msgs[|msgs| - 1 - start - k]
  {
    Reverse(msgs)[start .. Min(start + PageSize, |msgs|)]
  }

  /** `any(message.message_id == id for message in page)` */
  predicate HasId(page: seq<Message>, id: int) {
    exists k :: 0 <= k < |page| && page[k].messageId == id
  }

  /** The `end` of a page: `-1` when the page is empty or holds the channel's
      first message, otherwise `start + 50`. */
  function PageEnd(msgs: seq<Message>, start: int): (end: int)
    requires 0 <= start <= |msgs|
    ensures end == -1 || end == start + PageSize
  {
    var page := Window(msgs, start);
    if |page| == 0 then -1
    else if HasId(page, msgs[0].messageId) then -1
    else start + PageSize
  }

  /** Whatever the ids, a page that reaches the oldest message ends with `-1`. */
  lemma LastPageEnds(msgs: seq<Message>, start: int)
    requires 0 <= start <= |msgs| && start + PageSize >= |msgs|
    ensures PageEnd(msgs, start) == -1
  {
    if start < |msgs| {
      assert Window(msgs, start)[|msgs| - 1 - start] == msgs[0];
    }
  }

  /** Message ids are unique, as the message store assigns them. */
  predicate UniqueIds(msgs: seq<Message>) {
    forall i, j :: 0 <= i < j < |msgs| ==> msgs[i].messageId != msgs[j].messageId
  }

  /** With unique ids, `end` is `-1` exactly when the page reaches the oldest
      message; otherwise it is the start of the next page. */
  lemma {:induction false} EndIsSentinelIffLastPage(msgs: seq<Message>, start: int)
    requires 0 <= start <= |msgs| && UniqueIds(msgs)
    ensures PageEnd(msgs, start) == -1 <==> start + PageSize >= |msgs|
    ensures PageEnd(msgs, start) != -1 ==> PageEnd(msgs, start) == start + PageSize < |msgs|
  {
    var page := Window(msgs, start);
    if start + PageSize >= |msgs| {
      LastPageEnds(msgs, start);
    } else {
      forall k | 0 <= k < |page| ensures page[k].messageId != msgs[0].messageId {
        assert page[k] == msgs[|msgs| - 1 - start - k];
      }
    }
  }
}
