/**
 * The `useChat` hook: the chats a user sends or receives, newest first, with a loading flag
 * and an error, kept fresh by a realtime channel. Each run of the hook's effect (on mount
 * and whenever the user id changes) is numbered; its `mounted` flag is true until that
 * run's cleanup. Fetch completions and pushed events carry the number of the run that
 * started them, and the channels the hook opens and removes are recorded in a log.
 */
module UseChat {
  import opened Wrappers
  import opened Seqs
  import Remote

  datatype ProfileSummary = ProfileSummary(id: string, fullName: Option<string>, userType: Option<string>)

  /** A row of `chat_messages` with the two joined profiles; `createdAt` in milliseconds. */
  datatype ChatRow = ChatRow(
    id: string, senderId: string, receiverId: string, alertId: string, message: string,
    createdAt: int, senderProfile: Option<ProfileSummary>, receiverProfile: Option<ProfileSummary>)

  predicate Involves(c: ChatRow, userId: string) {
    c.senderId == userId || c.receiverId == userId
  }

  /** `.order('created_at', { ascending: false })`. */
  function NewestChatsFirst(rows: seq<ChatRow>): (r: seq<ChatRow>)
    ensures multiset(r) == multiset(rows)
    ensures forall c :: c in r <==> c in rows
    ensures forall i, j :: 0 <= i < j < |r| ==> r[i].createdAt >= r[j].createdAt
  {
    var sorted := SortBy(rows, (c: ChatRow) => Known(-c.createdAt));
    assert forall c :: c in sorted <==> c in multiset(sorted);
    assert forall c :: c in rows <==> c in multiset(rows);
    assert forall i, j :: 0 <= i < j < |sorted| ==> RankLe(Known(-sorted[i].createdAt), Known(-sorted[j].createdAt));
    sorted
  }

  /** `fetchChats`' query: the chats the user sent or received, newest first. */
  function ChatsOf(table: seq<ChatRow>, userId: string): (r: seq<ChatRow>)
    ensures forall c :: c in r <==> c in table && Involves(c, userId)
    ensures forall c :: multiset(r)[c] == if Involves(c, userId) then multiset(table)[c] else 0
    ensures forall i, j :: 0 <= i < j < |r| ==> r[i].createdAt >= r[j].createdAt
  {
    var mine := Filter(table, (c: ChatRow) => Involves(c, userId));
    FilterCounts(table, (c: ChatRow) => Involves(c, userId));
    assert forall c :: c in table && Involves(c, userId) ==> c in mine by {
      forall c | c in table && Involves(c, userId) ensures c in mine {
        var i :| 0 <= i < |table| && table[i] == c;
      }
    }
    NewestChatsFirst(mine)
  }

  /** Opening the channel of effect run `run`, listening for `scope`, or removing it. */
  datatype ChannelOp = Open(run: nat, scope: string) | Close(run: nat)

  /** The runs whose channel is open at the end of the log. */
  function OpenSet(log: seq<ChannelOp>): set<nat>
    decreases |log|
  {
    if log == [] then {}
    else
      var before := OpenSet(log[..|log| - 1]);
      var op := log[|log| - 1];
      if op.Open? then before + {op.run} else before - {op.run}
  }

  lemma OpenSetAppend(log: seq<ChannelOp>, op: ChannelOp)
    ensures op.Open? ==> OpenSet(log + [op]) == OpenSet(log) + {op.run}
    ensures op.Close? ==> OpenSet(log + [op]) == OpenSet(log) - {op.run}
  {
    assert (log + [op])[..|log|] == log;
  }

  /** How a fetch ends: rows from the table it ran on, no data, or an error. */
  datatype FetchOutcome = Rows(table: seq<ChatRow>) | NoData | Failed(err: Remote.StoreError)

  class ChatHook {
    var userId: string
    var chats: seq<ChatRow>
    var loading: bool
    var error: Option<Remote.StoreError>
    var epoch: nat
    var mountedEpoch: Option<nat>
    var channelRef: Option<nat>
    var channels: seq<ChannelOp>
    var requests: seq<Remote.Request>

    /**
     * While mounted, the current run is the mounted one, its channel is the stored one, it
     * is the only open channel and it listens for the current user; after unmount no
     * channel is open.
     */
    predicate Valid()
      reads this
    {
      && (mountedEpoch.Some? ==>
            && mountedEpoch.value == epoch && channelRef == Some(epoch)
            && OpenSet(channels) == {epoch}
            && channels != [] && channels[|channels| - 1] == Open(epoch, userId))
      && (mountedEpoch.None? ==> OpenSet(channels) == {})
    }

    /** Mounting: empty chats, loading, no error; the channel is opened, then the fetch sent. */
    constructor (userId: string)
      ensures Valid()
      ensures this.userId == userId && chats == [] && loading && error.None?
      ensures mountedEpoch == Some(0) && channels == [Open(0, userId)]
      ensures requests == [Remote.SelectChats(userId)]
    {
      this.userId := userId;
      chats, loading, error := [], true, None;
      epoch, mountedEpoch, channelRef := 0, Some(0), Some(0);
      channels := [Open(0, userId)];
      requests := [Remote.SelectChats(userId)];
      OpenSetAppend([], Open(0, userId));
    }

    /**
     * A fetch started by run `run` completes. Only the mounted run's completion changes
     * anything: rows replace the chats (no data gives none), an error is recorded and the
     * chats kept; loading ends either way. An error, once set, is never cleared.
     */
    method FetchDone(run: nat, outcome: FetchOutcome)
      requires Valid()
      modifies this
      ensures Valid()
      ensures userId == old(userId) && epoch == old(epoch) && mountedEpoch == old(mountedEpoch)
      ensures channelRef == old(channelRef) && channels == old(channels) && requests == old(requests)
      ensures mountedEpoch != Some(run) ==> chats == old(chats) && loading == old(loading) && error == old(error)
      ensures mountedEpoch == Some(run) ==> !loading
      ensures mountedEpoch == Some(run) && outcome.Rows? ==> chats == ChatsOf(outcome.table, userId) && error == old(error)
      ensures mountedEpoch == Some(run) && outcome.NoData? ==> chats == [] && error == old(error)
      ensures mountedEpoch == Some(run) && outcome.Failed? ==> chats == old(chats) && error == Some(outcome.err)
      ensures old(error).Some? ==> error.Some?
    {
      if mountedEpoch != Some(run) {
        return;
      }
      var newChats, newError := chats, error;
      match outcome {
        case Rows(table) => newChats := ChatsOf(table, userId);
        case NoData => newChats := [];
        case Failed(err) => newError := Some(err);
      }
      chats, loading, error := newChats, false, newError;
    }

    /**
     * A change pushed on run `run`'s channel for `receiverId`: the mounted run refetches
     * when the event is for this user; nothing else changes.
     */
    method OnPush(run: nat, receiverId: string)
      requires Valid()
      modifies this
      ensures Valid()
      ensures userId == old(userId) && chats == old(chats) && loading == old(loading) && error == old(error)
      ensures epoch == old(epoch) && mountedEpoch == old(mountedEpoch)
      ensures channelRef == old(channelRef) && channels == old(channels)
      ensures mountedEpoch == Some(run) && receiverId == userId ==> requests == old(requests) + [Remote.SelectChats(userId)]
      ensures !(mountedEpoch == Some(run) && receiverId == userId) ==> requests == old(requests)
    {
      if mountedEpoch == Some(run) && receiverId == userId {
        requests := requests + [Remote.SelectChats(userId)];
      }
    }

    /** The effect's cleanup on unmount: `mounted` turns false and the stored channel is removed. */
    method Unmount()
      requires Valid()
      modifies this
      ensures Valid() && mountedEpoch.None? && OpenSet(channels) == {}
      ensures userId == old(userId) && chats == old(chats) && loading == old(loading) && error == old(error)
      ensures epoch == old(epoch) && channelRef == old(channelRef) && requests == old(requests)
      ensures old(mountedEpoch).None? ==> channels == old(channels)
      ensures old(mountedEpoch).Some? ==> channels == old(channels) + [Close(old(channelRef).value)]
    {
      if mountedEpoch.None? {
        return;
      }
      OpenSetAppend(channels, Close(channelRef.value));
      channels := channels + [Close(channelRef.value)];
      mountedEpoch := None;
    }

    /**
     * A new user id while mounted: the old run's cleanup removes the stored channel, the
     * new run removes it again (it is still stored), opens a channel for the new user and
     * fetches. Chats, loading and error are left as they are. The same id, or an unmounted
     * hook, changes nothing.
     */
    method ChangeUser(newUserId: string)
      requires Valid()
      modifies this
      ensures Valid()
      ensures chats == old(chats) && loading == old(loading) && error == old(error)
      ensures old(mountedEpoch).None? || newUserId == old(userId) ==>
        userId == old(userId) && epoch == old(epoch) && mountedEpoch == old(mountedEpoch)
        && channelRef == old(channelRef) && channels == old(channels) && requests == old(requests)
      ensures old(mountedEpoch).Some? && newUserId != old(userId) ==>
        && userId == newUserId && epoch == old(epoch) + 1 && mountedEpoch == Some(epoch)
        && channels == old(channels) + [Close(old(epoch)), Close(old(epoch)), Open(epoch, newUserId)]
        && OpenSet(channels) == {epoch}
        && requests == old(requests) + [Remote.SelectChats(newUserId)]
    {
      if mountedEpoch.None? || newUserId == userId {
        return;
      }
      var stored := channelRef.value;
      // cleanup of the previous run
      OpenSetAppend(channels, Close(stored));
      channels := channels + [Close(stored)];
      // the new run: remove the stored channel, then open and store a new one
      OpenSetAppend(channels, Close(stored));
      channels := channels + [Close(stored)];
      epoch := epoch + 1;
      userId := newUserId;
      OpenSetAppend(channels, Open(epoch, newUserId));
      channels := channels + [Open(epoch, newUserId)];
      channelRef := Some(epoch);
      mountedEpoch := Some(epoch);
      requests := requests + [Remote.SelectChats(newUserId)];
    }
  }

  /** The hook never holds more than one open channel. */
  lemma AtMostOneChannel(h: ChatHook)
    requires h.Valid()
    ensures |OpenSet(h.channels)| <= 1
  {
  }
}
