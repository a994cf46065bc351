/**
 * The victim's list of conversations for one alert, drawn from the `useChat` hook's state:
 * which view shows (error, loading, empty, list), which chats are listed, and the name shown
 * for each sender.
 */
module VictimChatList {
  import opened Wrappers
  import opened Seqs
  import Remote
  import UseChat

  /** The value of a row's `sender` property, as JavaScript sees it. */
  datatype SenderValue = ObjectValue(fullName: Option<string>) | StringValue(text: string) | NullValue | Undefined

  /** The sender line: an object's `full_name` (nothing when it has none), a string as is, else 'Unknown'. */
  function SenderDisplay(v: SenderValue): (name: string)
    ensures v.ObjectValue? ==> name == v.fullName.GetOr("")
    ensures v.StringValue? ==> name == v.text
    ensures v.NullValue? || v.Undefined? ==> name == "Unknown"
  {
    match v
    case ObjectValue(fullName) => fullName.GetOr("")
    case StringValue(text) => text
    case _ => "Unknown"
  }

  /**
   * `chat.sender` on a row fetched by the hook, as written: the query names the joined
   * profile `sender_profile` and `chat_messages` has no `sender` column, so the property is
   * never present.
   */
  function SenderAsFetched(row: UseChat.ChatRow): (v: SenderValue)
    ensures v == Undefined
  {
    Undefined
  }

  /** As written, every listed chat shows 'Unknown' as its sender. */
  lemma SenderAlwaysUnknown(row: UseChat.ChatRow)
    ensures SenderDisplay(SenderAsFetched(row)) == "Unknown"
  {
  }

  /** The sender as intended: the joined `sender_profile`, `null` when the join found none. */
  function SenderOf(row: UseChat.ChatRow): (v: SenderValue)
    ensures row.senderProfile.Some? <==> v.ObjectValue?
    ensures row.senderProfile.Some? ==> v.fullName == row.senderProfile.value.fullName
    ensures row.senderProfile.None? ==> v == NullValue
  {
    if row.senderProfile.Some? then ObjectValue(row.senderProfile.value.fullName) else NullValue
  }

  /** Read from the joined profile, the sender's recorded name is shown. */
  lemma SenderShowsProfileName(row: UseChat.ChatRow, name: string)
    requires row.senderProfile.Some? && row.senderProfile.value.fullName == Some(name)
    ensures SenderDisplay(SenderOf(row)) == name
  {
  }

  datatype ChatItem = ChatItem(id: string, sender: string, message: string)

  datatype View = ErrorView(message: string) | LoadingView | EmptyView | ListView(items: seq<ChatItem>)

  /** One list entry, with the sender read by `sender`: `SenderAsFetched` as written, `SenderOf` as intended. */
  function ItemOf(row: UseChat.ChatRow, sender: UseChat.ChatRow -> SenderValue): ChatItem {
    ChatItem(row.id, SenderDisplay(sender(row)), row.message)
  }

  predicate ForAlert(row: UseChat.ChatRow, alertId: string) {
    row.alertId == alertId
  }

  /**
   * What the list renders: an error first, then loading, then "no conversations" when the
   * hook has no chats at all; otherwise the chats of this alert, in the hook's order. The
   * component as written renders `ViewOf(..., SenderAsFetched)`.
   */
  function ViewOf(chats: seq<UseChat.ChatRow>, loading: bool, error: Option<Remote.StoreError>, alertId: string,
                  sender: UseChat.ChatRow -> SenderValue): (v: View)
    ensures error.Some? <==> v.ErrorView?
    ensures error.Some? ==> v.message == error.value.message
    ensures v.LoadingView? <==> error.None? && loading
    ensures v.EmptyView? <==> error.None? && !loading && chats == []
    ensures v.ListView? ==>
      var shown := Filter(chats, (c: UseChat.ChatRow) => ForAlert(c, alertId));
      |v.items| == |shown| && forall i :: 0 <= i < |shown| ==> v.items[i] == ItemOf(shown[i], sender)
  {
    if error.Some? then ErrorView(error.value.message)
    else if loading then LoadingView
    else if chats == [] then EmptyView
    else
      var shown := Filter(chats, (c: UseChat.ChatRow) => ForAlert(c, alertId));
      ListView(seq(|shown|, i requires 0 <= i < |shown| => ItemOf(shown[i], sender)))
  }

  /**
   * Exactly this alert's chats are listed, whichever way the sender is read: every chat of
   * the alert has its item, and every item comes from a chat of the alert.
   */
  lemma ListShowsExactlyThisAlert(chats: seq<UseChat.ChatRow>, alertId: string, row: UseChat.ChatRow,
                                  sender: UseChat.ChatRow -> SenderValue)
    requires chats != []
    ensures var v := ViewOf(chats, false, None, alertId, sender);
      && v.ListView?
      && (row in chats && row.alertId == alertId ==> ItemOf(row, sender) in v.items)
      && (forall k :: 0 <= k < |v.items| ==>
            exists c :: c in chats && c.alertId == alertId && v.items[k] == ItemOf(c, sender))
  {
    var shown := Filter(chats, (c: UseChat.ChatRow) => ForAlert(c, alertId));
    var v := ViewOf(chats, false, None, alertId, sender);
    if row in chats && row.alertId == alertId {
      var j :| 0 <= j < |chats| && chats[j] == row;
      assert row in shown;
      var k :| 0 <= k < |shown| && shown[k] == row;
      assert v.items[k] == ItemOf(row, sender);
    }
    forall k | 0 <= k < |v.items|
      ensures exists c :: c in chats && c.alertId == alertId && v.items[k] == ItemOf(c, sender)
    {
      assert v.ListView? && |v.items| == |shown|;
      var c := shown[k];
      assert c in chats && ForAlert(c, alertId);
      assert v.items[k] == ItemOf(c, sender);
    }
    assert forall k :: 0 <= k < |v.items| ==> exists c :: c in chats && c.alertId == alertId && v.items[k] == ItemOf(c, sender);
  }

  /** As written, every listed chat of the alert shows 'Unknown' as its sender. */
  lemma ListedSendersUnknown(chats: seq<UseChat.ChatRow>, alertId: string)
    requires chats != []
    ensures var v := ViewOf(chats, false, None, alertId, SenderAsFetched);
      v.ListView? && forall k :: 0 <= k < |v.items| ==> v.items[k].sender == "Unknown"
  {
    var v := ViewOf(chats, false, None, alertId, SenderAsFetched);
    forall k | 0 <= k < |v.items| ensures v.items[k].sender == "Unknown" {
      var shown := Filter(chats, (c: UseChat.ChatRow) => ForAlert(c, alertId));
      SenderAlwaysUnknown(shown[k]);
    }
  }

  /** Read from the joined profile, a chat of the alert is listed under its sender's recorded name. */
  lemma ListedSenderNamed(chats: seq<UseChat.ChatRow>, alertId: string, row: UseChat.ChatRow, name: string)
    requires row in chats && row.alertId == alertId
    requires row.senderProfile.Some? && row.senderProfile.value.fullName == Some(name)
    ensures ChatItem(row.id, name, row.message) in ViewOf(chats, false, None, alertId, SenderOf).items
  {
    ListShowsExactlyThisAlert(chats, alertId, row, SenderOf);
    SenderShowsProfileName(row, name);
  }

  /**
   * "No conversations" is decided on the unfiltered chats: when chats exist but none is for
   * this alert, the list renders empty instead.
   */
  lemma OtherAlertsGiveEmptyList(chats: seq<UseChat.ChatRow>, alertId: string, sender: UseChat.ChatRow -> SenderValue)
    requires chats != [] && forall i :: 0 <= i < |chats| ==> chats[i].alertId != alertId
    ensures ViewOf(chats, false, None, alertId, sender) == ListView([])
  {
    FilterDropsAll(chats, (c: UseChat.ChatRow) => ForAlert(c, alertId));
    assert ViewOf(chats, false, None, alertId, sender).items == [];
  }
}
