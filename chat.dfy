/** The rules of the chat screen: how the message list groups and attributes
    messages (`ListArea`'s `renderItem`), when it asks for older messages
    (the scroll latch and the end-reached guard), and what pressing "send"
    does (`TypingArea`'s `handleSendMessage`).

    The chat context (`getConversation`, `fetchMoreMessages`,
    `createNewMessage`) is not part of this model: conversations are given
    as values, a started fetch is reported to the caller, its completion is an
    input event, and a sent message is recorded in order. */
module Chat {

  type UserId = string

  datatype Message = Message(senderId: UserId, message: string)

  /** What one row of the list shows: the text, whether the viewer sent it,
      and whether it is grouped with the row before it. */
  datatype MessageView = MessageView(message: string, isSender: bool, consecutive: bool)

  /** A conversation as the chat context reports it. */
  datatype Conversation = NotOpened | Loaded(messages: seq<Message>)

  /** What the list area shows: a loader, or one row per message. */
  datatype ListAreaView = Loader | MessageList(items: seq<MessageView>)

  // ---------------------------------------------------------------------------
  // Grouping and attribution of rows

  /** The row for `messages[index]` seen by `currentUserId`. */
  function RenderItem(messages: seq<Message>, currentUserId: UserId, index: nat): (v: MessageView)
    requires index < |messages|
    ensures v.message == messages[index].message
    ensures v.isSender <==> messages[index].senderId == currentUserId
    ensures index == 0 ==> !v.consecutive
    ensures index > 0 ==>
              (v.consecutive <==> ((messages[index - 1].senderId == currentUserId) == (messages[index].senderId == currentUserId)))
  {
    var previousIsOwner := if index == 0 then false else messages[index - 1].senderId == currentUserId;
    var currentIsOwner := messages[index].senderId == currentUserId;
    MessageView(messages[index].message, currentIsOwner, if index == 0 then false else previousIsOwner == currentIsOwner)
  }

  /** The list area: while the conversation is not opened, only a loader and
      no message is looked at; once loaded, one row per message, in order. */
  function ListArea(conversation: Conversation, currentUserId: UserId): (v: ListAreaView)
    ensures v.Loader? <==> conversation.NotOpened?
    ensures conversation.Loaded? ==>
              |v.items| == |conversation.messages|
              && forall i :: 0 <= i < |v.items| ==>
                   v.items[i] == RenderItem(conversation.messages, currentUserId, i)
  {
    match conversation
    case NotOpened => Loader
    case Loaded(messages) =>
      MessageList(seq(|messages|, i requires 0 <= i < |messages| => RenderItem(messages, currentUserId, i)))
  }

  /** A run of grouped rows is a run of one ownership: when every row after
      `i` up to `j` is consecutive, rows `i` and `j` agree on `isSender`. */
  lemma {:induction false} GroupedRunSharesOwnership(messages: seq<Message>, currentUserId: UserId, i: nat, j: nat)
    requires i <= j < |messages|
    requires forall k :: i < k <= j ==> RenderItem(messages, currentUserId, k).consecutive
    ensures RenderItem(messages, currentUserId, i).isSender == RenderItem(messages, currentUserId, j).isSender
  {
    if i < j {
      GroupedRunSharesOwnership(messages, currentUserId, i, j - 1);
      assert RenderItem(messages, currentUserId, j).consecutive;
    }
  }

  /** In a two-party conversation (every sender is the viewer or the other end)
      grouping by ownership is grouping by sender. */
  lemma TwoPartyGroupingIsBySender(messages: seq<Message>, currentUserId: UserId, otherEndUserId: UserId, index: nat)
    requires currentUserId != otherEndUserId
    requires forall k :: 0 <= k < |messages| ==>
               messages[k].senderId == currentUserId || messages[k].senderId == otherEndUserId
    requires 0 < index < |messages|
    ensures RenderItem(messages, currentUserId, index).consecutive
            <==> messages[index - 1].senderId == messages[index].senderId
  {
    var prev, cur := messages[index - 1].senderId, messages[index].senderId;
    assert prev == currentUserId || prev == otherEndUserId;
    assert cur == currentUserId || cur == otherEndUserId;
  }

  /** With two other senders, their messages are still grouped together:
      the comparison is on ownership, not on the sender. */
  lemma OtherSendersGroupedTogether()
    ensures RenderItem([Message("b", "hi"), Message("c", "yo")], "a", 1).consecutive
  {
  }

  // ---------------------------------------------------------------------------
  // Loading older messages

  /** The pagination state of a list area, with counts of the fetches it has
      started and of those that have settled. */
  datatype PagerState = PagerState(
    moreDataFetchingAllowed: bool, isLoadingMoreData: bool, fetchesIssued: nat, fetchesSettled: nat)

  /** Inputs to the pagination state: a scroll of the list, the list reaching
      its end while `messageCount` messages are loaded, and the outcome of the
      oldest fetch still pending. */
  datatype PagerEvent = Scrolled | EndReached(messageCount: nat) | FetchFulfilled | FetchRejected

  const InitialPager: PagerState := PagerState(false, false, 0, 0)

  /** The end-reached guard. It does not look at `isLoadingMoreData`. */
  predicate StartsFetch(s: PagerState, messageCount: nat, initialNumberOfMessages: nat) {
    s.moreDataFetchingAllowed && messageCount >= initialNumberOfMessages
  }

  /** One input applied to the pagination state. A fetch's completion clears
      the loading flag only when it is fulfilled: a rejected fetch has no
      handler and leaves the flag as it was. A settlement with no pending
      fetch cannot happen and changes nothing. */
  function Step(s: PagerState, e: PagerEvent, initialNumberOfMessages: nat): (r: PagerState)
    ensures r.moreDataFetchingAllowed <==> s.moreDataFetchingAllowed || e.Scrolled?
    ensures r.fetchesIssued == s.fetchesIssued + 1 <==> e.EndReached? && StartsFetch(s, e.messageCount, initialNumberOfMessages)
    ensures r.fetchesIssued == s.fetchesIssued || r.fetchesIssued == s.fetchesIssued + 1
    ensures r.fetchesSettled > s.fetchesSettled <==> (e.FetchFulfilled? || e.FetchRejected?) && s.fetchesSettled < s.fetchesIssued
    ensures r.fetchesSettled <= s.fetchesSettled + 1
    ensures s.fetchesSettled <= s.fetchesIssued ==> r.fetchesSettled <= r.fetchesIssued
    ensures r.isLoadingMoreData && !s.isLoadingMoreData ==> r.fetchesIssued == s.fetchesIssued + 1
    ensures !r.isLoadingMoreData && s.isLoadingMoreData ==> e.FetchFulfilled? && r.fetchesSettled == s.fetchesSettled + 1
  {
    match e
    case Scrolled => s.(moreDataFetchingAllowed := true)
    case EndReached(messageCount) =>
      if StartsFetch(s, messageCount, initialNumberOfMessages)
      then s.(isLoadingMoreData := true, fetchesIssued := s.fetchesIssued + 1)
      else s
    case FetchFulfilled =>
      if s.fetchesSettled < s.fetchesIssued
      then s.(isLoadingMoreData := false, fetchesSettled := s.fetchesSettled + 1)
      else s
    case FetchRejected =>
      if s.fetchesSettled < s.fetchesIssued
      then s.(fetchesSettled := s.fetchesSettled + 1)
      else s
  }

  /** A sequence of inputs applied in order. */
  function Run(s: PagerState, events: seq<PagerEvent>, initialNumberOfMessages: nat): (r: PagerState)
    ensures s.fetchesIssued <= r.fetchesIssued && s.fetchesSettled <= r.fetchesSettled
    ensures s.fetchesSettled <= s.fetchesIssued ==> r.fetchesSettled <= r.fetchesIssued
    decreases |events|
  {
    if events == [] then s else Run(Step(s, events[0], initialNumberOfMessages), events[1..], initialNumberOfMessages)
  }

  /** The number of end-reached inputs in `events`. */
  function EndReachedCount(events: seq<PagerEvent>): nat {
    if events == [] then 0
    else (if events[0].EndReached? then 1 else 0) + EndReachedCount(events[1..])
  }

  /** Once the scroll latch is set, no sequence of inputs resets it. */
  lemma {:induction false} LatchStaysSet(s: PagerState, events: seq<PagerEvent>, initialNumberOfMessages: nat)
    requires s.moreDataFetchingAllowed
    ensures Run(s, events, initialNumberOfMessages).moreDataFetchingAllowed
    decreases |events|
  {
    if events != [] {
      LatchStaysSet(Step(s, events[0], initialNumberOfMessages), events[1..], initialNumberOfMessages);
    }
  }

  /** Before the first scroll no fetch is started, however many messages are
      loaded and however often the end of the list is reached. */
  lemma {:induction false} NoFetchBeforeScroll(s: PagerState, events: seq<PagerEvent>, initialNumberOfMessages: nat)
    requires !s.moreDataFetchingAllowed
    requires forall k :: 0 <= k < |events| ==> !events[k].Scrolled?
    ensures !Run(s, events, initialNumberOfMessages).moreDataFetchingAllowed
    ensures Run(s, events, initialNumberOfMessages).fetchesIssued == s.fetchesIssued
    decreases |events|
  {
    if events != [] {
      assert !events[0].Scrolled?;
      NoFetchBeforeScroll(Step(s, events[0], initialNumberOfMessages), events[1..], initialNumberOfMessages);
    }
  }

  /** Every started fetch is answered to an end-reached input, and no more
      fetches settle than were started. */
  lemma {:induction false} FetchesBoundedByEndReached(s: PagerState, events: seq<PagerEvent>, initialNumberOfMessages: nat)
    requires s.fetchesSettled <= s.fetchesIssued
    ensures Run(s, events, initialNumberOfMessages).fetchesIssued <= s.fetchesIssued + EndReachedCount(events)
    ensures Run(s, events, initialNumberOfMessages).fetchesSettled <= Run(s, events, initialNumberOfMessages).fetchesIssued
    decreases |events|
  {
    if events != [] {
      FetchesBoundedByEndReached(Step(s, events[0], initialNumberOfMessages), events[1..], initialNumberOfMessages);
    }
  }

  /** Reaching the end again while a fetch is loading starts another fetch:
      there is no in-flight guard. */
  lemma EndReachedWhileLoadingFetchesAgain(s: PagerState, messageCount: nat, initialNumberOfMessages: nat)
    requires s.moreDataFetchingAllowed && messageCount >= initialNumberOfMessages
    ensures Run(s, [EndReached(messageCount), EndReached(messageCount)], initialNumberOfMessages)
            == s.(isLoadingMoreData := true, fetchesIssued := s.fetchesIssued + 2)
  {
    var e := EndReached(messageCount);
    var once := Step(s, e, initialNumberOfMessages);
    assert once.isLoadingMoreData && StartsFetch(once, messageCount, initialNumberOfMessages);
    assert [e, e][1..] == [e];
    assert Run(s, [e, e], initialNumberOfMessages) == Run(once, [e], initialNumberOfMessages);
  }

  /** The pagination state of one list area, updated in place by its event
      handlers (`onScroll`, `onEndReached`, and the fetch's completion). */
  class ListAreaPager {
    var moreDataFetchingAllowed: bool
    var isLoadingMoreData: bool
    var fetchesIssued: nat
    var fetchesSettled: nat
    /** The page size below which a conversation is not paginated. */
    const initialNumberOfMessages: nat

    function State(): PagerState
      reads this
    {
      PagerState(moreDataFetchingAllowed, isLoadingMoreData, fetchesIssued, fetchesSettled)
    }

    ghost predicate Valid()
      reads this
    {
      fetchesSettled <= fetchesIssued
    }

    constructor (initialNumberOfMessages: nat)
      ensures Valid() && State() == InitialPager
      ensures this.initialNumberOfMessages == initialNumberOfMessages
    {
      moreDataFetchingAllowed := false;
      isLoadingMoreData := false;
      fetchesIssued := 0;
      fetchesSettled := 0;
      this.initialNumberOfMessages := initialNumberOfMessages;
    }

    /** Scrolling sets the latch and touches nothing else. */
    method AllowMoreDataFetching()
      requires Valid()
      modifies this
      ensures Valid() && moreDataFetchingAllowed
      ensures isLoadingMoreData == old(isLoadingMoreData)
      ensures fetchesIssued == old(fetchesIssued) && fetchesSettled == old(fetchesSettled)
      ensures State() == Step(old(State()), Scrolled, initialNumberOfMessages)
    {
      moreDataFetchingAllowed := true;
    }

    /** Reaching the end of the list with `messages` loaded: a fetch starts
      exactly when the latch is set and at least a page of messages is loaded;
      it raises the loading flag. Otherwise nothing changes. */
    method GetMoreMessages(messages: seq<Message>) returns (fetchStarted: bool)
      requires Valid()
      modifies this
      ensures Valid()
      ensures fetchStarted <==> old(moreDataFetchingAllowed) && |messages| >= initialNumberOfMessages
      ensures fetchStarted ==> isLoadingMoreData && fetchesIssued == old(fetchesIssued) + 1
      ensures !fetchStarted ==> isLoadingMoreData == old(isLoadingMoreData) && fetchesIssued == old(fetchesIssued)
      ensures moreDataFetchingAllowed == old(moreDataFetchingAllowed) && fetchesSettled == old(fetchesSettled)
      ensures State() == Step(old(State()), EndReached(|messages|), initialNumberOfMessages)
    {
      fetchStarted := moreDataFetchingAllowed && |messages| >= initialNumberOfMessages;
      if fetchStarted {
        isLoadingMoreData := true;
        fetchesIssued := fetchesIssued + 1;
      }
    }

    /** A pending fetch is fulfilled: the loading flag goes down. */
    method FetchFulfilled()
      requires Valid() && fetchesSettled < fetchesIssued
      modifies this
      ensures Valid() && !isLoadingMoreData
      ensures fetchesSettled == old(fetchesSettled) + 1 && fetchesIssued == old(fetchesIssued)
      ensures moreDataFetchingAllowed == old(moreDataFetchingAllowed)
      ensures State() == Step(old(State()), PagerEvent.FetchFulfilled, initialNumberOfMessages)
    {
      isLoadingMoreData := false;
      fetchesSettled := fetchesSettled + 1;
    }

    /** A pending fetch is rejected: nothing handles it, so the loading flag
        stays as it was. */
    method FetchRejected()
      requires Valid() && fetchesSettled < fetchesIssued
      modifies this
      ensures Valid() && isLoadingMoreData == old(isLoadingMoreData)
      ensures fetchesSettled == old(fetchesSettled) + 1 && fetchesIssued == old(fetchesIssued)
      ensures moreDataFetchingAllowed == old(moreDataFetchingAllowed)
      ensures State() == Step(old(State()), PagerEvent.FetchRejected, initialNumberOfMessages)
    {
      fetchesSettled := fetchesSettled + 1;
    }
  }

  // ---------------------------------------------------------------------------
  // Sending a message

  /** The characters `String.prototype.trim` removes: the ECMAScript
      WhiteSpace and LineTerminator code points. */
  predicate IsTrimmable(c: char) {
    c == '\t' || c == '\n' || c == '\U{000B}' || c == '\U{000C}' || c == '\r' || c == ' '
    || c == '\U{00A0}' || c == '\U{1680}' || ('\U{2000}' <= c <= '\U{200A}')
    || c == '\U{2028}' || c == '\U{2029}' || c == '\U{202F}' || c == '\U{205F}'
    || c == '\U{3000}' || c == '\U{FEFF}'
  }

  /** `s` without its leading trimmable characters. */
  function TrimStart(s: string): (r: string)
    ensures |r| <= |s| && r == s[|s| - |r|..]
    ensures r != [] ==> !IsTrimmable(r[0])
    ensures forall k :: 0 <= k < |s| - |r| ==> IsTrimmable(s[k])
  {
    if s != [] && IsTrimmable(s[0]) then TrimStart(s[1..]) else s
  }

  /** `s` without its trailing trimmable characters. */
  function TrimEnd(s: string): (r: string)
    ensures |r| <= |s| && r == s[..|r|]
    ensures r != [] ==> !IsTrimmable(r[|r| - 1])
    ensures forall k :: |r| <= k < |s| ==> IsTrimmable(s[k])
  {
    if s != [] && IsTrimmable(s[|s| - 1]) then TrimEnd(s[..|s| - 1]) else s
  }

  /** `s` without its leading and trailing trimmable characters: a slice of
      `s` that neither starts nor ends with one, outside which every
      character is trimmable. */
  function Trim(s: string): (r: string)
    ensures var start := |s| - |TrimStart(s)|;
            && start + |r| <= |s| && r == s[start..start + |r|]
            && (r != [] ==> !IsTrimmable(r[0]) && !IsTrimmable(r[|r| - 1]))
            && (forall k :: 0 <= k < start ==> IsTrimmable(s[k]))
            && (forall k :: start + |r| <= k < |s| ==> IsTrimmable(s[k]))
  {
    TrimEnd(TrimStart(s))
  }

  /** The trimmed text is non-empty exactly when the text holds a character
      that is not whitespace. */
  lemma TrimEmptyIffBlank(s: string)
    ensures |Trim(s)| > 0 <==> exists k :: 0 <= k < |s| && !IsTrimmable(s[k])
  {
    var t := TrimStart(s);
    if |Trim(s)| > 0 {
      assert !IsTrimmable(Trim(s)[0]);
      assert Trim(s)[0] == t[0] == s[|s| - |t|];
    }
    if exists k :: 0 <= k < |s| && !IsTrimmable(s[k]) {
      var k :| 0 <= k < |s| && !IsTrimmable(s[k]);
      assert |s| - |t| <= k;
      assert t[k - (|s| - |t|)] == s[k];
    }
  }

  /** A call made to the chat context's `createNewMessage`. */
  datatype OutgoingMessage = OutgoingMessage(recipientId: UserId, text: string)

  /** The typing area's text input and the messages it has handed on. */
  class TypingArea {
    const otherEndUserId: UserId
    var message: string
    var sentMessages: seq<OutgoingMessage>

    constructor (otherEndUserId: UserId)
      ensures this.otherEndUserId == otherEndUserId
      ensures message == "" && sentMessages == []
    {
      this.otherEndUserId := otherEndUserId;
      message := "";
      sentMessages := [];
    }

    /** Typing replaces the input's text. */
    method ChangeText(text: string)
      modifies this
      ensures message == text && sentMessages == old(sentMessages)
    {
      message := text;
    }

    /** Pressing send: the input is always cleared; the text is handed on,
        untrimmed, exactly when it holds a non-whitespace character. */
    method HandleSendMessage() returns (sent: bool)
      modifies this
      ensures message == ""
      ensures sent <==> exists k :: 0 <= k < |old(message)| && !IsTrimmable(old(message)[k])
      ensures sentMessages == if sent then old(sentMessages) + [OutgoingMessage(otherEndUserId, old(message))]
                              else old(sentMessages)
    {
      var text := message;
      message := "";
      TrimEmptyIffBlank(text);
      sent := |Trim(text)| > 0;
      if sent {
        sentMessages := sentMessages + [OutgoingMessage(otherEndUserId, text)];
      }
    }
  }
}
