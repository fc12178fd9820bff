/**
 * The state of the chat page of one space: the live message list fed by the
 * socket, the text box, the connection's close handling and reconnect
 * policy, the send gate, and the "pinned to the bottom" scroll state that
 * also decides when an older page of history is requested.
 *
 * The socket transport, react-query's fetching and the DOM are not modelled:
 * the ready state, close codes, pushed payloads and the scroll geometry
 * arrive as inputs.
 */
module ChatPage {
  import opened Nullable
  import opened JsText
  import Paging
  import opened Sequences

  type MessageId = int

  /** A JSON payload pushed over the socket: its `id`, absent (`undefined`)
      when the payload has none, and the rest of its fields, kept opaque. */
  datatype Payload = Payload(id: Option<MessageId>, fields: string)

  /** The ready states of the socket hook. */
  datatype ReadyState = Uninstantiated | Connecting | Open | Closing | Closed

  /** The frame `sendJsonMessage` puts on the socket: `{"message": text}`. */
  datatype Outbound = MessageFrame(message: string)

  /** Application close codes (the 3000-3999 range of section 7.4.2 of
      RFC 6455) the server uses to refuse a member of the space. */
  const BannedCode := 3401
  const NotFoundCode := 3404

  const CannotConnectNotice := "You cannot connect to this socket"
  const BannedReason := "You have been banned here. You will not receive realtime messages"
  const NotFoundReason := "This space doesn't exist. But you can always create one :)"
  const ReconnectNotice := "Connection to server lost. Attempting to reconnect."
  const SocketErrorNotice := "something went wrong"
  const OfflineNotice := "You are not connected to internet"
  const ConnectingNotice := "Connecting please wait.."
  const ClosedNotice := "connection closed. Try refreshing the page or try again later."

  // ---- close codes ----

  datatype CloseKind = Banned | SpaceNotFound | Transient

  /** How `onClose` reads a close code. */
  function ClassifyClose(code: int): (k: CloseKind)
    ensures k == Banned <==> code == BannedCode
    ensures k == SpaceNotFound <==> code == NotFoundCode
  {
    if code == BannedCode then Banned
    else if code == NotFoundCode then SpaceNotFound
    else Transient
  }

  /** The `shouldReconnect` option of the socket hook. */
  function ShouldReconnect(code: int): bool {
    code != BannedCode && code != NotFoundCode
  }

  /** The reconnect policy and the close handler agree: the hook reconnects
      exactly after the codes the handler treats as transient, and the two
      refusal codes are application codes. */
  lemma ReconnectExactlyWhenTransient(code: int)
    ensures ShouldReconnect(code) <==> ClassifyClose(code) == Transient
    ensures !ShouldReconnect(code) ==> 3000 <= code <= 3999
  {
  }

  // ---- the live message list ----

  predicate HasId(ms: seq<Payload>, id: Option<MessageId>) {
    exists i :: 0 <= i < |ms| && ms[i].id == id
  }

  /** No two entries of the list share an id (two id-less payloads count as
      sharing one, since `undefined === undefined`). */
  predicate UniqueIds(ms: seq<Payload>) {
    forall i, j :: 0 <= i < j < |ms| ==> ms[i].id != ms[j].id
  }

  /** The list after the effect that runs on a new `lastJsonMessage`. */
  function AppendLive(ms: seq<Payload>, p: Option<Payload>): seq<Payload> {
    if p.Some? && !HasId(ms, p.value.id) then ms + [p.value] else ms
  }

  /** A payload with a new id becomes the last entry and the earlier entries
      stay as they were; a null payload, or one whose id is already listed,
      leaves the list unchanged. */
  lemma AppendLiveEffect(ms: seq<Payload>, p: Option<Payload>)
    ensures p.Some? && !HasId(ms, p.value.id) ==>
              |AppendLive(ms, p)| == |ms| + 1 &&
              AppendLive(ms, p)[..|ms|] == ms && AppendLive(ms, p)[|ms|] == p.value
    ensures p.None? || HasId(ms, p.value.id) ==> AppendLive(ms, p) == ms
    ensures p.Some? ==> HasId(AppendLive(ms, p), p.value.id)
  {
    if p.Some? && !HasId(ms, p.value.id) {
      assert AppendLive(ms, p)[|ms|] == p.value;
    }
  }

  /** Replaying a payload is idempotent. */
  lemma AppendLiveIdempotent(ms: seq<Payload>, p: Option<Payload>)
    ensures AppendLive(AppendLive(ms, p), p) == AppendLive(ms, p)
  {
    AppendLiveEffect(ms, p);
  }

  /** The append never creates a second entry with the same id. */
  lemma AppendLiveKeepsUnique(ms: seq<Payload>, p: Option<Payload>)
    requires UniqueIds(ms)
    ensures UniqueIds(AppendLive(ms, p))
  {
  }

  /** The list after a stream of payloads, processed in receipt order. */
  function ReplayLive(ms: seq<Payload>, ps: seq<Option<Payload>>): seq<Payload>
    decreases |ps|
  {
    if ps == [] then ms else ReplayLive(AppendLive(ms, ps[0]), ps[1..])
  }

  /** The payloads of a stream that are all present and have pairwise
      distinct ids none of which is in `ms`. */
  predicate FreshStream(ms: seq<Payload>, ps: seq<Option<Payload>>) {
    && (forall i :: 0 <= i < |ps| ==> ps[i].Some? && !HasId(ms, ps[i].value.id))
    && (forall i, j :: 0 <= i < j < |ps| ==> ps[i].Some? && ps[j].Some? ==> ps[i].value.id != ps[j].value.id)
  }

  function Values(ps: seq<Option<Payload>>): (r: seq<Payload>)
    requires forall i :: 0 <= i < |ps| ==> ps[i].Some?
    ensures |r| == |ps| && forall i :: 0 <= i < |ps| ==> r[i] == ps[i].value
  {
    if ps == [] then [] else [ps[0].value] + Values(ps[1..])
  }

  /** Payloads with distinct new ids all end up in the list, after the
      entries already there, in the order they were received. */
  lemma {:induction false} ReplayFreshStream(ms: seq<Payload>, ps: seq<Option<Payload>>)
    requires FreshStream(ms, ps)
    ensures ReplayLive(ms, ps) == ms + Values(ps)
    decreases |ps|
  {
    if ps != [] {
      FreshStreamTail(ms, ps);
      var ms' := ms + [ps[0].value];
      ReplayCons(ms, ps);
      ReplayFreshStream(ms', ps[1..]);
      ValuesCons(ps);
      ConcatAssoc(ms, [ps[0].value], Values(ps[1..]));
    }
  }

  lemma ReplayCons(ms: seq<Payload>, ps: seq<Option<Payload>>)
    requires ps != []
    ensures ReplayLive(ms, ps) == ReplayLive(AppendLive(ms, ps[0]), ps[1..])
  {
  }

  lemma ValuesCons(ps: seq<Option<Payload>>)
    requires ps != [] && forall i :: 0 <= i < |ps| ==> ps[i].Some?
    ensures Values(ps) == [ps[0].value] + Values(ps[1..])
  {
  }

  /** After the first payload of a fresh stream is appended, the rest of the
      stream is fresh for the longer list. */
  lemma FreshStreamTail(ms: seq<Payload>, ps: seq<Option<Payload>>)
    requires FreshStream(ms, ps) && ps != []
    ensures AppendLive(ms, ps[0]) == ms + [ps[0].value]
    ensures FreshStream(ms + [ps[0].value], ps[1..])
  {
    var ms' := ms + [ps[0].value];
    forall i | 0 <= i < |ps[1..]|
      ensures !HasId(ms', ps[1..][i].value.id)
    {
      assert ps[1..][i] == ps[i + 1];
      forall k | 0 <= k < |ms'|
        ensures ms'[k].id != ps[i + 1].value.id
      {
        if k < |ms| {
          assert ms'[k] == ms[k];
        }
      }
    }
    forall i, j | 0 <= i < j < |ps[1..]|
      ensures ps[1..][i].value.id != ps[1..][j].value.id
    {
      assert ps[1..][i] == ps[i + 1] && ps[1..][j] == ps[j + 1];
    }
  }

  /** Whatever the list and the stream, the old entries stay a prefix and
      the list ends up holding the id of every payload received. */
  lemma {:induction false} ReplayLiveGrows(ms: seq<Payload>, ps: seq<Option<Payload>>)
    ensures |ms| <= |ReplayLive(ms, ps)| && ReplayLive(ms, ps)[..|ms|] == ms
    ensures forall i :: 0 <= i < |ps| && ps[i].Some? ==> HasId(ReplayLive(ms, ps), ps[i].value.id)
    decreases |ps|
  {
    if ps != [] {
      var ms' := AppendLive(ms, ps[0]);
      AppendLiveEffect(ms, ps[0]);
      ReplayLiveGrows(ms', ps[1..]);
      var r := ReplayLive(ms, ps);
      assert r == ReplayLive(ms', ps[1..]);
      assert r[..|ms|] == r[..|ms'|][..|ms|];
      forall i | 0 <= i < |ps| && ps[i].Some?
        ensures HasId(r, ps[i].value.id)
      {
        if i == 0 {
          var k :| 0 <= k < |ms'| && ms'[k].id == ps[0].value.id;
          assert r[k] == ms'[k];
        } else {
          assert ps[1..][i - 1] == ps[i];
        }
      }
    }
  }

  /** Whatever the stream, the list keeps unique ids, keeps its old entries
      as a prefix, and ends up holding the id of every payload received. */
  lemma {:induction false} ReplayLiveProperties(ms: seq<Payload>, ps: seq<Option<Payload>>)
    requires UniqueIds(ms)
    ensures UniqueIds(ReplayLive(ms, ps))
    ensures |ms| <= |ReplayLive(ms, ps)| && ReplayLive(ms, ps)[..|ms|] == ms
    ensures forall i :: 0 <= i < |ps| && ps[i].Some? ==> HasId(ReplayLive(ms, ps), ps[i].value.id)
    decreases |ps|
  {
    ReplayLiveGrows(ms, ps);
    if ps != [] {
      AppendLiveKeepsUnique(ms, ps[0]);
      ReplayCons(ms, ps);
      ReplayLiveProperties(AppendLive(ms, ps[0]), ps[1..]);
    }
  }

  /** A stream whose ids are all listed already changes nothing. */
  lemma {:induction false} ReplayKnownStream(ms: seq<Payload>, ps: seq<Option<Payload>>)
    requires forall i :: 0 <= i < |ps| && ps[i].Some? ==> HasId(ms, ps[i].value.id)
    ensures ReplayLive(ms, ps) == ms
    decreases |ps|
  {
    if ps != [] {
      assert AppendLive(ms, ps[0]) == ms;
      forall i | 0 <= i < |ps[1..]| && ps[1..][i].Some?
        ensures HasId(ms, ps[1..][i].value.id)
      {
        assert ps[1..][i] == ps[i + 1];
      }
      ReplayKnownStream(ms, ps[1..]);
    }
  }

  /** Replaying a whole stream a second time leaves the list unchanged. */
  lemma ReplayLiveIdempotent(ms: seq<Payload>, ps: seq<Option<Payload>>)
    ensures ReplayLive(ReplayLive(ms, ps), ps) == ReplayLive(ms, ps)
  {
    ReplayLiveGrows(ms, ps);
    ReplayKnownStream(ReplayLive(ms, ps), ps);
  }

  /** `messages.some(msg => id === msg.id)`. */
  method ContainsId(ms: seq<Payload>, id: Option<MessageId>) returns (found: bool)
    ensures found <==> HasId(ms, id)
  {
    found := false;
    var i := 0;
    while i < |ms| && !found
      invariant 0 <= i <= |ms|
      invariant found <==> exists k :: 0 <= k < i && ms[k].id == id
    {
      found := ms[i].id == id;
      i := i + 1;
    }
  }

  // ---- sending ----

  datatype SubmitOutcome = Ignored | Refused(notice: string) | Sent(frame: Outbound)

  /** What `sumbitMessage` does with the text box content in a ready state. */
  function SubmitDecision(text: string, ready: ReadyState): SubmitOutcome {
    if Trim(text) == [] then Ignored
    else if ready == Connecting then Refused(ConnectingNotice)
    else if ready == Closed then Refused(ClosedNotice)
    else Sent(MessageFrame(text))
  }

  /** Blank text is dropped silently; otherwise a connecting or closed socket
      refuses with a notice, and every other state sends the text as typed,
      untrimmed. */
  lemma SubmitDecisionCases(text: string, ready: ReadyState)
    ensures SubmitDecision(text, ready) == Ignored <==> AllWhitespace(text)
    ensures SubmitDecision(text, ready).Refused? <==>
              !AllWhitespace(text) && (ready == Connecting || ready == Closed)
    ensures SubmitDecision(text, ready).Sent? <==>
              !AllWhitespace(text) && ready != Connecting && ready != Closed
    ensures SubmitDecision(text, ready).Sent? ==> SubmitDecision(text, ready).frame.message == text
  {
    TrimEmptyIffAllWhitespace(text);
  }

  // ---- scrolling ----

  /** The scroll geometry of the chat body. */
  datatype Viewport = Viewport(scrollHeight: nat, scrollTop: nat, clientHeight: nat)

  /** The `bottom` test: within 50 pixels of the end of the content. */
  predicate AtBottom(v: Viewport) {
    v.scrollHeight - v.scrollTop <= v.clientHeight + 50
  }

  /** The trigger for fetching an older page: near the top, or content no
      taller than the view, while react-query does not yet know, or knows
      that there is, a next page. */
  predicate ShouldFetchOlder(v: Viewport, hasNextPage: Option<bool>) {
    (v.scrollTop <= 20 || v.clientHeight == v.scrollHeight) &&
    (hasNextPage.None? || hasNextPage.value)
  }

  /** Once the last fetched page is known, older history is requested only
      while the paging rule still names a next page. */
  lemma FetchOnlyWhilePagesRemain(v: Viewport, current: int, pages: int)
    ensures ShouldFetchOlder(v, Some(Paging.NextPageParam(current, pages).Some?)) <==>
              (v.scrollTop <= 20 || v.clientHeight == v.scrollHeight) && current < pages
  {
  }

  /** `scrollTop = scrollHeight`, as the browser applies it: the position is
      clamped to the scrollable range. */
  function ScrolledToBottom(v: Viewport): (r: Viewport)
    ensures r.scrollHeight == v.scrollHeight && r.clientHeight == v.clientHeight
    ensures AtBottom(r)
  {
    var maxTop := if v.scrollHeight > v.clientHeight then v.scrollHeight - v.clientHeight else 0;
    v.(scrollTop := maxTop)
  }

  // ---- the page's state ----

  class Chat {
    var messages: seq<Payload>
    var text: string
    var messagable: bool
    var socketCloseReason: string
    var scrollToEnd: bool
    /** The timed notice shown over the page ("" when none). */
    var notice: string
    /** The `sent-first-message` flag kept in local storage. */
    var sentFirstMessage: bool
    /** The frames handed to `sendJsonMessage`, oldest first. */
    var sent: seq<Outbound>

    ghost predicate Valid()
      reads this
    {
      UniqueIds(messages)
    }

    /** The initial state, after the mount effect that offers a suggested
        first message to a visitor who has never sent one. */
    constructor (sentFirstMessage: bool, suggestion: string)
      ensures Valid()
      ensures messages == [] && messagable && socketCloseReason == "" && scrollToEnd
      ensures notice == "" && sent == [] && this.sentFirstMessage == sentFirstMessage
      ensures text == if sentFirstMessage then "" else suggestion
    {
      messages := [];
      messagable := true;
      socketCloseReason := "";
      scrollToEnd := true;
      notice := "";
      sent := [];
      this.sentFirstMessage := sentFirstMessage;
      text := "";
      if !sentFirstMessage {
        text := suggestion;
      }
    }

    /** `onClose`: the two refusal codes disable messaging with their own
        reason; any other code only announces the reconnect attempt. */
    method OnClose(code: int)
      modifies this`notice, this`socketCloseReason, this`messagable
      ensures match ClassifyClose(code)
        case Banned =>
          notice == CannotConnectNotice && socketCloseReason == BannedReason && !messagable
        case SpaceNotFound =>
          notice == CannotConnectNotice && socketCloseReason == NotFoundReason && !messagable
        case Transient =>
          notice == ReconnectNotice && socketCloseReason == old(socketCloseReason) &&
          messagable == old(messagable)
      ensures messagable == (old(messagable) && ShouldReconnect(code))
    {
      if code == BannedCode {
        notice := CannotConnectNotice;
        socketCloseReason := BannedReason;
        messagable := false;
      } else if code == NotFoundCode {
        notice := CannotConnectNotice;
        socketCloseReason := NotFoundReason;
        messagable := false;
      } else {
        notice := ReconnectNotice;
      }
    }

    /** `onError`: a notice only. */
    method OnSocketError()
      modifies this`notice
      ensures notice == SocketErrorNotice
    {
      notice := SocketErrorNotice;
    }

    /** The effect that runs when a new `lastJsonMessage` arrives. */
    method OnLiveMessage(payload: Option<Payload>)
      requires Valid()
      modifies this`messages
      ensures Valid()
      ensures messages == AppendLive(old(messages), payload)
    {
      AppendLiveKeepsUnique(messages, payload);
      if payload.Some? {
        var present := ContainsId(messages, payload.value.id);
        if !present {
          messages := messages + [payload.value];
        }
      }
    }

    /** The effect that runs when `messages` changes: jump to the newest
        message only while pinned to the bottom (and while the chat body is
        mounted); afterwards the view reads as being at the bottom. */
    method ScrollOnNewMessages(view: Option<Viewport>) returns (after: Option<Viewport>)
      ensures scrollToEnd && view.Some? ==> after == Some(ScrolledToBottom(view.value))
      ensures !scrollToEnd || view.None? ==> after == view
      ensures scrollToEnd && view.Some? ==> AtBottom(after.value)
    {
      after := view;
      if scrollToEnd && view.Some? {
        after := Some(ScrolledToBottom(view.value));
      }
    }

    /** `handleChatScroll`: the pinned flag follows the `bottom` test, and
        the result says whether the next page of history is requested. */
    method HandleChatScroll(target: Viewport, hasNextPage: Option<bool>) returns (fetchOlder: bool)
      modifies this`scrollToEnd
      ensures scrollToEnd == AtBottom(target)
      ensures fetchOlder == ShouldFetchOlder(target, hasNextPage)
    {
      var bottom := target.scrollHeight - target.scrollTop <= target.clientHeight + 50;
      if !bottom && scrollToEnd {
        scrollToEnd := false;
      } else if !scrollToEnd && bottom {
        scrollToEnd := true;
      }
      fetchOlder := (20 >= target.scrollTop || target.clientHeight == target.scrollHeight) &&
                    (hasNextPage == None || hasNextPage == Some(true));
    }

    /** `sumbitMessage` in the given ready state. */
    method SubmitMessage(ready: ReadyState) returns (outcome: SubmitOutcome)
      modifies this`text, this`notice, this`sent, this`sentFirstMessage
      ensures outcome == SubmitDecision(old(text), ready)
      ensures outcome == Ignored ==>
                text == old(text) && notice == old(notice) && sent == old(sent) &&
                sentFirstMessage == old(sentFirstMessage)
      ensures outcome.Refused? ==>
                notice == outcome.notice && text == old(text) && sent == old(sent) &&
                sentFirstMessage == old(sentFirstMessage)
      ensures outcome.Sent? ==>
                text == "" && sent == old(sent) + [outcome.frame] && sentFirstMessage &&
                notice == old(notice)
    {
      if Trim(text) == [] {
        return Ignored;
      }
      if ready == Connecting {
        notice := ConnectingNotice;
        return Refused(ConnectingNotice);
      }
      if ready == Closed {
        notice := ClosedNotice;
        return Refused(ClosedNotice);
      }
      var frame := MessageFrame(text);
      sent := sent + [frame];
      text := "";
      sentFirstMessage := true;
      outcome := Sent(frame);
    }

    /** The text box's `onChange`. */
    method EditText(value: string)
      modifies this`text
      ensures text == value
    {
      text := value;
    }

    /** The effect that runs when the browser's online status changes. */
    method OnOnlineStatus(online: bool)
      modifies this`notice
      ensures notice == if online then old(notice) else OfflineNotice
    {
      if !online {
        notice := OfflineNotice;
      }
    }

    /** The timed notice's `onTimeOut`. */
    method NoticeTimedOut()
      modifies this`notice
      ensures notice == ""
    {
      notice := "";
    }
  }
}
