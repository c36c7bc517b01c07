/**
 * The chat store shared by the chat screens: a list of chats that new chats
 * are prepended to, messages appended to, last-message lines updated in, and
 * whose relative-time labels ("방금 전", "N분 전", …) are recomputed every
 * minute.
 *
 * Clock readings are `now` parameters in milliseconds; the clock-time text of
 * a message (`toLocaleTimeString`) is a given string.
 */
module ChatStore {
  import opened Wrappers
  import opened Seqs
  import opened Strings

  datatype Party = Me | Other

  datatype ChatMessage = ChatMessage(id: string, sender: Party, text: string, time: string, timestamp: int)

  datatype Chat = Chat(
    id: string,
    requestId: string,
    name: string,
    requestType: string,
    lastMessage: string,
    timeAgo: string,
    unread: nat,
    messages: seq<ChatMessage>,
    createdAt: int)

  // ---------------------------------------------------------------------------
  // Relative time
  // ---------------------------------------------------------------------------

  const MinuteMs: int := 60000
  const HourMs: int := 3600000
  const DayMs: int := 86400000

  /** The bucket getTimeAgo falls into, with its whole count of units. */
  datatype Elapsed = JustNow | MinutesAgo(minutes: nat) | HoursAgo(hours: nat) | DaysAgo(days: nat)

  /**
   * getTimeAgo's arithmetic: whole minutes, hours and days by floor division
   * of the difference; under a minute (a future timestamp included) is "just now".
   */
  function ElapsedSince(now: int, timestamp: int): (e: Elapsed)
    ensures e == JustNow <==> now - timestamp < MinuteMs
    ensures e.MinutesAgo? ==> 1 <= e.minutes < 60 &&
                              e.minutes * MinuteMs <= now - timestamp < (e.minutes + 1) * MinuteMs
    ensures e.HoursAgo? ==> 1 <= e.hours < 24 &&
                            e.hours * HourMs <= now - timestamp < (e.hours + 1) * HourMs
    ensures e.DaysAgo? ==> 1 <= e.days &&
                           e.days * DayMs <= now - timestamp < (e.days + 1) * DayMs
  {
    var diff := now - timestamp;
    var minutes := diff / 60000;
    var hours := diff / 3600000;
    var days := diff / 86400000;
    if minutes < 1 then JustNow
    else if minutes < 60 then MinutesAgo(minutes)
    else if hours < 24 then HoursAgo(hours)
    else DaysAgo(days)
  }

  /** The label of a bucket. */
  function Label(e: Elapsed): string
  {
    match e
    case JustNow => "방금 전"
    case MinutesAgo(n) => NatToString(n) + "분 전"
    case HoursAgo(n) => NatToString(n) + "시간 전"
    case DaysAgo(n) => NatToString(n) + "일 전"
  }

  /** getTimeAgo. */
  function TimeAgo(now: int, timestamp: int): string
  {
    Label(ElapsedSince(now, timestamp))
  }

  /** A timestamp taken at the moment of rendering reads "방금 전". */
  lemma TimeAgoOfNow(now: int)
    ensures TimeAgo(now, now) == "방금 전"
  {
  }

  /** Different buckets never share a label: the label gives back the bucket and its count. */
  lemma LabelInjective(a: Elapsed, b: Elapsed)
    requires Label(a) == Label(b)
    ensures a == b
  {
    LabelStartsWithDigit(a);
    LabelStartsWithDigit(b);
    if !a.JustNow? {
      var s := Label(a);
      var da, db := NatToString(UnitCount(a)), NatToString(UnitCount(b));
      var ka, kb := UnitSuffix(a), UnitSuffix(b);
      LeadingDigitsOf(da, ka);
      LeadingDigitsOf(db, kb);
      assert s == da + ka == db + kb;
      assert |da| == |db|;
      assert da == s[..|da|] == db;
      assert ka == s[|da|..] == kb;
      NatToStringInjective(UnitCount(a), UnitCount(b));
      SuffixDeterminesUnit(a, b);
    }
  }

  /** Only the "just now" label does not start with a digit. */
  lemma LabelStartsWithDigit(e: Elapsed)
    ensures |Label(e)| > 0
    ensures IsDigit(Label(e)[0]) <==> !e.JustNow?
  {
    if !e.JustNow? {
      assert Label(e)[0] == NatToString(UnitCount(e))[0];
    }
  }

  function UnitCount(e: Elapsed): nat
  {
    match e
    case JustNow => 0
    case MinutesAgo(n) => n
    case HoursAgo(n) => n
    case DaysAgo(n) => n
  }

  /** The text after the number of a label. */
  function UnitSuffix(e: Elapsed): (r: string)
    requires !e.JustNow?
    ensures |r| > 0 && !IsDigit(r[0])
    ensures Label(e) == NatToString(UnitCount(e)) + r
  {
    match e
    case MinutesAgo(_) => "분 전"
    case HoursAgo(_) => "시간 전"
    case DaysAgo(_) => "일 전"
  }

  /** The three unit texts differ, so the text names the unit. */
  lemma SuffixDeterminesUnit(a: Elapsed, b: Elapsed)
    requires !a.JustNow? && !b.JustNow? && UnitSuffix(a) == UnitSuffix(b)
    requires UnitCount(a) == UnitCount(b)
    ensures a == b
  {
    assert "분 전"[0] != "일 전"[0];
  }

  /** The length of the run of digits a text starts with. */
  function LeadingDigits(s: string): nat
    decreases |s|
  {
    if |s| > 0 && IsDigit(s[0]) then 1 + LeadingDigits(s[1..]) else 0
  }

  /** Digits followed by a text starting with a non-digit: the run of digits is exactly the first part. */
  lemma {:induction false} LeadingDigitsOf(d: string, k: string)
    requires forall i :: 0 <= i < |d| ==> IsDigit(d[i])
    requires |k| > 0 && !IsDigit(k[0])
    ensures LeadingDigits(d + k) == |d|
    decreases |d|
  {
    if d == [] {
      assert d + k == k;
    } else {
      assert (d + k)[1..] == d[1..] + k;
      LeadingDigitsOf(d[1..], k);
    }
  }

  // ---------------------------------------------------------------------------
  // List operations
  // ---------------------------------------------------------------------------

  const AcceptedText := "의뢰를 수락했습니다. 채팅을 시작해주세요."
  const WelcomeText := "안녕하세요. 의뢰를 수락해주셔서 감사합니다."

  /**
   * The chat addChat creates. The source reads the clock twice: `idClock` for
   * the chat id, then `now` for everything else; `time` is the clock-time text
   * of `now`.
   */
  function NewChat(requestId: string, name: string, requestType: string, idClock: nat, now: nat, time: string): (c: Chat)
    ensures c.id == "chat-" + NatToString(idClock) && c.requestId == requestId && c.name == name
    ensures c.requestType == requestType && c.createdAt == now
    ensures c.lastMessage == AcceptedText && c.timeAgo == "방금 전" && c.unread == 0
    ensures |c.messages| == 1 && c.messages[0].sender == Other && c.messages[0].text == WelcomeText
    ensures c.messages[0].id == "msg-" + NatToString(now) && c.messages[0].timestamp == now
  {
    Chat("chat-" + NatToString(idClock), requestId, name, requestType, AcceptedText, "방금 전", 0,
         [ChatMessage("msg-" + NatToString(now), Other, WelcomeText, time, now)], now)
  }

  /** addMessage's updater for one chat. */
  function WithMessage(chatId: string, message: ChatMessage, now: int): Chat -> Chat
  {
    (c: Chat) =>
      if c.id == chatId
      then c.(messages := c.messages + [message], lastMessage := message.text,
              timeAgo := TimeAgo(now, message.timestamp))
      else c
  }

  /** updateLastMessage's updater for one chat. */
  function WithLastMessage(chatId: string, text: string, now: int): Chat -> Chat
  {
    (c: Chat) => if c.id == chatId then c.(lastMessage := text, timeAgo := TimeAgo(now, now)) else c
  }

  /** The refresh's updater for one chat. */
  function Refreshed(now: int): Chat -> Chat
  {
    (c: Chat) => c.(timeAgo := TimeAgo(now, c.createdAt))
  }

  /** getChat: `chats.find(c => c.id === chatId)`, the first chat with that id. */
  function FindChat(chats: seq<Chat>, chatId: string): (r: Option<Chat>)
    ensures r.None? <==> forall i :: 0 <= i < |chats| ==> chats[i].id != chatId
    ensures r.Some? ==> exists i :: 0 <= i < |chats| && chats[i] == r.value && r.value.id == chatId &&
                                    forall j :: 0 <= j < i ==> chats[j].id != chatId
    decreases |chats|
  {
    if chats == [] then None
    else if chats[0].id == chatId then Some(chats[0])
    else
      var r := FindChat(chats[1..], chatId);
      assert forall j :: 1 <= j < |chats| ==> chats[j] == chats[1..][j - 1];
      if r.Some? then
        var i :| 0 <= i < |chats[1..]| && chats[1..][i] == r.value && r.value.id == chatId &&
                 forall j :: 0 <= j < i ==> chats[1..][j].id != chatId;
        assert chats[i + 1] == r.value;
        assert forall j :: 0 <= j < i + 1 ==> chats[j].id != chatId by {
          forall j | 0 <= j < i + 1 ensures chats[j].id != chatId {
            if j > 0 {
              assert chats[j] == chats[1..][j - 1];
            }
          }
        }
        r
      else r
  }

  /** An update aimed at an id no chat has changes nothing. */
  lemma UnknownIdChangesNothing(chats: seq<Chat>, chatId: string, message: ChatMessage, text: string, now: int)
    requires FindChat(chats, chatId) == None
    ensures Map(chats, WithMessage(chatId, message, now)) == chats
    ensures Map(chats, WithLastMessage(chatId, text, now)) == chats
  {
    var a := Map(chats, WithMessage(chatId, message, now));
    var b := Map(chats, WithLastMessage(chatId, text, now));
    assert forall i :: 0 <= i < |chats| ==> a[i] == chats[i];
    assert forall i :: 0 <= i < |chats| ==> b[i] == chats[i];
  }

  /** After addMessage, getChat finds the chat it found before, with the message appended. */
  lemma AddMessageThenFind(chats: seq<Chat>, chatId: string, message: ChatMessage, now: int)
    requires FindChat(chats, chatId).Some?
    ensures var c := FindChat(chats, chatId).value;
            FindChat(Map(chats, WithMessage(chatId, message, now)), chatId) ==
              Some(c.(messages := c.messages + [message], lastMessage := message.text,
                      timeAgo := TimeAgo(now, message.timestamp)))
    decreases |chats|
  {
    var r := Map(chats, WithMessage(chatId, message, now));
    if chats[0].id != chatId {
      assert r[1..] == Map(chats[1..], WithMessage(chatId, message, now));
      AddMessageThenFind(chats[1..], chatId, message, now);
      assert FindChat(chats, chatId) == FindChat(chats[1..], chatId);
    }
  }

  /** After addChat, getChat with the returned id finds the new chat, and every older chat is still found as before. */
  lemma AddChatThenFind(chats: seq<Chat>, requestId: string, name: string, requestType: string,
                        idClock: nat, now: nat, time: string, other: string)
    ensures var c := NewChat(requestId, name, requestType, idClock, now, time);
            FindChat([c] + chats, c.id) == Some(c)
    ensures var c := NewChat(requestId, name, requestType, idClock, now, time);
            other != c.id ==> FindChat([c] + chats, other) == FindChat(chats, other)
  {
    var c := NewChat(requestId, name, requestType, idClock, now, time);
    assert ([c] + chats)[1..] == chats;
  }

  /** A chat created at `now` carries the label the refresh would give it at that moment. */
  lemma NewChatLabelAgreesWithRefresh(requestId: string, name: string, requestType: string,
                                      idClock: nat, now: nat, time: string)
    ensures var c := NewChat(requestId, name, requestType, idClock, now, time);
            Refreshed(now)(c) == c
  {
    TimeAgoOfNow(now);
  }

  /** Chats created at different clock readings get different ids. */
  lemma NewChatIdsDistinct(a: nat, b: nat, r1: string, n1: string, t1: string, r2: string, n2: string, t2: string,
                           now1: nat, now2: nat, time1: string, time2: string)
    requires a != b
    ensures NewChat(r1, n1, t1, a, now1, time1).id != NewChat(r2, n2, t2, b, now2, time2).id
  {
    var p := "chat-";
    if p + NatToString(a) == p + NatToString(b) {
      assert NatToString(a) == (p + NatToString(a))[|p|..] == (p + NatToString(b))[|p|..] == NatToString(b);
      NatToStringInjective(a, b);
    }
  }

  /** The store as the provider starts without saved chats: three sample chats relative to `now`. */
  function InitialChats(now: int): seq<Chat>
  {
    [Chat("1", "1", "김철수", "자동차", "진단서 보내드렸습니다. 확인 부탁드려요.", "5분 전", 2,
          [ChatMessage("1", Other, "안녕하세요. 의뢰 감사합니다.", "10:30", now - 300000),
           ChatMessage("2", Me, "네, 안녕하세요. 사고 경위를 자세히 알려주세요.", "10:31", now - 240000),
           ChatMessage("3", Other, "교차로에서 좌회전 중 정면 충돌이 발생했습니다.", "10:32", now - 180000),
           ChatMessage("4", Me, "진단서나 사고 현장 사진이 있으신가요?", "10:33", now - 120000),
           ChatMessage("5", Other, "네, 첨부해드리겠습니다.", "10:35", now - 60000)],
          now - 300000),
     Chat("2", "2", "이영희", "실손", "네, 알겠습니다. 내일 오전에 방문하겠습니다.", "1시간 전", 0, [], now - 3600000),
     Chat("3", "3", "박민수", "화재", "감사합니다!", "3시간 전", 0, [], now - 10800000)]
  }

  /** The sample labels are what the refresh computes for them at the moment they are made. */
  lemma InitialLabelsAgreeWithRefresh(now: int)
    ensures forall i :: 0 <= i < 3 ==> Refreshed(now)(InitialChats(now)[i]) == InitialChats(now)[i]
  {
    assert NatToString(5) == "5" && NatToString(1) == "1" && NatToString(3) == "3";
    assert ElapsedSince(now, now - 300000) == MinutesAgo(5);
    assert ElapsedSince(now, now - 3600000) == HoursAgo(1);
    assert ElapsedSince(now, now - 10800000) == HoursAgo(3);
  }

  /**
   * The refresh reads the chat's creation time, not its last message: a chat
   * older than a minute whose last line was just updated ("방금 전") shows its
   * own age again after the next refresh.
   */
  lemma RefreshShowsChatAge(c: Chat, text: string, now: int)
    requires now - c.createdAt >= MinuteMs
    ensures WithLastMessage(c.id, text, now)(c).timeAgo == "방금 전"
    ensures Refreshed(now)(WithLastMessage(c.id, text, now)(c)).timeAgo != "방금 전"
  {
    var e := ElapsedSince(now, c.createdAt);
    LabelStartsWithDigit(e);
    LabelStartsWithDigit(JustNow);
  }

  // ---------------------------------------------------------------------------
  // The provider
  // ---------------------------------------------------------------------------

  /** The ChatProvider's `chats` state. */
  class ChatList {
    var chats: seq<Chat>

    constructor (now: int)
      ensures chats == InitialChats(now)
    {
      chats := InitialChats(now);
    }

    /** addChat: the new chat goes first, the others follow unchanged; its id is returned. */
    method AddChat(requestId: string, name: string, requestType: string, idClock: nat, now: nat, time: string)
      returns (chatId: string)
      modifies this
      ensures chats == [NewChat(requestId, name, requestType, idClock, now, time)] + old(chats)
      ensures chatId == chats[0].id
    {
      chatId := "chat-" + NatToString(idClock);
      chats := [NewChat(requestId, name, requestType, idClock, now, time)] + chats;
    }

    /** addMessage: every chat with that id gets the message appended and its last line and label updated. */
    method AddMessage(chatId: string, message: ChatMessage, now: int)
      modifies this
      ensures chats == Map(old(chats), WithMessage(chatId, message, now))
      ensures |chats| == |old(chats)|
      ensures forall i :: 0 <= i < |chats| && old(chats)[i].id != chatId ==> chats[i] == old(chats)[i]
      ensures forall i :: 0 <= i < |chats| && old(chats)[i].id == chatId ==>
                chats[i].messages == old(chats)[i].messages + [message] && chats[i].lastMessage == message.text
    {
      chats := Map(chats, WithMessage(chatId, message, now));
    }

    /** getChat: a chat of the list with that id, or none exactly when no chat has it. */
    function GetChat(chatId: string): (r: Option<Chat>)
      reads this
      ensures r.Some? ==> r.value in chats && r.value.id == chatId
      ensures r.None? <==> forall c :: c in chats ==> c.id != chatId
    {
      FindChat(chats, chatId)
    }

    /** updateLastMessage: only the last line and the label of the matching chats change. */
    method UpdateLastMessage(chatId: string, text: string, now: int)
      modifies this
      ensures chats == Map(old(chats), WithLastMessage(chatId, text, now))
      ensures |chats| == |old(chats)|
      ensures forall i :: 0 <= i < |chats| ==> chats[i].messages == old(chats)[i].messages
      ensures forall i :: 0 <= i < |chats| && old(chats)[i].id == chatId ==>
                chats[i] == old(chats)[i].(lastMessage := text, timeAgo := "방금 전")
      ensures forall i :: 0 <= i < |chats| && old(chats)[i].id != chatId ==> chats[i] == old(chats)[i]
    {
      TimeAgoOfNow(now);
      chats := Map(chats, WithLastMessage(chatId, text, now));
    }

    /** The minute refresh: every label recomputed from the chat's creation time, nothing else touched. */
    method RefreshTimeAgo(now: int)
      modifies this
      ensures chats == Map(old(chats), Refreshed(now))
      ensures |chats| == |old(chats)|
      ensures forall i :: 0 <= i < |chats| ==>
                chats[i] == old(chats)[i].(timeAgo := TimeAgo(now, old(chats)[i].createdAt))
    {
      chats := Map(chats, Refreshed(now));
    }
  }
}
