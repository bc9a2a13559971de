/** The assistant's chat store: the live message log of the current session,
    the bounded archive of past sessions, the history panel flag, the user's
    preferences, and the projection of all that which is written to storage
    under the key `ai-chat-storage`. */
module ChatStore {
  import opened Common
  import opened Strings
  import opened Seqs
  import opened ChatMessage

  /** The archive keeps at most this many sessions. */
  const HISTORY_CAP: nat := 20
  /** Titles longer than this many characters are cut and marked. */
  const TITLE_MAX: nat := 20
  const ELLIPSIS: string := "..."
  /** The title of a session without any user message. */
  const UNTITLED: string := "新的对话"

  const DEFAULT_PREFERENCES: map<string, bool> :=
    map["quickReplies" := true, "soundEnabled" := false, "autoScroll" := true]

  datatype HistoryEntry = HistoryEntry(
    id: string, title: string, messages: seq<Message>, createdAt: string, updatedAt: string)

  /** The argument of `saveHistory`: every field may be missing. */
  datatype Conversation = Conversation(
    sessionId: Option<string>, title: Option<string>, messages: seq<Message>, createdAt: Option<string>)

  datatype MessageStats = MessageStats(
    totalMessages: nat, userMessages: nat, assistantMessages: nat, totalSessions: nat,
    lastActiveTime: Option<string>)

  /** The part of the store that survives a reload. */
  datatype Persisted = Persisted(
    history: seq<HistoryEntry>, userPreferences: map<string, bool>, lastActiveTime: Option<string>)

  predicate UniqueIds(h: seq<HistoryEntry>) {
    UniqueBy((e: HistoryEntry) => e.id, h)
  }

  // ---------------------------------------------------------------------
  // Identifiers and stamps built from the clock.

  /** `msg_${Date.now()}_${random}` */
  function MessageId(clock: Clock): string {
    "msg_" + Decimal(clock.ms) + "_" + clock.rand
  }

  /** `{...message, id, timestamp, sessionId}`: the caller's fields, with the
      three metadata fields overwritten. */
  function Stamp(m: Message, clock: Clock, session: Option<string>): (r: Message)
    ensures r.role == m.role && r.content == m.content && r.usage == m.usage
    ensures r.id == Some(MessageId(clock)) && r.timestamp == Some(clock.iso) && r.sessionId == session
  {
    m.(id := Some(MessageId(clock)), timestamp := Some(clock.iso), sessionId := session)
  }

  /** `session_${Date.now()}` */
  function SessionId(clock: Clock): string {
    "session_" + Decimal(clock.ms)
  }

  /** The welcome text around the date of the day. */
  const WELCOME_HEAD: string := "您好！我是您的AI购物助手\"小购\"，专注提供2024年最新的购物资讯。\n\n🔥 **今日服务（"
  const WELCOME_TAIL: string := "）**：\n• 2024年最新商品推荐\n• 实时价格对比分析  \n• 最新购物趋势解读\n• 新品发布信息更新\n\n💡 **提示**：询问时加上\"2024年最新\"可获得最准确的产品信息！\n\n请问有什么可以帮助您的吗？"

  function WelcomeText(date: string): string {
    WELCOME_HEAD + date + WELCOME_TAIL
  }

  /** The single message a fresh session starts with: written by the assistant
      and stamped with the new session's id. */
  function Welcome(sessionId: string, clock: Clock): (m: Message)
    ensures m.role == ASSISTANT && m.sessionId == Some(sessionId)
    ensures m.id == Some("welcome_" + sessionId)
  {
    Message(ASSISTANT, WelcomeText(clock.localeDate), None, Some("welcome_" + sessionId), Some(clock.iso), Some(sessionId))
  }

  // ---------------------------------------------------------------------
  // Session titles.

  predicate IsUserMessage(m: Message) {
    m.role == USER
  }

  /** A title is the text itself when short, else its first `TITLE_MAX`
      characters followed by the ellipsis. */
  function Truncate(text: string): (t: string)
    ensures |t| <= TITLE_MAX + |ELLIPSIS|
    ensures |text| <= TITLE_MAX ==> t == text
    ensures |text| > TITLE_MAX ==> |t| == TITLE_MAX + |ELLIPSIS| && t[..TITLE_MAX] == text[..TITLE_MAX] && t[TITLE_MAX..] == ELLIPSIS
  {
    if |text| > TITLE_MAX then text[..TITLE_MAX] + ELLIPSIS else text
  }

  /** `generateSessionTitle`: the first user message's text, shortened. */
  function GenerateSessionTitle(messages: seq<Message>): (title: string)
    ensures |title| <= TITLE_MAX + |ELLIPSIS|
    ensures (forall m :: m in messages ==> !IsUserMessage(m)) ==> title == UNTITLED
  {
    var users := Filter(IsUserMessage, messages);
    assert |users| > 0 ==> users[0] in users;
    if |users| == 0 then UNTITLED else Truncate(users[0].content)
  }

  /** The title is taken from the FIRST user message, whatever follows it. */
  lemma {:induction false} TitleFromFirstUserMessage(messages: seq<Message>, k: nat)
    requires k < |messages| && IsUserMessage(messages[k])
    requires forall j :: 0 <= j < k ==> !IsUserMessage(messages[j])
    ensures GenerateSessionTitle(messages) == Truncate(messages[k].content)
  {
    FirstFiltered(messages, k);
  }

  lemma {:induction false} FirstFiltered(messages: seq<Message>, k: nat)
    requires k < |messages| && IsUserMessage(messages[k])
    requires forall j :: 0 <= j < k ==> !IsUserMessage(messages[j])
    ensures |Filter(IsUserMessage, messages)| > 0 && Filter(IsUserMessage, messages)[0] == messages[k]
  {
    if k > 0 {
      FirstFiltered(messages[1..], k - 1);
    }
  }

  /** A long first question is cut to twenty characters and marked. */
  lemma LongQuestionTitle()
    ensures GenerateSessionTitle([Bare(USER, "hello world this is a very long user message")])
            == "hello world this is " + ELLIPSIS
  {
    var m := Bare(USER, "hello world this is a very long user message");
    TitleFromFirstUserMessage([m], 0);
  }

  // ---------------------------------------------------------------------
  // The archive.

  /** `history.findIndex(h => h.id === id)` */
  function FindIndex(h: seq<HistoryEntry>, id: string): (r: int)
    ensures -1 <= r < |h|
    ensures r >= 0 ==> h[r].id == id && forall j :: 0 <= j < r ==> h[j].id != id
    ensures r == -1 ==> forall j :: 0 <= j < |h| ==> h[j].id != id
  {
    if h == [] then -1
    else if h[0].id == id then 0
    else
      var r := FindIndex(h[1..], id);
      if r == -1 then -1 else r + 1
  }

  /** The last `n` elements, or all of `s` when it is shorter: `s.slice(-n)`
      for `n > 0`, the only case the store uses (`n` is `HISTORY_CAP`).
      Unlike `slice(-0)`, which copies the whole array, `n = 0` gives `[]`. */
  function KeepLast<T>(s: seq<T>, n: nat): (r: seq<T>)
    ensures |r| == if |s| > n then n else |s|
    ensures r == s[|s| - |r|..]
  {
    if |s| > n then s[|s| - n..] else s
  }

  /** Every entry of `r` is `entry` or was already in `h`. */
  predicate DrawnFrom(r: seq<HistoryEntry>, h: seq<HistoryEntry>, entry: HistoryEntry) {
    forall e :: e in r ==> e == entry || e in h
  }

  /** The archive after saving `entry`: an entry with the same id is replaced in
      its slot; otherwise `entry` is appended and only the last
      `HISTORY_CAP` entries are kept. */
  function Upsert(h: seq<HistoryEntry>, entry: HistoryEntry): (r: seq<HistoryEntry>)
    ensures entry in r
    ensures DrawnFrom(r, h, entry)
    ensures |r| <= |h| + 1 && (|h| <= HISTORY_CAP ==> |r| <= HISTORY_CAP)
  {
    var i := FindIndex(h, entry.id);
    if i >= 0 then
      var r := h[i := entry];
      assert r[i] == entry;
      assert forall j :: 0 <= j < |r| && j != i ==> r[j] == h[j] && h[j] in h;
      r
    else
      var s := h + [entry];
      var r := KeepLast(s, HISTORY_CAP);
      var d := |s| - |r|;
      assert r[|r| - 1] == entry;
      assert forall j :: 0 <= j < |r| - 1 ==> r[j] == h[d + j] && h[d + j] in h;
      r
  }

  /** Saving an id already archived overwrites that slot and nothing else. */
  lemma UpsertReplacesInPlace(h: seq<HistoryEntry>, entry: HistoryEntry, i: nat)
    requires UniqueIds(h) && i < |h| && h[i].id == entry.id
    ensures Upsert(h, entry) == h[i := entry]
    ensures |Upsert(h, entry)| == |h|
  {
    var k := FindIndex(h, entry.id);
    assert h[k].id == h[i].id;
  }

  /** Saving a new id appends it at the end; once the archive is full the
      oldest entry is the one that makes room. */
  lemma UpsertAppends(h: seq<HistoryEntry>, entry: HistoryEntry)
    requires forall j :: 0 <= j < |h| ==> h[j].id != entry.id
    ensures |h| < HISTORY_CAP ==> Upsert(h, entry) == h + [entry]
    ensures |h| == HISTORY_CAP ==> Upsert(h, entry) == h[1..] + [entry]
  {
    if |h| == HISTORY_CAP {
      assert (h + [entry])[1..] == h[1..] + [entry];
    }
  }

  /** Saving keeps the archive within its cap with unique ids, and the saved
      entry is in it afterwards. */
  lemma {:induction false} UpsertKeepsInvariant(h: seq<HistoryEntry>, entry: HistoryEntry)
    requires |h| <= HISTORY_CAP && UniqueIds(h)
    ensures |Upsert(h, entry)| <= HISTORY_CAP && UniqueIds(Upsert(h, entry))
    ensures entry in Upsert(h, entry)
  {
    var i := FindIndex(h, entry.id);
    if i >= 0 {
      assert Upsert(h, entry) == h[i := entry];
      ReplaceKeepsUnique(h, entry, i);
    } else {
      assert Upsert(h, entry) == KeepLast(h + [entry], HISTORY_CAP);
      AppendKeepsUnique(h, entry);
    }
  }

  lemma {:induction false} ReplaceKeepsUnique(h: seq<HistoryEntry>, entry: HistoryEntry, i: nat)
    requires UniqueIds(h) && i < |h| && h[i].id == entry.id
    ensures UniqueIds(h[i := entry])
  {
    var r := h[i := entry];
    forall a, b | 0 <= a < b < |r| ensures r[a].id != r[b].id {
      assert r[a].id == h[a].id && r[b].id == h[b].id;
    }
  }

  lemma {:induction false} AppendKeepsUnique(h: seq<HistoryEntry>, entry: HistoryEntry)
    requires UniqueIds(h) && forall j :: 0 <= j < |h| ==> h[j].id != entry.id
    ensures UniqueIds(KeepLast(h + [entry], HISTORY_CAP))
  {
    var s := h + [entry];
    forall a, b | 0 <= a < b < |s| ensures s[a].id != s[b].id {
      if b < |h| { assert s[a] == h[a] && s[b] == h[b]; }
    }
    var r := KeepLast(s, HISTORY_CAP);
    forall a, b | 0 <= a < b < |r| ensures r[a].id != r[b].id {
      assert r[a] == s[|s| - |r| + a] && r[b] == s[|s| - |r| + b];
    }
  }

  /** Re-saving an archived session never grows the archive. */
  lemma ResaveNeverGrows(h: seq<HistoryEntry>, entry: HistoryEntry, i: nat)
    requires i < |h| && h[i].id == entry.id
    ensures |Upsert(h, entry)| == |h|
  {
  }

  /** Saving the same entry twice is the same as saving it once. */
  lemma {:induction false} UpsertIdempotent(h: seq<HistoryEntry>, entry: HistoryEntry)
    ensures Upsert(Upsert(h, entry), entry) == Upsert(h, entry)
  {
    var i := FindIndex(h, entry.id);
    if i >= 0 {
      var r := h[i := entry];
      assert Upsert(h, entry) == r;
      FindAfterReplace(h, entry, i);
      assert r[i := entry] == r;
    } else {
      var r := KeepLast(h + [entry], HISTORY_CAP);
      assert Upsert(h, entry) == r;
      FindAfterAppend(h, entry);
      assert r[|r| - 1 := entry] == r;
    }
  }

  lemma {:induction false} FindAfterReplace(h: seq<HistoryEntry>, entry: HistoryEntry, i: nat)
    requires i < |h| && h[i].id == entry.id && forall j :: 0 <= j < i ==> h[j].id != entry.id
    ensures FindIndex(h[i := entry], entry.id) == i
  {
    var r := h[i := entry];
    assert r[i] == entry;
    assert forall j :: 0 <= j < i ==> r[j] == h[j];
  }

  lemma {:induction false} FindAfterAppend(h: seq<HistoryEntry>, entry: HistoryEntry)
    requires forall j :: 0 <= j < |h| ==> h[j].id != entry.id
    ensures var r := KeepLast(h + [entry], HISTORY_CAP);
      |r| >= 1 && r[|r| - 1] == entry && FindIndex(r, entry.id) == |r| - 1
  {
    var s := h + [entry];
    var r := KeepLast(s, HISTORY_CAP);
    assert r[|r| - 1] == entry;
    forall j | 0 <= j < |r| - 1 ensures r[j].id != entry.id {
      assert r[j] == s[|s| - |r| + j];
    }
  }

  /** `deleteHistory`: the archive without the entries carrying `id`. */
  function WithoutId(h: seq<HistoryEntry>, id: string): (r: seq<HistoryEntry>)
    ensures |r| <= |h|
    ensures forall j :: 0 <= j < |r| ==> r[j].id != id && r[j] in h
  {
    var r := Filter((e: HistoryEntry) => e.id != id, h);
    assert forall j :: 0 <= j < |r| ==> r[j] in r;
    r
  }

  /** Deleting removes exactly the entries with that id, keeps the others in
      their order, and is a no-op for an unknown id. */
  lemma DeleteKeepsOthers(h: seq<HistoryEntry>, id: string)
    ensures forall e :: e in WithoutId(h, id) <==> e in h && e.id != id
    ensures IsSubsequence(WithoutId(h, id), h)
    ensures (forall j :: 0 <= j < |h| ==> h[j].id != id) ==> WithoutId(h, id) == h
  {
    FilterIsSubsequence((e: HistoryEntry) => e.id != id, h);
    if forall j :: 0 <= j < |h| ==> h[j].id != id {
      FilterAll((e: HistoryEntry) => e.id != id, h);
    }
  }

  /** The entry `saveHistory` builds: missing or empty fields get the session
      id fallback, a generated title and the current time. */
  function HistoryItem(c: Conversation, clock: Clock): (e: HistoryEntry)
    ensures e.messages == c.messages && e.updatedAt == clock.iso
    ensures Truthy(c.sessionId) ==> e.id == c.sessionId.value
    ensures !Truthy(c.title) ==> e.title == GenerateSessionTitle(c.messages)
  {
    HistoryEntry(
      OrElse(c.sessionId, "history_" + Decimal(clock.ms)),
      OrElse(c.title, GenerateSessionTitle(c.messages)),
      c.messages,
      OrElse(c.createdAt, clock.iso),
      clock.iso)
  }

  // ---------------------------------------------------------------------
  // Statistics.

  /** `messages.filter(m => m.role === role).length` */
  function CountRole(messages: seq<Message>, role: string): (n: nat)
    ensures n <= |messages|
    ensures n == 0 <==> forall j :: 0 <= j < |messages| ==> messages[j].role != role
  {
    var r := Filter((m: Message) => m.role == role, messages);
    assert r != [] ==> r[0] in r;
    assert forall j :: 0 <= j < |messages| ==> messages[j] in messages;
    |r|
  }

  /** No message is counted both as a user and as an assistant message. */
  lemma {:induction false} RoleCountsBounded(messages: seq<Message>)
    ensures CountRole(messages, USER) + CountRole(messages, ASSISTANT) <= |messages|
  {
    if messages != [] {
      RoleCountsBounded(messages[1..]);
    }
  }

  // ---------------------------------------------------------------------
  // The store itself.

  class AIChatStore {
    var messages: seq<Message>
    var isLoading: bool
    var history: seq<HistoryEntry>
    var showHistory: bool
    var currentSessionId: Option<string>
    var typingIndicator: bool
    var lastActiveTime: Option<string>
    var userPreferences: map<string, bool>

    /** The archive stays bounded and keyed by id. */
    ghost predicate Valid()
      reads this`history
    {
      |history| <= HISTORY_CAP && UniqueIds(history)
    }

    constructor ()
      ensures Valid()
      ensures messages == [] && !isLoading && history == [] && !showHistory
      ensures currentSessionId == None && !typingIndicator && lastActiveTime == None
      ensures userPreferences == DEFAULT_PREFERENCES
    {
      messages, isLoading, history, showHistory := [], false, [], false;
      currentSessionId, typingIndicator, lastActiveTime := None, false, None;
      userPreferences := DEFAULT_PREFERENCES;
    }

    /** `addMessage`: appends exactly one message, stamped with the current
        session id; everything already in the log stays as it was. */
    method AddMessage(m: Message, clock: Clock)
      modifies this`messages, this`isLoading, this`lastActiveTime
      ensures messages == old(messages) + [Stamp(m, clock, currentSessionId)]
      ensures !isLoading && lastActiveTime == Some(clock.iso)
    {
      var stamped := Stamp(m, clock, currentSessionId);
      messages := messages + [stamped];
      isLoading := false;
      lastActiveTime := Some(clock.iso);
    }

    /** `addMessages`: appends a batch as given. */
    method AddMessages(batch: seq<Message>)
      modifies this`messages
      ensures messages == old(messages) + batch
    {
      messages := messages + batch;
    }

    method SetLoading(loading: bool)
      modifies this`isLoading
      ensures isLoading == loading
    {
      isLoading := loading;
    }

    method SetTypingIndicator(typing: bool)
      modifies this`typingIndicator
      ensures typingIndicator == typing
    {
      typingIndicator := typing;
    }

    /** `startNewSession`: a new session id and a log holding only the welcome
        message; the archive is not touched. */
    method StartNewSession(clock: Clock)
      modifies this`currentSessionId, this`messages, this`lastActiveTime
      ensures currentSessionId == Some(SessionId(clock))
      ensures messages == [Welcome(SessionId(clock), clock)]
      ensures lastActiveTime == Some(clock.iso)
    {
      var sessionId := SessionId(clock);
      currentSessionId := Some(sessionId);
      messages := [Welcome(sessionId, clock)];
      lastActiveTime := Some(clock.iso);
    }

    /** `saveHistory`: upserts the conversation into the archive. */
    method SaveHistory(c: Conversation, clock: Clock)
      requires Valid()
      modifies this`history
      ensures Valid()
      ensures history == Upsert(old(history), HistoryItem(c, clock))
      ensures HistoryItem(c, clock) in history
    {
      var item := HistoryItem(c, clock);
      UpsertKeepsInvariant(history, item);
      var i := FindIndex(history, item.id);
      if i >= 0 {
        history := history[i := item];
      } else {
        history := KeepLast(history + [item], HISTORY_CAP);
      }
    }

    /** `loadHistorySession`: a known id makes its snapshot the current
        session and hides the panel; an unknown id changes nothing. */
    method LoadHistorySession(id: string)
      modifies this`currentSessionId, this`messages, this`showHistory
      ensures var i := FindIndex(history, id);
        if i >= 0 then
          currentSessionId == Some(history[i].id) && messages == history[i].messages && !showHistory
        else
          currentSessionId == old(currentSessionId) && messages == old(messages) && showHistory == old(showHistory)
    {
      var i := FindIndex(history, id);
      if i >= 0 {
        currentSessionId := Some(history[i].id);
        messages := history[i].messages;
        showHistory := false;
      }
    }

    /** `deleteHistory` */
    method DeleteHistory(id: string)
      requires Valid()
      modifies this`history
      ensures Valid()
      ensures history == WithoutId(old(history), id)
    {
      FilterUnique((e: HistoryEntry) => e.id, (e: HistoryEntry) => e.id != id, history);
      history := WithoutId(history, id);
    }

    method ToggleHistory()
      modifies this`showHistory
      ensures showHistory == !old(showHistory)
    {
      showHistory := !showHistory;
    }

    /** `clearMessages`: empties the log and forgets the session, leaving the
        archive and everything persisted as it was. */
    method ClearMessages()
      modifies this`messages, this`currentSessionId
      ensures messages == [] && currentSessionId == None
      ensures Partialize() == old(Partialize())
    {
      messages := [];
      currentSessionId := None;
    }

    method ClearAllHistory()
      modifies this`history, this`showHistory
      ensures Valid()
      ensures history == [] && !showHistory
    {
      history := [];
      showHistory := false;
    }

    /** `updatePreferences`: a shallow merge; keys the patch names take its
        values, the others keep theirs. */
    method UpdatePreferences(patch: map<string, bool>)
      modifies this`userPreferences
      ensures userPreferences.Keys == old(userPreferences).Keys + patch.Keys
      ensures forall k :: k in patch ==> userPreferences[k] == patch[k]
      ensures forall k :: k in old(userPreferences) && k !in patch ==> userPreferences[k] == old(userPreferences)[k]
    {
      userPreferences := userPreferences + patch;
    }

    /** `getMessageStats` */
    function GetMessageStats(): (r: MessageStats)
      reads this
      ensures r.totalMessages == |messages| && r.totalSessions == |history|
      ensures r.userMessages == CountRole(messages, USER) && r.assistantMessages == CountRole(messages, ASSISTANT)
      ensures r.userMessages + r.assistantMessages <= r.totalMessages
      ensures r.lastActiveTime == lastActiveTime
    {
      RoleCountsBounded(messages);
      MessageStats(|messages|, CountRole(messages, USER), CountRole(messages, ASSISTANT), |history|, lastActiveTime)
    }

    /** What `persist` writes: the archive, the preferences and the last
        activity time, and none of the live session. */
    function Partialize(): (p: Persisted)
      reads this`history, this`userPreferences, this`lastActiveTime
      ensures p.history == history && p.userPreferences == userPreferences
      ensures p.lastActiveTime == lastActiveTime
    {
      Persisted(history, userPreferences, lastActiveTime)
    }
  }
}
