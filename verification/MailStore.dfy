/** The local corpus tables of lib/sync.ts: message sources, messages, and the conversation rollup. */
module MailStore {
  import opened Common
  import opened JsText
  import opened RemoteMailbox

  /** A `message_sources` row; its key is the remote message id. */
  datatype Source = Source(
    messageId: nat,
    thread: Option<string>,
    uid: nat,
    validity: nat,
    sha: string,
    active: bool)

  datatype Message = Message(conversation: Option<nat>, receivedAt: Option<int>)

  datatype Conversation = Conversation(thread: string, count: nat, first: Option<int>, last: Option<int>)

  // ---------- The aggregate the rollup must agree with ----------

  /** The messages of conversation `c`. */
  ghost function Members(messages: map<nat, Message>, c: nat): set<nat> {
    set m | m in messages && messages[m].conversation == Some(c)
  }

  /** The known reception times of conversation `c`; SQL's MIN and MAX skip nulls. */
  ghost function Times(messages: map<nat, Message>, c: nat): set<int> {
    set m | m in Members(messages, c) && messages[m].receivedAt.Some? :: messages[m].receivedAt.value
  }

  ghost predicate IsEarliest(t: Option<int>, times: set<int>) {
    match t
    case None => times == {}
    case Some(x) => x in times && forall y :: y in times ==> x <= y
  }

  ghost predicate IsLatest(t: Option<int>, times: set<int>) {
    match t
    case None => times == {}
    case Some(x) => x in times && forall y :: y in times ==> y <= x
  }

  ghost predicate RollupAgrees(conv: Conversation, messages: map<nat, Message>, c: nat) {
    && conv.count == |Members(messages, c)| > 0
    && IsEarliest(conv.first, Times(messages, c))
    && IsLatest(conv.last, Times(messages, c))
  }

  ghost function Restrict(messages: map<nat, Message>, ids: set<nat>): map<nat, Message> {
    map m | m in messages && m in ids :: messages[m]
  }

  ghost predicate AggregateOf(messages: map<nat, Message>, c: nat, count: nat, first: Option<int>, last: Option<int>) {
    && count == |Members(messages, c)|
    && IsEarliest(first, Times(messages, c))
    && IsLatest(last, Times(messages, c))
  }

  /** The earlier of two optional times; a null never wins. */
  function Earlier(a: Option<int>, b: Option<int>): Option<int> {
    if a.None? || (b.Some? && b.value < a.value) then b else a
  }

  function Later(a: Option<int>, b: Option<int>): Option<int> {
    if a.None? || (b.Some? && b.value > a.value) then b else a
  }

  lemma RestrictEnds(messages: map<nat, Message>, c: nat)
    ensures AggregateOf(Restrict(messages, {}), c, 0, None, None)
    ensures Restrict(messages, messages.Keys) == messages
  {
    assert Members(Restrict(messages, {}), c) == {};
  }

  /** Seeing one more message changes the aggregate by that message alone. */
  lemma RestrictStep(messages: map<nat, Message>, seen: set<nat>, m: nat, c: nat, count: nat, first: Option<int>,
                     last: Option<int>)
    requires m in messages && m !in seen
    requires AggregateOf(Restrict(messages, seen), c, count, first, last)
    ensures var t := messages[m].receivedAt;
            var large := Restrict(messages, seen + {m});
            if messages[m].conversation == Some(c)
              then AggregateOf(large, c, count + 1, Earlier(first, t), Later(last, t))
            else AggregateOf(large, c, count, first, last)
  {
    var (small, large) := (Restrict(messages, seen), Restrict(messages, seen + {m}));
    MembersStep(messages, seen, m, c);
    TimesStep(messages, seen, m, c);
    if messages[m].conversation == Some(c) {
      assert m !in Members(small, c);
      ExtremesStep(Times(small, c), first, last, messages[m].receivedAt);
    }
  }

  lemma ExtremesStep(times: set<int>, first: Option<int>, last: Option<int>, t: Option<int>)
    requires IsEarliest(first, times) && IsLatest(last, times)
    ensures IsEarliest(Earlier(first, t), times + if t.Some? then {t.value} else {})
    ensures IsLatest(Later(last, t), times + if t.Some? then {t.value} else {})
  {
  }

  lemma MembersStep(messages: map<nat, Message>, seen: set<nat>, m: nat, c: nat)
    requires m in messages && m !in seen
    ensures Members(Restrict(messages, seen + {m}), c)
         == Members(Restrict(messages, seen), c) + if messages[m].conversation == Some(c) then {m} else {}
  {
  }

  lemma TimesStep(messages: map<nat, Message>, seen: set<nat>, m: nat, c: nat)
    requires m in messages && m !in seen
    ensures Times(Restrict(messages, seen + {m}), c)
         == Times(Restrict(messages, seen), c)
            + if messages[m].conversation == Some(c) && messages[m].receivedAt.Some?
              then {messages[m].receivedAt.value} else {}
  {
    var (small, large) := (Restrict(messages, seen), Restrict(messages, seen + {m}));
    MembersStep(messages, seen, m, c);
    forall n | n in Members(small, c) && small[n].receivedAt.Some?
      ensures small[n].receivedAt.value in Times(large, c)
    {
      assert n in Members(large, c) && large[n] == small[n];
    }
    if messages[m].conversation == Some(c) && messages[m].receivedAt.Some? {
      assert m in Members(large, c) && large[m] == messages[m];
      assert messages[m].receivedAt.value in Times(large, c);
    }
  }

  /** A remote id `rawEmlPath` accepts (lib/config.ts). */
  predicate ValidRemoteId(id: string) {
    id != "" && forall i :: 0 <= i < |id| ==> IdChar(id[i])
  }

  const CAPITALS := {'A', 'B', 'C', 'D', 'E', 'F', 'G', 'H', 'I', 'J', 'K', 'L', 'M', 'N', 'O', 'P', 'Q', 'R', 'S', 'T',
                     'U', 'V', 'W', 'X', 'Y', 'Z'}
  const SMALLS := {'a', 'b', 'c', 'd', 'e', 'f', 'g', 'h', 'i', 'j', 'k', 'l', 'm', 'n', 'o', 'p', 'q', 'r', 's', 't',
                   'u', 'v', 'w', 'x', 'y', 'z'}
  const DIGITS_AND_MARKS := {'0', '1', '2', '3', '4', '5', '6', '7', '8', '9', '_', '.', '-'}

  predicate IsListed(c: char) { c in CAPITALS || c in SMALLS || c in DIGITS_AND_MARKS }

  lemma IdCharsListed(c: char)
    ensures IdChar(c) <==> IsListed(c)
  {
    assert 'A' <= c <= 'Z' <==> c in CAPITALS;
    assert 'a' <= c <= 'z' <==> c in SMALLS;
    assert '0' <= c <= '9' || c == '_' || c == '.' || c == '-' <==> c in DIGITS_AND_MARKS;
  }

  /** An id is refused exactly when it is empty or has a character outside the list. */
  lemma RemoteIdsListed(id: string)
    ensures ValidRemoteId(id) <==> |id| > 0 && forall c :: c in id ==> IsListed(c)
  {
    forall c ensures IdChar(c) <==> IsListed(c) {
      IdCharsListed(c);
    }
  }

  predicate IdChar(c: char) {
    'A' <= c <= 'Z' || 'a' <= c <= 'z' || '0' <= c <= '9' || c == '_' || c == '.' || c == '-'
  }

  function NormalThread(t: string): Option<string> {
    if Trim(t) == "" then None else Some(Trim(t))
  }

  predicate IsNormal(thread: Option<string>) {
    thread.Some? ==> thread.value != "" && Trim(thread.value) == thread.value
  }

  /** A message outside conversation `c`, before and after its update, does not touch the rollup of `c`. */
  lemma OutsiderKeepsRollup(conv: Conversation, messages: map<nat, Message>, m: nat, updated: Message, c: nat)
    requires RollupAgrees(conv, messages, c)
    requires m in messages ==> messages[m].conversation != Some(c)
    requires updated.conversation != Some(c)
    ensures RollupAgrees(conv, messages[m := updated], c)
  {
    var after := messages[m := updated];
    assert Members(after, c) == Members(messages, c);
    assert forall n :: n in Members(messages, c) ==> after[n] == messages[n];
    assert Times(after, c) == Times(messages, c);
  }

  /** The row an accepted ingest leaves for a message. */
  function IngestedSource(messageId: nat, m: RemoteMessage, validity: nat): Source {
    Source(messageId, NormalThread(m.threadId), m.uid, validity, m.sha, true)
  }

  /** SELECT count(*), min(received_at), max(received_at) FROM messages WHERE conversation_id = c. */
  method Aggregate(messages: map<nat, Message>, c: nat) returns (count: nat, first: Option<int>, last: Option<int>)
    ensures count == |Members(messages, c)|
    ensures IsEarliest(first, Times(messages, c)) && IsLatest(last, Times(messages, c))
  {
    count, first, last := 0, None, None;
    var todo := messages.Keys;
    ghost var seen: set<nat> := {};
    RestrictEnds(messages, c);
    while todo != {}
      invariant seen == messages.Keys - todo && todo <= messages.Keys
      invariant AggregateOf(Restrict(messages, seen), c, count, first, last)
      decreases todo
    {
      var m :| m in todo;
      RestrictStep(messages, seen, m, c, count, first, last);
      assert messages.Keys - (todo - {m}) == seen + {m};
      todo, seen := todo - {m}, seen + {m};
      if messages[m].conversation == Some(c) {
        count := count + 1;
        first := Earlier(first, messages[m].receivedAt);
        last := Later(last, messages[m].receivedAt);
      }
    }
    assert seen == messages.Keys;
  }

  /** A conversation's rollup is a function of the message table: two rows that agree with it are equal. */
  lemma RollupIsDetermined(a: Conversation, b: Conversation, messages: map<nat, Message>, c: nat)
    requires RollupAgrees(a, messages, c) && RollupAgrees(b, messages, c)
    ensures a.count == b.count && a.first == b.first && a.last == b.last
  {
  }

  ghost predicate Attached(m: Message, conversations: map<nat, Conversation>) {
    m.conversation.Some? ==> m.conversation.value in conversations
  }

  /** Keys, foreign keys and uniqueness of the three tables. */
  ghost predicate KeysLinked(sources: map<string, Source>, messages: map<nat, Message>,
                             conversations: map<nat, Conversation>, nextId: nat) {
    && (forall m :: m in messages ==> m < nextId)
    && (forall c :: c in conversations ==> c < nextId)
    && (forall m :: m in messages ==> Attached(messages[m], conversations))
    && (forall c, d ::
        c in conversations && d in conversations && conversations[c].thread == conversations[d].thread ==> c == d)
    && (forall r :: r in sources ==>
        ValidRemoteId(r) && sources[r].messageId in messages && IsNormal(sources[r].thread))
    && (forall r, s :: r in sources && s in sources && sources[r].messageId == sources[s].messageId ==> r == s)
  }

  lemma AddSourceKeepsLinks(sources: map<string, Source>, messages: map<nat, Message>,
                            conversations: map<nat, Conversation>, nextId: nat,
                            r: string, next: Source)
    requires KeysLinked(sources, messages, conversations, nextId)
    requires ValidRemoteId(r) && IsNormal(next.thread) && next.messageId in messages
    requires forall q :: q in sources && sources[q].messageId == next.messageId ==> q == r
    ensures KeysLinked(sources[r := next], messages, conversations, nextId)
  {
  }

  /** A message with source `s` sits in the conversation of the source's thread, and in none when it has no thread. */
  ghost predicate InThread(s: Source, messages: map<nat, Message>, conversations: map<nat, Conversation>) {
    && s.messageId in messages
    && match messages[s.messageId].conversation
       case None => s.thread.None?
       case Some(c) => c in conversations && s.thread == Some(conversations[c].thread)
  }

  ghost predicate Threaded(sources: map<string, Source>, messages: map<nat, Message>,
                           conversations: map<nat, Conversation>) {
    forall r :: r in sources ==> InThread(sources[r], messages, conversations)
  }

  /** Placing one message leaves every other message in its thread. */
  lemma OthersStayThreaded(sources: map<string, Source>, messages: map<nat, Message>, before: map<nat, Conversation>,
                           after: map<nat, Conversation>, r: string, next: Source, row: Message)
    requires Threaded(sources, messages, before)
    requires forall q :: q in sources && q != r ==> sources[q].messageId != next.messageId
    requires forall m :: m in messages && m != next.messageId ==> Attached(messages[m], after)
    requires forall c :: c in before && c in after ==> after[c].thread == before[c].thread
    requires InThread(next, messages[next.messageId := row], after)
    ensures Threaded(sources[r := next], messages[next.messageId := row], after)
  {
    forall q | q in sources && q != r ensures InThread(sources[q], messages[next.messageId := row], after) {
      assert Attached(messages[sources[q].messageId], after);
      assert InThread(sources[q], messages, before);
    }
  }

  lemma NobodyAttached(messages: map<nat, Message>, c: nat)
    requires |Members(messages, c)| == 0
    ensures forall m :: m in messages ==> messages[m].conversation != Some(c)
  {
    forall m | m in messages ensures messages[m].conversation != Some(c) {
      assert m !in Members(messages, c);
    }
  }

  /**
   * The rows of a message just ingested: an active source row with the UID, UIDVALIDITY and digest it was fetched
   * under, and a message in the conversation of its trimmed thread id, or in none when that is blank.
   */
  ghost predicate Placed(msg: RemoteMessage, validity: nat, s: Source, messages: map<nat, Message>,
                         conversations: map<nat, Conversation>) {
    && s.uid == msg.uid && s.validity == validity && s.sha == msg.sha && s.active
    && s.messageId in messages
    && var home := messages[s.messageId].conversation;
       if Trim(msg.threadId) == "" then s.thread.None? && home.None?
       else
         && s.thread == Some(Trim(msg.threadId)) && home.Some? && home.value in conversations
         && conversations[home.value].thread == Trim(msg.threadId)
  }

  /**
   * An ingest writes the source row and the message row of the fetched message and no other: a known message keeps
   * its id, and its parsed time too unless its digest changed.
   */
  ghost predicate OnlyItsRows(msg: RemoteMessage, validity: nat, sources: map<string, Source>,
                              messages: map<nat, Message>, sources': map<string, Source>,
                              messages': map<nat, Message>) {
    var r := msg.remoteId;
    && r in sources'
    && sources' == sources[r := IngestedSource(sources'[r].messageId, msg, validity)]
    && var m := sources'[r].messageId;
       && (if r in sources then m == sources[r].messageId && m in messages else m !in messages)
       && m in messages' && messages' == messages[m := messages'[m]]
       && messages'[m].receivedAt
            == if r in sources && sources[r].sha == msg.sha then messages[m].receivedAt else msg.receivedAt
  }

  ghost function Touched(a: Option<nat>, b: Option<nat>): set<nat> {
    (if a.Some? then {a.value} else {}) + if b.Some? then {b.value} else {}
  }

  class Store {
    var sources: map<string, Source>
    var messages: map<nat, Message>
    var conversations: map<nat, Conversation>
    /** Every id below this one may be in use; taking it models `randomUUID`. */
    var nextId: nat

    ghost predicate RollupsExcept(dirty: set<nat>)
      reads this
    {
      forall c :: c in conversations && c !in dirty ==> RollupAgrees(conversations[c], messages, c)
    }

    ghost predicate Linked()
      reads this
    {
      KeysLinked(sources, messages, conversations, nextId)
    }

    ghost predicate Valid()
      reads this
    {
      Linked() && RollupsExcept({}) && Threaded(sources, messages, conversations)
    }

    constructor ()
      ensures Valid() && sources == map[] && messages == map[] && conversations == map[]
    {
      sources, messages, conversations, nextId := map[], map[], map[], 0;
    }

    method EnsureConversationId(thread: Option<string>) returns (id: Option<nat>)
      requires Linked()
      modifies this`conversations, this`nextId
      ensures Linked() && nextId >= old(nextId)
      ensures thread.None? || Trim(thread.value) == "" ==> id == None && conversations == old(conversations)
      ensures thread.Some? && Trim(thread.value) != "" ==>
                && id.Some? && id.value in conversations && conversations[id.value].thread == Trim(thread.value)
                && (conversations == old(conversations)
                    || (id.value !in old(conversations)
                        && (forall m :: m in messages ==> messages[m].conversation != id)
                        && conversations
                          == old(conversations)[id.value := Conversation(Trim(thread.value), 0, None, None)]))
    {
      var normalized := if thread.Some? then Trim(thread.value) else "";
      if normalized == "" {
        return None;
      }
      if c :| c in conversations && conversations[c].thread == normalized {
        return Some(c);
      }
      var newId := nextId;
      nextId := nextId + 1;
      conversations := conversations[newId := Conversation(normalized, 0, None, None)];
      return Some(newId);
    }

    method RefreshConversationRollup(id: Option<nat>, ghost dirty: set<nat>)
      requires Linked() && RollupsExcept(dirty)
      modifies this`conversations
      ensures Linked() && RollupsExcept(dirty - if id.Some? then {id.value} else {})
      ensures id.None? || id.value !in old(conversations) ==> conversations == old(conversations)
      ensures forall c :: c in conversations <==>
                c in old(conversations) && !(Some(c) == id && Members(messages, c) == {})
      ensures forall c :: c in conversations ==> conversations[c].thread == old(conversations)[c].thread
      ensures id.Some? && id.value !in dirty ==> conversations == old(conversations)
    {
      if id.None? {
        return;
      }
      var c := id.value;
      var count, first, last := Aggregate(messages, c);
      if count == 0 {
        NobodyAttached(messages, c);
        conversations := conversations - {c};
        return;
      }
      if c in conversations {
        if c !in dirty {
          RollupIsDetermined(conversations[c], conversations[c].(count := count, first := first, last := last),
                             messages, c);
        }
        conversations := conversations[c := conversations[c].(count := count, first := first, last := last)];
      }
    }

    /** Overwrites or adds one message row; only the rollups of its old and new conversation go stale. */
    method WriteMessage(m: nat, updated: Message)
      requires Linked() && RollupsExcept(if updated.conversation.Some? then {updated.conversation.value} else {})
      requires m < nextId
      requires updated.conversation.Some? ==> updated.conversation.value in conversations
      modifies this`messages
      ensures messages == old(messages)[m := updated]
      ensures Linked()
      ensures RollupsExcept(Touched(if m in old(messages) then old(messages)[m].conversation else None,
                                    updated.conversation))
    {
      ghost var dirty := Touched(if m in messages then messages[m].conversation else None, updated.conversation);
      forall c | c in conversations && c !in dirty
        ensures RollupAgrees(conversations[c], messages[m := updated], c)
      {
        OutsiderKeepsRollup(conversations[c], messages, m, updated, c);
      }
      messages := messages[m := updated];
    }

    /** Refreshes both conversations a message moved between, each once. */
    method RefreshBoth(previous: Option<nat>, next: Option<nat>)
      requires Linked() && RollupsExcept(Touched(previous, next))
      modifies this`conversations
      ensures Linked() && RollupsExcept({})
      ensures forall c :: c in conversations ==>
                c in old(conversations) && conversations[c].thread == old(conversations)[c].thread
    {
      RefreshConversationRollup(previous, Touched(previous, next));
      if next != previous {
        RefreshConversationRollup(next, Touched(None, next));
      }
    }

    /** Opens the thread's conversation and writes the message row and its source row; two rollups go stale. */
    method WriteRows(r: string, next: Source, receivedAt: Option<int>)
      returns (previous: Option<nat>, conversation: Option<nat>)
      requires Linked() && RollupsExcept({})
      requires ValidRemoteId(r) && IsNormal(next.thread) && next.messageId < nextId
      requires if r in sources then next.messageId == sources[r].messageId else next.messageId !in messages
      modifies this
      ensures Linked() && RollupsExcept(Touched(previous, conversation)) && nextId >= old(nextId)
      ensures sources == old(sources)[r := next]
      ensures messages == old(messages)[next.messageId := Message(conversation, receivedAt)]
      ensures InThread(next, messages, conversations)
      ensures forall c :: c in old(conversations) ==> c in conversations && conversations[c] == old(conversations)[c]
    {
      assert forall q :: q in sources && sources[q].messageId == next.messageId ==> q == r;
      previous := if next.messageId in messages then messages[next.messageId].conversation else None;
      conversation := EnsureConversationId(next.thread);
      WriteMessage(next.messageId, Message(conversation, receivedAt));
      AddSourceKeepsLinks(sources, messages, conversations, nextId, r, next);
      sources := sources[r := next];
    }

    /** The same, with both rollups brought up to date. */
    method PlaceRows(r: string, next: Source, receivedAt: Option<int>) returns (ghost row: Message)
      requires Linked() && RollupsExcept({})
      requires ValidRemoteId(r) && IsNormal(next.thread) && next.messageId < nextId
      requires if r in sources then next.messageId == sources[r].messageId else next.messageId !in messages
      modifies this
      ensures Linked() && RollupsExcept({}) && nextId >= old(nextId)
      ensures sources == old(sources)[r := next]
      ensures row.receivedAt == receivedAt && messages == old(messages)[next.messageId := row]
      ensures InThread(next, messages, conversations)
      ensures forall c :: c in old(conversations) && c in conversations ==>
                conversations[c].thread == old(conversations)[c].thread
    {
      var previous, conversation := WriteRows(r, next, receivedAt);
      row := Message(conversation, receivedAt);
      assert Attached(messages[next.messageId], conversations);
      RefreshBoth(previous, conversation);
      assert Attached(messages[next.messageId], conversations);
    }

    /**
     * The transaction every changing ingest path runs: find or open the thread's conversation, write the message and
     * its source row, refresh the conversation left and the one entered.
     */
    method PlaceMessage(r: string, next: Source, receivedAt: Option<int>)
      requires Valid() && ValidRemoteId(r) && IsNormal(next.thread) && next.messageId < nextId
      requires if r in sources then next.messageId == sources[r].messageId else next.messageId !in messages
      modifies this
      ensures Valid() && nextId >= old(nextId)
      ensures sources == old(sources)[r := next]
      ensures next.messageId in messages
      ensures messages == old(messages)[next.messageId := Message(messages[next.messageId].conversation, receivedAt)]
    {
      ghost var row := PlaceRows(r, next, receivedAt);
      assert forall m :: m in old(messages) && m != next.messageId ==> m in messages && messages[m] == old(messages)[m];
      OthersStayThreaded(old(sources), old(messages), old(conversations), conversations, r, next, row);
    }

    method ApplyParsedMessageUpdate(r: string, next: Source, receivedAt: Option<int>)
      requires Valid()
      requires r in sources && next.messageId == sources[r].messageId && IsNormal(next.thread)
      modifies this
      ensures Valid() && nextId >= old(nextId)
      ensures sources == old(sources)[r := next]
      ensures messages.Keys == old(messages).Keys
      ensures messages == old(messages)[next.messageId := Message(messages[next.messageId].conversation, receivedAt)]
    {
      PlaceMessage(r, next, receivedAt);
    }

    /** One message of a fetched batch; `accepted` is false when writing its raw source is refused. */
    method IngestMessage(msg: RemoteMessage, validity: nat) returns (accepted: bool)
      requires Valid()
      modifies this
      ensures Valid() && nextId >= old(nextId)
      ensures accepted <==> ValidRemoteId(msg.remoteId)
      ensures !accepted ==> sources == old(sources) && messages == old(messages) && conversations == old(conversations)
      ensures accepted ==> OnlyItsRows(msg, validity, old(sources), old(messages), sources, messages)
      ensures accepted ==> Placed(msg, validity, sources[msg.remoteId], messages, conversations)
    {
      accepted := IngestRows(msg, validity);
      if accepted {
        assert InThread(sources[msg.remoteId], messages, conversations);
      }
    }

    method IngestRows(msg: RemoteMessage, validity: nat) returns (accepted: bool)
      requires Valid()
      modifies this
      ensures Valid() && nextId >= old(nextId)
      ensures accepted <==> ValidRemoteId(msg.remoteId)
      ensures !accepted ==> sources == old(sources) && messages == old(messages) && conversations == old(conversations)
      ensures accepted ==> OnlyItsRows(msg, validity, old(sources), old(messages), sources, messages)
    {
      TrimIdempotent(msg.threadId);
      var thread := NormalThread(msg.threadId);
      if msg.remoteId in sources {
        var existing := sources[msg.remoteId];
        var next := IngestedSource(existing.messageId, msg, validity);
        if existing.sha == msg.sha {
          if existing.thread == thread {
            sources := sources[msg.remoteId := next];
            return true;
          }
          PlaceMessage(msg.remoteId, next, messages[existing.messageId].receivedAt);
          return true;
        }
        ApplyParsedMessageUpdate(msg.remoteId, next, msg.receivedAt);
        return true;
      }
      if !ValidRemoteId(msg.remoteId) {
        return false;
      }
      var parsedId := nextId;
      nextId := nextId + 1;
      PlaceMessage(msg.remoteId, IngestedSource(parsedId, msg, validity), msg.receivedAt);
      return true;
    }

    /**
     * Reparses a stored message from its raw file; `parsed` is None when the file is missing or the parse is rejected.
     */
    method ReextractStoredMessage(r: string, parsed: Option<Option<int>>, rawSha: string) returns (recovered: bool)
      requires Valid() && r in sources
      modifies this
      ensures Valid() && nextId >= old(nextId)
      ensures recovered <==> parsed.Some?
      ensures !recovered ==> sources == old(sources) && messages == old(messages) && conversations == old(conversations)
      ensures recovered ==>
                && sources == old(sources)[r := old(sources)[r].(sha := rawSha)]
                && messages.Keys == old(messages).Keys
                && var m := sources[r].messageId;
                   messages == old(messages)[m := Message(messages[m].conversation, parsed.value)]
    {
      if parsed.None? {
        return false;
      }
      ApplyParsedMessageUpdate(r, sources[r].(sha := rawSha), parsed.value);
      return true;
    }

    method TombstoneSource(r: string)
      requires Valid() && r in sources
      modifies this`sources
      ensures Valid()
      ensures sources == old(sources)[r := old(sources)[r].(active := false)]
    {
      var row := sources[r].(active := false);
      assert InThread(row, messages, conversations);
      sources := sources[r := row];
    }
  }
}
