/** The remote mailbox and the windowed reads of lib/imap.ts. */
module RemoteMailbox {
  import opened Common
  import opened Sorting

  /** One message as the server holds it. `receivedAt` is what parsing its source yields. */
  datatype RemoteMessage = RemoteMessage(
    uid: nat,
    remoteId: string,
    threadId: string,
    sha: string,
    receivedAt: Option<int>,
    hasBody: bool)

  datatype Mailbox = Mailbox(validity: nat, uidNext: nat, msgs: map<nat, RemoteMessage>)

  /** UIDs start at 1 and lie below UIDNEXT; a non-empty remote id names one present message. */
  predicate WellFormed(mb: Mailbox) {
    && mb.uidNext >= 1
    && (forall u :: u in mb.msgs ==> 1 <= u < mb.uidNext && mb.msgs[u].uid == u)
    && (forall u, v | u in mb.msgs && v in mb.msgs && mb.msgs[u].remoteId == mb.msgs[v].remoteId ::
          mb.msgs[u].remoteId != "" ==> u == v)
  }

  /** What the outside world does to the mailbox, by the UID rules of RFC 9051, section 2.3.1.1. */
  datatype Event =
    | Append(m: RemoteMessage)
    | Expunge(uid: nat)
    | Renumber(next: Mailbox)

  predicate Enabled(mb: Mailbox, e: Event) {
    match e
    case Append(m) =>
      && mb.uidNext <= m.uid
      && (forall u :: u in mb.msgs && m.remoteId != "" ==> mb.msgs[u].remoteId != m.remoteId)
    case Expunge(_) => true
    case Renumber(next) => mb.validity < next.validity && WellFormed(next)
  }

  function Apply(mb: Mailbox, e: Event): Mailbox {
    match e
    case Append(m) => Mailbox(mb.validity, m.uid + 1, mb.msgs[m.uid := m])
    case Expunge(u) => mb.(msgs := mb.msgs - {u})
    case Renumber(next) => next
  }

  function HeadUid(mb: Mailbox): (head: nat)
    ensures mb.uidNext >= 1 ==> head + 1 == mb.uidNext
  {
    Max(0, mb.uidNext - 1)
  }

  ghost predicate InRange(mb: Mailbox, lo: nat, hi: nat, u: nat) { u in mb.msgs && lo <= u <= hi }

  /** A server's answer to `UID FETCH lo:hi`: the present messages of the range, each once, in any order. */
  ghost predicate IsResponse(mb: Mailbox, lo: nat, hi: nat, stream: seq<RemoteMessage>) {
    && (forall i, j :: 0 <= i < j < |stream| ==> stream[i].uid != stream[j].uid)
    && (forall m :: m in stream ==> InRange(mb, lo, hi, m.uid) && mb.msgs[m.uid] == m)
    && (forall u :: InRange(mb, lo, hi, u) ==> mb.msgs[u] in stream)
  }

  /** A fetched batch holds each present message of the range whose source the server returned, once. */
  ghost predicate IsBatch(mb: Mailbox, lo: nat, hi: nat, batch: seq<RemoteMessage>) {
    && (forall i, j :: 0 <= i < j < |batch| ==> batch[i].uid != batch[j].uid)
    && (forall m :: m in batch ==> InRange(mb, lo, hi, m.uid) && mb.msgs[m.uid] == m && m.hasBody)
    && (forall u :: InRange(mb, lo, hi, u) && mb.msgs[u].hasBody ==> mb.msgs[u] in batch)
  }

  ghost predicate Ascending(batch: seq<RemoteMessage>) {
    forall i, j :: 0 <= i < j < |batch| ==> batch[i].uid < batch[j].uid
  }

  ghost predicate Descending(batch: seq<RemoteMessage>) {
    forall i, j :: 0 <= i < j < |batch| ==> batch[i].uid > batch[j].uid
  }

  /** The server's side of a UID FETCH, in an order of its own choosing. */
  method ServerFetch(mb: Mailbox, lo: nat, hi: nat) returns (stream: seq<RemoteMessage>)
    requires WellFormed(mb)
    ensures IsResponse(mb, lo, hi, stream)
  {
    stream := [];
    var todo := set u | u in mb.msgs && lo <= u <= hi;
    while todo != {}
      invariant forall u :: u in todo ==> InRange(mb, lo, hi, u)
      invariant forall i, j :: 0 <= i < j < |stream| ==> stream[i].uid != stream[j].uid
      invariant forall m :: m in stream ==> InRange(mb, lo, hi, m.uid) && mb.msgs[m.uid] == m && m.uid !in todo
      invariant forall u :: InRange(mb, lo, hi, u) && u !in todo ==> mb.msgs[u] in stream
      decreases todo
    {
      var u :| u in todo;
      todo := todo - {u};
      stream := stream + [mb.msgs[u]];
    }
  }

  method FetchMessageRange(ghost mb: Mailbox, stream: seq<RemoteMessage>, startUid: nat, endUid: nat)
    returns (batch: seq<RemoteMessage>)
    requires IsResponse(mb, startUid, endUid, stream)
    ensures IsBatch(mb, startUid, endUid, batch) && Ascending(batch)
  {
    if endUid < startUid {
      return [];
    }
    var messages: seq<RemoteMessage> := [];
    for i := 0 to |stream|
      invariant forall j, k :: 0 <= j < k < |messages| ==> messages[j].uid != messages[k].uid
      invariant forall m :: m in messages <==> m in stream[..i] && m.hasBody
    {
      assert stream[..i + 1] == stream[..i] + [stream[i]];
      if stream[i].hasBody {
        messages := messages + [stream[i]];
      }
    }
    assert stream[..|stream|] == stream;
    batch := Sort(messages, (a: RemoteMessage, b: RemoteMessage) => a.uid <= b.uid);
    SortDistinct(messages, (a: RemoteMessage, b: RemoteMessage) => a.uid <= b.uid);
  }

  /** First UID of the descending window that ends at `endUid`. */
  function WindowStart(endUid: nat, windowSize: nat): (start: nat)
    ensures start >= 1
    ensures endUid >= 1 && windowSize >= 1 ==> start <= endUid && endUid - start + 1 == Min(endUid, windowSize)
  {
    Max(1, endUid - windowSize + 1)
  }

  method FetchMessageWindowDescending(ghost mb: Mailbox, stream: seq<RemoteMessage>, endUid: nat, windowSize: nat)
    returns (batch: seq<RemoteMessage>)
    requires IsResponse(mb, WindowStart(endUid, windowSize), endUid, stream)
    ensures IsBatch(mb, WindowStart(endUid, windowSize), endUid, batch) && Descending(batch)
  {
    var startUid := Max(1, endUid - windowSize + 1);
    var messages := FetchMessageRange(mb, stream, startUid, endUid);
    batch := Sort(messages, (a: RemoteMessage, b: RemoteMessage) => b.uid <= a.uid);
    SortDistinct(messages, (a: RemoteMessage, b: RemoteMessage) => b.uid <= a.uid);
  }

  lemma EventKeepsWellFormed(mb: Mailbox, e: Event)
    requires WellFormed(mb) && Enabled(mb, e)
    ensures WellFormed(Apply(mb, e))
    ensures mb.validity <= Apply(mb, e).validity
    ensures !e.Renumber? ==> Apply(mb, e).validity == mb.validity && mb.uidNext <= Apply(mb, e).uidNext
    ensures !e.Renumber? ==>
              forall u :: u in Apply(mb, e).msgs && u < mb.uidNext ==>
                u in mb.msgs && Apply(mb, e).msgs[u] == mb.msgs[u]
  {
  }
}
