/** Service Bus queues on the flat store refine plain FIFO queues. */
module ServiceBus {
  import opened Text
  import opened Sorting
  import opened Decimal
  import opened Memory
  import opened Options
  import Keys

  datatype QueueId = QueueId(ns: string, name: string)

  datatype Message = Message(id: nat, body: string)

  datatype Entry = QueueEntry | MessageEntry(message: Message) | OtherEntry

  predicate Named(q: QueueId) {
    ':' !in q.ns && ':' !in q.name
  }

  // "sb:queue:<ns>:<name>"
  function QueueKey(q: QueueId): string {
    Join(["sb", "queue", q.ns, q.name], ":")
  }

  // "sb:msg:<ns>:<name>", to which ":" and the id are added.
  function MessageStem(q: QueueId): string {
    Join(["sb", "msg", q.ns, q.name], ":")
  }

  function MessagePrefix(q: QueueId): string {
    MessageStem(q) + ":"
  }

  function MessageKey(q: QueueId, id: nat): string {
    MessagePrefix(q) + Pad10(id)
  }

  // "sb:topic:<ns>:<topic>:<id>": topic ids are not padded.
  function TopicKey(ns: string, topic: string, id: nat): string {
    Join(["sb", "topic", ns, topic], ":") + ":" + Digits(id)
  }

  // ---- Keys of different queues never meet ----

  lemma StemWords(q: QueueId)
    requires Named(q)
    ensures Split(MessageStem(q), ':') == ["sb", "msg", q.ns, q.name]
    ensures Split(QueueKey(q), ':') == ["sb", "queue", q.ns, q.name]
  {
    SplitJoin(["sb", "msg", q.ns, q.name], ':');
    SplitJoin(["sb", "queue", q.ns, q.name], ':');
  }

  lemma MessageWords(q: QueueId, id: nat)
    requires Named(q)
    ensures Split(MessageKey(q, id), ':') == ["sb", "msg", q.ns, q.name, Pad10(id)]
  {
    StemWords(q);
    PadClean(id);
    hide Pad10;
    SplitConcat(MessageStem(q), ':', Pad10(id));
    SplitAtom(Pad10(id), ':');
    assert MessageStem(q) + [':'] + Pad10(id) == MessageKey(q, id);
  }

  lemma OwnPrefix(q: QueueId, p: QueueId, id: nat)
    requires Named(q) && Named(p)
    ensures HasPrefix(MessageKey(q, id), MessagePrefix(p)) <==> p == q
    ensures !HasPrefix(QueueKey(q), MessagePrefix(p))
    ensures QueueKey(q) != MessageKey(p, id)
    ensures QueueKey(q) == QueueKey(p) <==> p == q
  {
    StemWords(q);
    StemWords(p);
    MessageWords(q, id);
    MessageWords(p, id);
    PrefixScan(MessageKey(q, id), MessageStem(p), ':');
    PrefixScan(QueueKey(q), MessageStem(p), ':');
    hide MessageStem, QueueKey, Pad10, MessageKey, Split;
    var ws, vs := ["sb", "msg", q.ns, q.name, Pad10(id)], ["sb", "msg", p.ns, p.name];
    assert ws[..4] == ["sb", "msg", q.ns, q.name];
    assert ws[..4][2] == ws[2] && ws[..4][3] == ws[3];
    assert MessagePrefix(p) == MessageStem(p) + [':'];
    hide MessagePrefix;
  }

  lemma SameIdSameKey(q: QueueId, a: nat, b: nat)
    ensures MessageKey(q, a) == MessageKey(q, b) <==> a == b
  {
    PadValue(a);
    PadValue(b);
    var n := |MessagePrefix(q)|;
    assert MessageKey(q, a)[n..] == Pad10(a) && MessageKey(q, b)[n..] == Pad10(b);
  }

  // ---- The queues the flat store stands for ----

  // Messages in the order they were sent, all with ids up to top.
  ghost predicate Sent(ms: seq<Message>, top: nat) {
    && (forall i, j :: 0 <= i < j < |ms| ==> ms[i].id < ms[j].id)
    && (forall i :: 0 <= i < |ms| ==> 0 < ms[i].id <= top)
  }

  ghost predicate Stored(data: map<string, Entry>, q: QueueId, ms: seq<Message>) {
    forall i :: 0 <= i < |ms| ==> MessageKey(q, ms[i].id) in data && data[MessageKey(q, ms[i].id)] == MessageEntry(ms[i])
  }

  ghost predicate HasKey(q: QueueId, ms: seq<Message>, key: string) {
    exists i :: 0 <= i < |ms| && MessageKey(q, ms[i].id) == key
  }

  // Everything under the queue's prefix is one of its messages.
  ghost predicate NothingElse(data: map<string, Entry>, q: QueueId, ms: seq<Message>) {
    forall key :: key in data && HasPrefix(key, MessagePrefix(q)) ==> HasKey(q, ms, key)
  }

  ghost function Of(queues: map<QueueId, seq<Message>>, q: QueueId): seq<Message> {
    if q in queues then queues[q] else []
  }

  ghost predicate Reflects(data: map<string, Entry>, queues: map<QueueId, seq<Message>>, top: nat) {
    && (forall q :: q in queues ==> Named(q))
    && (forall q :: Named(q) ==> (q in queues <==> QueueKey(q) in data))
    && (forall q :: Named(q) ==> Sent(Of(queues, q), top) && Stored(data, q, Of(queues, q)) && NothingElse(data, q, Of(queues, q)))
  }

  // A new queue's entry leaves what queue p holds as it was.
  lemma CreatedOne(data: map<string, Entry>, q: QueueId, p: QueueId, ms: seq<Message>)
    requires Named(q) && Named(p) && Stored(data, p, ms) && NothingElse(data, p, ms)
    ensures var t := data[QueueKey(q) := QueueEntry];
      Stored(t, p, ms) && NothingElse(t, p, ms) && (QueueKey(p) in t <==> QueueKey(p) in data || p == q)
  {
    OwnPrefix(p, q, 0);
    OwnPrefix(q, p, 0);
    forall i | 0 <= i < |ms| ensures MessageKey(p, ms[i].id) != QueueKey(q) {
      OwnPrefix(q, p, ms[i].id);
    }
    hide QueueKey, MessageKey, MessagePrefix;
  }

  lemma Created(data: map<string, Entry>, queues: map<QueueId, seq<Message>>, top: nat, q: QueueId)
    requires Reflects(data, queues, top) && Named(q) && q !in queues
    ensures Reflects(data[QueueKey(q) := QueueEntry], queues[q := []], top)
  {
    var data', queues' := data[QueueKey(q) := QueueEntry], queues[q := []];
    hide QueueKey, Stored, NothingElse, Sent;
    forall p | Named(p)
      ensures p in queues' <==> QueueKey(p) in data'
      ensures Sent(Of(queues', p), top) && Stored(data', p, Of(queues', p)) && NothingElse(data', p, Of(queues', p))
    {
      assert Of(queues', p) == Of(queues, p);
      CreatedOne(data, q, p, Of(queues, p));
    }
  }

  lemma Appended(data: map<string, Entry>, queues: map<QueueId, seq<Message>>, top: nat, q: QueueId, m: Message)
    requires Reflects(data, queues, top) && Named(q) && q in queues && m.id == top + 1
    ensures Reflects(data[MessageKey(q, m.id) := MessageEntry(m)], queues[q := queues[q] + [m]], top + 1)
  {
    var key := MessageKey(q, m.id);
    var data', queues' := data[key := MessageEntry(m)], queues[q := queues[q] + [m]];
    forall p | Named(p)
      ensures p in queues' <==> QueueKey(p) in data'
      ensures Sent(Of(queues', p), top + 1) && Stored(data', p, Of(queues', p)) && NothingElse(data', p, Of(queues', p))
    {
      OwnPrefix(p, q, m.id);
      AppendedOne(data, queues, top, q, m, p);
      hide *;
    }
    hide MessageKey, QueueKey, MessagePrefix;
  }

  lemma AppendedOne(data: map<string, Entry>, queues: map<QueueId, seq<Message>>, top: nat, q: QueueId, m: Message, p: QueueId)
    requires Reflects(data, queues, top) && Named(q) && q in queues && m.id == top + 1 && Named(p)
    ensures var data', queues' := data[MessageKey(q, m.id) := MessageEntry(m)], queues[q := queues[q] + [m]];
            Sent(Of(queues', p), top + 1) && Stored(data', p, Of(queues', p)) && NothingElse(data', p, Of(queues', p))
  {
    var ms := Of(queues, p);
    assert Sent(ms, top) && Stored(data, p, ms) && NothingElse(data, p, ms);
    assert Of(queues[q := queues[q] + [m]], p) == if p == q then ms + [m] else ms;
    hide Reflects, Of, MessageKey;
    if p == q { AppendedHere(data, q, ms, top, m); } else { AppendedElsewhere(data, q, m, p, ms, top); }
    hide Sent, Stored, NothingElse;
  }

  lemma AppendedHere(data: map<string, Entry>, q: QueueId, ms: seq<Message>, top: nat, m: Message)
    requires Named(q) && Sent(ms, top) && Stored(data, q, ms) && NothingElse(data, q, ms) && m.id == top + 1
    ensures var data' := data[MessageKey(q, m.id) := MessageEntry(m)];
            Sent(ms + [m], top + 1) && Stored(data', q, ms + [m]) && NothingElse(data', q, ms + [m])
  {
    var key, ms' := MessageKey(q, m.id), ms + [m];
    forall i | 0 <= i < |ms| ensures MessageKey(q, ms[i].id) != key { SameIdSameKey(q, ms[i].id, m.id); }
    hide MessageKey, MessagePrefix, HasPrefix;
    assert forall i :: 0 <= i < |ms| ==> ms'[i] == ms[i];
    assert ms'[|ms|] == m;
    forall k | HasKey(q, ms, k) ensures HasKey(q, ms', k) {
      var i :| 0 <= i < |ms| && MessageKey(q, ms[i].id) == k;
      assert MessageKey(q, ms'[i].id) == k;
    }
    assert HasKey(q, ms', key) by { assert MessageKey(q, ms'[|ms|].id) == key; }
    hide HasKey;
  }

  lemma AppendedElsewhere(data: map<string, Entry>, q: QueueId, m: Message, p: QueueId, ms: seq<Message>, top: nat)
    requires Named(q) && Named(p) && p != q && Sent(ms, top) && Stored(data, p, ms) && NothingElse(data, p, ms)
    ensures var data' := data[MessageKey(q, m.id) := MessageEntry(m)];
            Sent(ms, top + 1) && Stored(data', p, ms) && NothingElse(data', p, ms)
  {
    var key := MessageKey(q, m.id);
    OwnPrefix(q, p, m.id);
    forall i | 0 <= i < |ms| ensures MessageKey(p, ms[i].id) != key { OwnPrefix(p, p, ms[i].id); }
    hide MessageKey, MessagePrefix, HasPrefix, HasKey;
  }

  ghost function Without(data: map<string, Entry>, q: QueueId): map<string, Entry> {
    Unselected(data - {QueueKey(q)}, MessagePrefix(q))
  }

  lemma DroppedElsewhere(data: map<string, Entry>, q: QueueId, p: QueueId, ms: seq<Message>)
    requires Named(q) && Named(p) && p != q && Stored(data, p, ms) && NothingElse(data, p, ms)
    ensures Stored(Without(data, q), p, ms) && NothingElse(Without(data, q), p, ms)
    ensures QueueKey(p) in Without(data, q) <==> QueueKey(p) in data
  {
    OwnPrefix(p, q, 0);
    forall i | 0 <= i < |ms| ensures MessageKey(p, ms[i].id) != QueueKey(q) && !HasPrefix(MessageKey(p, ms[i].id), MessagePrefix(q)) {
      OwnPrefix(q, p, ms[i].id);
      OwnPrefix(p, q, ms[i].id);
    }
    hide QueueKey, MessageKey, MessagePrefix, HasPrefix, HasKey;
  }

  lemma Dropped(data: map<string, Entry>, queues: map<QueueId, seq<Message>>, top: nat, q: QueueId)
    requires Reflects(data, queues, top) && Named(q) && q in queues
    ensures Reflects(Without(data, q), queues - {q}, top)
  {
    var data', queues' := Without(data, q), queues - {q};
    assert QueueKey(q) !in data' && NothingElse(data', q, []);
    forall p | Named(p)
      ensures p in queues' <==> QueueKey(p) in data'
      ensures Sent(Of(queues', p), top) && Stored(data', p, Of(queues', p)) && NothingElse(data', p, Of(queues', p))
    {
      if p != q {
        assert Of(queues', p) == Of(queues, p);
        DroppedElsewhere(data, q, p, Of(queues, p));
      } else {
        assert Of(queues', p) == [];
      }
      hide QueueKey, MessageKey, MessagePrefix, HasPrefix, Without, HasKey;
    }
    hide QueueKey, Sent, Stored, NothingElse, Without;
  }

  lemma DeleteIsDrop(data: map<string, Entry>, queues: map<QueueId, seq<Message>>, top: nat, q: QueueId)
    requires Reflects(data, queues, top) && Named(q)
    ensures q in queues <==> QueueKey(q) in data
    ensures q in queues ==> Reflects(Unselected(data - {QueueKey(q)}, MessagePrefix(q)), queues - {q}, top)
    ensures q !in queues ==> data - {QueueKey(q)} == data && queues - {q} == queues
  {
    if q in queues { Dropped(data, queues, top, q); }
    hide QueueKey, MessagePrefix;
  }

  // Entries that are neither queues nor queue messages do not matter.
  lemma AsideOne(data: map<string, Entry>, q: QueueId, ms: seq<Message>, key: string, e: Entry)
    requires Named(q) && Stored(data, q, ms) && NothingElse(data, q, ms)
    requires key != QueueKey(q) && !HasPrefix(key, MessagePrefix(q))
    ensures Stored(data[key := e], q, ms) && NothingElse(data[key := e], q, ms)
    ensures QueueKey(q) in data[key := e] <==> QueueKey(q) in data
  {
    forall i | 0 <= i < |ms| ensures MessageKey(q, ms[i].id) != key { OwnPrefix(q, q, ms[i].id); }
    hide QueueKey, MessageKey, MessagePrefix, HasPrefix, HasKey;
  }

  lemma Aside(data: map<string, Entry>, queues: map<QueueId, seq<Message>>, top: nat, top': nat, key: string, e: Entry)
    requires Reflects(data, queues, top) && top <= top'
    requires forall q :: Named(q) ==> key != QueueKey(q) && !HasPrefix(key, MessagePrefix(q))
    ensures Reflects(data[key := e], queues, top')
  {
    hide QueueKey, MessagePrefix, HasPrefix;
    forall q | Named(q)
      ensures q in queues <==> QueueKey(q) in data[key := e]
      ensures Sent(Of(queues, q), top') && Stored(data[key := e], q, Of(queues, q)) && NothingElse(data[key := e], q, Of(queues, q))
    {
      AsideOne(data, q, Of(queues, q), key, e);
      hide Stored, NothingElse, Of;
    }
    hide Stored, NothingElse, Sent, Of;
  }

  lemma FourthCharacter(xs: seq<string>)
    requires |xs| > 2 && xs[0] == "sb" && xs[1] != ""
    ensures |Join(xs, ":")| > 3 && Join(xs, ":")[3] == xs[1][0]
  {
    var rest := Join(xs[1..], ":");
    assert rest[0] == xs[1][0] by { assert rest == xs[1] + ":" + Join(xs[1..][1..], ":"); }
    assert Join(xs, ":") == "sb:" + rest;
  }

  // "sb:topic:" parts from "sb:queue:" and "sb:msg:" at the fourth character, whatever follows.
  lemma TopicAside(ns: string, topic: string, id: nat, q: QueueId)
    ensures TopicKey(ns, topic, id) != QueueKey(q) && !HasPrefix(TopicKey(ns, topic, id), MessagePrefix(q))
  {
    hide Digits, Join;
    FourthCharacter(["sb", "topic", ns, topic]);
    FourthCharacter(["sb", "queue", q.ns, q.name]);
    FourthCharacter(["sb", "msg", q.ns, q.name]);
    assert TopicKey(ns, topic, id)[3] == 't' && QueueKey(q)[3] == 'q' && MessagePrefix(q)[3] == 'm';
  }

  // ---- Names with colons ----

  lemma ColonWords(q: QueueId)
    requires !Named(q)
    ensures |Split(MessageStem(q), ':')| > 4 && Split(MessageStem(q), ':')[..2] == ["sb", "msg"]
    ensures |Split(QueueKey(q), ':')| > 4 && Split(QueueKey(q), ':')[..2] == ["sb", "queue"]
  {
    var xs, ys := ["sb", "msg", q.ns, q.name], ["sb", "queue", q.ns, q.name];
    assert xs[..2] == ["sb", "msg"] && ys[..2] == ["sb", "queue"];
    assert Keys.ColonFree(xs[..2]) && Keys.ColonFree(ys[..2]);
    assert !Keys.ColonFree(xs) by { assert q.ns in xs && q.name in xs; }
    assert !Keys.ColonFree(ys) by { assert q.ns in ys && q.name in ys; }
    hide Split, Join;
    Keys.SplitOfJoin(xs, 2);
    Keys.SplitOfJoin(ys, 2);
  }

  // The queue whose prefix the messages of a queue with a colon in its name lie under.
  ghost function Host(q: QueueId): QueueId
    requires !Named(q)
  {
    ColonWords(q);
    QueueId(Split(MessageStem(q), ':')[2], Split(MessageStem(q), ':')[3])
  }

  lemma HostWords(q: QueueId)
    requires !Named(q)
    ensures Named(Host(q)) && |Split(MessageStem(q), ':')| > 4
    ensures Split(MessageStem(q), ':')[..4] == Split(MessageStem(Host(q)), ':')
  {
    var p, ws := Host(q), Split(MessageStem(q), ':');
    ColonWords(q);
    SplitPieces(MessageStem(q), ':');
    assert ws[2] in ws && ws[3] in ws;
    StemWords(p);
    hide MessageStem, QueueKey, Split;
    assert ws[..2][0] == ws[0] && ws[..2][1] == ws[1];
    assert ws[..4] == [ws[0], ws[1], ws[2], ws[3]];
  }

  lemma UnderHost(q: QueueId, key: string)
    requires !Named(q) && HasPrefix(key, MessagePrefix(q))
    ensures Named(Host(q)) && HasPrefix(key, MessagePrefix(Host(q))) && forall ms :: !HasKey(Host(q), ms, key)
  {
    var p, ws, ks := Host(q), Split(MessageStem(q), ':'), Split(key, ':');
    HostWords(q);
    PrefixScan(key, MessageStem(q), ':');
    PrefixScan(key, MessageStem(p), ':');
    assert MessagePrefix(q) == MessageStem(q) + [':'] && MessagePrefix(p) == MessageStem(p) + [':'];
    hide MessageKey, MessageStem, Split, HasPrefix, MessagePrefix, Host;
    assert ks[..|ws|] == ws && |ks| > 5;
    assert ks[..4] == ks[..|ws|][..4];
    forall id: nat ensures MessageKey(p, id) != key { MessageWords(p, id); }
  }

  lemma ColonsApart(q: QueueId, p: QueueId, id: nat)
    requires !Named(q) && Named(p)
    ensures QueueKey(q) != QueueKey(p) && QueueKey(q) != MessageKey(p, id)
    ensures !HasPrefix(QueueKey(q), MessagePrefix(p)) && !HasPrefix(QueueKey(p), MessagePrefix(q))
    ensures !HasPrefix(MessageKey(p, id), MessagePrefix(q))
  {
    ColonWords(q);
    StemWords(p);
    MessageWords(p, id);
    PrefixScan(QueueKey(q), MessageStem(p), ':');
    PrefixScan(QueueKey(p), MessageStem(q), ':');
    PrefixScan(MessageKey(p, id), MessageStem(q), ':');
    assert MessagePrefix(q) == MessageStem(q) + [':'] && MessagePrefix(p) == MessageStem(p) + [':'];
    hide MessageKey, MessageStem, Split, HasPrefix, MessagePrefix, QueueKey;
    var ws := Split(QueueKey(q), ':');
    assert ws[..2][1] == ws[1];
    if |ws| > 4 { assert ws[..4][1] == ws[1]; }
  }

  // Creating or deleting such a queue shows nowhere.
  lemma ColonQueueAside(data: map<string, Entry>, queues: map<QueueId, seq<Message>>, top: nat, q: QueueId)
    requires Reflects(data, queues, top) && !Named(q)
    ensures q !in queues
    ensures Reflects(data[QueueKey(q) := QueueEntry], queues, top)
    ensures Reflects(Without(data, q), queues, top)
  {
    hide QueueKey, MessagePrefix, MessageKey, HasPrefix;
    forall p | Named(p) ensures QueueKey(q) != QueueKey(p) && !HasPrefix(QueueKey(q), MessagePrefix(p)) {
      ColonsApart(q, p, 0);
    }
    Aside(data, queues, top, top, QueueKey(q), QueueEntry);
    forall p | Named(p)
      ensures p in queues <==> QueueKey(p) in Without(data, q)
      ensures Sent(Of(queues, p), top) && Stored(Without(data, q), p, Of(queues, p)) && NothingElse(Without(data, q), p, Of(queues, p))
    {
      ColonDeletion(data, p, Of(queues, p), q);
      hide Stored, NothingElse, Of, Without;
    }
    hide Stored, NothingElse, Sent, Of, Without;
  }

  lemma ColonDeletion(data: map<string, Entry>, p: QueueId, ms: seq<Message>, q: QueueId)
    requires !Named(q) && Named(p) && Stored(data, p, ms) && NothingElse(data, p, ms)
    ensures Stored(Without(data, q), p, ms) && NothingElse(Without(data, q), p, ms)
    ensures QueueKey(p) in Without(data, q) <==> QueueKey(p) in data
  {
    ColonsApart(q, p, 0);
    forall i | 0 <= i < |ms| ensures MessageKey(p, ms[i].id) != QueueKey(q) && !HasPrefix(MessageKey(p, ms[i].id), MessagePrefix(q)) {
      ColonsApart(q, p, ms[i].id);
    }
    hide QueueKey, MessageKey, MessagePrefix, HasPrefix, HasKey;
  }

  lemma DeleteEither(data: map<string, Entry>, queues: map<QueueId, seq<Message>>, top: nat, q: QueueId)
    requires Reflects(data, queues, top)
    ensures QueueKey(q) in data ==> Reflects(Without(data, q), queues - {q}, top)
    ensures QueueKey(q) !in data ==> data - {QueueKey(q)} == data && queues - {q} == queues
    ensures Named(q) ==> (q in queues <==> QueueKey(q) in data)
  {
    if Named(q) { DeleteIsDrop(data, queues, top, q); } else { ColonQueueAside(data, queues, top, q); assert queues - {q} == queues; }
    hide QueueKey, MessagePrefix, Reflects;
  }

  // As long as the queues are as they should be, such a queue has no messages; the first one
  // it gets ends that, for it lies under another queue's prefix.
  lemma ColonMessage(data: map<string, Entry>, queues: map<QueueId, seq<Message>>, top: nat, q: QueueId, key: string)
    requires !Named(q) && key in data && HasPrefix(key, MessagePrefix(q))
    ensures !Reflects(data, queues, top)
  {
    UnderHost(q, key);
    hide MessagePrefix, HasPrefix, HasKey;
    assert Reflects(data, queues, top) ==> NothingElse(data, Host(q), Of(queues, Host(q)));
  }

  lemma ColonQueueEmpty(data: map<string, Entry>, queues: map<QueueId, seq<Message>>, top: nat, q: QueueId)
    requires Reflects(data, queues, top) && !Named(q)
    ensures q !in queues && Selected(data, MessagePrefix(q)) == map[]
  {
    forall key | key in data ensures !HasPrefix(key, MessagePrefix(q)) {
      if HasPrefix(key, MessagePrefix(q)) { ColonMessage(data, queues, top, q, key); }
    }
    hide MessagePrefix, HasPrefix;
  }

  lemma ColonSend(data: map<string, Entry>, queues: map<QueueId, seq<Message>>, top: nat, q: QueueId, id: nat)
    requires !Named(q) && MessageKey(q, id) in data
    ensures !Reflects(data, queues, top)
  {
    assert MessageKey(q, id)[..|MessagePrefix(q)|] == MessagePrefix(q);
    ColonMessage(data, queues, top, q, MessageKey(q, id));
  }

  lemma SendEither(data: map<string, Entry>, queues: map<QueueId, seq<Message>>, top: nat, q: QueueId, m: Message)
    requires Reflects(data, queues, top) && QueueKey(q) in data && m.id == top + 1
    ensures Named(q) ==> q in queues && Reflects(data[MessageKey(q, m.id) := MessageEntry(m)], queues[q := queues[q] + [m]], top + 1)
    ensures !Named(q) ==> !Reflects(data[MessageKey(q, m.id) := MessageEntry(m)], queues, top + 1)
  {
    if Named(q) {
      assert q in queues;
      Appended(data, queues, top, q, m);
    } else {
      ColonSend(data[MessageKey(q, m.id) := MessageEntry(m)], queues, top + 1, q, m.id);
    }
    hide Reflects, QueueKey, MessageKey;
  }

  // ---- The head of a queue ----

  // The earliest message's key sorts before every other's.
  lemma HeadIsLeast(q: QueueId, ms: seq<Message>, top: nat, key: string)
    requires Sent(ms, top) && top < LIMIT && HasKey(q, ms, key)
    ensures |ms| > 0 && Leq(MessageKey(q, ms[0].id), key)
  {
    var i :| 0 <= i < |ms| && MessageKey(q, ms[i].id) == key;
    if i > 0 {
      PadOrder(ms[0].id, ms[i].id);
      LeqSamePrefix(MessagePrefix(q), Pad10(ms[0].id), Pad10(ms[i].id));
    } else {
      LeqTotal(key, key);
    }
  }

  lemma HeadSortsFirst(q: QueueId, ms: seq<Message>, top: nat, keys: seq<string>)
    requires Sent(ms, top) && top < LIMIT && |ms| > 0
    requires forall k :: k in keys <==> HasKey(q, ms, k)
    ensures |keys| > 0 && |SortStrings(keys)| > 0 && SortStrings(keys)[0] == MessageKey(q, ms[0].id)
  {
    var first, sorted := MessageKey(q, ms[0].id), SortStrings(keys);
    assert HasKey(q, ms, first) && first in keys;
    SortedFirst(keys);
    HeadIsLeast(q, ms, top, sorted[0]);
    hide HasKey, MessageKey, Sent;
    StringOrder();
    SortSorts(keys, Leq);
    assert first in multiset(sorted);
    var j :| 0 <= j < |sorted| && sorted[j] == first;
    if j > 0 { LeqAntisymmetric(first, sorted[0]); }
  }

  // Sorting the keys of ms puts the earliest message's key first.
  ghost predicate HeadFirst(q: QueueId, ms: seq<Message>, keys: seq<string>) {
    |SortStrings(keys)| > 0 && |ms| > 0 && SortStrings(keys)[0] == MessageKey(q, ms[0].id)
  }

  ghost predicate KeysOf(q: QueueId, ms: seq<Message>, keys: seq<string>) {
    forall k :: k in keys <==> HasKey(q, ms, k)
  }

  lemma SortTwo(a: string, b: string)
    requires !Leq(a, b)
    ensures SortStrings([a, b]) == [b, a]
  {
    assert [a, b][1..] == [b] && [b][1..] == [];
    assert Sort([b], Leq) == Insert(b, Sort([], Leq), Leq) == [b];
    assert Insert(a, [], Leq) == [a];
    assert Insert(a, [b], Leq) == [b] + Insert(a, [b][1..], Leq) == [b, a];
    assert Sort([a, b], Leq) == Insert(a, Sort([b], Leq), Leq);
  }

  lemma KeysBreak(q: QueueId)
    ensures !Leq(MessageKey(q, LIMIT - 1), MessageKey(q, LIMIT))
    ensures MessageKey(q, LIMIT - 1) != MessageKey(q, LIMIT)
  {
    PadBreaks();
    LeqSamePrefix(MessagePrefix(q), Pad10(LIMIT - 1), Pad10(LIMIT));
    LeqTotal(MessageKey(q, LIMIT), MessageKey(q, LIMIT));
    hide MessagePrefix, Pad10, Leq;
  }

  const LAST := Message(LIMIT - 1, "")
  const NEXT := Message(LIMIT, "")

  lemma HeadBreaks(q: QueueId)
    ensures var keys := [MessageKey(q, LIMIT - 1), MessageKey(q, LIMIT)];
      KeysOf(q, [LAST, NEXT], keys) && !HeadFirst(q, [LAST, NEXT], keys)
  {
    var ms := [LAST, NEXT];
    KeysBreak(q);
    SortTwo(MessageKey(q, LIMIT - 1), MessageKey(q, LIMIT));
    assert ms[0] == LAST && ms[1] == NEXT;
    hide MessageKey, Leq, SortStrings;
    assert HasKey(q, ms, MessageKey(q, LIMIT - 1)) by { assert MessageKey(q, ms[0].id) == MessageKey(q, LIMIT - 1); }
    assert HasKey(q, ms, MessageKey(q, LIMIT)) by { assert MessageKey(q, ms[1].id) == MessageKey(q, LIMIT); }
  }

  /** A scan of a queue finds its earliest message first, for every queue whose ids go up to
      top, if and only if top is below 10^10: the queue holding the messages 9999999999 and
      10000000000 delivers the second. */
  lemma HeadFirstIff(q: QueueId, top: nat)
    ensures (forall ms, keys :: Sent(ms, top) && ms != [] && KeysOf(q, ms, keys) ==> HeadFirst(q, ms, keys)) <==> top < LIMIT
  {
    if top < LIMIT {
      forall ms, keys | Sent(ms, top) && ms != [] && KeysOf(q, ms, keys) ensures HeadFirst(q, ms, keys) {
        HeadSortsFirst(q, ms, top, keys);
      }
    } else {
      HeadBreaks(q);
      assert Sent([LAST, NEXT], top);
    }
  }

  // A message key that does not sort after any other of its queue.
  ghost predicate Least(q: QueueId, ms: seq<Message>, m: Message) {
    m in ms && forall i :: 0 <= i < |ms| ==> Leq(MessageKey(q, m.id), MessageKey(q, ms[i].id))
  }

  lemma SortedLeast(q: QueueId, ms: seq<Message>, keys: seq<string>, m: Message)
    requires KeysOf(q, ms, keys) && m in ms && |SortStrings(keys)| > 0 && SortStrings(keys)[0] == MessageKey(q, m.id)
    ensures Least(q, ms, m)
  {
    StringOrder();
    SortSorts(keys, Leq);
    var sorted := SortStrings(keys);
    forall i | 0 <= i < |ms| ensures Leq(MessageKey(q, m.id), MessageKey(q, ms[i].id)) {
      assert HasKey(q, ms, MessageKey(q, ms[i].id));
      assert MessageKey(q, ms[i].id) in multiset(sorted);
      var j :| 0 <= j < |sorted| && sorted[j] == MessageKey(q, ms[i].id);
      LeqTotal(sorted[0], sorted[0]);
    }
  }

  /** Names with colons would leak: the messages of queue name:x lie under the prefix of
      queue name, so deleting or reading the one would reach the other's. */
  lemma ColonsLeak(q: QueueId, x: string, id: nat)
    ensures HasPrefix(MessageKey(QueueId(q.ns, q.name + ":" + x), id), MessagePrefix(q))
  {
    var p := QueueId(q.ns, q.name + ":" + x);
    hide Pad10;
    JoinConcat(["sb", "msg", q.ns], [q.name], ":");
    JoinConcat(["sb", "msg", q.ns], [p.name], ":");
    assert ["sb", "msg", q.ns] + [q.name] == ["sb", "msg", q.ns, q.name];
    assert ["sb", "msg", p.ns] + [p.name] == ["sb", "msg", p.ns, p.name];
    assert Join([q.name], ":") == q.name && Join([p.name], ":") == p.name;
    hide Join;
    var stem := Join(["sb", "msg", q.ns], ":") + ":" + q.name;
    assert MessageStem(q) == stem && MessageStem(p) == stem + ":" + x;
    assert MessageKey(p, id) == (stem + ":") + (x + ":" + Pad10(id));
  }

  datatype Reply = NoQueue | Conflict | Malformed | Done | Empty | Delivered(message: Message)

  /** The handler: one counter for all ids, one flat store. queues is what a client is
      meant to see. */
  class ServiceBusHandler {
    const store: MemoryBackend<Entry>
    var msgId: nat
    ghost var queues: map<QueueId, seq<Message>>

    ghost predicate Valid()
      reads this, store
    {
      Reflects(store.data, queues, msgId)
    }

    constructor (store: MemoryBackend<Entry>)
      requires store.data == map[]
      ensures Valid() && queues == map[] && msgId == 0 && this.store == store
    {
      this.store, msgId, queues := store, 0, map[];
    }

    // Whether the queue exists; one with a colon in its name is none of the queues.
    ghost predicate Known(q: QueueId)
      reads this, store
    {
      if Named(q) then q in queues else QueueKey(q) in store.data
    }

    method CreateQueue(q: QueueId) returns (reply: Reply)
      requires Valid()
      modifies this, store
      ensures Valid() && msgId == old(msgId)
      ensures reply == (if old(Known(q)) then Conflict else Done)
      ensures queues == if old(Known(q)) || !Named(q) then old(queues) else old(queues)[q := []]
      ensures store.data == if old(Known(q)) then old(store.data) else old(store.data)[QueueKey(q) := QueueEntry]
    {
      if !Named(q) { ColonQueueAside(store.data, queues, msgId, q); }
      else if q !in queues { Created(store.data, queues, msgId, q); }
      assert Known(q) <==> QueueKey(q) in store.data;
      hide QueueKey, Reflects;
      var there := store.Exists(QueueKey(q));
      if there { return Conflict; }
      store.Set(QueueKey(q), QueueEntry);
      if Named(q) { queues := queues[q := []]; }
      reply := Done;
    }

    method DeleteQueue(q: QueueId) returns (reply: Reply)
      requires Valid()
      modifies this, store
      ensures Valid() && msgId == old(msgId)
      ensures reply == (if old(Known(q)) then Done else NoQueue)
      ensures queues == old(queues) - {q}
      ensures store.data == if old(Known(q)) then Without(old(store.data), q) else old(store.data)
    {
      DeleteEither(store.data, queues, msgId, q);
      assert Known(q) <==> QueueKey(q) in store.data;
      hide QueueKey, MessagePrefix, Reflects, Unselected, Selected, Known;
      var removed := store.Delete(QueueKey(q));
      if !removed { return NoQueue; }
      DropMessages(q);
      hide Without;
      queues := queues - {q};
      reply := Done;
    }

    method DropMessages(q: QueueId)
      modifies store
      ensures store.data == Unselected(old(store.data), MessagePrefix(q))
    {
      var _ := store.DeleteByPrefix(MessagePrefix(q));
    }

    /** body: None when the request is not valid JSON. The queues stay apart if and only if
        no message goes to a queue with a colon in its name. */
    method SendMessage(q: QueueId, body: Option<string>) returns (reply: Reply)
      requires Valid()
      modifies this, store
      ensures var accepted := old(Known(q)) && body.Some?;
              && (Valid() <==> Named(q) || !accepted)
              && reply == (if !old(Known(q)) then NoQueue else if body.None? then Malformed
                           else Delivered(Message(old(msgId) + 1, body.value)))
              && msgId == (if accepted then old(msgId) + 1 else old(msgId))
              && queues == (if accepted && Named(q) then old(queues)[q := old(queues)[q] + [Message(msgId, body.value)]] else old(queues))
              && store.data == (if accepted then old(store.data)[MessageKey(q, msgId) := MessageEntry(Message(msgId, body.value))]
                                else old(store.data))
    {
      assert Known(q) <==> QueueKey(q) in store.data;
      hide QueueKey, MessageKey, Reflects, Known;
      var there := store.Exists(QueueKey(q));
      if !there { return NoQueue; }
      if body.None? { return Malformed; }
      var m := Message(msgId + 1, body.value);
      SendEither(store.data, queues, msgId, q, m);
      msgId := msgId + 1;
      store.Set(MessageKey(q, m.id), MessageEntry(m));
      if Named(q) { queues := queues[q := queues[q] + [m]]; }
      reply := Delivered(m);
    }

    /** While fewer than ten thousand million ids have been used, the head of a queue is
        the earliest message sent to it since it was created. */
    method ReceiveMessage(q: QueueId) returns (reply: Reply)
      requires Valid()
      ensures !Known(q) ==> reply == NoQueue
      ensures Known(q) && (!Named(q) || queues[q] == []) ==> reply == Empty
      ensures q in queues && queues[q] != [] ==> reply.Delivered? && Least(q, queues[q], reply.message)
      ensures q in queues && queues[q] != [] && msgId < LIMIT ==> reply == Delivered(queues[q][0])
    {
      assert Known(q) <==> QueueKey(q) in store.data;
      if !Named(q) { ColonQueueEmpty(store.data, queues, msgId, q); }
      hide QueueKey, MessageKey, MessagePrefix;
      var there := store.Exists(QueueKey(q));
      if !there { return NoQueue; }
      var keys := store.ListKeysByPrefix(MessagePrefix(q));
      if Named(q) { UnderQueue(store.data, queues, msgId, q, keys); }
      if |keys| > 0 {
        var sorted := SortStrings(keys);
        SortedFirst(keys);
        assert HasKey(q, queues[q], sorted[0]);
        if msgId < LIMIT { HeadSortsFirst(q, queues[q], msgId, keys); }
        var v := store.Get(sorted[0]);
        assert Stored(store.data, q, queues[q]);
        if v.Found? && v.value.MessageEntry? {
          KeyedMessage(store.data, queues, msgId, q, sorted[0], v.value.message);
          SortedLeast(q, queues[q], keys, v.value.message);
          return Delivered(v.value.message);
        }
      }
      reply := Empty;
    }

    // Messages published to a topic take ids from the same counter.
    method PublishMessage(ns: string, topic: string, body: string) returns (reply: Reply)
      requires Valid()
      modifies this, store
      ensures Valid() && queues == old(queues) && msgId == old(msgId) + 1
      ensures reply == Delivered(Message(msgId, body))
      ensures store.data == old(store.data)[TopicKey(ns, topic, msgId) := MessageEntry(Message(msgId, body))]
    {
      var m := Message(msgId + 1, body);
      forall q | Named(q) ensures TopicKey(ns, topic, m.id) != QueueKey(q) && !HasPrefix(TopicKey(ns, topic, m.id), MessagePrefix(q)) {
        TopicAside(ns, topic, m.id, q);
      }
      Aside(store.data, queues, msgId, msgId + 1, TopicKey(ns, topic, m.id), MessageEntry(m));
      msgId := msgId + 1;
      store.Set(TopicKey(ns, topic, m.id), MessageEntry(m));
      reply := Delivered(m);
    }
  }

  lemma SecondIsLeast(q: QueueId, one: string, two: string, m: Message)
    requires Least(q, [Message(LIMIT - 1, one), Message(LIMIT, two)], m)
    ensures m == Message(LIMIT, two)
  {
    KeysBreak(q);
    hide MessageKey, Leq;
    var ms := [Message(LIMIT - 1, one), Message(LIMIT, two)];
    assert Leq(MessageKey(q, m.id), MessageKey(q, ms[1].id));
  }

  // A new handler whose topic has used the first n ids, and nothing else has happened.
  method UsedUp(n: nat, ns: string, topic: string) returns (bus: ServiceBusHandler)
    ensures fresh(bus) && fresh(bus.store) && bus.Valid() && bus.queues == map[] && bus.msgId == n
  {
    var store := new MemoryBackend<Entry>();
    bus := new ServiceBusHandler(store);
    hide Reflects;
    while bus.msgId < n
      invariant bus.Valid() && bus.queues == map[] && bus.msgId <= n
      invariant fresh(bus) && fresh(bus.store)
    {
      var _ := bus.PublishMessage(ns, topic, "");
    }
  }

  /** The bound is reached by ordinary requests on a new handler: when a topic has used the
      smaller ids, a queue with two messages delivers the second. */
  method SecondOvertakes(q: QueueId, ns: string, topic: string, one: string, two: string) returns (reply: Reply)
    requires Named(q)
    ensures reply == Delivered(Message(LIMIT, two))
  {
    hide Reflects, Least, MessageKey;
    var bus := UsedUp(LIMIT - 2, ns, topic);
    var _ := bus.CreateQueue(q);
    var _ := bus.SendMessage(q, Some(one));
    var _ := bus.SendMessage(q, Some(two));
    assert bus.queues[q] == [Message(LIMIT - 1, one), Message(LIMIT, two)];
    reply := bus.ReceiveMessage(q);
    SecondIsLeast(q, one, two, reply.message);
  }

  // What is stored under a message's key is that message.
  lemma KeyedMessage(data: map<string, Entry>, queues: map<QueueId, seq<Message>>, top: nat, q: QueueId, key: string, m: Message)
    requires Reflects(data, queues, top) && q in queues && HasKey(q, queues[q], key)
    requires key in data && data[key] == MessageEntry(m)
    ensures m in queues[q] && key == MessageKey(q, m.id)
  {
    var ms := queues[q];
    assert Of(queues, q) == ms && Stored(data, q, ms);
    hide MessageKey;
    var i :| 0 <= i < |ms| && MessageKey(q, ms[i].id) == key;
    assert ms[i] == m;
  }

  // The keys a scan finds are the keys of the queue's messages.
  lemma UnderQueue(data: map<string, Entry>, queues: map<QueueId, seq<Message>>, top: nat, q: QueueId, keys: seq<string>)
    requires Reflects(data, queues, top) && q in queues
    requires forall k :: k in keys <==> k in Selected(data, MessagePrefix(q))
    ensures forall k :: k in keys <==> HasKey(q, queues[q], k)
    ensures |keys| > 0 <==> queues[q] != []
  {
    var ms := queues[q];
    assert Of(queues, q) == ms && Stored(data, q, ms) && NothingElse(data, q, ms);
    forall i | 0 <= i < |ms| ensures MessageKey(q, ms[i].id) in keys {
      OwnPrefix(q, q, ms[i].id);
    }
    hide MessageKey, MessagePrefix, HasPrefix;
    if |keys| > 0 { assert keys[0] in keys; }
    if ms != [] { assert MessageKey(q, ms[0].id) in keys; }
  }

  lemma SortedFirst(keys: seq<string>)
    requires |keys| > 0
    ensures |SortStrings(keys)| == |keys| && SortStrings(keys)[0] in keys
  {
    StringOrder();
    SortSorts(keys, Leq);
    var sorted := SortStrings(keys);
    assert |multiset(sorted)| == |sorted| && |multiset(keys)| == |keys|;
    assert sorted[0] in multiset(sorted);
  }
}
