/** The custody of reply senders, abstracted from the transport's threads.

    A desk says where every reply sender is: in the command queue, in the supervisor's hand, in
    the pending map, with the reader, with the timeout thread, spent on an answer, or dropped.
    It changes by a few operations, each of which moves one entry (or all pending ones).
 */
module ReplyDesk {
  import opened Common
  import opened Transport

  type Entry = (nat, Waiter)

  datatype Desk = Desk(
    ids: Table<nat>,
    queue: seq<Command>,
    hand: Option<Entry>,
    encoding: Option<Entry>,
    pending: Table<Waiter>,
    delivering: Option<(Entry, Reply)>,
    expiring: seq<Entry>,
    answers: Table<seq<Reply>>,
    dropped: multiset<Waiter>,
    outbound: seq<Message>)

  datatype Operation =
    | Stay
    | OpenInitialize
    | PostRequest(id: nat, w: Waiter)
    | PostClose
    | SkipClose
    | TakeUp
    | AnswerHead(error: Error)
    | DropHead
    | AnswerHand(error: Error)
    | DropHand
    | FileHand
    | Announce(message: Message)
    | SendFrame
    | GiveUpFrame
    | AnswerPending(id: nat, error: Error)
    | AnswerAllPending(error: Error)
    | PickUp(id: nat, reply: Reply)
    | Deliver
    | Expire(overdue: seq<nat>)
    | AnswerExpired

  ghost predicate Enabled(d: Desk, op: Operation) {
    match op
    case Stay | PostClose | AnswerAllPending(_) => true
    case OpenInitialize =>
      !d.ids.Has(INITIALIZE) && INITIALIZE_ID !in d.ids.entries.Values && !d.pending.Has(INITIALIZE_ID)
    case PostRequest(id, w) => !d.ids.Has(w) && id !in d.ids.entries.Values
    case SkipClose => d.queue != [] && d.queue[0].Close?
    case TakeUp => d.queue != [] && d.queue[0].Request? && d.hand.None? && d.encoding.None?
    case AnswerHead(_) | DropHead => d.queue != [] && d.queue[0].Request?
    case AnswerHand(_) | DropHand => d.hand.Some?
    case FileHand => d.hand.Some? && d.encoding.None? && !d.pending.Has(d.hand.value.0)
    case Announce(message) => !message.RequestFrame?
    case SendFrame | GiveUpFrame => d.encoding.Some?
    case AnswerPending(id, _) => d.pending.Has(id)
    case PickUp(id, reply) => d.pending.Has(id) && d.delivering.None? && (reply.Ok? ==> reply.id == id)
    case Deliver => d.delivering.Some?
    case Expire(overdue) => IsOverdue(d.pending, overdue) && d.expiring == []
    case AnswerExpired => d.expiring != []
  }

  ghost function Apply(d: Desk, op: Operation): Desk
    requires Enabled(d, op)
  {
    match op
    case Stay => d
    case OpenInitialize =>
      d.(ids := d.ids.Put(INITIALIZE, INITIALIZE_ID), pending := d.pending.Put(INITIALIZE_ID, INITIALIZE))
    case PostRequest(id, w) => d.(ids := d.ids.Put(w, id), queue := d.queue + [Request(id, w)])
    case PostClose => d.(queue := d.queue + [Close])
    case SkipClose => d.(queue := d.queue[1..])
    case TakeUp => d.(queue := d.queue[1..], hand := Some((d.queue[0].id, d.queue[0].waiter)))
    case AnswerHead(error) => d.(queue := d.queue[1..], answers := Give(d.answers, d.queue[0].waiter, Err(error)))
    case DropHead => d.(queue := d.queue[1..], dropped := d.dropped + multiset{d.queue[0].waiter})
    case AnswerHand(error) => d.(hand := None, answers := Give(d.answers, d.hand.value.1, Err(error)))
    case DropHand => d.(hand := None, dropped := d.dropped + multiset{d.hand.value.1})
    case FileHand => d.(hand := None, encoding := d.hand, pending := d.pending.Put(d.hand.value.0, d.hand.value.1))
    case Announce(message) => d.(outbound := d.outbound + [message])
    case SendFrame =>
      d.(encoding := None, outbound := d.outbound + [RequestFrame(d.encoding.value.0, d.encoding.value.1)])
    case GiveUpFrame => d.(encoding := None)
    case AnswerPending(id, error) =>
      d.(pending := d.pending.Remove(id), answers := Give(d.answers, d.pending.At(id), Err(error)))
    case AnswerAllPending(error) =>
      d.(pending := Table(map[]), answers := GiveAll(d.answers, d.pending.entries.Values, Err(error)))
    case PickUp(id, reply) => d.(pending := d.pending.Remove(id), delivering := Some(((id, d.pending.At(id)), reply)))
    case Deliver => d.(delivering := None, answers := Give(d.answers, d.delivering.value.0.1, d.delivering.value.1))
    case Expire(overdue) =>
      d.(pending := Table(d.pending.entries - (set id | id in overdue)), expiring := Taken(d.pending, overdue))
    case AnswerExpired =>
      d.(expiring := d.expiring[1..], answers := Give(d.answers, d.expiring[0].1, Err(Timeout(d.expiring[0].0))))
  }

  // ---------------------------------------------------------------- what every desk keeps

  ghost predicate Owns(ids: Table<nat>, id: nat, w: Waiter) { ids.Has(w) && ids.At(w) == id }

  /** No two waiters wait for the same id. */
  ghost predicate IdsDistinct(ids: Table<nat>) {
    forall v, w :: v in ids.entries && w in ids.entries && v != w ==> ids.entries[v] != ids.entries[w]
  }

  ghost predicate QueueFiled(ids: Table<nat>, queue: seq<Command>) {
    forall c :: c in queue && c.Request? ==> Owns(ids, c.id, c.waiter)
  }

  ghost predicate EntryFiled(ids: Table<nat>, e: Option<Entry>) { e.Some? ==> Owns(ids, e.value.0, e.value.1) }

  ghost predicate PendingFiled(ids: Table<nat>, pending: Table<Waiter>) {
    forall id :: id in pending.entries ==> Owns(ids, id, pending.entries[id])
  }

  ghost predicate DeliveryFiled(ids: Table<nat>, delivery: Option<(Entry, Reply)>) {
    delivery.Some? ==>
      var ((id, w), reply) := delivery.value;
      Owns(ids, id, w) && (reply.Ok? ==> reply.id == id)
  }

  ghost predicate ExpiringFiled(ids: Table<nat>, entries: seq<Entry>) {
    forall e :: e in entries ==> Owns(ids, e.0, e.1)
  }

  ghost predicate OutboundFiled(ids: Table<nat>, outbound: seq<Message>) {
    forall m :: m in outbound && m.RequestFrame? ==> Owns(ids, m.id, m.waiter)
  }

  /** Every successful answer carries the id its receiver waits for. */
  ghost predicate AnswersMatch(ids: Table<nat>, answers: Table<seq<Reply>>) {
    forall w, r :: w in answers.entries && r in answers.entries[w] && r.Ok? ==> Owns(ids, r.id, w)
  }

  /** Wherever a reply sender is, it is filed under its waiter's id. */
  ghost predicate Filed(d: Desk) {
    && QueueFiled(d.ids, d.queue) && EntryFiled(d.ids, d.hand) && EntryFiled(d.ids, d.encoding)
    && PendingFiled(d.ids, d.pending) && DeliveryFiled(d.ids, d.delivering) && ExpiringFiled(d.ids, d.expiring)
    && OutboundFiled(d.ids, d.outbound) && AnswersMatch(d.ids, d.answers)
  }

  function B(holds: bool): nat { if holds then 1 else 0 }

  /** How many times the reply sender of waiter `w`, waiting for `id`, exists in all places. */
  function Places(d: Desk, id: nat, w: Waiter): nat {
    multiset(d.queue)[Request(id, w)] + B(d.hand == Some((id, w))) + B(d.pending.Has(id) && d.pending.At(id) == w)
      + B(d.delivering.Some? && d.delivering.value.0 == (id, w)) + multiset(d.expiring)[(id, w)]
      + |Lookup(d.answers, w)| + d.dropped[w]
  }

  /** How many times the request of waiter `w` is still to be framed or has been framed. */
  function Frames(d: Desk, id: nat, w: Waiter): nat {
    multiset(d.queue)[Request(id, w)] + B(d.hand == Some((id, w))) + B(d.encoding == Some((id, w)))
      + multiset(d.outbound)[RequestFrame(id, w)]
  }

  /** Each known waiter's sender is in exactly one place and its request is framed at most once, and
      not at all if the sender was dropped; an unknown waiter has received nothing. */
  ghost predicate Custody(d: Desk, w: Waiter) {
    if d.ids.Has(w) then
      var id := d.ids.At(w);
      Places(d, id, w) == 1 && Frames(d, id, w) <= 1 && (d.dropped[w] > 0 ==> Frames(d, id, w) == 0)
    else Lookup(d.answers, w) == [] && d.dropped[w] == 0
  }

  ghost predicate Sound(d: Desk) { IdsDistinct(d.ids) && Filed(d) && forall w :: Custody(d, w) }

  lemma PopCount<T>(s: seq<T>, x: T)
    requires s != []
    ensures multiset(s)[x] == multiset(s[1..])[x] + B(s[0] == x)
  {
    assert s == [s[0]] + s[1..];
  }

  lemma PushCount<T>(s: seq<T>, x: T, y: T)
    ensures multiset(s + [y])[x] == multiset(s)[x] + B(y == x)
  {}

  lemma CountMember<T>(s: seq<T>, x: T)
    ensures (multiset(s)[x] > 0) == (x in s)
  {}

  lemma GrowingKeepsFiled(d: Desk, ids: Table<nat>)
    requires Filed(d) && forall w :: w in d.ids.entries ==> w in ids.entries && ids.entries[w] == d.ids.entries[w]
    ensures Filed(d.(ids := ids))
  {}

  lemma GivingKeepsMatch(ids: Table<nat>, answers: Table<seq<Reply>>, w: Waiter, reply: Reply)
    requires AnswersMatch(ids, answers) && (reply.Ok? ==> Owns(ids, reply.id, w))
    ensures AnswersMatch(ids, Give(answers, w, reply))
  {}

  lemma FiledKept(d: Desk, op: Operation)
    requires Sound(d) && Enabled(d, op)
    ensures Filed(Apply(d, op))
  {
    match op
    case OpenInitialize => GrowingKeepsFiled(d, d.ids.Put(INITIALIZE, INITIALIZE_ID));
    case PostRequest(id, w) => GrowingKeepsFiled(d, d.ids.Put(w, id));
    case AnswerHead(error) => GivingKeepsMatch(d.ids, d.answers, d.queue[0].waiter, Err(error));
    case AnswerHand(error) => GivingKeepsMatch(d.ids, d.answers, d.hand.value.1, Err(error));
    case AnswerPending(id, error) => GivingKeepsMatch(d.ids, d.answers, d.pending.At(id), Err(error));
    case Deliver => GivingKeepsMatch(d.ids, d.answers, d.delivering.value.0.1, d.delivering.value.1);
    case AnswerExpired => GivingKeepsMatch(d.ids, d.answers, d.expiring[0].1, Err(Timeout(d.expiring[0].0)));
    case _ =>
  }

  lemma OpenInitializeKeepsCustody(d: Desk, w: Waiter)
    requires Sound(d) && Enabled(d, OpenInitialize)
    ensures Custody(Apply(d, OpenInitialize), w)
  {
    assert Custody(d, w);
    NewcomerNowhere(d, INITIALIZE_ID, INITIALIZE);
  }

  lemma PostKeepsCustody(d: Desk, id: nat, w: Waiter, v: Waiter)
    requires Sound(d) && Enabled(d, PostRequest(id, w))
    ensures Custody(Apply(d, PostRequest(id, w)), v)
  {
    assert Custody(d, v);
    if v == w {
      NewcomerNowhere(d, id, w);
      PushCount(d.queue, Request(id, w), Request(id, w));
    } else if d.ids.Has(v) {
      PushCount(d.queue, Request(d.ids.At(v), v), Request(id, w));
    }
  }

  lemma NewcomerNowhere(d: Desk, id: nat, w: Waiter)
    requires Sound(d) && !d.ids.Has(w)
    ensures Places(d, id, w) == 0 && Frames(d, id, w) == 0
  {
    assert Custody(d, w);
    CountMember(d.queue, Request(id, w));
    CountMember(d.expiring, (id, w));
    CountMember(d.outbound, RequestFrame(id, w));
  }

  lemma QueueKeepsCustody(d: Desk, op: Operation, v: Waiter)
    requires Sound(d) && Enabled(d, op)
    requires op.PostClose? || op.SkipClose? || op.TakeUp? || op.AnswerHead? || op.DropHead?
    ensures Custody(Apply(d, op), v)
  {
    assert Custody(d, v);
    if !op.PostClose? { assert d.queue[0] in d.queue; }
    if d.ids.Has(v) {
      if op.PostClose? { PushCount(d.queue, Request(d.ids.At(v), v), Close); }
      else { PopCount(d.queue, Request(d.ids.At(v), v)); }
    }
  }

  lemma HandKeepsCustody(d: Desk, op: Operation, v: Waiter)
    requires Sound(d) && Enabled(d, op)
    requires op.AnswerHand? || op.DropHand? || op.FileHand? || op.GiveUpFrame?
    ensures Custody(Apply(d, op), v)
  {
    assert Custody(d, v);
  }

  lemma WireKeepsCustody(d: Desk, op: Operation, v: Waiter)
    requires Sound(d) && Enabled(d, op) && (op.Announce? || op.SendFrame?)
    ensures Custody(Apply(d, op), v)
  {
    assert Custody(d, v);
    if d.ids.Has(v) {
      var frame := if op.Announce? then op.message else RequestFrame(d.encoding.value.0, d.encoding.value.1);
      PushCount(d.outbound, RequestFrame(d.ids.At(v), v), frame);
    }
  }

  lemma PendingKeepsCustody(d: Desk, op: Operation, v: Waiter)
    requires Sound(d) && Enabled(d, op) && (op.AnswerPending? || op.PickUp? || op.Deliver?)
    ensures Custody(Apply(d, op), v)
  {
    assert Custody(d, v);
  }

  lemma PendingHolders(ids: Table<nat>, pending: Table<Waiter>, w: Waiter)
    requires PendingFiled(ids, pending)
    ensures w in pending.entries.Values <==> ids.Has(w) && pending.Has(ids.At(w)) && pending.At(ids.At(w)) == w
  {}

  lemma AnswerAllKeepsCustody(d: Desk, error: Error, v: Waiter)
    requires Sound(d)
    ensures Custody(Apply(d, AnswerAllPending(error)), v)
  {
    assert Custody(d, v);
    PendingHolders(d.ids, d.pending, v);
  }

  lemma {:induction false} OverdueCount(pending: Table<Waiter>, overdue: seq<nat>, id: nat, w: Waiter)
    requires IsOverdue(pending, overdue)
    ensures multiset(Taken(pending, overdue))[(id, w)] == B(id in overdue && pending.At(id) == w)
  {
    if overdue != [] {
      var last := |overdue| - 1;
      OverdueCount(pending, overdue[..last], id, w);
      assert Taken(pending, overdue) == Taken(pending, overdue[..last]) + [(overdue[last], pending.At(overdue[last]))];
      assert overdue == overdue[..last] + [overdue[last]];
      assert overdue[last] !in overdue[..last];
    }
  }

  lemma ExpireKeepsCustody(d: Desk, op: Operation, v: Waiter)
    requires Sound(d) && Enabled(d, op) && (op.Expire? || op.AnswerExpired?)
    ensures Custody(Apply(d, op), v)
  {
    assert Custody(d, v);
    if op.Expire? {
      if d.ids.Has(v) { OverdueCount(d.pending, op.overdue, d.ids.At(v), v); }
    } else {
      assert d.expiring[0] in d.expiring;
      if d.ids.Has(v) { PopCount(d.expiring, (d.ids.At(v), v)); }
    }
  }

  /** Every operation keeps every sender in exactly one place, under its own id. */
  lemma ApplyKeepsSound(d: Desk, op: Operation)
    requires Sound(d) && Enabled(d, op)
    ensures Sound(Apply(d, op))
  {
    FiledKept(d, op);
    forall v ensures Custody(Apply(d, op), v) { ApplyKeepsCustody(d, op, v); }
  }

  lemma ApplyKeepsCustody(d: Desk, op: Operation, v: Waiter)
    requires Sound(d) && Enabled(d, op)
    ensures Custody(Apply(d, op), v)
  {
    match op
    case Stay => assert Custody(d, v);
    case OpenInitialize => OpenInitializeKeepsCustody(d, v);
    case PostRequest(id, w) => PostKeepsCustody(d, id, w, v);
    case PostClose => QueueKeepsCustody(d, op, v);
    case SkipClose => QueueKeepsCustody(d, op, v);
    case TakeUp => QueueKeepsCustody(d, op, v);
    case AnswerHead(_) => QueueKeepsCustody(d, op, v);
    case DropHead => QueueKeepsCustody(d, op, v);
    case AnswerHand(_) => HandKeepsCustody(d, op, v);
    case DropHand => HandKeepsCustody(d, op, v);
    case FileHand => HandKeepsCustody(d, op, v);
    case GiveUpFrame => HandKeepsCustody(d, op, v);
    case Announce(_) => WireKeepsCustody(d, op, v);
    case SendFrame => WireKeepsCustody(d, op, v);
    case AnswerPending(_, _) => PendingKeepsCustody(d, op, v);
    case PickUp(_, _) => PendingKeepsCustody(d, op, v);
    case Deliver => PendingKeepsCustody(d, op, v);
    case AnswerAllPending(error) => AnswerAllKeepsCustody(d, error, v);
    case Expire(_) => ExpireKeepsCustody(d, op, v);
    case AnswerExpired => ExpireKeepsCustody(d, op, v);
  }

  /** The waiter in the supervisor's hand never finds its id taken in the pending map. */
  lemma HandNeverDuplicate(d: Desk)
    requires Sound(d) && d.hand.Some?
    ensures !d.pending.Has(d.hand.value.0)
  {
    assert Custody(d, d.hand.value.1);
  }
}
