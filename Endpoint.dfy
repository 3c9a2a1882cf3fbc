/**
 * The framed endpoint of one connection: message ids, the FIFO send queue with
 * its once-only dispatch of each entry, cancellation, backpressure accounting,
 * the close handler and the decoding of received buffers.
 *
 * The asynchronous transport write is replaced by explicit steps:
 *  - dispatching an entry appends a `Write` to `writes` (the transport's log);
 *  - `CompleteWrite(ok)` is the write's completion (delete + settle the handle);
 *  - `Advance()` is the later step that dispatches the new head.
 * The promise handed back by a send is replaced by the `settled` log, which
 * records in order every handle that resolved or rejected.
 */
module Endpoint {
  import opened Wrappers
  import opened Framing

  datatype SendError =
    | EncodingFailed(cause: CodecError)  // the title length could not be written
    | PayloadTooLarge                    // the frame is longer than the limit
    | SendCanceled                       // cancel with its default reason
    | ConnectionInterrupted              // cancelled by the close handler
    | WriteFailed                        // the transport write failed

  datatype Outcome = Resolved | Rejected(error: SendError)

  /** One settled send handle. */
  datatype Settlement = Settlement(id: nat, outcome: Outcome)

  /** One send queue entry: its message id, its frame (its size is the frame's length), and its once-only flag. */
  datatype Entry = Entry(id: nat, frame: Bytes, dispatched: bool)

  /** One frame handed to the transport. */
  datatype Write = Write(id: nat, frame: Bytes)

  /** Notifications of the receive path. */
  datatype Event = MessageEvent(title: Bytes, data: Bytes) | ErrorEvent(error: CodecError)

  datatype SocketConfig = SocketConfig(url: string, maxPayload: Option<int>)

  /** The frame-size limit: 0 (no limit) when unset or not positive, else the configured value plus the length prefix. */
  function NormalizeMaxPayload(configured: Option<int>): (limit: nat)
    ensures limit == 0 <==> configured.None? || configured.value <= 0
    ensures limit != 0 ==> limit > HEADER_SIZE
  {
    if configured.None? || configured.value <= 0 then 0 else configured.value + HEADER_SIZE
  }

  /** Whether a frame of the given length passes the limit. */
  predicate Admits(limit: nat, frameLength: nat) {
    limit == 0 || frameLength <= limit
  }

  /**
   * With a positive configured value a message is admitted exactly when its
   * title and payload together fit in that value (the 4-byte prefix is not
   * charged); with none, or a value that is not positive, everything is admitted.
   */
  lemma LimitChargesTitleAndData(configured: Option<int>, title: Bytes, data: Bytes)
    requires |title| < U32_LIMIT
    ensures NormalizeMaxPayload(configured) == 0 <==> configured.None? || configured.value <= 0
    ensures Admits(NormalizeMaxPayload(configured), |Encode(title, data).value|)
        <==> configured.None? || configured.value <= 0 || |title| + |data| <= configured.value
  {
  }

  /** The event that receiving `data` emits. */
  function ReceiveEvent(data: Bytes): (ev: Event)
    ensures ev.ErrorEvent? <==> |data| < HEADER_SIZE
    ensures ev.MessageEvent? ==> Decode(data) == Success(Message(ev.title, ev.data))
  {
    match Decode(data)
    case Success(m) => MessageEvent(m.title, m.data)
    case Failure(e) => ErrorEvent(e)
  }

  // ---------------------------------------------------------------------------
  // The send queue as a value

  /** Sum of the entry sizes (frame lengths). */
  function QueuedBytes(q: seq<Entry>): (n: nat)
    ensures forall k :: 0 <= k < |q| ==> |q[k].frame| <= n
  {
    if q == [] then 0 else QueuedBytes(q[..|q| - 1]) + |q[|q| - 1].frame|
  }

  /** Removal of the entry at index `i`, keeping the order of the others. */
  function RemoveAt(q: seq<Entry>, i: nat): (r: seq<Entry>)
    requires i < |q|
    ensures |r| == |q| - 1
  {
    q[..i] + q[i + 1..]
  }

  /** The entries before `i` keep their positions; those after it move down by one. */
  lemma RemoveAtIndex(q: seq<Entry>, i: nat)
    requires i < |q|
    ensures forall k :: 0 <= k < i ==> RemoveAt(q, i)[k] == q[k]
    ensures forall k :: i <= k < |q| - 1 ==> RemoveAt(q, i)[k] == q[k + 1]
  {
  }

  /** The position of the entry with the given id (the queue map's lookup). */
  function Find(q: seq<Entry>, id: nat): (r: Option<nat>)
    ensures r.Some? ==> r.value < |q| && q[r.value].id == id
    ensures r.None? ==> forall k :: 0 <= k < |q| ==> q[k].id != id
  {
    if q == [] then None
    else if q[0].id == id then Some(0)
    else match Find(q[1..], id)
      case None => None
      case Some(k) => Some(k + 1)
  }

  /** Entries the close handler leaves in place: those already dispatched. */
  function Kept(q: seq<Entry>): (r: seq<Entry>)
    ensures |r| <= |q|
    ensures forall e :: e in r ==> e in q && e.dispatched
  {
    if q == [] then [] else (if q[0].dispatched then [q[0]] else []) + Kept(q[1..])
  }

  /** The handles the close handler rejects, in the order it rejects them: last inserted first. */
  function Interrupted(q: seq<Entry>): (r: seq<Settlement>)
    ensures |r| <= |q|
    ensures forall x :: x in r ==> x.outcome == Rejected(ConnectionInterrupted)
  {
    if q == [] then []
    else Interrupted(q[1..]) + (if q[0].dispatched then [] else [Settlement(q[0].id, Rejected(ConnectionInterrupted))])
  }

  /** The ids of the entries not yet dispatched. */
  function UndispatchedIds(q: seq<Entry>): (ids: set<nat>)
    ensures forall k :: 0 <= k < |q| && !q[k].dispatched ==> q[k].id in ids
    ensures |ids| <= |q|
  {
    if q == [] then {} else (if q[0].dispatched then {} else {q[0].id}) + UndispatchedIds(q[1..])
  }

  ghost function QueueIds(q: seq<Entry>): set<nat> {
    set e | e in q :: e.id
  }

  ghost function SettledIds(s: seq<Settlement>): set<nat> {
    set x | x in s :: x.id
  }

  lemma SettledIdsAppend(s: seq<Settlement>, x: Settlement)
    ensures SettledIds(s + [x]) == SettledIds(s) + {x.id}
  {
    assert forall y :: y in s + [x] <==> y in s || y == x;
  }

  ghost predicate IdsIncreasing(q: seq<Entry>) {
    forall i, j :: 0 <= i < j < |q| ==> q[i].id < q[j].id
  }

  /** At most one entry is dispatched, and it is the head. */
  ghost predicate OnlyHeadDispatched(q: seq<Entry>) {
    forall i :: 0 < i < |q| ==> !q[i].dispatched
  }

  /** Shape of the queue: insertion order is id order, ids come from the counter, frames pass the limit. */
  ghost predicate QueueShape(q: seq<Entry>, nextId: nat, limit: nat) {
    && IdsIncreasing(q)
    && OnlyHeadDispatched(q)
    && (forall i :: 0 <= i < |q| ==> q[i].id < nextId && Admits(limit, |q[i].frame|))
  }

  /**
   * Every id taken so far is either still queued or settled, never both, and
   * no handle settles twice.
   */
  ghost predicate Accounting(q: seq<Entry>, s: seq<Settlement>, nextId: nat) {
    && (forall i, j :: 0 <= i < j < |s| ==> s[i].id != s[j].id)
    && (forall i :: 0 <= i < |s| ==> s[i].id < nextId)
    && (forall i, j :: 0 <= i < |q| && 0 <= j < |s| ==> q[i].id != s[j].id)
    && (forall k :: 0 <= k < nextId ==> k in QueueIds(q) || k in SettledIds(s))
  }

  /**
   * Frames reach the transport in id order, each at most once; undispatched
   * entries come after every write; a dispatched head is the latest write.
   */
  ghost predicate FifoWrites(q: seq<Entry>, w: seq<Write>, nextId: nat) {
    && (forall i, j :: 0 <= i < j < |w| ==> w[i].id < w[j].id)
    && (forall j :: 0 <= j < |w| ==> w[j].id < nextId)
    && (forall i, j :: 0 <= i < |q| && 0 <= j < |w| && !q[i].dispatched ==> w[j].id < q[i].id)
    && (q != [] && q[0].dispatched ==> w != [] && w[|w| - 1] == Write(q[0].id, q[0].frame))
  }

  /**
   * The ids whose `send` took effect by rejection before the frame reached the
   * transport (a cancellation, or a send refused before queueing): they were
   * taken from the counter, are no longer queued, and are never written.
   */
  ghost predicate DroppedUnwritten(q: seq<Entry>, w: seq<Write>, nextId: nat, dropped: set<nat>) {
    && (forall d :: d in dropped ==> d < nextId)
    && (forall i :: 0 <= i < |q| ==> q[i].id !in dropped)
    && (forall j :: 0 <= j < |w| ==> w[j].id !in dropped)
  }

  /** The endpoint invariant over the queue, the settled handles, the transport log and the id counter. */
  ghost predicate Invariant(q: seq<Entry>, s: seq<Settlement>, w: seq<Write>, nextId: nat, limit: nat) {
    QueueShape(q, nextId, limit) && Accounting(q, s, nextId) && FifoWrites(q, w, nextId)
  }

  // ---------------------------------------------------------------------------
  // Lemmas about the queue value

  lemma {:induction false} QueuedBytesConcat(a: seq<Entry>, b: seq<Entry>)
    ensures QueuedBytes(a + b) == QueuedBytes(a) + QueuedBytes(b)
  {
    if b != [] {
      assert (a + b)[..|a + b| - 1] == a + b[..|b| - 1];
      assert (a + b)[|a + b| - 1] == b[|b| - 1];
      QueuedBytesConcat(a, b[..|b| - 1]);
    } else {
      assert a + b == a;
    }
  }

  /** Backpressure after an insertion: the new frame's length is added. */
  lemma QueuedBytesAppend(q: seq<Entry>, e: Entry)
    ensures QueuedBytes(q + [e]) == QueuedBytes(q) + |e.frame|
  {
    assert (q + [e])[..|q|] == q;
  }

  /** Backpressure after a deletion: exactly that entry's frame length is subtracted. */
  lemma QueuedBytesRemoveAt(q: seq<Entry>, i: nat)
    requires i < |q|
    ensures QueuedBytes(RemoveAt(q, i)) == QueuedBytes(q) - |q[i].frame|
  {
    assert q == q[..i] + [q[i]] + q[i + 1..];
    QueuedBytesConcat(q[..i] + [q[i]], q[i + 1..]);
    QueuedBytesConcat(q[..i], q[i + 1..]);
    QueuedBytesAppend(q[..i], q[i]);
  }

  /** Backpressure of a sent message: a queued message counts its whole frame, prefix included. */
  lemma QueuedBytesOfSend(q: seq<Entry>, id: nat, title: Bytes, data: Bytes, dispatched: bool)
    requires Encode(title, data).Success?
    ensures QueuedBytes(q + [Entry(id, Encode(title, data).value, dispatched)])
         == QueuedBytes(q) + HEADER_SIZE + |title| + |data|
  {
    QueuedBytesAppend(q, Entry(id, Encode(title, data).value, dispatched));
  }

  /** With distinct ids the lookup finds exactly the entry with that id. */
  lemma FindIndex(q: seq<Entry>, i: nat)
    requires IdsIncreasing(q) && i < |q|
    ensures Find(q, q[i].id) == Some(i)
  {
  }

  lemma {:induction false} KeptNone(q: seq<Entry>)
    requires forall i :: 0 <= i < |q| ==> !q[i].dispatched
    ensures Kept(q) == []
  {
    if q != [] {
      KeptNone(q[1..]);
    }
  }

  /** The close handler leaves at most the dispatched head in the queue. */
  lemma CloseKeepsOnlyDispatchedHead(q: seq<Entry>)
    requires OnlyHeadDispatched(q)
    ensures Kept(q) == if q != [] && q[0].dispatched then [q[0]] else []
  {
    if q != [] {
      KeptNone(q[1..]);
    }
  }

  lemma {:induction false} InterruptedAbove(q: seq<Entry>, bound: int)
    requires forall i :: 0 <= i < |q| ==> q[i].id > bound
    ensures forall i :: 0 <= i < |Interrupted(q)| ==> Interrupted(q)[i].id > bound
  {
    if q != [] {
      InterruptedAbove(q[1..], bound);
    }
  }

  /**
   * The close handler rejects the undispatched entries with ConnectionInterrupted,
   * in reverse insertion order.
   */
  lemma {:induction false} InterruptedInReverse(q: seq<Entry>)
    requires IdsIncreasing(q)
    ensures forall i :: 0 <= i < |Interrupted(q)| ==> Interrupted(q)[i].outcome == Rejected(ConnectionInterrupted)
    ensures forall i, j :: 0 <= i < j < |Interrupted(q)| ==> Interrupted(q)[i].id > Interrupted(q)[j].id
  {
    if q != [] {
      InterruptedInReverse(q[1..]);
      InterruptedAbove(q[1..], q[0].id);
    }
  }

  /** Every undispatched entry is rejected by the close handler, and nothing else is. */
  lemma {:induction false} InterruptedCoversUndispatched(q: seq<Entry>)
    ensures |Interrupted(q)| + |Kept(q)| == |q|
    ensures forall i :: 0 <= i < |q| && !q[i].dispatched ==> Settlement(q[i].id, Rejected(ConnectionInterrupted)) in Interrupted(q)
  {
    if q != [] {
      InterruptedCoversUndispatched(q[1..]);
      forall i | 0 < i < |q| && !q[i].dispatched
        ensures Settlement(q[i].id, Rejected(ConnectionInterrupted)) in Interrupted(q)
      {
        assert q[i] == q[1..][i - 1];
      }
    }
  }

  /** Whether `cancel(id, _)` takes effect: the id is queued and its entry not yet dispatched. */
  predicate Cancels(q: seq<Entry>, id: nat) {
    match Find(q, id)
    case Some(i) => !q[i].dispatched
    case None => false
  }

  /** What `cancel(id, err)` does to the queue and to the settled handles. */
  function CancelEffect(q: seq<Entry>, s: seq<Settlement>, id: nat, err: SendError): (r: (seq<Entry>, seq<Settlement>))
    ensures |r.0| + |r.1| == |q| + |s| && s <= r.1
  {
    if Cancels(q, id) then (RemoveAt(q, Find(q, id).value), s + [Settlement(id, Rejected(err))]) else (q, s)
  }

  /**
   * Cancelling a queued, undispatched entry rejects its handle and deletes
   * exactly that entry; the backpressure drops by its frame length.
   */
  lemma CancelQueued(q: seq<Entry>, s: seq<Settlement>, i: nat, err: SendError)
    requires IdsIncreasing(q) && i < |q| && !q[i].dispatched
    ensures CancelEffect(q, s, q[i].id, err) == (RemoveAt(q, i), s + [Settlement(q[i].id, Rejected(err))])
    ensures forall k :: 0 <= k < |RemoveAt(q, i)| ==> RemoveAt(q, i)[k].id != q[i].id
    ensures QueuedBytes(RemoveAt(q, i)) == QueuedBytes(q) - |q[i].frame|
  {
    FindIndex(q, i);
    QueuedBytesRemoveAt(q, i);
    RemoveAtIndex(q, i);
    forall k | 0 <= k < |RemoveAt(q, i)|
      ensures RemoveAt(q, i)[k].id != q[i].id
    {
      assert RemoveAt(q, i)[k] == q[if k < i then k else k + 1];
    }
  }

  /** Cancelling the dispatched entry, or an id that is not queued, changes nothing. */
  lemma CancelDispatchedOrUnknown(q: seq<Entry>, s: seq<Settlement>, id: nat, err: SendError)
    requires IdsIncreasing(q)
    requires forall k :: 0 <= k < |q| && q[k].id == id ==> q[k].dispatched
    ensures CancelEffect(q, s, id, err) == (q, s)
  {
  }

  /** The close handler's rejections, split at index `i`: `q0[i]` is rejected last unless it is dispatched. */
  lemma InterruptedSplit(q0: seq<Entry>, i: nat)
    requires i < |q0|
    ensures Interrupted(q0[i..])
         == Interrupted(q0[i + 1..]) + (if q0[i].dispatched then [] else [Settlement(q0[i].id, Rejected(ConnectionInterrupted))])
  {
    assert q0[i..][1..] == q0[i + 1..];
  }

  /** The close handler drops exactly the undispatched entries: the ids it rejects. */
  lemma {:induction false} InterruptedIds(q: seq<Entry>)
    ensures SettledIds(Interrupted(q)) == UndispatchedIds(q)
  {
    if q != [] {
      InterruptedIds(q[1..]);
      if !q[0].dispatched {
        SettledIdsAppend(Interrupted(q[1..]), Settlement(q[0].id, Rejected(ConnectionInterrupted)));
      }
    }
  }

  /**
   * Cancelling `q0[i]` once the entries after it are gone: it is rejected and
   * deleted unless it is the dispatched head, which stays.
   */
  lemma CancelStep(q0: seq<Entry>, s: seq<Settlement>, i: nat)
    requires IdsIncreasing(q0) && OnlyHeadDispatched(q0) && i < |q0|
    ensures Cancels(q0[..i + 1], q0[i].id) == !q0[i].dispatched
    ensures CancelEffect(q0[..i + 1], s, q0[i].id, ConnectionInterrupted)
         == (if i > 0 then q0[..i] else Kept(q0),
             if q0[i].dispatched then s else s + [Settlement(q0[i].id, Rejected(ConnectionInterrupted))])
  {
    var q := q0[..i + 1];
    assert q[i] == q0[i];
    FindIndex(q, i);
    if i == 0 {
      CloseKeepsOnlyDispatchedHead(q0);
    }
    if !q0[i].dispatched {
      if i > 0 {
        assert RemoveAt(q, i) == q0[..i];
      } else {
        assert RemoveAt(q, i) == [] == Kept(q0);
      }
    } else {
      assert i == 0 && q == [q0[0]] == Kept(q0);
    }
  }

  /** The settled handles and the dropped ids once the close handler has also visited `q0[i]`. */
  lemma InterruptSettles(q0: seq<Entry>, s0: seq<Settlement>, d0: set<nat>, i: nat)
    requires i < |q0|
    ensures q0[i].dispatched ==> Interrupted(q0[i..]) == Interrupted(q0[i + 1..])
    ensures q0[i].dispatched ==> UndispatchedIds(q0[i..]) == UndispatchedIds(q0[i + 1..])
    ensures !q0[i].dispatched ==>
              s0 + Interrupted(q0[i..]) == s0 + Interrupted(q0[i + 1..]) + [Settlement(q0[i].id, Rejected(ConnectionInterrupted))]
    ensures !q0[i].dispatched ==> d0 + UndispatchedIds(q0[i..]) == d0 + UndispatchedIds(q0[i + 1..]) + {q0[i].id}
  {
    assert q0[i..][1..] == q0[i + 1..];
    InterruptedSplit(q0, i);
  }

  /**
   * One step of the close handler, which cancels the snapshot of the keys from
   * the last to the first: when it reaches index `i`, the entries after `i`
   * are gone and their undispatched handles settled; cancelling `q0[i]`
   * extends the settlements and the dropped ids by its own.
   */
  lemma InterruptStep(q0: seq<Entry>, s0: seq<Settlement>, d0: set<nat>, i: nat)
    requires IdsIncreasing(q0) && OnlyHeadDispatched(q0) && i < |q0|
    ensures CancelEffect(q0[..i + 1], s0 + Interrupted(q0[i + 1..]), q0[i].id, ConnectionInterrupted)
         == (if i > 0 then q0[..i] else Kept(q0), s0 + Interrupted(q0[i..]))
    ensures (if Cancels(q0[..i + 1], q0[i].id) then d0 + UndispatchedIds(q0[i + 1..]) + {q0[i].id}
             else d0 + UndispatchedIds(q0[i + 1..]))
         == d0 + UndispatchedIds(q0[i..])
  {
    CancelStep(q0, s0 + Interrupted(q0[i + 1..]), i);
    InterruptSettles(q0, s0, d0, i);
  }

  // ---------------------------------------------------------------------------
  // The endpoint's invariants are kept by each step of the queue

  /** Deleting any entry (completion or cancellation) and settling its handle keeps the invariants. */
  lemma RemovePreserves(q: seq<Entry>, s: seq<Settlement>, w: seq<Write>, n: nat, limit: nat, i: nat, o: Outcome)
    requires Invariant(q, s, w, n, limit)
    requires i < |q|
    ensures Invariant(RemoveAt(q, i), s + [Settlement(q[i].id, o)], w, n, limit)
  {
    RemoveKeepsShape(q, w, n, limit, i);
    RemoveKeepsAccounting(q, s, n, i, o);
  }

  lemma RemoveKeepsShape(q: seq<Entry>, w: seq<Write>, n: nat, limit: nat, i: nat)
    requires QueueShape(q, n, limit) && FifoWrites(q, w, n)
    requires i < |q|
    ensures QueueShape(RemoveAt(q, i), n, limit) && FifoWrites(RemoveAt(q, i), w, n)
  {
    var r := RemoveAt(q, i);
    RemoveAtIndex(q, i);
    assert IdsIncreasing(r) by {
      forall a, b | 0 <= a < b < |r| ensures r[a].id < r[b].id {
        assert r[a] == q[if a < i then a else a + 1];
        assert r[b] == q[if b < i then b else b + 1];
      }
    }
    assert r != [] && r[0].dispatched ==> i > 0 && r[0] == q[0];
  }

  lemma RemoveKeepsAccounting(q: seq<Entry>, s: seq<Settlement>, n: nat, i: nat, o: Outcome)
    requires Accounting(q, s, n) && IdsIncreasing(q) && forall k :: 0 <= k < |q| ==> q[k].id < n
    requires i < |q|
    ensures Accounting(RemoveAt(q, i), s + [Settlement(q[i].id, o)], n)
  {
    var q', s' := RemoveAt(q, i), s + [Settlement(q[i].id, o)];
    forall k | 0 <= k < n
      ensures k in QueueIds(q') || k in SettledIds(s')
    {
      if k in QueueIds(q) {
        var j :| 0 <= j < |q| && q[j].id == k;
        if j < i {
          assert q'[j] in q';
        } else if j > i {
          assert q'[j - 1] in q';
        } else {
          assert s'[|s|] in s';
        }
      } else {
        var x :| x in s && x.id == k;
        assert x in s';
      }
    }
  }

  /** Dispatching an undispatched head hands its frame to the transport and keeps the invariants. */
  lemma DispatchPreserves(q: seq<Entry>, s: seq<Settlement>, w: seq<Write>, n: nat, limit: nat)
    requires Invariant(q, s, w, n, limit)
    requires q != [] && !q[0].dispatched
    ensures Invariant(q[0 := q[0].(dispatched := true)], s, w + [Write(q[0].id, q[0].frame)], n, limit)
  {
    var q' := q[0 := q[0].(dispatched := true)];
    forall k | 0 <= k < n
      ensures k in QueueIds(q') || k in SettledIds(s)
    {
      if k in QueueIds(q) {
        var j :| 0 <= j < |q| && q[j].id == k;
        assert q'[j] in q';
      }
    }
  }

  /** Appending a fresh entry with the next id keeps the invariants. */
  lemma AppendPreserves(q: seq<Entry>, s: seq<Settlement>, w: seq<Write>, n: nat, limit: nat, frame: Bytes)
    requires Invariant(q, s, w, n, limit)
    requires Admits(limit, |frame|) && q != []
    ensures Invariant(q + [Entry(n, frame, false)], s, w, n + 1, limit)
  {
    var q' := q + [Entry(n, frame, false)];
    forall k | 0 <= k < n + 1
      ensures k in QueueIds(q') || k in SettledIds(s)
    {
      if k == n {
        assert q'[|q|] in q';
      } else if k in QueueIds(q) {
        var j :| 0 <= j < |q| && q[j].id == k;
        assert q'[j] in q';
      }
    }
  }

  /** A send into an empty queue dispatches at once and keeps the invariants. */
  lemma FirstPreserves(s: seq<Settlement>, w: seq<Write>, n: nat, limit: nat, frame: Bytes)
    requires Invariant([], s, w, n, limit)
    requires Admits(limit, |frame|)
    ensures Invariant([Entry(n, frame, true)], s, w + [Write(n, frame)], n + 1, limit)
  {
    forall k | 0 <= k < n + 1
      ensures k in QueueIds([Entry(n, frame, true)]) || k in SettledIds(s)
    {
      if k == n {
        assert [Entry(n, frame, true)][0] in [Entry(n, frame, true)];
      }
    }
  }

  /** A send rejected before queueing consumes its id and settles its handle at once. */
  lemma RejectPreserves(q: seq<Entry>, s: seq<Settlement>, w: seq<Write>, n: nat, limit: nat, o: Outcome)
    requires Invariant(q, s, w, n, limit)
    ensures Invariant(q, s + [Settlement(n, o)], w, n + 1, limit)
  {
    var s' := s + [Settlement(n, o)];
    forall k | 0 <= k < n + 1
      ensures k in QueueIds(q) || k in SettledIds(s')
    {
      if k == n {
        assert s'[|s|] in s';
      } else if k !in QueueIds(q) {
        var x :| x in s && x.id == k;
        assert x in s';
      }
    }
  }

  /**
   * A cancellation drops an entry that was never written: once its id joins
   * the dropped ids it is neither queued nor in the transport log.
   */
  lemma DropKeepsUnwritten(q: seq<Entry>, w: seq<Write>, n: nat, limit: nat, dropped: set<nat>, i: nat)
    requires QueueShape(q, n, limit) && FifoWrites(q, w, n) && DroppedUnwritten(q, w, n, dropped)
    requires i < |q| && !q[i].dispatched
    ensures DroppedUnwritten(RemoveAt(q, i), w, n, dropped + {q[i].id})
  {
    var r := RemoveAt(q, i);
    RemoveAtIndex(q, i);
    forall k | 0 <= k < |r|
      ensures r[k].id != q[i].id
    {
      if k < i {
        assert r[k] == q[k];
      } else {
        assert r[k] == q[k + 1];
      }
    }
  }

  /** Completing the head's write deletes it; the ids still queued were never dropped. */
  lemma CompletePreserves(q: seq<Entry>, s: seq<Settlement>, w: seq<Write>, n: nat, limit: nat, dropped: set<nat>, o: Outcome)
    requires Invariant(q, s, w, n, limit) && DroppedUnwritten(q, w, n, dropped) && q != []
    ensures Invariant(q[1..], s + [Settlement(q[0].id, o)], w, n, limit) && DroppedUnwritten(q[1..], w, n, dropped)
  {
    RemovePreserves(q, s, w, n, limit, 0, o);
    assert RemoveAt(q, 0) == q[1..];
  }

  /** The head handed to the transport was never dropped. */
  lemma DispatchKeepsUnwritten(q: seq<Entry>, w: seq<Write>, n: nat, dropped: set<nat>)
    requires DroppedUnwritten(q, w, n, dropped) && q != []
    ensures DroppedUnwritten(q[0 := q[0].(dispatched := true)], w + [Write(q[0].id, q[0].frame)], n, dropped)
  {
  }

  /** A new id was never dropped, so queueing a frame under it keeps the dropped ids unwritten. */
  lemma AppendKeepsUnwritten(q: seq<Entry>, w: seq<Write>, n: nat, dropped: set<nat>, frame: Bytes)
    requires DroppedUnwritten(q, w, n, dropped)
    ensures DroppedUnwritten(q + [Entry(n, frame, false)], w, n + 1, dropped)
  {
  }

  /** Likewise when the frame goes straight to the transport. */
  lemma FirstKeepsUnwritten(w: seq<Write>, n: nat, dropped: set<nat>, frame: Bytes)
    requires DroppedUnwritten([], w, n, dropped)
    ensures DroppedUnwritten([Entry(n, frame, true)], w + [Write(n, frame)], n + 1, dropped)
  {
  }

  /** A send refused before queueing drops an id that is neither queued nor written. */
  lemma RejectKeepsUnwritten(q: seq<Entry>, w: seq<Write>, n: nat, limit: nat, dropped: set<nat>)
    requires QueueShape(q, n, limit) && FifoWrites(q, w, n) && DroppedUnwritten(q, w, n, dropped)
    ensures DroppedUnwritten(q, w, n + 1, dropped + {n})
  {
  }

  /**
   * At most one frame is in flight: every id written to the transport has
   * either settled already or is the dispatched head.
   */
  lemma WrittenSettledOrInFlight(q: seq<Entry>, s: seq<Settlement>, w: seq<Write>, n: nat, limit: nat)
    requires Invariant(q, s, w, n, limit)
    ensures forall j :: 0 <= j < |w| ==>
              w[j].id in SettledIds(s) || (q != [] && q[0].dispatched && w[j].id == q[0].id)
  {
    forall j | 0 <= j < |w|
      ensures w[j].id in SettledIds(s) || (q != [] && q[0].dispatched && w[j].id == q[0].id)
    {
      if w[j].id !in SettledIds(s) {
        assert w[j].id in QueueIds(q);
        var e :| e in q && e.id == w[j].id;
        var i :| 0 <= i < |q| && q[i] == e;
        assert q[i].dispatched && i == 0;
      }
    }
  }

  /**
   * A handle that took effect by rejection before dispatch (a cancellation, a
   * send refused before queueing) has settled, and its frame is in no write.
   */
  lemma DroppedSettledNeverWritten(q: seq<Entry>, s: seq<Settlement>, w: seq<Write>, n: nat, limit: nat, dropped: set<nat>)
    requires Invariant(q, s, w, n, limit) && DroppedUnwritten(q, w, n, dropped)
    ensures forall d :: d in dropped ==> d in SettledIds(s)
    ensures forall d, j :: d in dropped && 0 <= j < |w| ==> w[j].id != d
  {
  }

  // ---------------------------------------------------------------------------
  // The process-wide endpoint id counter

  class IdCounter {
    var next: nat

    constructor()
      ensures next == 0
    {
      next := 0;
    }

    /** Returns the current value and increments the counter. */
    method Take() returns (n: nat)
      modifies this
      ensures n == old(next) && next == old(next) + 1
    {
      n := next;
      next := next + 1;
    }
  }

  // ---------------------------------------------------------------------------
  // The endpoint

  class BaseSocket {
    const id: nat
    const url: string
    const maxPayload: nat
    var messageID: nat
    var queue: seq<Entry>
    var settled: seq<Settlement>
    var writes: seq<Write>
    var pendingAdvances: nat
    var closeHandled: bool
    var events: seq<Event>
    /** Ids whose handle rejected before their frame reached the transport. */
    ghost var dropped: set<nat>

    ghost predicate Consistent()
      reads this
    {
      Invariant(queue, settled, writes, messageID, maxPayload) && DroppedUnwritten(queue, writes, messageID, dropped)
    }

    /** A queue whose head is not dispatched always has an advance step still to run. */
    ghost predicate Valid()
      reads this
    {
      Consistent() && (queue != [] && !queue[0].dispatched ==> pendingAdvances > 0)
    }

    constructor(counter: IdCounter, config: SocketConfig)
      modifies counter
      ensures Valid()
      ensures id == old(counter.next) && counter.next == old(counter.next) + 1
      ensures url == config.url && maxPayload == NormalizeMaxPayload(config.maxPayload)
      ensures messageID == 0 && queue == [] && settled == [] && writes == []
      ensures pendingAdvances == 0 && !closeHandled && events == [] && dropped == {}
    {
      var n := counter.Take();
      id := n;
      url := config.url;
      maxPayload := NormalizeMaxPayload(config.maxPayload);
      messageID := 0;
      queue := [];
      settled := [];
      writes := [];
      pendingAdvances := 0;
      closeHandled := false;
      events := [];
      dropped := {};
    }

    /** The bytes waiting in the send queue (backpressure). */
    method BufferedAmount() returns (size: nat)
      ensures size == QueuedBytes(queue)
    {
      size := 0;
      var i := 0;
      while i < |queue|
        invariant 0 <= i <= |queue|
        invariant size == QueuedBytes(queue[..i])
      {
        assert queue[..i + 1][..i] == queue[..i];
        size := size + |queue[i].frame|;
        i := i + 1;
      }
      assert queue[..i] == queue;
    }

    /**
     * The entry's `send` closure: takes effect once. With an error it rejects
     * the handle and deletes the entry; without one it hands the frame to the
     * transport.
     */
    method Fire(i: nat, err: Option<SendError>)
      requires Consistent() && i < |queue|
      requires err.None? ==> i == 0
      modifies this
      ensures Consistent()
      ensures messageID == old(messageID) && pendingAdvances == old(pendingAdvances)
      ensures closeHandled == old(closeHandled) && events == old(events)
      ensures if old(queue[i].dispatched) then
                queue == old(queue) && settled == old(settled) && writes == old(writes)
              else if err.Some? then
                && queue == RemoveAt(old(queue), i)
                && settled == old(settled) + [Settlement(old(queue[i].id), Rejected(err.value))]
                && writes == old(writes)
                && dropped == old(dropped) + {old(queue[i].id)}
              else
                && queue == old(queue)[0 := old(queue[0]).(dispatched := true)]
                && settled == old(settled)
                && writes == old(writes) + [Write(old(queue[0].id), old(queue[0].frame))]
      ensures old(queue[i].dispatched) || err.None? ==> dropped == old(dropped)
    {
      var e := queue[i];
      if e.dispatched {
        return;
      }
      if err.Some? {
        RemovePreserves(queue, settled, writes, messageID, maxPayload, i, Rejected(err.value));
        DropKeepsUnwritten(queue, writes, messageID, maxPayload, dropped, i);
        dropped := dropped + {e.id};
        settled := settled + [Settlement(e.id, Rejected(err.value))];
        queue := RemoveAt(queue, i);
      } else {
        DispatchPreserves(queue, settled, writes, messageID, maxPayload);
        DispatchKeepsUnwritten(queue, writes, messageID, dropped);
        queue := queue[0 := e.(dispatched := true)];
        writes := writes + [Write(e.id, e.frame)];
      }
    }

    /**
     * Sends one message. The id is taken first, so a send rejected for its
     * size still consumes an id. An accepted frame joins the tail of the queue
     * and is dispatched at once only when the queue was empty.
     */
    method Send(title: Bytes, data: Bytes) returns (mid: nat)
      requires Valid()
      modifies this
      ensures Valid()
      ensures mid == old(messageID) && messageID == old(messageID) + 1
      ensures pendingAdvances == old(pendingAdvances) && closeHandled == old(closeHandled) && events == old(events)
      ensures match Encode(title, data)
        case Failure(e) =>
          && queue == old(queue) && writes == old(writes)
          && settled == old(settled) + [Settlement(mid, Rejected(EncodingFailed(e)))]
          && dropped == old(dropped) + {mid}
        case Success(frame) =>
          if !Admits(maxPayload, |frame|) then
            && queue == old(queue) && writes == old(writes)
            && settled == old(settled) + [Settlement(mid, Rejected(PayloadTooLarge))]
            && dropped == old(dropped) + {mid}
          else if old(queue) == [] then
            && settled == old(settled) && dropped == old(dropped)
            && queue == [Entry(mid, frame, true)] && writes == old(writes) + [Write(mid, frame)]
          else
            && settled == old(settled) && dropped == old(dropped)
            && queue == old(queue) + [Entry(mid, frame, false)] && writes == old(writes)
    {
      mid := messageID;
      var encoded := Encode(title, data);
      if encoded.Failure? {
        Reject(Rejected(EncodingFailed(encoded.error)));
      } else if maxPayload != 0 && |encoded.value| > maxPayload {
        Reject(Rejected(PayloadTooLarge));
      } else {
        Enqueue(encoded.value);
      }
    }

    /** A send that fails before queueing: its id is consumed and its handle rejects at once. */
    method Reject(o: Outcome)
      requires Valid()
      modifies this
      ensures Valid()
      ensures messageID == old(messageID) + 1
      ensures settled == old(settled) + [Settlement(old(messageID), o)] && dropped == old(dropped) + {old(messageID)}
      ensures queue == old(queue) && writes == old(writes) && pendingAdvances == old(pendingAdvances)
      ensures closeHandled == old(closeHandled) && events == old(events)
    {
      RejectPreserves(queue, settled, writes, messageID, maxPayload, o);
      RejectKeepsUnwritten(queue, writes, messageID, maxPayload, dropped);
      settled := settled + [Settlement(messageID, o)];
      dropped := dropped + {messageID};
      messageID := messageID + 1;
    }

    /** Inserts an admitted frame at the tail with the next id; it is dispatched at once only into an empty queue. */
    method Enqueue(frame: Bytes)
      requires Valid() && Admits(maxPayload, |frame|)
      modifies this
      ensures Valid()
      ensures messageID == old(messageID) + 1
      ensures if old(queue) == [] then
                queue == [Entry(old(messageID), frame, true)] && writes == old(writes) + [Write(old(messageID), frame)]
              else
                queue == old(queue) + [Entry(old(messageID), frame, false)] && writes == old(writes)
      ensures settled == old(settled) && dropped == old(dropped) && pendingAdvances == old(pendingAdvances)
      ensures closeHandled == old(closeHandled) && events == old(events)
    {
      if queue == [] {
        FirstPreserves(settled, writes, messageID, maxPayload, frame);
        FirstKeepsUnwritten(writes, messageID, dropped, frame);
        queue := [Entry(messageID, frame, true)];
        writes := writes + [Write(messageID, frame)];
      } else {
        AppendPreserves(queue, settled, writes, messageID, maxPayload, frame);
        AppendKeepsUnwritten(queue, writes, messageID, dropped, frame);
        queue := queue + [Entry(messageID, frame, false)];
      }
      messageID := messageID + 1;
    }

    /**
     * Cancels a message: only an entry still queued and not yet dispatched is
     * affected; its handle rejects with `err` and it is deleted. The queue is
     * not advanced.
     */
    method Cancel(mid: nat, err: SendError)
      requires Valid()
      modifies this
      ensures Valid()
      ensures messageID == old(messageID) && writes == old(writes) && pendingAdvances == old(pendingAdvances)
      ensures closeHandled == old(closeHandled) && events == old(events)
      ensures (queue, settled) == CancelEffect(old(queue), old(settled), mid, err)
      ensures dropped == if Cancels(old(queue), mid) then old(dropped) + {mid} else old(dropped)
    {
      var f := Find(queue, mid);
      if f.Some? {
        Fire(f.value, Some(err));
      }
    }

    /**
     * Completion of the write of the dispatched head: the entry is deleted and
     * its handle resolves (or rejects when the write failed). Dispatching the
     * next head is left to a later `Advance` step.
     */
    method CompleteWrite(ok: bool)
      requires Valid() && queue != [] && queue[0].dispatched
      modifies this
      ensures Valid()
      ensures queue == old(queue[1..])
      ensures settled == old(settled) + [Settlement(old(queue[0].id), if ok then Resolved else Rejected(WriteFailed))]
      ensures pendingAdvances == old(pendingAdvances) + 1
      ensures messageID == old(messageID) && writes == old(writes) && dropped == old(dropped)
      ensures closeHandled == old(closeHandled) && events == old(events)
    {
      var outcome := if ok then Resolved else Rejected(WriteFailed);
      CompletePreserves(queue, settled, writes, messageID, maxPayload, dropped, outcome);

      settled := settled + [Settlement(queue[0].id, outcome)];
      queue := queue[1..];
      pendingAdvances := pendingAdvances + 1;
    }

    /** The step after a completion: triggers the head's `send`, which is a no-op when it already ran. */
    method Advance()
      requires Valid() && pendingAdvances > 0
      modifies this
      ensures Valid()
      ensures pendingAdvances == old(pendingAdvances) - 1
      ensures if old(queue) != [] && !old(queue[0].dispatched) then
                && queue == old(queue)[0 := old(queue[0]).(dispatched := true)]
                && writes == old(writes) + [Write(old(queue[0].id), old(queue[0].frame))]
              else
                queue == old(queue) && writes == old(writes)
      ensures settled == old(settled) && messageID == old(messageID) && dropped == old(dropped)
      ensures closeHandled == old(closeHandled) && events == old(events)
    {
      pendingAdvances := pendingAdvances - 1;
      if queue != [] {
        Fire(0, None);
      }
    }

    /**
     * The close handler (registered once): cancels every remaining id, last
     * inserted first, with ConnectionInterrupted. A dispatched head is immune
     * and stays to finish normally.
     */
    method Close()
      requires Valid()
      modifies this
      ensures Valid()
      ensures closeHandled
      ensures if old(closeHandled) then queue == old(queue) && settled == old(settled) && dropped == old(dropped)
              else
                && queue == Kept(old(queue)) && settled == old(settled) + Interrupted(old(queue))
                && dropped == old(dropped) + UndispatchedIds(old(queue))
      ensures messageID == old(messageID) && writes == old(writes) && pendingAdvances == old(pendingAdvances)
      ensures events == old(events)
    {
      if closeHandled {
        return;
      }
      closeHandled := true;
      InterruptAll();
    }

    /** The handler's loop: cancels the snapshot of the keys from last to first with ConnectionInterrupted. */
    method InterruptAll()
      requires Valid()
      modifies this
      ensures Valid()
      ensures queue == Kept(old(queue)) && settled == old(settled) + Interrupted(old(queue))
      ensures dropped == old(dropped) + UndispatchedIds(old(queue))
      ensures messageID == old(messageID) && writes == old(writes) && pendingAdvances == old(pendingAdvances)
      ensures closeHandled == old(closeHandled) && events == old(events)
    {
      var q0 := queue;  // the snapshot of the keys taken before cancelling
      ghost var s0, d0 := settled, dropped;
      var i := |q0|;
      assert q0[i..] == [] && (i > 0 ==> q0[..i] == q0);
      while i > 0
        invariant 0 <= i <= |q0|
        invariant Valid() && IdsIncreasing(q0) && OnlyHeadDispatched(q0)
        invariant queue == (if i > 0 then q0[..i] else Kept(q0))
        invariant settled == s0 + Interrupted(q0[i..]) && dropped == d0 + UndispatchedIds(q0[i..])
        invariant messageID == old(messageID) && writes == old(writes) && pendingAdvances == old(pendingAdvances)
        invariant closeHandled == old(closeHandled) && events == old(events)
      {
        i := i - 1;
        InterruptEntry(q0, s0, d0, i);
      }
      assert q0[0..] == q0;
    }

    /** One iteration of the handler's loop: cancels `q0[i]`, the last key still to be visited. */
    method InterruptEntry(q0: seq<Entry>, ghost s0: seq<Settlement>, ghost d0: set<nat>, i: nat)
      requires Valid() && IdsIncreasing(q0) && OnlyHeadDispatched(q0) && i < |q0|
      requires queue == q0[..i + 1]
      requires settled == s0 + Interrupted(q0[i + 1..]) && dropped == d0 + UndispatchedIds(q0[i + 1..])
      modifies this
      ensures Valid()
      ensures queue == (if i > 0 then q0[..i] else Kept(q0))
      ensures settled == s0 + Interrupted(q0[i..]) && dropped == d0 + UndispatchedIds(q0[i..])
      ensures messageID == old(messageID) && writes == old(writes) && pendingAdvances == old(pendingAdvances)
      ensures closeHandled == old(closeHandled) && events == old(events)
    {
      InterruptStep(q0, s0, d0, i);
      Cancel(q0[i].id, ConnectionInterrupted);
    }

    /** A received buffer: emits `message` with its title and payload, or `error` when it cannot be decoded. */
    method ReceiveData(data: Bytes)
      requires Valid()
      modifies this
      ensures Valid()
      ensures events == old(events) + [ReceiveEvent(data)]
      ensures queue == old(queue) && settled == old(settled) && writes == old(writes)
      ensures messageID == old(messageID) && pendingAdvances == old(pendingAdvances) && closeHandled == old(closeHandled)
      ensures dropped == old(dropped)
    {
      events := events + [ReceiveEvent(data)];
    }
  }
}
