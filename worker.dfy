/**
  The ring worker: the single owner of the ring and of the correlation
  registry, which takes signals off the channel one at a time and, for each
  submitted entry, allocates and stamps a user-data id, registers the reply
  token, pushes the entry (reaping and notifying the backend while the
  submission queue is full), and reaps completions into the registry.

  The ring is an abstract collaborator: a bounded submission queue, a
  backend that `submit` hands queued entries to, and a scripted source of
  completion batches. The worker records what it does in a ghost trace of
  events, and the ring logs every call made on it; the worker's invariant
  keeps the trace's ring events equal to the ring's own log, so the ordering
  properties, stated about the trace, are about the calls the ring saw.
*/
module Worker {
  import opened Registry

  /** A submission queue entry: its user-data field and an opaque operation. */
  datatype Submission = Submission(userData: UserData, op: int)

  /** A message on the worker's channel. */
  datatype Signal = Entry(entry: Submission, tx: ReplyToken) | Reap

  /** The result of `push`: success, or the entry handed back because the queue is full. */
  datatype PushResult = Pushed | Full(rejected: Submission)

  /** The effects of the worker, in the order it produces them. */
  datatype Event =
    | Registered(id: UserData, tx: ReplyToken)   // registry.insert(id, tx)
    | Attempt(entry: Submission, accepted: bool) // ring.submission().push(entry)
    | Notify                                     // ring.submit()
    | Drain(batch: seq<Completion>)              // registry.batch_complete(ring.completion())

  function IsNotify(ev: Event): bool { ev.Notify? }
  function IsDrain(ev: Event): bool { ev.Drain? }
  function IsFailedPush(ev: Event): bool { ev.Attempt? && !ev.accepted }
  function IsPush(ev: Event): bool { ev.Attempt? }

  /** What one event adds to Accepted. */
  function AcceptedBy(ev: Event): seq<Submission>
  {
    if ev.Attempt? && ev.accepted then [ev.entry] else []
  }

  function Indicator(b: bool): nat { if b then 1 else 0 }

  /** The number of events of `t` that satisfy `p`. */
  function Count(t: seq<Event>, p: Event -> bool): nat
    decreases |t|
  {
    if t == [] then 0 else Count(t[..|t| - 1], p) + Indicator(p(t[|t| - 1]))
  }

  lemma {:induction false} CountAppend(a: seq<Event>, b: seq<Event>, p: Event -> bool)
    ensures Count(a + b, p) == Count(a, p) + Count(b, p)
    decreases |b|
  {
    if b == [] {
      assert a + b == a;
    } else {
      var b', x := b[..|b| - 1], b[|b| - 1];
      CountAppend(a, b', p);
      assert b == b' + [x];
      AppendAssoc(a, b', [x]);
      CountSnoc(a + b', x, p);
      CountSnoc(b', x, p);
    }
  }

  /** The entries whose push succeeded during `t`, in order. */
  function Accepted(t: seq<Event>): seq<Submission>
    decreases |t|
  {
    if t == [] then []
    else
      Accepted(t[..|t| - 1]) + AcceptedBy(t[|t| - 1])
  }

  lemma {:induction false} AcceptedAppend(a: seq<Event>, b: seq<Event>)
    ensures Accepted(a + b) == Accepted(a) + Accepted(b)
    decreases |b|
  {
    if b == [] {
      assert a + b == a;
    } else {
      var b', x := b[..|b| - 1], b[|b| - 1];
      AcceptedAppend(a, b');
      assert b == b' + [x];
      AppendAssoc(a, b', [x]);
      AcceptedSnoc(a + b', x);
      AcceptedSnoc(b', x);
      AppendAssoc(Accepted(a), Accepted(b'), AcceptedBy(x));
    }
  }

  /**
    The registry that results from `senders` by applying the events of `t`
    in order: a registration inserts, a drain completes the batch; pushes and
    notifications leave the registry alone. The second component is the
    sends made on the way.
  */
  function Replay(senders: map<UserData, ReplyToken>, t: seq<Event>): (map<UserData, ReplyToken>, seq<Delivery>)
    decreases |t|
  {
    if t == [] then (senders, [])
    else
      var prev := Replay(senders, t[..|t| - 1]);
      match t[|t| - 1]
      case Registered(id, tx) => (prev.0[id := tx], prev.1)
      case Drain(batch) =>
        var done := CompleteAll(prev.0, batch);
        (done.0, prev.1 + done.1)
      case _ => prev
  }

  lemma ReplayRegistered(t: seq<Event>, id: UserData, tx: ReplyToken)
    ensures Replay(map[], t + [Registered(id, tx)]) == (Replay(map[], t).0[id := tx], Replay(map[], t).1)
  {
    assert (t + [Registered(id, tx)])[..|t|] == t;
  }

  lemma ReplayDrain(t: seq<Event>, batch: seq<Completion>)
    ensures var prev := Replay(map[], t);
      Replay(map[], t + [Drain(batch)]) == (CompleteAll(prev.0, batch).0, prev.1 + CompleteAll(prev.0, batch).1)
  {
    assert (t + [Drain(batch)])[..|t|] == t;
  }

  lemma ReplayPush(t: seq<Event>, ev: Event)
    requires ev.Attempt? || ev.Notify?
    ensures Replay(map[], t + [ev]) == Replay(map[], t)
  {
    assert (t + [ev])[..|t|] == t;
  }

  lemma AcceptedSnoc(t: seq<Event>, ev: Event)
    ensures Accepted(t + [ev]) == Accepted(t) + AcceptedBy(ev)
  {
    assert (t + [ev])[..|t|] == t;
  }

  lemma CountSnoc(t: seq<Event>, ev: Event, q: Event -> bool)
    ensures Count(t + [ev], q) == Count(t, q) + Indicator(q(ev))
  {
    assert (t + [ev])[..|t|] == t;
  }

  /** The events of `t` that are calls on the ring: all but the registrations. */
  function RingEvents(t: seq<Event>): seq<Event>
    decreases |t|
  {
    if t == [] then []
    else RingEvents(t[..|t| - 1]) + (if t[|t| - 1].Registered? then [] else [t[|t| - 1]])
  }

  lemma RingEventsSnoc(base: seq<Event>, t: seq<Event>, ev: Event)
    ensures base + RingEvents(t + [ev]) == base + RingEvents(t) + (if ev.Registered? then [] else [ev])
  {
    assert (t + [ev])[..|t|] == t;
    AppendAssoc(base, RingEvents(t), if ev.Registered? then [] else [ev]);
  }

  lemma {:induction false} RingEventsAppend(a: seq<Event>, b: seq<Event>)
    ensures RingEvents(a + b) == RingEvents(a) + RingEvents(b)
    decreases |b|
  {
    if b == [] {
      assert a + b == a;
    } else {
      var b', x := b[..|b| - 1], b[|b| - 1];
      RingEventsAppend(a, b');
      assert b == b' + [x];
      AppendAssoc(a, b', [x]);
      RingEventsSnoc([], a + b', x);
      RingEventsSnoc([], b', x);
      AppendAssoc(RingEvents(a), RingEvents(b'), if x.Registered? then [] else [x]);
    }
  }

  /**
    What the worker loop has established after handling `segs`, one
    segment per signal taken so far: the trace, the ring's pending entries,
    its remaining completion script and the registry's counter, each
    extended by exactly those segments; every `Entry` signal got the first
    free id counting up from the counter at its turn.
  */
  ghost predicate RunSoFar(signals: seq<Signal>, segs: seq<seq<Event>>,
                           t0: seq<Event>, p0: seq<Submission>, b0: seq<seq<Completion>>, c0: UserData,
                           t: seq<Event>, p: seq<Submission>, b: seq<seq<Completion>>, c: UserData)
  {
    && |segs| <= |signals|
    && t == t0 + Flatten(segs)
    && (forall k :: 0 <= k < |segs| ==> SignalShape(signals[k], segs[k]))
    && p == p0 + Stamped(signals, segs)
    && FreshIds(t0, segs)
    && FromScript(b0, DrainedBatches(Flatten(segs)), b)
    && c == CounterAfter(c0, Flatten(segs))
    && FirstFreeIds(signals, t0, c0, segs)
  }

  /** One more handled signal keeps the loop's bookkeeping. */
  lemma RunSnoc(signals: seq<Signal>, segs: seq<seq<Event>>, seg: seq<Event>,
                t0: seq<Event>, p0: seq<Submission>, b0: seq<seq<Completion>>, c0: UserData,
                t: seq<Event>, p: seq<Submission>, b: seq<seq<Completion>>, c: UserData,
                p': seq<Submission>, b': seq<seq<Completion>>, c': UserData)
    requires RunSoFar(signals, segs, t0, p0, b0, c0, t, p, b, c) && |segs| < |signals|
    requires SignalShape(signals[|segs|], seg)
    requires signals[|segs|].Entry? ==> FirstFree(Replay(map[], t).0, c, seg[0].id) && c' == Wrap(seg[0].id)
    requires signals[|segs|].Reap? ==> c' == c
    requires p' == p + StampedBy(signals[|segs|], seg)
    requires FromScript(b, DrainedBatches(seg), b')
    ensures RunSoFar(signals, segs + [seg], t0, p0, b0, c0, t + seg, p', b', c')
  {
    ScriptSnoc(b0, segs, seg, b, b');
    FreshStep(t, signals[|segs|], seg);
    FreshIdsSnoc(t0, segs, seg);
    CounterSnoc(signals, t0, c0, segs, seg, c, c');
    TraceSnoc(segs, seg, t0);
    PendingSnoc(signals, segs, seg, p0);
    ShapesSnoc(signals, segs, seg);
  }

  /** The counter part of the loop's bookkeeping, one handled signal longer. */
  lemma CounterSnoc(signals: seq<Signal>, t0: seq<Event>, c0: UserData, segs: seq<seq<Event>>, seg: seq<Event>,
                    c: UserData, c': UserData)
    requires |segs| < |signals| && SignalShape(signals[|segs|], seg)
    requires c == CounterAfter(c0, Flatten(segs)) && FirstFreeIds(signals, t0, c0, segs)
    requires signals[|segs|].Entry? ==> FirstFree(Replay(map[], t0 + Flatten(segs)).0, c, seg[0].id) && c' == Wrap(seg[0].id)
    requires signals[|segs|].Reap? ==> c' == c
    ensures c' == CounterAfter(c0, Flatten(segs + [seg])) && FirstFreeIds(signals, t0, c0, segs + [seg])
  {
    FirstFreeIdsSnoc(signals, t0, c0, segs, seg);
    CounterStep(c0, Flatten(segs), signals[|segs|], seg);
    FlattenSnoc(segs, seg);
  }

  /** The ring calls of a trace extended by `seg`, on top of the calls made before. */
  lemma CallsAppend(base: seq<Event>, t: seq<Event>, seg: seq<Event>)
    ensures base + RingEvents(t + seg) == base + RingEvents(t) + RingEvents(seg)
  {
    RingEventsAppend(t, seg);
    AppendAssoc(base, RingEvents(t), RingEvents(seg));
  }

  datatype Option<T> = None | Some(value: T)

  /** The reply token of the latest registration of `k` in `t`, if any. */
  function LastRegistration(t: seq<Event>, k: UserData): Option<ReplyToken>
    decreases |t|
  {
    if t == [] then None
    else if t[|t| - 1].Registered? && t[|t| - 1].id == k then Some(t[|t| - 1].tx)
    else LastRegistration(t[..|t| - 1], k)
  }

  /**
    `d` answers a completion of a drain of `t`, and goes to the token of the
    latest registration of its id before that drain.
  */
  ghost predicate DeliveredAt(t: seq<Event>, d: Delivery)
  {
    exists j :: 0 <= j < |t| && t[j].Drain? && d.completion in t[j].batch
      && LastRegistration(t[..j], d.completion.userData) == Some(d.token)
  }

  lemma DeliveredAtSnoc(p: seq<Event>, ev: Event, d: Delivery)
    requires DeliveredAt(p, d)
    ensures DeliveredAt(p + [ev], d)
  {
    var j :| 0 <= j < |p| && p[j].Drain? && d.completion in p[j].batch
      && LastRegistration(p[..j], d.completion.userData) == Some(d.token);
    assert (p + [ev])[j] == p[j] && (p + [ev])[..j] == p[..j];
  }

  /**
    Correlation: every id the registry holds maps to the reply token of its
    latest registration, and every reply sent along the way answered a
    reaped completion and went to the token of the latest registration of
    that completion's id before the reap.
  */
  lemma {:induction false} ReplayCorrelates(t: seq<Event>)
    ensures var r := Replay(map[], t);
      forall k :: k in r.0 ==> LastRegistration(t, k) == Some(r.0[k])
    ensures var r := Replay(map[], t);
      forall d :: d in r.1 ==> DeliveredAt(t, d)
    decreases |t|
  {
    if t != [] {
      var p, ev := t[..|t| - 1], t[|t| - 1];
      assert t == p + [ev];
      ReplayCorrelates(p);
      var prev := Replay(map[], p);
      forall d | d in prev.1
        ensures DeliveredAt(t, d)
      {
        DeliveredAtSnoc(p, ev, d);
      }
      match ev
      case Registered(id, tx) =>
        ReplayRegistered(p, id, tx);
      case Drain(batch) =>
        ReplayDrain(p, batch);
        var done := CompleteAll(prev.0, batch);
        CompleteAllDeliversOnce(prev.0, batch);
        forall d | d in done.1
          ensures DeliveredAt(t, d)
        {
          assert t[|p|] == ev && t[..|p|] == p;
        }
      case Attempt(_, _) =>
        ReplayPush(p, ev);
      case Notify =>
        ReplayPush(p, ev);
    }
  }

  /** How many times `t` registers `k`. */
  function Registrations(t: seq<Event>, k: UserData): nat
    decreases |t|
  {
    if t == [] then 0
    else Registrations(t[..|t| - 1], k) + Indicator(t[|t| - 1].Registered? && t[|t| - 1].id == k)
  }

  /**
    Each registration is answered at most once: the replies sent for `k`,
    plus one if `k` is still outstanding, never exceed the registrations of `k`.
  */
  lemma {:induction false} ReplayDeliversOnce(t: seq<Event>, k: UserData)
    ensures var r := Replay(map[], t);
      |DeliveriesFor(r.1, k)| + (if k in r.0 then 1 else 0) <= Registrations(t, k)
    decreases |t|
  {
    if t != [] {
      var p, ev := t[..|t| - 1], t[|t| - 1];
      assert t == p + [ev];
      ReplayDeliversOnce(p, k);
      var prev := Replay(map[], p);
      match ev
      case Registered(id, tx) =>
        ReplayRegistered(p, id, tx);
      case Drain(batch) =>
        ReplayDrain(p, batch);
        DeliveriesForAppend(prev.1, CompleteAll(prev.0, batch).1, k);
        BatchDeliversOnce(prev.0, batch, k);
      case Attempt(_, _) =>
        ReplayPush(p, ev);
      case Notify =>
        ReplayPush(p, ev);
    }
  }

  /** No drain after position `i` of `t` carries `k`. */
  ghost predicate LiveFrom(t: seq<Event>, i: nat, k: UserData)
  {
    forall j :: i < j < |t| && t[j].Drain? ==> k !in Ids(t[j].batch)
  }

  /** `k` was registered during `t` and no drain since then carried it. */
  ghost predicate Outstanding(t: seq<Event>, k: UserData)
  {
    exists i :: 0 <= i < |t| && t[i].Registered? && t[i].id == k && LiveFrom(t, i, k)
  }

  /** What one more event does to the outstanding ids. */
  lemma OutstandingSnoc(p: seq<Event>, ev: Event, k: UserData)
    ensures Outstanding(p + [ev], k) <==>
      if ev.Registered? && ev.id == k then true
      else if ev.Drain? then Outstanding(p, k) && k !in Ids(ev.batch)
      else Outstanding(p, k)
  {
    var t := p + [ev];
    if Outstanding(t, k) {
      var i :| 0 <= i < |t| && t[i].Registered? && t[i].id == k && LiveFrom(t, i, k);
      if i < |p| {
        assert t[i] == p[i];
        forall j | i < j < |p| && p[j].Drain?
          ensures k !in Ids(p[j].batch)
        {
          assert t[j] == p[j];
        }
        assert LiveFrom(p, i, k);
        if ev.Drain? {
          assert t[|p|] == ev;
        }
      }
    }
    if ev.Registered? && ev.id == k {
      assert t[|p|] == ev && LiveFrom(t, |p|, k);
    } else if Outstanding(p, k) && (ev.Drain? ==> k !in Ids(ev.batch)) {
      var i :| 0 <= i < |p| && p[i].Registered? && p[i].id == k && LiveFrom(p, i, k);
      assert t[i] == p[i];
      forall j | i < j < |t| && t[j].Drain?
        ensures k !in Ids(t[j].batch)
      {
        if j < |p| {
          assert t[j] == p[j];
        }
      }
    }
  }

  /**
    The registry's keys are exactly the outstanding ids: those registered
    and not yet carried by a reaped completion.
  */
  lemma {:induction false} ReplayKeys(t: seq<Event>, k: UserData)
    ensures k in Replay(map[], t).0 <==> Outstanding(t, k)
    decreases |t|
  {
    if t != [] {
      var p, ev := t[..|t| - 1], t[|t| - 1];
      assert t == p + [ev];
      ReplayKeys(p, k);
      OutstandingSnoc(p, ev, k);
      match ev
      case Registered(id, tx) =>
        ReplayRegistered(p, id, tx);
      case Drain(batch) =>
        ReplayDrain(p, batch);
        CompleteAllKeys(Replay(map[], p).0, batch);
      case Attempt(_, _) =>
        ReplayPush(p, ev);
      case Notify =>
        ReplayPush(p, ev);
    }
  }

  /**
    Failed pushes of `e`, each followed by a reap and then a notification:
    the events of the retry loop.
  */
  ghost predicate Retries(t: seq<Event>, e: Submission)
    decreases |t|
  {
    t == [] ||
    (|t| >= 3 && Retries(t[..|t| - 3], e)
     && t[|t| - 3] == Attempt(e, false) && t[|t| - 2].Drain? && t[|t| - 1] == Notify)
  }

  /**
    The push part of handling an entry: retries, then the push of `e` that
    succeeds, one notification and one reap.
  */
  ghost predicate EntryShape(t: seq<Event>, e: Submission)
  {
    |t| >= 3 && Retries(t[..|t| - 3], e)
    && t[|t| - 3] == Attempt(e, true) && t[|t| - 2] == Notify && t[|t| - 1].Drain?
  }

  /**
    The events of handling one signal: an entry is stamped with a fresh id,
    registered under it before any push, then pushed as EntryShape says; a
    reap request only drains.
  */
  ghost predicate SignalShape(sig: Signal, seg: seq<Event>)
  {
    match sig
    case Entry(e, tx) =>
      |seg| >= 1 && seg[0].Registered? && seg[0].tx == tx
      && EntryShape(seg[1..], e.(userData := seg[0].id))
    case Reap => |seg| == 1 && seg[0].Drain?
  }

  lemma AppendPair<T>(s: seq<T>, a: T, b: T)
    ensures s + [a] + [b] == s + [a, b]
  {
  }

  lemma AppendAfterPair<T>(s: seq<T>, a: T, b: T, c: T)
    ensures s + [a, b] + [c] == s + [a, b, c]
  {
  }

  lemma EntryShapeIntro(pushed: seq<Event>, e: Submission, batch: seq<Completion>)
    requires |pushed| >= 1 && Retries(pushed[..|pushed| - 1], e) && pushed[|pushed| - 1] == Attempt(e, true)
    ensures EntryShape(pushed + [Notify, Drain(batch)], e)
  {
    var t := pushed + [Notify, Drain(batch)];
    assert t[..|t| - 3] == pushed[..|pushed| - 1];
  }

  lemma SignalShapeIntro(e: Submission, tx: ReplyToken, id: UserData, rest: seq<Event>)
    requires EntryShape(rest, e.(userData := id))
    ensures SignalShape(Entry(e, tx), [Registered(id, tx)] + rest)
  {
    assert ([Registered(id, tx)] + rest)[1..] == rest;
  }

  lemma RetriesSnoc(t: seq<Event>, e: Submission, batch: seq<Completion>)
    requires Retries(t, e)
    ensures Retries(t + [Attempt(e, false), Drain(batch), Notify], e)
  {
    var t' := t + [Attempt(e, false), Drain(batch), Notify];
    assert t'[..|t'| - 3] == t;
  }

  /** A refused push, a reap and a notification close one more round of the retry loop. */
  lemma RetryRound(t0: seq<Event>, retries: seq<Event>, e: Submission, batch: seq<Completion>, next: Event)
    requires Retries(retries, e)
    ensures t0 + retries + [Attempt(e, false)] + [Drain(batch), Notify, next]
      == t0 + (retries + [Attempt(e, false), Drain(batch), Notify]) + [next]
    ensures Retries(retries + [Attempt(e, false), Drain(batch), Notify], e)
  {
    RetriesSnoc(retries, e, batch);
    var round := [Attempt(e, false), Drain(batch), Notify];
    AppendAssoc(t0, retries, [Attempt(e, false)]);
    AppendAssoc(t0 + retries, [Attempt(e, false)], [Drain(batch), Notify, next]);
    assert [Attempt(e, false)] + [Drain(batch), Notify, next] == round + [next];
    AppendAssoc(t0 + retries, round, [next]);
    AppendAssoc(t0, retries, round);
  }

  /** The retry loop, before its first round. */
  lemma NoRetriesYet(t0: seq<Event>, ev: Event)
    ensures t0 + [ev] == t0 + [] + [ev]
  {
    assert t0 + [] == t0;
  }

  /** The retry loop's events followed by the push that succeeds. */
  lemma PushedLast(t0: seq<Event>, retries: seq<Event>, e: Submission)
    requires Retries(retries, e)
    ensures var seg := retries + [Attempt(e, true)];
      t0 + retries + [Attempt(e, true)] == t0 + seg
      && |seg| >= 1 && Retries(seg[..|seg| - 1], e) && seg[|seg| - 1] == Attempt(e, true)
  {
    AppendAssoc(t0, retries, [Attempt(e, true)]);
    assert (retries + [Attempt(e, true)])[..|retries|] == retries;
  }

  /** Accepted and Count over three more events. */
  lemma Snoc3(t: seq<Event>, a: Event, b: Event, c: Event)
    ensures Accepted(t + [a, b, c]) == Accepted(t) + AcceptedBy(a) + AcceptedBy(b) + AcceptedBy(c)
    ensures forall q: Event -> bool :: Count(t + [a, b, c], q) == Count(t, q) + Indicator(q(a)) + Indicator(q(b)) + Indicator(q(c))
  {
    var t1, t2 := t + [a], t + [a, b];
    assert t2 == t1 + [b] && t + [a, b, c] == t2 + [c];
    AcceptedSnoc(t, a);
    AcceptedSnoc(t1, b);
    AcceptedSnoc(t2, c);
    forall q: Event -> bool
      ensures Count(t + [a, b, c], q) == Count(t, q) + Indicator(q(a)) + Indicator(q(b)) + Indicator(q(c))
    {
      CountSnoc(t, a, q);
      CountSnoc(t1, b, q);
      CountSnoc(t2, c, q);
    }
  }

  /** The retry loop never has the ring accept anything. */
  lemma {:induction false} RetriesAccepted(t: seq<Event>, e: Submission)
    requires Retries(t, e)
    ensures Accepted(t) == []
    decreases |t|
  {
    if t != [] {
      var p := t[..|t| - 3];
      assert t == p + [t[|t| - 3], t[|t| - 2], t[|t| - 1]];
      RetriesAccepted(p, e);
      Snoc3(p, t[|t| - 3], t[|t| - 2], t[|t| - 1]);
    }
  }

  /** The retry loop makes one reap and one notification per failed push, and no other push. */
  lemma {:induction false} RetriesCounts(t: seq<Event>, e: Submission)
    requires Retries(t, e)
    ensures Count(t, IsNotify) == Count(t, IsFailedPush) == Count(t, IsDrain) == Count(t, IsPush)
    decreases |t|
  {
    if t != [] {
      var p := t[..|t| - 3];
      assert t == p + [t[|t| - 3], t[|t| - 2], t[|t| - 1]];
      RetriesCounts(p, e);
      Snoc3(p, t[|t| - 3], t[|t| - 2], t[|t| - 1]);
    }
  }

  /** The retry loop tries to push only `e`. */
  lemma {:induction false} RetriesEntries(t: seq<Event>, e: Submission)
    requires Retries(t, e)
    ensures forall i :: 0 <= i < |t| && t[i].Attempt? ==> t[i].entry == e
    decreases |t|
  {
    if t != [] {
      var p := t[..|t| - 3];
      RetriesEntries(p, e);
      forall i | 0 <= i < |t| && t[i].Attempt? ensures t[i].entry == e {
        if i < |p| {
          assert t[i] == p[i];
        }
      }
    }
  }

  /**
    Handling an entry pushes it exactly once, successfully, and never any
    other entry; there is one more notification than failed pushes, and one
    reap per notification.
  */
  lemma {:induction false} EntryShapeFacts(t: seq<Event>, e: Submission)
    requires EntryShape(t, e)
    ensures Accepted(t) == [e]
    ensures Count(t, IsNotify) == Count(t, IsFailedPush) + 1 == Count(t, IsDrain)
    ensures Count(t, IsPush) == Count(t, IsFailedPush) + 1
    ensures forall i :: 0 <= i < |t| && t[i].Attempt? ==> t[i].entry == e
  {
    var p := t[..|t| - 3];
    assert t == p + [t[|t| - 3], t[|t| - 2], t[|t| - 1]];
    RetriesAccepted(p, e);
    RetriesCounts(p, e);
    RetriesEntries(p, e);
    Snoc3(p, t[|t| - 3], t[|t| - 2], t[|t| - 1]);
    forall i | 0 <= i < |t| && t[i].Attempt? ensures t[i].entry == e {
      if i < |p| {
        assert t[i] == p[i];
      }
    }
  }

  /** The segments of a trace, joined in order. */
  function Flatten(segs: seq<seq<Event>>): seq<Event>
    decreases |segs|
  {
    if segs == [] then [] else Flatten(segs[..|segs| - 1]) + segs[|segs| - 1]
  }

  lemma FlattenSnoc(segs: seq<seq<Event>>, seg: seq<Event>)
    ensures Flatten(segs + [seg]) == Flatten(segs) + seg
  {
    assert (segs + [seg])[..|segs|] == segs;
  }

  /** The entry a signal's handling puts on the ring, stamped with the id its segment registered. */
  function StampedBy(sig: Signal, seg: seq<Event>): seq<Submission>
  {
    if sig.Entry? && |seg| > 0 && seg[0].Registered? then [sig.entry.(userData := seg[0].id)] else []
  }

  /**
    The entries that handling the first |segs| signals puts on the ring, in
    order; `segs[k]` is the segment of `signals[k]`.
  */
  function Stamped(signals: seq<Signal>, segs: seq<seq<Event>>): seq<Submission>
    requires |segs| <= |signals|
    decreases |segs|
  {
    if segs == [] then []
    else Stamped(signals, segs[..|segs| - 1]) + StampedBy(signals[|segs| - 1], segs[|segs| - 1])
  }

  lemma StampedSnoc(signals: seq<Signal>, segs: seq<seq<Event>>, seg: seq<Event>)
    requires |segs| < |signals|
    ensures Stamped(signals, segs + [seg]) == Stamped(signals, segs) + StampedBy(signals[|segs|], seg)
  {
    assert (segs + [seg])[..|segs|] == segs;
  }

  /**
    What a signal's segment records as accepted by the ring is the entry the
    signal carried, stamped with its id, and nothing for a reap request.
  */
  lemma SignalAccepted(sig: Signal, seg: seq<Event>)
    requires SignalShape(sig, seg)
    ensures Accepted(seg) == StampedBy(sig, seg)
    ensures Count(seg, IsPush) == Count(seg, IsFailedPush) + |StampedBy(sig, seg)|
    ensures Count(seg, IsNotify) == Count(seg, IsPush)
    ensures Count(seg, IsDrain) == Count(seg, IsNotify) + (if sig.Reap? then 1 else 0)
  {
    var head := seg[..1];
    var rest := seg[1..];
    assert seg == head + rest;
    assert head == [] + [seg[0]];
    AcceptedSnoc([], seg[0]);
    CountSnoc([], seg[0], IsPush);
    CountSnoc([], seg[0], IsFailedPush);
    CountSnoc([], seg[0], IsNotify);
    CountSnoc([], seg[0], IsDrain);
    AcceptedAppend(head, rest);
    CountAppend(head, rest, IsPush);
    CountAppend(head, rest, IsFailedPush);
    CountAppend(head, rest, IsNotify);
    CountAppend(head, rest, IsDrain);
    if sig.Entry? {
      EntryShapeFacts(rest, sig.entry.(userData := seg[0].id));
    }
  }

  /**
    Over a whole run, the ring accepts exactly the stamped entries of the
    `Entry` signals, one each, in channel order; the pushes that fail are
    matched one for one by reaps and notifications.
  */
  lemma {:induction false} RunAccepted(signals: seq<Signal>, segs: seq<seq<Event>>)
    requires |segs| <= |signals|
    requires forall k :: 0 <= k < |segs| ==> SignalShape(signals[k], segs[k])
    ensures Accepted(Flatten(segs)) == Stamped(signals, segs)
    ensures Count(Flatten(segs), IsPush) == Count(Flatten(segs), IsFailedPush) + |Stamped(signals, segs)|
    ensures Count(Flatten(segs), IsNotify) == Count(Flatten(segs), IsPush)
    decreases |segs|
  {
    if segs != [] {
      var n := |segs| - 1;
      var pre, last := segs[..n], segs[n];
      assert segs == pre + [last];
      RunAccepted(signals, pre);
      FlattenSnoc(pre, last);
      AcceptedAppend(Flatten(pre), last);
      CountAppend(Flatten(pre), last, IsPush);
      CountAppend(Flatten(pre), last, IsFailedPush);
      CountAppend(Flatten(pre), last, IsNotify);
      SignalAccepted(signals[n], last);
    }
  }

  /** The shapes of the handled signals, one segment longer. */
  lemma ShapesSnoc(signals: seq<Signal>, segs: seq<seq<Event>>, seg: seq<Event>)
    requires |segs| < |signals|
    requires forall k :: 0 <= k < |segs| ==> SignalShape(signals[k], segs[k])
    requires SignalShape(signals[|segs|], seg)
    ensures forall k :: 0 <= k < |segs| + 1 ==> SignalShape(signals[k], (segs + [seg])[k])
  {
    forall k | 0 <= k < |segs| + 1
      ensures SignalShape(signals[k], (segs + [seg])[k])
    {
      if k < |segs| {
        assert (segs + [seg])[k] == segs[k];
      }
    }
  }

  /** The trace, one handled signal longer. */
  lemma TraceSnoc(segs: seq<seq<Event>>, seg: seq<Event>, t0: seq<Event>)
    ensures t0 + Flatten(segs) + seg == t0 + Flatten(segs + [seg])
  {
    FlattenSnoc(segs, seg);
    AppendAssoc(t0, Flatten(segs), seg);
  }

  /** The entries pushed onto the ring, one handled signal longer. */
  lemma PendingSnoc(signals: seq<Signal>, segs: seq<seq<Event>>, seg: seq<Event>, p0: seq<Submission>)
    requires |segs| < |signals|
    ensures p0 + Stamped(signals, segs) + StampedBy(signals[|segs|], seg) == p0 + Stamped(signals, segs + [seg])
  {
    StampedSnoc(signals, segs, seg);
    AppendAssoc(p0, Stamped(signals, segs), StampedBy(signals[|segs|], seg));
  }

  /**
    Every segment that starts by registering an id registers one that is
    not outstanding at that point of the trace that begins with `t0`.
  */
  ghost predicate FreshIds(t0: seq<Event>, segs: seq<seq<Event>>)
  {
    forall i :: 0 <= i < |segs| && |segs[i]| > 0 && segs[i][0].Registered? ==>
      !Outstanding(t0 + Flatten(segs[..i]), segs[i][0].id)
  }

  /**
    The registry's counter after the events `t`, starting from `c0`: just
    past the id of the latest registration, since `next_uuid` leaves it
    there and nothing else moves it.
  */
  ghost function CounterAfter(c0: UserData, t: seq<Event>): UserData
    decreases |t|
  {
    if t == [] then c0
    else if t[|t| - 1].Registered? then Wrap(t[|t| - 1].id)
    else CounterAfter(c0, t[..|t| - 1])
  }

  /** Events that register nothing leave the counter where it was. */
  lemma {:induction false} CounterSkip(c0: UserData, t: seq<Event>, u: seq<Event>)
    requires forall k :: 0 <= k < |u| ==> !u[k].Registered?
    ensures CounterAfter(c0, t + u) == CounterAfter(c0, t)
    decreases |u|
  {
    if u != [] {
      var n := |u| - 1;
      assert (t + u)[..|t + u| - 1] == t + u[..n];
      assert (t + u)[|t + u| - 1] == u[n] && !u[n].Registered?;
      CounterSkip(c0, t, u[..n]);
      assert CounterAfter(c0, t + u) == CounterAfter(c0, t + u[..n]);
    } else {
      assert t + u == t;
    }
  }

  /** The retry loop registers nothing. */
  lemma {:induction false} RetriesUnregistered(t: seq<Event>, e: Submission)
    requires Retries(t, e)
    ensures forall k :: 0 <= k < |t| ==> !t[k].Registered?
    decreases |t|
  {
    if t != [] {
      var n := |t| - 3;
      RetriesUnregistered(t[..n], e);
      forall k | 0 <= k < |t|
        ensures !t[k].Registered?
      {
        if k < n {
          assert t[k] == t[..n][k];
        }
      }
    }
  }

  /**
    One handled signal moves the counter just past the id an `Entry`
    registers, and leaves it alone for `Reap`.
  */
  lemma CounterStep(c0: UserData, t: seq<Event>, sig: Signal, seg: seq<Event>)
    requires SignalShape(sig, seg)
    ensures CounterAfter(c0, t + seg) == if sig.Entry? then Wrap(seg[0].id) else CounterAfter(c0, t)
  {
    if sig.Entry? {
      var rest := seg[1..];
      var e := sig.entry.(userData := seg[0].id);
      RetriesUnregistered(rest[..|rest| - 3], e);
      forall k | 0 <= k < |rest|
        ensures !rest[k].Registered?
      {
        if k < |rest| - 3 {
          assert rest[k] == rest[..|rest| - 3][k];
        }
      }
      assert t + seg == (t + [seg[0]]) + rest;
      CounterSkip(c0, t + [seg[0]], rest);
      assert (t + [seg[0]])[..|t|] == t;
    } else {
      assert (t + seg)[..|t|] == t;
    }
  }

  /**
    Every `Entry` signal handled so far got the first free id counting up
    from the counter at its turn, against the registry at its turn.
  */
  ghost predicate FirstFreeIds(signals: seq<Signal>, t0: seq<Event>, c0: UserData, segs: seq<seq<Event>>)
  {
    forall i :: 0 <= i < |segs| && i < |signals| && signals[i].Entry? ==>
      |segs[i]| > 0 && segs[i][0].Registered?
      && FirstFree(Replay(map[], t0 + Flatten(segs[..i])).0, CounterAfter(c0, Flatten(segs[..i])), segs[i][0].id)
  }

  lemma FirstFreeIdsSnoc(signals: seq<Signal>, t0: seq<Event>, c0: UserData, segs: seq<seq<Event>>, seg: seq<Event>)
    requires FirstFreeIds(signals, t0, c0, segs) && |segs| < |signals|
    requires signals[|segs|].Entry? ==>
      |seg| > 0 && seg[0].Registered?
      && FirstFree(Replay(map[], t0 + Flatten(segs)).0, CounterAfter(c0, Flatten(segs)), seg[0].id)
    ensures FirstFreeIds(signals, t0, c0, segs + [seg])
  {
    var segs': seq<seq<Event>> := segs + [seg];
    forall i | 0 <= i < |segs'| && i < |signals| && signals[i].Entry?
      ensures |segs'[i]| > 0 && segs'[i][0].Registered?
        && FirstFree(Replay(map[], t0 + Flatten(segs'[..i])).0, CounterAfter(c0, Flatten(segs'[..i])), segs'[i][0].id)
    {
      if i < |segs| {
        assert segs'[i] == segs[i] && segs'[..i] == segs[..i];
      } else {
        assert segs'[..i] == segs;
      }
    }
  }

  /** A signal whose id was not a key of the registry registers an id that is not outstanding. */
  lemma FreshStep(before: seq<Event>, sig: Signal, seg: seq<Event>)
    requires SignalShape(sig, seg)
    requires sig.Entry? ==> seg[0].id !in Replay(map[], before).0
    ensures |seg| > 0 && seg[0].Registered? ==> !Outstanding(before, seg[0].id)
  {
    if sig.Entry? {
      ReplayKeys(before, seg[0].id);
    }
  }

  lemma FreshIdsSnoc(t0: seq<Event>, segs: seq<seq<Event>>, seg: seq<Event>)
    requires FreshIds(t0, segs)
    requires |seg| > 0 && seg[0].Registered? ==> !Outstanding(t0 + Flatten(segs), seg[0].id)
    ensures FreshIds(t0, segs + [seg])
  {
    var segs': seq<seq<Event>> := segs + [seg];
    forall i | 0 <= i < |segs'| && |segs'[i]| > 0 && segs'[i][0].Registered?
      ensures !Outstanding(t0 + Flatten(segs'[..i]), segs'[i][0].id)
    {
      if i < |segs| {
        assert segs'[i] == segs[i] && segs'[..i] == segs[..i];
      } else {
        assert segs'[..i] == segs;
      }
    }
  }

  /** The batch `completion()` reports from the script `s`: its head, or an empty batch once it is used up. */
  function NextBatch(s: seq<seq<Completion>>): seq<Completion>
  {
    if s == [] then [] else s[0]
  }

  /** The script left after one `completion()` call. */
  function RestOfScript(s: seq<seq<Completion>>): seq<seq<Completion>>
  {
    if s == [] then [] else s[1..]
  }

  /**
    `drained` are the batches that consecutive `completion()` calls report
    from the script `before`, and `after` is the script these calls leave.
  */
  ghost predicate FromScript(before: seq<seq<Completion>>, drained: seq<seq<Completion>>, after: seq<seq<Completion>>)
    decreases |drained|
  {
    if drained == [] then after == before
    else drained[0] == NextBatch(before) && FromScript(RestOfScript(before), drained[1..], after)
  }

  function Min(a: nat, b: nat): nat { if a <= b then a else b }

  /**
    Draining consumes the script from the front: the i-th drained batch is
    the script's i-th batch, or empty past its end, and what is left is the
    script without the batches drained.
  */
  lemma {:induction false} FromScriptConsumes(before: seq<seq<Completion>>, drained: seq<seq<Completion>>, after: seq<seq<Completion>>)
    requires FromScript(before, drained, after)
    ensures after == before[Min(|drained|, |before|)..]
    ensures forall i :: 0 <= i < |drained| ==> drained[i] == if i < |before| then before[i] else []
    decreases |drained|
  {
    if drained != [] {
      var rest := RestOfScript(before);
      FromScriptConsumes(rest, drained[1..], after);
      forall i | 0 <= i < |drained|
        ensures drained[i] == if i < |before| then before[i] else []
      {
        if i > 0 {
          assert drained[i] == drained[1..][i - 1];
          if before != [] {
            assert i - 1 < |rest| ==> rest[i - 1] == before[i];
          }
        }
      }
      if before != [] {
        assert rest[Min(|drained| - 1, |rest|)..] == before[Min(|drained|, |before|)..];
      }
    }
  }

  /** One `completion()` call. */
  lemma FromScriptOne(before: seq<seq<Completion>>)
    ensures FromScript(before, [NextBatch(before)], RestOfScript(before))
  {
    assert [NextBatch(before)][1..] == [];
  }

  /** Draining `d1` and then `d2` is draining `d1 + d2`. */
  lemma {:induction false} FromScriptAppend(before: seq<seq<Completion>>, d1: seq<seq<Completion>>, mid: seq<seq<Completion>>,
                                            d2: seq<seq<Completion>>, after: seq<seq<Completion>>)
    requires FromScript(before, d1, mid) && FromScript(mid, d2, after)
    ensures FromScript(before, d1 + d2, after)
    decreases |d1|
  {
    if d1 == [] {
      assert d1 + d2 == d2;
    } else {
      FromScriptAppend(RestOfScript(before), d1[1..], mid, d2, after);
      assert (d1 + d2)[0] == d1[0] && (d1 + d2)[1..] == d1[1..] + d2;
    }
  }

  /** The batches of the drains of `t`, in order. */
  function DrainedBatches(t: seq<Event>): seq<seq<Completion>>
    decreases |t|
  {
    if t == [] then []
    else DrainedBatches(t[..|t| - 1]) + (if t[|t| - 1].Drain? then [t[|t| - 1].batch] else [])
  }

  lemma DrainedSnoc(t: seq<Event>, ev: Event)
    ensures DrainedBatches(t + [ev]) == DrainedBatches(t) + (if ev.Drain? then [ev.batch] else [])
  {
    assert (t + [ev])[..|t|] == t;
  }

  lemma {:induction false} DrainedAppend(a: seq<Event>, b: seq<Event>)
    ensures DrainedBatches(a + b) == DrainedBatches(a) + DrainedBatches(b)
    decreases |b|
  {
    if b == [] {
      assert a + b == a;
    } else {
      var b', x := b[..|b| - 1], b[|b| - 1];
      DrainedAppend(a, b');
      assert b == b' + [x];
      AppendAssoc(a, b', [x]);
      DrainedSnoc(a + b', x);
      DrainedSnoc(b', x);
      AppendAssoc(DrainedBatches(a), DrainedBatches(b'), if x.Drain? then [x.batch] else []);
    }
  }

  /** The drains of three events. */
  lemma DrainedThree(a: Event, b: Event, c: Event)
    ensures DrainedBatches([a, b, c]) ==
      (if a.Drain? then [a.batch] else []) + (if b.Drain? then [b.batch] else []) + (if c.Drain? then [c.batch] else [])
  {
    DrainedSnoc([], a);
    assert [] + [a] == [a] && [a] + [b] == [a, b] && [a, b] + [c] == [a, b, c];
    DrainedSnoc([a], b);
    DrainedSnoc([a, b], c);
  }

  /** One more round of the retry loop drains the script's next batch. */
  lemma ScriptRound(before: seq<seq<Completion>>, retries: seq<Event>, e: Submission, mid: seq<seq<Completion>>)
    requires FromScript(before, DrainedBatches(retries), mid)
    ensures FromScript(before, DrainedBatches(retries + [Attempt(e, false), Drain(NextBatch(mid)), Notify]), RestOfScript(mid))
  {
    var batch := NextBatch(mid);
    DrainedAppend(retries, [Attempt(e, false), Drain(batch), Notify]);
    DrainedThree(Attempt(e, false), Drain(batch), Notify);
    assert [] + [batch] + [] == [batch];
    FromScriptOne(mid);
    FromScriptAppend(before, DrainedBatches(retries), mid, [batch], RestOfScript(mid));
  }

  /** The successful push drains nothing. */
  lemma ScriptPushed(before: seq<seq<Completion>>, retries: seq<Event>, e: Submission, after: seq<seq<Completion>>)
    requires FromScript(before, DrainedBatches(retries), after)
    ensures FromScript(before, DrainedBatches(retries + [Attempt(e, true)]), after)
  {
    DrainedSnoc(retries, Attempt(e, true));
    assert DrainedBatches(retries) + [] == DrainedBatches(retries);
  }

  /** After the push loop, the `Entry` branch drains the next batch once more. */
  lemma ScriptEntry(before: seq<seq<Completion>>, pushed: seq<Event>, mid: seq<seq<Completion>>)
    requires FromScript(before, DrainedBatches(pushed), mid)
    ensures FromScript(before, DrainedBatches(pushed + [Notify, Drain(NextBatch(mid))]), RestOfScript(mid))
  {
    var batch := NextBatch(mid);
    DrainedAppend(pushed, [Notify, Drain(batch)]);
    DrainedSnoc([], Notify);
    assert [] + [Notify] == [Notify] && [Notify] + [Drain(batch)] == [Notify, Drain(batch)];
    DrainedSnoc([Notify], Drain(batch));
    assert DrainedBatches([Notify, Drain(batch)]) == [batch];
    FromScriptOne(mid);
    FromScriptAppend(before, DrainedBatches(pushed), mid, [batch], RestOfScript(mid));
  }

  /** A registration drains nothing. */
  lemma ScriptRegistered(before: seq<seq<Completion>>, id: UserData, tx: ReplyToken, rest: seq<Event>, after: seq<seq<Completion>>)
    requires FromScript(before, DrainedBatches(rest), after)
    ensures FromScript(before, DrainedBatches([Registered(id, tx)] + rest), after)
  {
    DrainedSnoc([], Registered(id, tx));
    assert [] + [Registered(id, tx)] == [Registered(id, tx)];
    DrainedAppend([Registered(id, tx)], rest);
    assert [] + DrainedBatches(rest) == DrainedBatches(rest);
  }

  /** The `Reap` branch drains the next batch. */
  lemma ScriptReap(before: seq<seq<Completion>>)
    ensures FromScript(before, DrainedBatches([Drain(NextBatch(before))]), RestOfScript(before))
  {
    DrainedSnoc([], Drain(NextBatch(before)));
    assert [] + [Drain(NextBatch(before))] == [Drain(NextBatch(before))];
    FromScriptOne(before);
  }

  /** The run's drains, one handled signal longer. */
  lemma ScriptSnoc(before: seq<seq<Completion>>, segs: seq<seq<Event>>, seg: seq<Event>,
                   mid: seq<seq<Completion>>, after: seq<seq<Completion>>)
    requires FromScript(before, DrainedBatches(Flatten(segs)), mid)
    requires FromScript(mid, DrainedBatches(seg), after)
    ensures FromScript(before, DrainedBatches(Flatten(segs + [seg])), after)
  {
    FlattenSnoc(segs, seg);
    DrainedAppend(Flatten(segs), seg);
    FromScriptAppend(before, DrainedBatches(Flatten(segs)), mid, DrainedBatches(seg), after);
  }

  /** An abstract ring: a bounded submission queue, a backend, and a completion source. */
  class Ring {
    /** How many entries the submission queue holds. */
    const capacity: nat
    /** Entries pushed but not yet handed to the backend. */
    var queue: seq<Submission>
    /** Entries the backend has taken, in order. */
    var handedOver: seq<Submission>
    /** The completion batches the backend will report, one per `completion()` call. */
    var batches: seq<seq<Completion>>
    /** How many further `submit()` calls leave the queue as it is before the backend takes it. */
    var stalls: nat
    /** Every call made on the ring, in order, as the ring itself records it. */
    ghost var calls: seq<Event>

    ghost predicate Valid()
      reads this
    {
      0 < capacity && |queue| <= capacity
    }

    /** Every entry pushed onto the ring, in order: those handed over to the backend, then those still queued. */
    ghost function Pending(): seq<Submission>
      reads this
    {
      handedOver + queue
    }

    constructor (capacity: nat, queue: seq<Submission>, batches: seq<seq<Completion>>, stalls: nat)
      requires 0 < capacity && |queue| <= capacity
      ensures Valid()
      ensures this.capacity == capacity && this.queue == queue && this.handedOver == []
      ensures this.batches == batches && this.stalls == stalls && this.calls == []
    {
      this.capacity := capacity;
      this.queue := queue;
      this.handedOver := [];
      this.batches := batches;
      this.stalls := stalls;
      this.calls := [];
    }

    /** Pushes `e` if the queue has room; otherwise hands `e` back. */
    method Push(e: Submission) returns (r: PushResult)
      requires Valid()
      modifies this`queue, this`calls
      ensures Valid()
      ensures old(|queue|) < capacity ==> r == Pushed && queue == old(queue) + [e]
      ensures old(|queue|) >= capacity ==> r == Full(e) && queue == old(queue)
      ensures r.Full? ==> Pending() == old(Pending())
      ensures r.Pushed? ==> Pending() == old(Pending()) + [e]
      ensures calls == old(calls) + [Attempt(e, r.Pushed?)]
    {
      if |queue| < capacity {
        queue := queue + [e];
        r := Pushed;
      } else {
        r := Full(e);
      }
      calls := calls + [Attempt(e, r.Pushed?)];
    }

    /** Notifies the backend, which takes the whole queue unless it is stalled. */
    method Submit()
      requires Valid()
      modifies this`queue, this`handedOver, this`stalls, this`calls
      ensures Valid()
      ensures Pending() == old(Pending())
      ensures old(stalls) > 0 ==> stalls == old(stalls) - 1 && queue == old(queue)
      ensures old(stalls) == 0 ==> stalls == 0 && queue == []
      ensures calls == old(calls) + [Notify]
    {
      if stalls > 0 {
        stalls := stalls - 1;
      } else {
        handedOver := handedOver + queue;
        queue := [];
      }
      calls := calls + [Notify];
    }

    /** The completions currently available: the next scripted batch, or none. */
    method Completions() returns (batch: seq<Completion>)
      modifies this`batches, this`calls
      ensures old(batches) == [] ==> batch == [] && batches == []
      ensures old(batches) != [] ==> batch == old(batches)[0] && batches == old(batches)[1..]
      ensures calls == old(calls) + [Drain(batch)]
    {
      if batches == [] {
        batch := [];
      } else {
        batch := batches[0];
        batches := batches[1..];
      }
      calls := calls + [Drain(batch)];
    }
  }

  /** The worker thread's state: the ring it owns and its registry. */
  class Worker {
    const ring: Ring
    const registry: Registry
    /** The calls made on the ring before the worker took it over. */
    ghost const callsBefore: seq<Event>
    /** Everything the worker has done, in order. */
    ghost var trace: seq<Event>

    /**
      The registry is what the trace's registrations and drains make of an
      empty registry: its keys are the ids registered and not yet completed,
      and its sends are exactly those the drains made. The trace's pushes,
      notifications and drains are exactly the calls the ring has recorded
      since the worker took it over.
    */
    ghost predicate Valid()
      reads this, ring, registry
    {
      && ring.Valid()
      && registry.senders == Replay(map[], trace).0
      && registry.deliveries == Replay(map[], trace).1
      && ring.calls == callsBefore + RingEvents(trace)
    }

    constructor (ring: Ring)
      requires ring.Valid()
      ensures Valid() && fresh(registry)
      ensures this.ring == ring && trace == [] && registry.senders == map[] && registry.currUd == 0
      ensures callsBefore == ring.calls
    {
      this.ring := ring;
      this.registry := new Registry();
      this.callsBefore := ring.calls;
      this.trace := [];
    }

    /** The `reap` closure: drains the next available completions into the registry. */
    method ReapCompletions() returns (batch: seq<Completion>)
      requires Valid()
      modifies this`trace, ring`batches, ring`calls, registry`senders, registry`deliveries
      ensures Valid()
      ensures trace == old(trace) + [Drain(batch)]
      ensures ring.calls == old(ring.calls) + [Drain(batch)]
      ensures batch == if old(ring.batches) == [] then [] else old(ring.batches)[0]
      ensures ring.batches == if old(ring.batches) == [] then [] else old(ring.batches)[1..]
      ensures registry.senders.Keys <= old(registry.senders).Keys
    {
      batch := ring.Completions();
      ghost var prev := Replay(map[], trace);

      registry.BatchComplete(batch);
      ReplayDrain(trace, batch);
      RingEventsSnoc(callsBefore, trace, Drain(batch));
      trace := trace + [Drain(batch)];
      assert Replay(map[], trace) == (CompleteAll(prev.0, batch).0, prev.1 + CompleteAll(prev.0, batch).1);
    }

    /** `ring.submission().push(e)`, recorded as one attempt. */
    method TryPush(e: Submission) returns (r: PushResult)
      requires Valid()
      modifies this`trace, ring`queue, ring`calls
      ensures Valid()
      ensures old(|ring.queue|) < ring.capacity ==> r == Pushed
      ensures old(|ring.queue|) >= ring.capacity ==> r == Full(e) && ring.queue == old(ring.queue)
      ensures r.Full? ==> ring.Pending() == old(ring.Pending())
      ensures r.Pushed? ==> ring.Pending() == old(ring.Pending()) + [e]
      ensures trace == old(trace) + [Attempt(e, r.Pushed?)]
      ensures ring.calls == old(ring.calls) + [Attempt(e, r.Pushed?)]
    {
      r := ring.Push(e);
      ReplayPush(trace, Attempt(e, r.Pushed?));
      RingEventsSnoc(callsBefore, trace, Attempt(e, r.Pushed?));
      trace := trace + [Attempt(e, r.Pushed?)];
    }

    /** `ring.submit()`, recorded as one notification. */
    method NotifyBackend()
      requires Valid()
      modifies this`trace, ring`queue, ring`handedOver, ring`stalls, ring`calls
      ensures Valid()
      ensures trace == old(trace) + [Notify]
      ensures ring.calls == old(ring.calls) + [Notify]
      ensures ring.Pending() == old(ring.Pending())
      ensures old(ring.stalls) > 0 ==> ring.stalls == old(ring.stalls) - 1 && ring.queue == old(ring.queue)
      ensures old(ring.stalls) == 0 ==> ring.stalls == 0 && ring.queue == []
    {
      ring.Submit();
      ReplayPush(trace, Notify);
      RingEventsSnoc(callsBefore, trace, Notify);
      trace := trace + [Notify];
    }

    /**
      What follows a refused push: the available completions are reaped,
      then the backend is notified, in that order.
    */
    method RetryAfterFull() returns (batch: seq<Completion>)
      requires Valid()
      modifies this`trace, ring`queue, ring`handedOver, ring`stalls, ring`batches, ring`calls,
        registry`senders, registry`deliveries
      ensures Valid()
      ensures trace == old(trace) + [Drain(batch), Notify]
      ensures ring.calls == old(ring.calls) + [Drain(batch), Notify]
      ensures batch == if old(ring.batches) == [] then [] else old(ring.batches)[0]
      ensures ring.batches == if old(ring.batches) == [] then [] else old(ring.batches)[1..]
      ensures ring.Pending() == old(ring.Pending())
      ensures old(ring.stalls) > 0 ==> ring.stalls == old(ring.stalls) - 1 && ring.queue == old(ring.queue)
      ensures old(ring.stalls) == 0 ==> ring.stalls == 0 && ring.queue == []
      ensures registry.senders.Keys <= old(registry.senders).Keys
    {
      batch := ReapCompletions();
      NotifyBackend();
      AppendPair(old(trace), Drain(batch), Notify);
      AppendPair(old(ring.calls), Drain(batch), Notify);
    }

    /**
      One round of the retry loop after the push of `e` was refused: reap,
      notify, push `e` again.
    */
    method RetryOnce(e: Submission) returns (r: PushResult, batch: seq<Completion>)
      requires Valid()
      modifies this`trace, ring`queue, ring`handedOver, ring`stalls, ring`batches, ring`calls,
        registry`senders, registry`deliveries
      ensures Valid()
      ensures trace == old(trace) + [Drain(batch), Notify, Attempt(e, r.Pushed?)]
      ensures ring.calls == old(ring.calls) + [Drain(batch), Notify, Attempt(e, r.Pushed?)]
      ensures batch == NextBatch(old(ring.batches)) && ring.batches == RestOfScript(old(ring.batches))
      ensures r.Full? ==> r.rejected == e
      ensures r.Full? ==> ring.Pending() == old(ring.Pending())
      ensures r.Pushed? ==> ring.Pending() == old(ring.Pending()) + [e]
      ensures old(ring.stalls) > 0 ==> ring.stalls == old(ring.stalls) - 1
      ensures old(ring.stalls) == 0 ==> ring.stalls == 0 && r.Pushed?
      ensures registry.senders.Keys <= old(registry.senders).Keys
    {
      batch := RetryAfterFull();
      r := TryPush(e);
      AppendAfterPair(old(trace), Drain(batch), Notify, Attempt(e, r.Pushed?));
      AppendAfterPair(old(ring.calls), Drain(batch), Notify, Attempt(e, r.Pushed?));
    }

    /**
      The push-retry loop: pushes `e` until the ring accepts it, reaping and
      then notifying the backend after every refusal. The backend's remaining
      stalls bound the number of refusals.
    */
    method PushUntilAccepted(e: Submission) returns (ghost seg: seq<Event>)
      requires Valid()
      modifies this`trace, ring`queue, ring`handedOver, ring`stalls, ring`batches, ring`calls,
        registry`senders, registry`deliveries
      ensures Valid()
      ensures trace == old(trace) + seg
      ensures ring.calls == old(ring.calls) + RingEvents(seg)
      ensures |seg| >= 1 && Retries(seg[..|seg| - 1], e) && seg[|seg| - 1] == Attempt(e, true)
      ensures FromScript(old(ring.batches), DrainedBatches(seg), ring.batches)
      ensures ring.Pending() == old(ring.Pending()) + [e]
      ensures registry.senders.Keys <= old(registry.senders).Keys
    {
      var holder := e;
      var r := TryPush(holder);
      ghost var retries: seq<Event> := [];
      NoRetriesYet(old(trace), Attempt(e, r.Pushed?));
      while r.Full?
        invariant Valid()
        invariant r.Full? ==> ring.Pending() == old(ring.Pending())
        invariant r.Pushed? ==> ring.Pending() == old(ring.Pending()) + [e]
        invariant Retries(retries, e) && trace == old(trace) + retries + [Attempt(e, r.Pushed?)]
        invariant holder == e && (r.Full? ==> r.rejected == e)
        invariant registry.senders.Keys <= old(registry.senders).Keys
        invariant FromScript(old(ring.batches), DrainedBatches(retries), ring.batches)
        decreases ring.stalls, if r.Full? then 1 else 0
      {
        holder := r.rejected;
        ghost var script := ring.batches;
        var reaped;
        r, reaped := RetryOnce(holder);
        RetryRound(old(trace), retries, e, reaped, Attempt(e, r.Pushed?));
        ScriptRound(old(ring.batches), retries, e, script);
        retries := retries + [Attempt(e, false), Drain(reaped), Notify];
      }
      seg := retries + [Attempt(e, true)];
      PushedLast(old(trace), retries, e);
      ScriptPushed(old(ring.batches), retries, e, ring.batches);
      CallsAppend(callsBefore, old(trace), seg);
    }

    /**
      The first half of the `Entry` branch: allocates a fresh id, stamps it
      into the entry and registers the reply token under it.
    */
    method RegisterEntry(entry: Submission, tx: ReplyToken) returns (stamped: Submission)
      requires Valid() && |registry.senders| < U64_MODULUS
      modifies this`trace, registry`senders, registry`currUd
      ensures Valid()
      ensures stamped == entry.(userData := stamped.userData)
      ensures stamped.userData !in old(registry.senders)
      ensures FirstFree(old(registry.senders), old(registry.currUd), stamped.userData)
      ensures registry.currUd == Wrap(stamped.userData)
      ensures registry.senders == old(registry.senders)[stamped.userData := tx]
      ensures trace == old(trace) + [Registered(stamped.userData, tx)]
    {
      var id := registry.NextUuid();
      stamped := entry.(userData := id);
      registry.Insert(id, tx);
      ReplayRegistered(trace, id, tx);
      RingEventsSnoc(callsBefore, trace, Registered(id, tx));
      trace := trace + [Registered(id, tx)];
    }

    /** After a successful push: one more notification of the backend, then one reap. */
    method NotifyAndReap() returns (batch: seq<Completion>)
      requires Valid()
      modifies this`trace, ring`queue, ring`handedOver, ring`stalls, ring`batches, ring`calls,
        registry`senders, registry`deliveries
      ensures Valid()
      ensures trace == old(trace) + [Notify, Drain(batch)]
      ensures ring.calls == old(ring.calls) + [Notify, Drain(batch)]
      ensures batch == if old(ring.batches) == [] then [] else old(ring.batches)[0]
      ensures ring.batches == if old(ring.batches) == [] then [] else old(ring.batches)[1..]
      ensures ring.Pending() == old(ring.Pending())
      ensures old(ring.stalls) > 0 ==> ring.stalls == old(ring.stalls) - 1 && ring.queue == old(ring.queue)
      ensures old(ring.stalls) == 0 ==> ring.stalls == 0 && ring.queue == []
      ensures registry.senders.Keys <= old(registry.senders).Keys
    {
      NotifyBackend();
      batch := ReapCompletions();
      AppendPair(old(trace), Notify, Drain(batch));
      AppendPair(old(ring.calls), Notify, Drain(batch));
    }

    /**
      The push part of the `Entry` branch: pushes `e` until the ring accepts
      it, then notifies the backend once and reaps once.
    */
    method PushAndReap(e: Submission) returns (ghost rest: seq<Event>)
      requires Valid()
      modifies this`trace, ring`queue, ring`handedOver, ring`stalls, ring`batches, ring`calls,
        registry`senders, registry`deliveries
      ensures Valid()
      ensures trace == old(trace) + rest
      ensures ring.calls == old(ring.calls) + RingEvents(rest)
      ensures EntryShape(rest, e)
      ensures FromScript(old(ring.batches), DrainedBatches(rest), ring.batches)
      ensures ring.Pending() == old(ring.Pending()) + [e]
      ensures registry.senders.Keys <= old(registry.senders).Keys
    {
      ghost var pushed := PushUntilAccepted(e);
      ghost var script := ring.batches;
      var batch := NotifyAndReap();
      ScriptEntry(old(ring.batches), pushed, script);
      EntryShapeIntro(pushed, e, batch);
      rest := pushed + [Notify, Drain(batch)];
      AppendAssoc(old(trace), pushed, [Notify, Drain(batch)]);
      CallsAppend(callsBefore, old(trace), rest);
    }

    /**
      The `Entry` branch: allocates a fresh id and stamps it into the entry,
      registers the reply token under it before the first push, pushes until
      the ring accepts, then notifies the backend once and reaps once.
    */
    method SubmitEntry(entry: Submission, tx: ReplyToken) returns (ghost seg: seq<Event>)
      requires Valid() && |registry.senders| < U64_MODULUS
      modifies this`trace, ring`queue, ring`handedOver, ring`stalls, ring`batches, ring`calls,
        registry`senders, registry`currUd, registry`deliveries
      ensures Valid()
      ensures trace == old(trace) + seg
      ensures ring.calls == old(ring.calls) + RingEvents(seg)
      ensures SignalShape(Entry(entry, tx), seg)
      ensures seg[0].id !in old(registry.senders)
      ensures FirstFree(old(registry.senders), old(registry.currUd), seg[0].id) && registry.currUd == Wrap(seg[0].id)
      ensures FromScript(old(ring.batches), DrainedBatches(seg), ring.batches)
      ensures ring.Pending() == old(ring.Pending()) + [entry.(userData := seg[0].id)]
      ensures |registry.senders| <= old(|registry.senders|) + 1
    {
      var stamped := RegisterEntry(entry, tx);
      var id := stamped.userData;
      ghost var keys := registry.senders.Keys;
      ghost var rest := PushAndReap(stamped);
      SubsetCard(registry.senders.Keys, keys);
      SignalShapeIntro(entry, tx, id, rest);
      ScriptRegistered(old(ring.batches), id, tx, rest, ring.batches);
      seg := [Registered(id, tx)] + rest;
      AppendAssoc(old(trace), [Registered(id, tx)], rest);
      CallsAppend(callsBefore, old(trace), seg);
    }

    /** Handles one signal taken off the channel. */
    method Step(sig: Signal) returns (ghost seg: seq<Event>)
      requires Valid() && |registry.senders| < U64_MODULUS
      modifies this`trace, ring`queue, ring`handedOver, ring`stalls, ring`batches, ring`calls,
        registry`senders, registry`currUd, registry`deliveries
      ensures Valid()
      ensures trace == old(trace) + seg
      ensures ring.calls == old(ring.calls) + RingEvents(seg)
      ensures SignalShape(sig, seg)
      ensures sig.Entry? ==> seg[0].id !in old(registry.senders)
      ensures sig.Entry? ==> FirstFree(old(registry.senders), old(registry.currUd), seg[0].id) && registry.currUd == Wrap(seg[0].id)
      ensures FromScript(old(ring.batches), DrainedBatches(seg), ring.batches)
      ensures ring.Pending() == old(ring.Pending()) + StampedBy(sig, seg)
      ensures sig.Reap? ==> ring.queue == old(ring.queue) && ring.handedOver == old(ring.handedOver) && ring.stalls == old(ring.stalls)
      ensures sig.Reap? ==> registry.currUd == old(registry.currUd)
      ensures |registry.senders| <= old(|registry.senders|) + (if sig.Entry? then 1 else 0)
    {
      match sig
      case Entry(entry, tx) =>
        seg := SubmitEntry(entry, tx);
      case Reap =>
        var batch := ReapCompletions();
        ScriptReap(old(ring.batches));
        SubsetCard(registry.senders.Keys, old(registry.senders).Keys);
        seg := [Drain(batch)];
        CallsAppend(callsBefore, old(trace), seg);
    }

    /**
      The worker loop: takes the signals in channel order and handles each
      in turn; it ends when the channel is exhausted. The ring accepts
      exactly one stamped entry per `Entry` signal, in signal order, and no
      id is registered while it is still outstanding.
    */
    method Run(signals: seq<Signal>) returns (ghost segs: seq<seq<Event>>)
      requires Valid() && |registry.senders| + |signals| < U64_MODULUS
      modifies this`trace, ring`queue, ring`handedOver, ring`stalls, ring`batches, ring`calls,
        registry`senders, registry`currUd, registry`deliveries
      ensures Valid()
      ensures |segs| == |signals|
      ensures trace == old(trace) + Flatten(segs)
      ensures ring.calls == old(ring.calls) + RingEvents(Flatten(segs))
      ensures forall i :: 0 <= i < |signals| ==> SignalShape(signals[i], segs[i])
      ensures ring.Pending() == old(ring.Pending()) + Stamped(signals, segs)
      ensures FromScript(old(ring.batches), DrainedBatches(Flatten(segs)), ring.batches)
      ensures FreshIds(old(trace), segs)
      ensures registry.currUd == CounterAfter(old(registry.currUd), Flatten(segs))
      ensures FirstFreeIds(signals, old(trace), old(registry.currUd), segs)
    {
      segs := [];
      for i := 0 to |signals|
        invariant Valid()
        invariant |segs| == i
        invariant |registry.senders| + (|signals| - i) < U64_MODULUS
        invariant RunSoFar(signals, segs, old(trace), old(ring.Pending()), old(ring.batches), old(registry.currUd),
          trace, ring.Pending(), ring.batches, registry.currUd)
      {
        ghost var t, p, b, c := trace, ring.Pending(), ring.batches, registry.currUd;
        var seg := Step(signals[i]);
        RunSnoc(signals, segs, seg, old(trace), old(ring.Pending()), old(ring.batches), old(registry.currUd),
          t, p, b, c, ring.Pending(), ring.batches, registry.currUd);
        segs := segs + [seg];
      }
      CallsAppend(callsBefore, old(trace), Flatten(segs));
    }
  }
}
