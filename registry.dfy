/**
  The correlation registry of the ring worker: a map from 64-bit user-data
  values to the producer sides of one-shot reply channels, and a wrapping
  counter that hands out user-data values not currently in use.

  The pure functions CompleteOne and CompleteAll say what completing one
  entry, or a batch of entries, does to the map and which sends it makes;
  the class Registry is the mutable object the worker owns, and its methods
  are proved against those functions.
*/
module Registry {

  const U64_MODULUS: int := 0x1_0000_0000_0000_0000
  const U64_MAX: int := U64_MODULUS - 1

  /** An unsigned 64-bit user-data value. */
  type UserData = x: int | 0 <= x < U64_MODULUS

  /** The producer side of a one-shot reply channel; only its identity matters here. */
  datatype ReplyToken = ReplyToken(channel: nat)

  /** A completion queue entry. Only its user-data field is read by the registry. */
  datatype Completion = Completion(userData: UserData, result: int)

  /** One `send` of a completion on a reply channel. */
  datatype Delivery = Delivery(token: ReplyToken, completion: Completion)

  /** `wrapping_add(1)` on a u64. */
  function Wrap(x: UserData): (r: UserData)
    ensures r == (x + 1) % U64_MODULUS
    ensures r == 0 <==> x == U64_MAX
  {
    if x == U64_MAX then 0 else x + 1
  }

  /** The number of wrapping increments that lead from `start` to `x`. */
  function Distance(start: UserData, x: UserData): (d: nat)
    ensures d < U64_MODULUS
    ensures (start + d) % U64_MODULUS == x
    ensures d == 0 <==> x == start
  {
    if start <= x then x - start else x + U64_MODULUS - start
  }

  /** One wrapping increment takes one step further from `start`, short of a full turn. */
  lemma DistanceWrap(start: UserData, x: UserData)
    requires Distance(start, x) + 1 < U64_MODULUS
    ensures Distance(start, Wrap(x)) == Distance(start, x) + 1
  {
  }

  /** Distinct values lie at distinct distances from `start`. */
  lemma DistanceInjective(start: UserData, x: UserData, y: UserData)
    requires Distance(start, x) == Distance(start, y)
    ensures x == y
  {
  }

  /**
    `id` is the first value, counting up from `start` with wrap-around, that
    is not a key of `senders`: the id `next_uuid` hands out.
  */
  ghost predicate FirstFree(senders: map<UserData, ReplyToken>, start: UserData, id: UserData)
  {
    id !in senders && forall x: UserData :: Distance(start, x) < Distance(start, id) ==> x in senders
  }

  /** The map and the counter determine the id that is handed out. */
  lemma FirstFreeUnique(senders: map<UserData, ReplyToken>, start: UserData, a: UserData, b: UserData)
    requires FirstFree(senders, start, a) && FirstFree(senders, start, b)
    ensures a == b
  {
    if Distance(start, a) == Distance(start, b) {
      DistanceInjective(start, a, b);
    }
  }

  /** The user-data values that occur in a batch of completions. */
  function Ids(es: seq<Completion>): (r: set<UserData>)
    ensures forall e :: e in es ==> e.userData in r
    decreases |es|
  {
    if es == [] then {} else Ids(es[..|es| - 1]) + {es[|es| - 1].userData}
  }

  /**
    Completing one entry: if its user data is a key, that key is removed and
    its sender receives the entry; otherwise nothing changes and nothing is sent.
  */
  function CompleteOne(senders: map<UserData, ReplyToken>, e: Completion): (r: (map<UserData, ReplyToken>, seq<Delivery>))
    ensures r.0.Keys == senders.Keys - {e.userData}
    ensures forall k :: k in r.0 ==> r.0[k] == senders[k]
    ensures |r.1| == (if e.userData in senders then 1 else 0)
    ensures forall d :: d in r.1 ==> d.completion == e && e.userData in senders && d.token == senders[e.userData]
  {
    if e.userData in senders then
      (senders - {e.userData}, [Delivery(senders[e.userData], e)])
    else
      (senders, [])
  }

  /**
    Completing a batch: CompleteOne applied to each entry in sequence order,
    the sends concatenated in that order. Every key whose id occurs in the
    batch is removed, each removal makes exactly one send, and nothing else
    changes.
  */
  function CompleteAll(senders: map<UserData, ReplyToken>, es: seq<Completion>): (r: (map<UserData, ReplyToken>, seq<Delivery>))
    ensures forall k :: k in r.0 ==> k in senders && r.0[k] == senders[k]
    decreases |es|
  {
    if es == [] then
      (senders, [])
    else
      var prefix := es[..|es| - 1];
      var prev := CompleteAll(senders, prefix);
      var last := CompleteOne(prev.0, es[|es| - 1]);
      (last.0, prev.1 + last.1)
  }

  /** A batch removes exactly the keys whose ids it carries. */
  lemma {:induction false} CompleteAllKeys(senders: map<UserData, ReplyToken>, es: seq<Completion>)
    ensures CompleteAll(senders, es).0.Keys == senders.Keys - Ids(es)
    decreases |es|
  {
    if es != [] {
      CompleteAllKeys(senders, es[..|es| - 1]);
    }
  }

  /** Each id of a batch is carried by one of its entries. */
  lemma {:induction false} IdsWitness(es: seq<Completion>, x: UserData) returns (i: nat)
    requires x in Ids(es)
    ensures i < |es| && es[i].userData == x
    decreases |es|
  {
    if es[|es| - 1].userData == x {
      i := |es| - 1;
    } else {
      i := IdsWitness(es[..|es| - 1], x);
    }
  }

  /** The first entry of a batch that carries `x`. */
  lemma {:induction false} FirstIdsWitness(es: seq<Completion>, x: UserData) returns (i: nat)
    requires x in Ids(es)
    ensures i < |es| && es[i].userData == x
    ensures forall j :: 0 <= j < i ==> es[j].userData != x
    decreases |es|
  {
    var prefix := es[..|es| - 1];
    if x in Ids(prefix) {
      i := FirstIdsWitness(prefix, x);
      assert forall j :: 0 <= j < i ==> es[j] == prefix[j];
    } else {
      i := |es| - 1;
      assert forall j :: 0 <= j < i ==> es[j] in prefix;
    }
  }

  lemma AppendAssoc<T>(x: seq<T>, y: seq<T>, z: seq<T>)
    ensures x + y + z == x + (y + z)
  {
  }

  /** One more entry at the end of a batch is one more CompleteOne. */
  lemma CompleteAllSnoc(senders: map<UserData, ReplyToken>, es: seq<Completion>, x: Completion)
    ensures var prev := CompleteAll(senders, es);
      CompleteAll(senders, es + [x]) == (CompleteOne(prev.0, x).0, prev.1 + CompleteOne(prev.0, x).1)
  {
    assert (es + [x])[..|es|] == es;
  }

  /**
    Completing `a + b` in one batch is completing `a`, then completing `b`
    against what is left: reaping in two batches is the same as reaping once.
  */
  lemma {:induction false} CompleteAllAppend(senders: map<UserData, ReplyToken>, a: seq<Completion>, b: seq<Completion>)
    ensures CompleteAll(senders, a + b).0 == CompleteAll(CompleteAll(senders, a).0, b).0
    ensures CompleteAll(senders, a + b).1 == CompleteAll(senders, a).1 + CompleteAll(CompleteAll(senders, a).0, b).1
    decreases |b|
  {
    var mid := CompleteAll(senders, a);
    if b == [] {
      assert a + b == a;
    } else {
      var b', x := b[..|b| - 1], b[|b| - 1];
      CompleteAllAppend(senders, a, b');
      assert b == b' + [x];
      AppendAssoc(a, b', [x]);
      CompleteAllSnoc(senders, a + b', x);
      CompleteAllSnoc(mid.0, b', x);
      var p2 := CompleteAll(mid.0, b');
      AppendAssoc(mid.1, p2.1, CompleteOne(p2.0, x).1);
    }
  }

  /** The sends in `ds` whose completion carries user data `ud`, in order. */
  function DeliveriesFor(ds: seq<Delivery>, ud: UserData): seq<Delivery>
    decreases |ds|
  {
    if ds == [] then []
    else
      DeliveriesFor(ds[..|ds| - 1], ud)
      + (if ds[|ds| - 1].completion.userData == ud then [ds[|ds| - 1]] else [])
  }

  lemma {:induction false} DeliveriesForAppend(a: seq<Delivery>, b: seq<Delivery>, ud: UserData)
    ensures DeliveriesFor(a + b, ud) == DeliveriesFor(a, ud) + DeliveriesFor(b, ud)
    decreases |b|
  {
    if b == [] {
      assert a + b == a;
    } else {
      var b' := b[..|b| - 1];
      DeliveriesForAppend(a, b', ud);
      assert (a + b)[..|a + b| - 1] == a + b';
    }
  }

  /**
    A completion whose user data is not a key, or that no entry of the batch
    carries, is never delivered: unmatched completions change nothing.
  */
  lemma {:induction false} UnmatchedNotDelivered(senders: map<UserData, ReplyToken>, es: seq<Completion>, ud: UserData)
    requires ud !in senders || ud !in Ids(es)
    ensures DeliveriesFor(CompleteAll(senders, es).1, ud) == []
    decreases |es|
  {
    if es != [] {
      var prefix := es[..|es| - 1];
      var e := es[|es| - 1];
      UnmatchedNotDelivered(senders, prefix, ud);
      var prev := CompleteAll(senders, prefix);
      CompleteAllKeys(senders, prefix);
      DeliveriesForAppend(prev.1, CompleteOne(prev.0, e).1, ud);
      assert DeliveriesFor(CompleteOne(prev.0, e).1, ud) == [] by {
        var one := CompleteOne(prev.0, e).1;
        if one != [] {
          assert one == [Delivery(prev.0[e.userData], e)];
          assert DeliveriesFor(one, ud) == DeliveriesFor([], ud) + (if e.userData == ud then one else []);
        }
      }
    }
  }

  /**
    Under duplicate ids the first delivery wins: if `es[i]` is the first
    entry of the batch carrying a registered id, the batch sends exactly one
    completion for that id, namely `es[i]`, to the sender registered under it.
  */
  lemma {:induction false} FirstDeliveryWins(senders: map<UserData, ReplyToken>, es: seq<Completion>, i: nat)
    requires i < |es| && es[i].userData in senders
    requires forall j :: 0 <= j < i ==> es[j].userData != es[i].userData
    ensures DeliveriesFor(CompleteAll(senders, es).1, es[i].userData) == [Delivery(senders[es[i].userData], es[i])]
    decreases |es|
  {
    var ud := es[i].userData;
    var prefix := es[..|es| - 1];
    var e := es[|es| - 1];
    var prev := CompleteAll(senders, prefix);
    var one := CompleteOne(prev.0, e).1;
    assert es == prefix + [e];
    DeliveriesForAppend(prev.1, one, ud);
    if i == |es| - 1 {
      assert ud !in Ids(prefix) by {
        if ud in Ids(prefix) {
          var j := IdsWitness(prefix, ud);
        }
      }
      CompleteAllKeys(senders, prefix);
      UnmatchedNotDelivered(senders, prefix, ud);
      assert ud in prev.0;
      assert one == [Delivery(senders[ud], e)];
      assert DeliveriesFor(one, ud) == DeliveriesFor([], ud) + [Delivery(senders[ud], e)];
    } else {
      assert prefix[i] == es[i];
      FirstDeliveryWins(senders, prefix, i);
      CompleteAllKeys(senders, prefix);
      assert ud in Ids(prefix);
      assert ud !in prev.0;
      if one != [] {
        assert one == [Delivery(prev.0[e.userData], e)];
        assert e.userData != ud;
        assert DeliveriesFor(one, ud) == DeliveriesFor([], ud) + [];
      }
    }
  }

  /**
    A completion whose id is no longer a key when its turn comes is a no-op:
    dropping it from the batch leaves the same map and the same sends.
  */
  lemma UnmatchedChangesNothing(senders: map<UserData, ReplyToken>, a: seq<Completion>, e: Completion, b: seq<Completion>)
    requires e.userData !in CompleteAll(senders, a).0
    ensures CompleteAll(senders, a + [e] + b) == CompleteAll(senders, a + b)
  {
    var prev := CompleteAll(senders, a);
    CompleteAllSnoc(senders, a, e);
    assert CompleteOne(prev.0, e).0 == prev.0 && CompleteOne(prev.0, e).1 == [];
    assert prev.1 + [] == prev.1;
    assert CompleteAll(senders, a + [e]) == prev;
    CompleteAllAppend(senders, a + [e], b);
    CompleteAllAppend(senders, a, b);
  }

  /**
    A batch answers a registered id at most once, and not at all if the id
    stays registered; an id that was not registered is never answered.
  */
  lemma BatchDeliversOnce(senders: map<UserData, ReplyToken>, es: seq<Completion>, k: UserData)
    ensures var r := CompleteAll(senders, es);
      |DeliveriesFor(r.1, k)| + (if k in r.0 then 1 else 0) <= (if k in senders then 1 else 0)
  {
    CompleteAllKeys(senders, es);
    if k !in senders || k !in Ids(es) {
      UnmatchedNotDelivered(senders, es, k);
    } else {
      var i := FirstIdsWitness(es, k);
      FirstDeliveryWins(senders, es, i);
    }
  }

  /**
    Every send a batch makes goes to the sender registered under the
    completion's id, for an id that was a key and is no longer one, and no
    id is sent twice: each outstanding submission is delivered at most once.
  */
  lemma {:induction false} CompleteAllDeliversOnce(senders: map<UserData, ReplyToken>, es: seq<Completion>)
    ensures var r := CompleteAll(senders, es);
      forall d :: d in r.1 ==>
        && d.completion in es
        && d.completion.userData in senders
        && d.token == senders[d.completion.userData]
        && d.completion.userData !in r.0
    ensures var ds := CompleteAll(senders, es).1;
      forall i, j :: 0 <= i < j < |ds| ==> ds[i].completion.userData != ds[j].completion.userData
    decreases |es|
  {
    if es != [] {
      var prefix := es[..|es| - 1];
      var e := es[|es| - 1];
      assert es == prefix + [e];
      CompleteAllDeliversOnce(senders, prefix);
      var prev := CompleteAll(senders, prefix);
      var one := CompleteOne(prev.0, e);
      var ds := prev.1 + one.1;
      forall d | d in ds
        ensures d.completion in es && d.completion.userData in senders
        ensures d.token == senders[d.completion.userData] && d.completion.userData !in one.0
      {
        if d in prev.1 {
          assert d.completion.userData !in prev.0;
        } else {
          assert d in one.1;
        }
      }
      forall i, j | 0 <= i < j < |ds|
        ensures ds[i].completion.userData != ds[j].completion.userData
      {
        if j >= |prev.1| {
          assert ds[j] in one.1;
          assert ds[i] in prev.1;
          assert ds[i].completion.userData !in prev.0;
        } else {
          assert ds[i] == prev.1[i] && ds[j] == prev.1[j];
        }
      }
    }
  }

  /** The worker's registry. */
  class Registry {
    /** Map from user data to the producer sides of the reply channels. */
    var senders: map<UserData, ReplyToken>
    /** The current user-data counter. */
    var currUd: UserData
    /** Every `send` made so far, in order. */
    ghost var deliveries: seq<Delivery>

    /** A new, empty registry whose counter starts at 0. */
    constructor ()
      ensures senders == map[] && currUd == 0 && deliveries == []
    {
      senders := map[];
      currUd := 0;
      deliveries := [];
    }

    /** The current user-data value. */
    method CurrUd() returns (r: UserData)
      ensures r == currUd
    {
      r := currUd;
    }

    /** Returns the counter and advances it, wrapping from 2^64 - 1 to 0. */
    method IncrUd() returns (out: UserData)
      modifies this`currUd
      ensures out == old(currUd)
      ensures currUd == (old(currUd) + 1) % U64_MODULUS
    {
      out := currUd;
      currUd := Wrap(currUd);
    }

    /**
      The first user-data value, counting up from the counter with wrap-around,
      that is not a key. Every value skipped on the way is a key, and the
      counter ends just past the returned value. The map is unchanged.
    */
    method NextUuid() returns (id: UserData)
      requires |senders| < U64_MODULUS
      modifies this`currUd
      ensures id !in senders
      ensures forall x: UserData :: Distance(old(currUd), x) < Distance(old(currUd), id) ==> x in senders
      ensures currUd == Wrap(id)
    {
      ghost var start := currUd;
      ghost var skipped: set<UserData> := {};
      id := IncrUd();
      while id in senders
        invariant currUd == Wrap(id)
        invariant Distance(start, id) == |skipped|
        invariant skipped <= senders.Keys
        invariant forall x: UserData :: x in skipped <==> Distance(start, x) < Distance(start, id)
        decreases U64_MODULUS - |skipped|
      {
        ghost var prev := id;
        skipped := skipped + {id};
        SubsetCard(skipped, senders.Keys);
        DistanceWrap(start, prev);
        id := IncrUd();
        forall x: UserData | Distance(start, x) == Distance(start, prev)
          ensures x == prev
        {
          DistanceInjective(start, x, prev);
        }
      }
    }

    /** Stores `sender` under `userData`, replacing any sender already there. */
    method Insert(userData: UserData, sender: ReplyToken)
      modifies this`senders
      ensures senders == old(senders)[userData := sender]
      ensures senders.Keys == old(senders).Keys + {userData}
    {
      senders := senders[userData := sender];
    }

    /** Removes the sender registered under the entry's user data, if any, and sends it the entry. */
    method Complete(entry: Completion)
      modifies this`senders, this`deliveries
      ensures senders == CompleteOne(old(senders), entry).0
      ensures deliveries == old(deliveries) + CompleteOne(old(senders), entry).1
    {
      if entry.userData in senders {
        var sender := senders[entry.userData];
        senders := senders - {entry.userData};
        deliveries := deliveries + [Delivery(sender, entry)];
      }
    }

    /** Completes each entry in turn. */
    method BatchComplete(entries: seq<Completion>)
      modifies this`senders, this`deliveries
      ensures senders == CompleteAll(old(senders), entries).0
      ensures deliveries == old(deliveries) + CompleteAll(old(senders), entries).1
    {
      var i := 0;
      while i < |entries|
        invariant i <= |entries|
        invariant senders == CompleteAll(old(senders), entries[..i]).0
        invariant deliveries == old(deliveries) + CompleteAll(old(senders), entries[..i]).1
      {
        assert entries[..i + 1][..i] == entries[..i];
        Complete(entries[i]);
        i := i + 1;
      }
      assert entries[..i] == entries;
    }
  }

  /** A subset is no larger than its superset. */
  lemma {:induction false} SubsetCard<T>(a: set<T>, b: set<T>)
    requires a <= b
    ensures |a| <= |b|
    decreases |a|
  {
    if a != {} {
      var x :| x in a;
      SubsetCard(a - {x}, b - {x});
    }
  }
}
