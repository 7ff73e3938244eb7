/**
  The client side of the ring: a handle that turns each submitted entry into
  an `Entry` signal carrying a fresh reply token, and appends the signal to
  the worker's channel. The channel is the sequence of signals sent so far;
  `oneshot::channel()` is a counter that hands out a new token per promise.
*/
module Client {
  import opened Registry
  import opened Worker

  /** The signals sent for `entries`, the i-th carrying the i-th token. */
  function EntrySignals(entries: seq<Submission>, tokens: seq<ReplyToken>): (r: seq<Signal>)
    requires |tokens| == |entries|
    ensures |r| == |entries|
    ensures forall i :: 0 <= i < |r| ==> r[i] == Entry(entries[i], tokens[i])
    decreases |entries|
  {
    if entries == [] then []
    else
      var n := |entries| - 1;
      EntrySignals(entries[..n], tokens[..n]) + [Entry(entries[n], tokens[n])]
  }

  /**
    A batch, handled by the worker, puts on the ring one entry per input, in
    input order, each carrying its input's payload and the id under which its
    own reply token was registered.
  */
  lemma {:induction false} BatchStamped(entries: seq<Submission>, tokens: seq<ReplyToken>, segs: seq<seq<Event>>)
    requires |tokens| == |entries| && |segs| <= |entries|
    requires forall k :: 0 <= k < |segs| ==> SignalShape(EntrySignals(entries, tokens)[k], segs[k])
    ensures var st := Stamped(EntrySignals(entries, tokens), segs);
      |st| == |segs|
      && forall i :: 0 <= i < |segs| ==>
           |segs[i]| >= 1 && segs[i][0].Registered? && segs[i][0].tx == tokens[i]
           && st[i] == entries[i].(userData := segs[i][0].id)
    decreases |segs|
  {
    if segs != [] {
      var n := |segs| - 1;
      var sigs := EntrySignals(entries, tokens);
      BatchStamped(entries, tokens, segs[..n]);
      assert SignalShape(sigs[n], segs[n]);
      forall i | 0 <= i < n
        ensures segs[..n][i] == segs[i]
      {
      }
    }
  }

  /** The sending handle: the channel to the worker and the reply-token source. */
  class Sender {
    var channel: seq<Signal>
    var nextToken: nat

    /** Every token already sent was handed out by the token source. */
    ghost predicate Valid()
      reads this
    {
      forall i :: 0 <= i < |channel| && channel[i].Entry? ==> channel[i].tx.channel < nextToken
    }

    constructor ()
      ensures channel == [] && nextToken == 0 && Valid()
    {
      channel := [];
      nextToken := 0;
    }

    /** `new_promise`: a fresh reply token, different from every token already sent. */
    method NewPromise() returns (tx: ReplyToken)
      requires Valid()
      modifies this`nextToken
      ensures Valid()
      ensures tx == ReplyToken(old(nextToken)) && nextToken == old(nextToken) + 1
      ensures forall i :: 0 <= i < |channel| && channel[i].Entry? ==> channel[i].tx != tx
    {
      tx := ReplyToken(nextToken);
      nextToken := nextToken + 1;
    }

    /**
      `send`: appends a signal to the channel. An `Entry` carries a token the
      token source has already handed out: every sender of a reply channel
      comes from `new_promise`.
    */
    method Send(sig: Signal)
      requires Valid() && (sig.Entry? ==> sig.tx.channel < nextToken)
      modifies this`channel
      ensures Valid()
      ensures channel == old(channel) + [sig]
    {
      channel := channel + [sig];
    }

    /** `reap`: asks the worker to drain completions. */
    method Reap()
      requires Valid()
      modifies this`channel
      ensures Valid()
      ensures channel == old(channel) + [Signal.Reap]
    {
      Send(Signal.Reap);
    }

    /**
      `submit`: sends the entry with a fresh reply token and returns the
      token, which stands for the promise paired with it.
    */
    method Submit(entry: Submission) returns (promise: ReplyToken)
      requires Valid()
      modifies this
      ensures Valid()
      ensures channel == old(channel) + [Entry(entry, promise)]
      ensures promise.channel == old(nextToken) && nextToken == old(nextToken) + 1
      ensures forall i :: 0 <= i < |old(channel)| && old(channel)[i].Entry? ==> old(channel)[i].tx != promise
    {
      promise := NewPromise();
      Send(Entry(entry, promise));
    }

    /**
      `batch_submit`: submits the entries one at a time, in order; one
      promise per entry, each with its own token, none shared with a signal
      sent earlier.
    */
    method BatchSubmit(entries: seq<Submission>) returns (promises: seq<ReplyToken>)
      requires Valid()
      modifies this
      ensures Valid()
      ensures |promises| == |entries|
      ensures channel == old(channel) + EntrySignals(entries, promises)
      ensures forall i, j :: 0 <= i < j < |promises| ==> promises[i] != promises[j]
      ensures forall i :: 0 <= i < |promises| ==> old(nextToken) <= promises[i].channel < nextToken
      ensures forall i, k :: 0 <= i < |promises| && 0 <= k < |old(channel)| && old(channel)[k].Entry? ==> old(channel)[k].tx != promises[i]
    {
      promises := [];
      for n := 0 to |entries|
        invariant Valid()
        invariant |promises| == n
        invariant channel == old(channel) + EntrySignals(entries[..n], promises)
        invariant forall i :: 0 <= i < n ==> promises[i].channel == old(nextToken) + i
        invariant nextToken == old(nextToken) + n
      {
        var p := Submit(entries[n]);
        assert entries[..n + 1][..n] == entries[..n];
        assert (promises + [p])[..n] == promises;
        promises := promises + [p];
      }
      assert entries[..|entries|] == entries;
    }
  }
}
