# ring_promise, modelled in Dafny

ring_promise puts a correlation layer over a submission/completion ring. Many
callers submit entries through a cloneable sender handle. One worker thread
owns the ring and a registry. For each entry, the worker:

- allocates a 64-bit user-data id;
- stamps the id into the entry;
- registers the caller's one-shot reply channel under the id;
- pushes the entry; while the queue stays full, it reaps completions and
  notifies the backend between attempts.

Each completion the ring later reports is routed by its id to the reply
channel registered under that id.

The project has three modules:

- `Registry` (`registry.dfy`): the correlation registry, a class holding
  the map `senders` from user data to reply tokens and the wrapping counter
  `currUd`. The pure functions `CompleteOne` and `CompleteAll` specify what
  completing one entry, or a batch of entries, does to the map and which
  sends it makes. The class methods are proved against them. `send` on a
  one-shot channel is an append to the ghost log `deliveries`.
- `Worker` (`worker.dfy`): the worker's per-signal step and its loop over
  the channel. The ring is a class with:
  - a bounded submission queue, whose `Push` hands the entry back when the
    queue is full;
  - a backend that `Submit` hands the queue to;
  - a scripted sequence of completion batches, one per `completion()` call.

  The worker records its effects in a ghost trace of events (`Registered`,
  `Attempt`, `Notify`, `Drain`). The ring keeps its own ghost log `calls`,
  which `Push`, `Submit` and `Completions` extend themselves. The worker's
  invariant ties the two: the trace's pushes, notifications and drains are
  exactly the ring's calls since the worker took the ring over. The
  ordering properties are statements about the shape of each signal's
  segment of the trace. The registry is always what `Replay` computes from
  the trace.
- `Client` (`client.dfy`): the sending handle, which turns `submit` and
  `batch_submit` into `Entry` signals appended to the channel, each with a
  fresh reply token.

User data is an unbounded integer restricted to `[0, 2^64)`. The counter's
`wrapping_add(1)` is written out (`Wrap`).

The reply channel is registered before the first push (src/lib.rs:111), not
when the ring accepts the entry. `SignalShape` puts the `Registered` event
ahead of every `Attempt`.

## Model

| member | source | states |
|---|---|---|
| Registry.Wrap | src/registry.rs:34 | `wrapping_add(1)` on a u64 is `(x + 1) mod 2^64`, and it wraps to 0 exactly from `2^64 - 1` |
| Registry.CompleteOne | src/registry.rs:54-58 | completing one entry removes exactly its id from the keys and keeps every other sender. At most one send is made, and only if the id was a key. That send carries the entry to the sender registered under the id |
| Registry.CompleteAll | src/registry.rs:62-67 | a batch applies `complete` to each entry in order. Every key left afterwards maps to the sender it had before |
| Registry.CompleteAllKeys | src/registry.rs:62-67 | after a batch, the keys are the old keys minus the ids the batch carries |
| Registry.CompleteAllAppend | src/registry.rs:62-67 | completing `a + b` in one batch leaves the same map, and makes the same sends in the same order, as completing `a` and then `b` |
| Registry.UnmatchedNotDelivered | src/registry.rs:55-58 | no send of a batch carries an id that is not a key, or that no entry of the batch carries |
| Registry.UnmatchedChangesNothing | src/registry.rs:55-58 | a completion whose id is no longer a key when its turn comes is ignored: removing it from the batch leaves the same map and the same sends |
| Registry.FirstDeliveryWins | src/registry.rs:54-67 | when several entries of a batch share a registered id, the first of them is the only send for that id. It goes to the sender registered under the id |
| Registry.CompleteAllDeliversOnce | src/registry.rs:54-67 | every send of a batch: carries an entry of the batch; goes to the sender registered under that entry's id; removes that id from the map. No id is sent twice |
| Registry.BatchDeliversOnce | src/registry.rs:54-67 | a batch sends at most once for a registered id, and not at all if the id stays a key. It never sends for an id that is not a key |
| Registry.Registry.constructor | src/registry.rs:19-24 | a new registry has an empty map, counter 0 and no sends |
| Registry.Registry.CurrUd | src/registry.rs:27-29 | returns the counter and changes nothing |
| Registry.Registry.IncrUd | src/registry.rs:32-36 | returns the old counter and sets the counter to `(old + 1) mod 2^64`; the map is untouched |
| Registry.Registry.NextUuid | src/registry.rs:39-46 | returns an id that is not a key, namely the first such value counting up from the counter with wrap-around. Every value skipped over is a key. The counter ends just past the returned id and the map is unchanged. The loop terminates when fewer than 2^64 ids are in use |
| Registry.FirstFreeUnique | src/registry.rs:39-46 | the map and the counter determine the id `next_uuid` hands out: at most one value is the first free one counting up from the counter |
| Registry.Registry.Insert | src/registry.rs:49-51 | the id then maps to the given sender, overwriting any old one. Every other key keeps its sender, and the key set grows by that id alone |
| Registry.Registry.Complete | src/registry.rs:54-58 | the map and the send log become what `CompleteOne` says; the counter is untouched |
| Registry.Registry.BatchComplete | src/registry.rs:62-67 | the map and the send log become what `CompleteAll` says: each entry is completed in turn, in sequence order |
| Worker.ReplayCorrelates | src/lib.rs:98-111 | every key the registry holds maps to the token of its latest registration. Every send made so far answers a completion of some reap. It goes to the token of the latest registration of that completion's id before that reap |
| Worker.ReplayDeliversOnce | src/lib.rs:98-111 | for every id, the sends made for it, plus one if it is still a key, never exceed the number of times it was registered |
| Worker.ReplayKeys | src/lib.rs:98-111 | an id is a key of the registry exactly when it was registered and no reaped completion has carried it since |
| Worker.RetriesAccepted | src/lib.rs:119-128 | the refused pushes of the retry loop never put anything on the ring |
| Worker.RetriesCounts | src/lib.rs:119-128 | in the retry loop every push fails, and each failure is matched by exactly one reap and one notification |
| Worker.RetriesEntries | src/lib.rs:119-123 | the entry handed back by a failed push is the one retried, unchanged |
| Worker.EntryShapeFacts | src/lib.rs:114-133 | handling an entry puts exactly that entry on the ring, once. Pushes are one more than failures. Notifications are one more than failures, and reaps equal notifications. Every push is of the same entry |
| Worker.SignalAccepted | src/lib.rs:104-138 | a signal's segment puts on the ring exactly its stamped entry, or nothing for `Reap`. Each successful push is followed by one notification. `Reap` makes a drain and nothing else |
| Worker.RunAccepted | src/lib.rs:103-138 | over a run, the ring accepts exactly the stamped entries of the `Entry` signals, one each, in channel order. Notifications equal pushes |
| Worker.Ring.constructor | src/traits.rs:46-58 | a ring with the given capacity, queue, scripted completion batches and stall budget. Nothing has been handed to the backend yet, and no call is logged |
| Worker.Ring.Push | src/traits.rs:17-21 | with room, the entry is appended to the queue and `Pushed` is returned. When full, the same entry is handed back and the queue is unchanged. The attempt and its outcome are logged |
| Worker.Ring.Submit | src/traits.rs:37-41 | notifying the backend loses and adds no entry. A stalled backend leaves the queue as it is and uses up one stall; otherwise the backend takes the whole queue. One notification is logged |
| Worker.Ring.Completions | src/traits.rs:54-55 | the next scripted batch, which is removed from the script, or an empty batch once the script is used up. The drain is logged |
| Worker.FromScriptConsumes | src/traits.rs:54-55 | consecutive `completion()` calls drain the script from the front: the i-th drained batch is the script's i-th batch, or empty past its end, and what is left is the script without the batches drained |
| Worker.Worker.constructor | src/lib.rs:95-96 | the worker starts with the ring it is given, an empty registry with counter 0 and an empty trace. The ring's earlier calls are set aside |
| Worker.Worker.ReapCompletions | src/lib.rs:98-100 | the ring's next batch is taken, which advances the script by one, and completed into the registry. The ring logs exactly one drain of that batch, and no key is added |
| Worker.Worker.TryPush | src/lib.rs:119-120 | one push on the ring: accepted exactly when the queue has room, and the refused entry is handed back unchanged. The ring logs that one attempt |
| Worker.Worker.NotifyBackend | src/lib.rs:127-131 | one `submit()` on the ring, with the backend's stall and queue outcome. The ring logs one notification |
| Worker.Worker.RetryAfterFull | src/lib.rs:122-127 | after a refused push: one reap, then one notification, in that order on the ring's own log. The script advances by one batch, and the entries pushed onto the ring (handed over or still queued) are unchanged. A stalled backend uses up one stall; otherwise the queue is emptied |
| Worker.Worker.RetryOnce | src/lib.rs:119-127 | one round of the retry loop after a refusal: reap, notify, then push the handed-back entry again. The trace and the ring's log each grow by exactly that drain, notification and attempt. The batch drained is the script's next one, and the script loses it. A stalled backend uses up one stall; with no stall left the new push is accepted |
| Worker.RetryRound | src/lib.rs:119-127 | a refused push followed by one reap and one notification closes one more round of the retry loop, and the next attempt follows that round |
| Worker.Worker.PushUntilAccepted | src/lib.rs:114-128 | the entry is pushed until the ring accepts it. The ring then holds that entry once more. The ring's calls are retries followed by one successful push of that entry. The batches drained along the way are the script's next ones, in order, and the script loses exactly those |
| Worker.Worker.RegisterEntry | src/lib.rs:107-111 | the entry is stamped with the first id, counting up from the counter with wrap-around, that is not a key. The counter ends just past that id. The reply token is registered under the id and nothing else in the map changes |
| Worker.Worker.NotifyAndReap | src/lib.rs:131-133 | after the successful push: one notification, then one reap, in that order on the ring's own log. The script advances by one batch, and the stall and queue outcome is that of one `submit()` |
| Worker.Worker.PushAndReap | src/lib.rs:114-133 | the push part of the `Entry` branch: the ring gains exactly the given entry. The events are retries, one accepted push, one notification and one reap, and the ring's log grows by exactly those calls. Every batch drained is the script's next one, in order |
| Worker.Worker.SubmitEntry | src/lib.rs:105-134 | the `Entry` branch: the first free id counting up from the counter is registered with the entry's token before any push, and the counter ends just past it. The ring gains exactly the entry stamped with that id. The events have the shape `SignalShape` gives, the ring's log grows by exactly their ring calls, and every batch drained is the script's next one |
| Worker.Worker.Step | src/lib.rs:104-138 | one signal is handled as its branch prescribes, and the ring's log grows by exactly the segment's ring calls. Every batch drained is the script's next one. An `Entry` registers the first free id counting up from the counter, and the counter ends just past it. `Reap` leaves the queue, the entries handed over to the backend, the stall budget and the counter as they were |
| Worker.CounterStep | src/lib.rs:104-138 | handling one signal moves the counter just past the id an `Entry` registers; a `Reap` leaves it where it was |
| Worker.Worker.Run | src/lib.rs:103-141 | the signals are handled one at a time, in channel order, until the sequence is exhausted. The ring gains the stamped entries in signal order. Every segment has the shape its signal prescribes, and the ring's log grows by exactly the run's ring calls. The run's drains take the script's batches from the front, in order. Each `Entry` gets the first free id counting up from the counter at its turn, the counter ends just past the last id registered (`CounterAfter`), and no id is registered while it is still outstanding |
| Client.EntrySignals | src/lib.rs:189-197 | the signals of a batch: the i-th is `Entry(entries[i], tokens[i])` |
| Client.BatchStamped | src/lib.rs:189-197 | a batch handled by the worker puts one entry per input on the ring, in input order. Each carries its input's payload and the id under which that input's own reply token was registered |
| Client.Sender.constructor | src/lib.rs:77-81 | a new handle has an empty channel |
| Client.Sender.NewPromise | src/lib.rs:147-151 | a reply token different from every token already sent on the channel |
| Client.Sender.Send | src/lib.rs:155-157 | the signal is appended to the channel. An `Entry` carries a token the handle has already handed out, so every token on the channel still comes from the token source |
| Client.Sender.Reap | src/lib.rs:161-163 | one `Reap` signal is appended to the channel |
| Client.Sender.Submit | src/lib.rs:173-178 | one `Entry` signal is appended, carrying the entry and a fresh token; that token is what the caller gets back |
| Client.Sender.BatchSubmit | src/lib.rs:189-197 | one promise per input entry, in input order. Each entry is sent as its own `Entry` signal with its promise's token, and the tokens are pairwise distinct and new to the channel |

## Left out

- Threads, `mpsc::channel` and the lifetime of the sender and receiver (src/lib.rs:77-81): the channel is a plain sequence of signals. `Worker.Run` consumes it and `Client.Sender` appends to it. The two are not connected by a shared object.
- The laziness of `promisery::Promise`, `oneshot::channel` and `RecvError` (src/lib.rs:147-151) are library behaviour, so they are not modelled. A promise is represented by its reply token, and `send` is an append to a ghost log.
- The panic of `send(...).unwrap()` once the worker has exited (src/lib.rs:156) is a runtime failure of an external primitive, so it is not modelled.
- The `Clone`, `Send` and `'static` bounds, and the thread spawning in `PRingSender::new`, are type-system and thread concerns, so they are not modelled.
- `HashMap` internals: a mathematical map stands in.
- The concrete ring types behind the traits in src/traits.rs are not part of this model. The ring is one abstract class with a bounded queue, a backend, and completions scripted as parameters.
- Registry.Registry.NextUuid: requires fewer than 2^64 keys. With every id in use, the source loops forever.
- Worker.Worker.PushUntilAccepted: termination rests on two assumptions about the ring. `stalls` counts the notifications that fail to free the queue, and after those the backend takes the queue. The queue's capacity is positive (`Ring.Valid`). The source loops for as long as the backend refuses, and forever on a queue of capacity 0 (src/lib.rs:119).
- Worker.Worker.Run: requires the number of keys plus the number of signals to stay below 2^64, so that `NextUuid` can always find a free id.
- Client.Sender.Send: requires an `Entry`'s token to be one the handle's `new_promise` has handed out. In the source any `oneshot::Sender` may be passed, and a channel made elsewhere can never equal a later promise's; the model's tokens are numbers from one counter, so a token from outside the counter is not modelled.
- Entry payloads are an opaque `op` field, and completions carry an integer `result`; only the user-data fields are read.

