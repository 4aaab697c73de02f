/**
 * The update pipeline: producers push group-update messages into a bounded channel without ever
 * blocking (a message that does not fit is dropped), and a single worker drains the channel in
 * order, running each request through fetch, merge-and-sign and publish, until it meets `Stop`.
 *
 * The asynchronous channel and future chains are flattened into sequential code: the channel is
 * a class holding its buffer, and `Run` drains what is queued. The functions `UpdateLog`,
 * `BatchLog` and `Drain` state what one request, one bulk message and one drain do to the
 * store's record of calls; the methods are proved against them.
 */
module Updater {
  import opened Outcomes
  import opened Schema
  import opened Groups
  import opened Store

  datatype GroupUpdate = GroupUpdate(userId: string, groups: seq<string>)

  datatype UpdateMessage =
    | Update(request: GroupUpdate)
    | Bulk(requests: seq<GroupUpdate>)
    | Stop

  /** The bound of the channel between producers and the worker. */
  const CHANNEL_CAPACITY: nat := 100

  // ---------------------------------------------------------------------------------------
  // One request: fetch, merge and sign, publish

  /** The calls one request makes on the store. */
  function UpdateLog(config: StoreConfig, log: StoreLog, request: GroupUpdate, now: string): (after: StoreLog)
    ensures after.fetched == log.fetched + [request.userId]
    ensures log.published <= after.published && |after.published| <= |log.published| + 1
  {
    var afterFetch := log.(fetched := log.fetched + [request.userId]);
    if request.userId !in config.profiles then afterFetch
    else match UpdatedGroups(config.profiles[request.userId], request.groups, config.signer, now)
      case Err(_) => afterFetch
      case Ok(profile) => afterFetch.(published := afterFetch.published + [Publish(request.userId, profile)])
  }

  /**
   * Runs one request. Every failure is logged and swallowed, so the request always reports
   * that it was processed.
   */
  method ProcessUpdate(store: FakeStore, request: GroupUpdate, now: string) returns (processed: bool)
    modifies store
    ensures store.log == UpdateLog(store.config, old(store.log), request, now)
    ensures processed
  {
    var fetched := store.GetUserBy(request.userId);
    if fetched.Ok? {
      var updated := UpdateGroups(fetched.value, request.groups, store.config.signer, now);
      if updated.Ok? {
        var published := store.UpdateUser(request.userId, updated.value);
      }
    }
    processed := true;
  }

  /**
   * A request fetches its own user id; a failed fetch publishes nothing, a failed merge-and-sign
   * publishes nothing, and otherwise exactly the merged profile is published under that user id.
   */
  lemma UpdateFlow(config: StoreConfig, log: StoreLog, request: GroupUpdate, now: string)
    ensures var after := UpdateLog(config, log, request, now);
      && after.fetched == log.fetched + [request.userId]
      && (request.userId !in config.profiles ==> after.published == log.published)
      && (request.userId in config.profiles ==>
            var r := UpdatedGroups(config.profiles[request.userId], request.groups, config.signer, now);
            && (r.Err? ==> after.published == log.published)
            && (r.Ok? ==> after.published == log.published + [Publish(request.userId, r.value)]))
  {
  }

  // ---------------------------------------------------------------------------------------
  // A bulk message: the requests one after another

  /** The calls a bulk message makes: its requests in order. */
  function BatchLog(config: StoreConfig, log: StoreLog, requests: seq<GroupUpdate>, now: string): StoreLog
    decreases |requests|
  {
    if requests == [] then log
    else BatchLog(config, UpdateLog(config, log, requests[0], now), requests[1..], now)
  }

  /** The user ids of a list of requests, in order. */
  function UserIds(requests: seq<GroupUpdate>): (ids: seq<string>)
    ensures |ids| == |requests|
    ensures forall i :: 0 <= i < |requests| ==> ids[i] == requests[i].userId
  {
    if requests == [] then [] else [requests[0].userId] + UserIds(requests[1..])
  }

  /**
   * Runs the requests of a bulk message in order, counting them. The early stop on a request
   * that reports failure is kept, but never fires: every request reports that it was processed.
   * `count` is the figure the service logs as "bulk updated count/len".
   */
  method UpdateBatch(store: FakeStore, requests: seq<GroupUpdate>, now: string) returns (processed: bool, count: nat)
    modifies store
    ensures store.log == BatchLog(store.config, old(store.log), requests, now)
    ensures processed && count == |requests|
  {
    count := 0;
    while count < |requests|
      invariant count <= |requests|
      invariant store.log == BatchLog(store.config, old(store.log), requests[..count], now)
    {
      var b := ProcessUpdate(store, requests[count], now);
      if !b {
        break;
      }
      BatchLogSplit(store.config, old(store.log), requests[..count], [requests[count]], now);
      assert requests[..count] + [requests[count]] == requests[..count + 1];
      count := count + 1;
    }
    assert requests[..count] == requests;
    processed := true;
  }

  /** Running two lists of requests back to back is running their concatenation. */
  lemma {:induction false} BatchLogSplit(config: StoreConfig, log: StoreLog, first: seq<GroupUpdate>,
                                         second: seq<GroupUpdate>, now: string)
    ensures BatchLog(config, log, first + second, now) == BatchLog(config, BatchLog(config, log, first, now), second, now)
    decreases |first|
  {
    if first != [] {
      assert (first + second)[0] == first[0];
      assert (first + second)[1..] == first[1..] + second;
      BatchLogSplit(config, UpdateLog(config, log, first[0], now), first[1..], second, now);
    } else {
      assert first + second == second;
    }
  }

  /** A bulk message fetches each of its requests' user ids exactly once, in order. */
  lemma {:induction false} BatchFetchesInOrder(config: StoreConfig, log: StoreLog, requests: seq<GroupUpdate>, now: string)
    ensures BatchLog(config, log, requests, now).fetched == log.fetched + UserIds(requests)
    decreases |requests|
  {
    if requests != [] {
      var next := UpdateLog(config, log, requests[0], now);
      BatchFetchesInOrder(config, next, requests[1..], now);
      assert UserIds(requests) == [requests[0].userId] + UserIds(requests[1..]);
    }
  }

  // ---------------------------------------------------------------------------------------
  // The worker's drain loop

  /** What a drain leaves behind: the store's record, the message counter, and whether `Stop` was met. */
  datatype Drained = Drained(log: StoreLog, processed: nat, stopped: bool)

  /**
   * Draining a queue from a counter value: messages are handled first to last, each non-`Stop`
   * message adds one to the counter, and `Stop` ends the drain.
   */
  function Drain(config: StoreConfig, log: StoreLog, processed: nat, queue: seq<UpdateMessage>, now: string): Drained
    decreases |queue|
  {
    if queue == [] then Drained(log, processed, false)
    else if queue[0].Stop? then Drained(log, processed, true)
    else Drain(config, Handle(config, log, queue[0], now), processed + 1, queue[1..], now)
  }

  /** The calls handling one message makes: a single request, a bulk message's requests, or none for `Stop`. */
  function Handle(config: StoreConfig, log: StoreLog, message: UpdateMessage, now: string): StoreLog {
    match message
    case Update(request) => UpdateLog(config, log, request, now)
    case Bulk(requests) => BatchLog(config, log, requests, now)
    case Stop => log
  }

  /** Handling a message fetches the user ids of the requests it carries, in order. */
  lemma HandleFetchesInOrder(config: StoreConfig, log: StoreLog, message: UpdateMessage, now: string)
    ensures Handle(config, log, message, now).fetched == log.fetched + UserIds(Requests(message))
  {
    match message {
      case Update(request) =>
      case Bulk(requests) => BatchFetchesInOrder(config, log, requests, now);
      case Stop =>
    }
  }

  /** The position of the first `Stop` in a queue, or its length when there is none. */
  function FirstStop(queue: seq<UpdateMessage>): (k: nat)
    ensures k <= |queue|
    ensures k < |queue| ==> queue[k].Stop?
    ensures forall i :: 0 <= i < k ==> !queue[i].Stop?
  {
    if queue == [] then 0 else if queue[0].Stop? then 0 else 1 + FirstStop(queue[1..])
  }

  /** The requests a message carries: one, the bulk list, or none for `Stop`. */
  function Requests(message: UpdateMessage): seq<GroupUpdate> {
    match message
    case Update(request) => [request]
    case Bulk(requests) => requests
    case Stop => []
  }

  /** The requests of the messages before the first `Stop`, in queue order. */
  function Pending(queue: seq<UpdateMessage>): seq<GroupUpdate>
    decreases |queue|
  {
    if queue == [] || queue[0].Stop? then [] else Requests(queue[0]) + Pending(queue[1..])
  }

  /**
   * The counter grows by exactly one per message before the first `Stop` (a bulk message counts
   * once), and the drain reports a stop exactly when the queue holds a `Stop`.
   */
  lemma {:induction false} DrainCounts(config: StoreConfig, log: StoreLog, processed: nat, queue: seq<UpdateMessage>, now: string)
    ensures Drain(config, log, processed, queue, now).processed == processed + FirstStop(queue)
    ensures Drain(config, log, processed, queue, now).stopped <==> Stop in queue
    decreases |queue|
  {
    if queue != [] && !queue[0].Stop? {
      var rest := queue[1..];
      assert queue == [queue[0]] + rest;
      DrainCounts(config, Handle(config, log, queue[0], now), processed + 1, rest, now);
    }
  }

  /** Nothing queued after a `Stop` is ever handled. */
  lemma {:induction false} DrainIgnoresAfterStop(config: StoreConfig, log: StoreLog, processed: nat,
                                                 before: seq<UpdateMessage>, after: seq<UpdateMessage>, now: string)
    ensures Drain(config, log, processed, before + [Stop] + after, now) == Drain(config, log, processed, before + [Stop], now)
    decreases |before|
  {
    var q1, q2 := before + [Stop] + after, before + [Stop];
    if before == [] {
      assert q1 == [Stop] + after && q2 == [Stop];
    } else {
      assert q1[0] == before[0] && q2[0] == before[0];
      assert q1[1..] == before[1..] + [Stop] + after;
      assert q2[1..] == before[1..] + [Stop];
      if !before[0].Stop? {
        DrainIgnoresAfterStop(config, Handle(config, log, before[0], now), processed + 1, before[1..], after, now);
      }
    }
  }

  /**
   * First in, first out: when the first part of a queue holds no `Stop`, draining the whole
   * queue is draining the first part and then the second from where it left off.
   */
  lemma {:induction false} DrainInOrder(config: StoreConfig, log: StoreLog, processed: nat,
                                        first: seq<UpdateMessage>, second: seq<UpdateMessage>, now: string)
    requires forall i :: 0 <= i < |first| ==> !first[i].Stop?
    ensures var d := Drain(config, log, processed, first, now);
      Drain(config, log, processed, first + second, now) == Drain(config, d.log, d.processed, second, now)
    decreases |first|
  {
    if first != [] {
      var q := first + second;
      assert q[0] == first[0] && q[1..] == first[1..] + second;
      DrainInOrder(config, Handle(config, log, first[0], now), processed + 1, first[1..], second, now);
    } else {
      assert first + second == second;
    }
  }

  /** A drain fetches the user id of every request before the first `Stop` exactly once, in queue order. */
  lemma {:induction false} DrainFetchesInOrder(config: StoreConfig, log: StoreLog, processed: nat,
                                               queue: seq<UpdateMessage>, now: string)
    ensures Drain(config, log, processed, queue, now).log.fetched == log.fetched + UserIds(Pending(queue))
    decreases |queue|
  {
    if queue != [] && !queue[0].Stop? {
      var rest := queue[1..];
      var next := Handle(config, log, queue[0], now);
      HandleFetchesInOrder(config, log, queue[0], now);
      DrainFetchesInOrder(config, next, processed + 1, rest, now);
      UserIdsAppend(Requests(queue[0]), Pending(rest));
    }
  }

  lemma UserIdsAppend(a: seq<GroupUpdate>, b: seq<GroupUpdate>)
    ensures UserIds(a + b) == UserIds(a) + UserIds(b)
  {
    assert forall i :: 0 <= i < |a + b| ==> UserIds(a + b)[i] == (UserIds(a) + UserIds(b))[i];
  }

  // ---------------------------------------------------------------------------------------
  // What reaches the store

  /** A published profile carries a verified, `mozilliansorg`-published attribute with values present. */
  predicate Stamped(publish: Publish) {
    var attr := publish.profile.accessInformation.mozilliansorg;
    attr.metadata.verified && attr.signature.publisher.name == Mozilliansorg && attr.values.Some?
  }

  /** Every publish in the record is stamped and was preceded by a fetch for the same user. */
  predicate Consistent(log: StoreLog) {
    forall i :: 0 <= i < |log.published| ==> Stamped(log.published[i]) && log.published[i].userId in log.fetched
  }

  /** The record only grows: both call lists of `log` are prefixes of those of `later`. */
  predicate Extends(log: StoreLog, later: StoreLog) {
    log.fetched <= later.fetched && log.published <= later.published
  }

  lemma UpdateKeepsConsistent(config: StoreConfig, log: StoreLog, request: GroupUpdate, now: string)
    requires Consistent(log)
    ensures Consistent(UpdateLog(config, log, request, now))
    ensures Extends(log, UpdateLog(config, log, request, now))
  {
    var after := UpdateLog(config, log, request, now);
    if request.userId in config.profiles {
      var r := UpdatedGroups(config.profiles[request.userId], request.groups, config.signer, now);
      if r.Ok? {
        UpdateGroupsStampsMetadata(config.profiles[request.userId], request.groups, config.signer, now);
        UpdateGroupsSetsValues(config.profiles[request.userId], request.groups, config.signer, now);
      }
    }
    forall i | 0 <= i < |log.published| ensures log.published[i].userId in after.fetched {
      assert log.published[i].userId in log.fetched;
    }
  }

  lemma {:induction false} BatchKeepsConsistent(config: StoreConfig, log: StoreLog, requests: seq<GroupUpdate>, now: string)
    requires Consistent(log)
    ensures Consistent(BatchLog(config, log, requests, now))
    ensures Extends(log, BatchLog(config, log, requests, now))
    decreases |requests|
  {
    if requests != [] {
      var next := UpdateLog(config, log, requests[0], now);
      UpdateKeepsConsistent(config, log, requests[0], now);
      BatchKeepsConsistent(config, next, requests[1..], now);
    }
  }

  /**
   * Failure isolation at the store: a drain only appends to the record, and everything it
   * publishes is a stamped profile for a user it fetched first.
   */
  lemma {:induction false} DrainKeepsConsistent(config: StoreConfig, log: StoreLog, processed: nat,
                                                queue: seq<UpdateMessage>, now: string)
    requires Consistent(log)
    ensures Consistent(Drain(config, log, processed, queue, now).log)
    ensures Extends(log, Drain(config, log, processed, queue, now).log)
    decreases |queue|
  {
    if queue != [] && !queue[0].Stop? {
      var next := Handle(config, log, queue[0], now);
      match queue[0] {
        case Update(request) => UpdateKeepsConsistent(config, log, request, now);
        case Bulk(requests) => BatchKeepsConsistent(config, log, requests, now);
      }
      DrainKeepsConsistent(config, next, processed + 1, queue[1..], now);
    }
  }

  // ---------------------------------------------------------------------------------------
  // Worked cases

  /** Three single updates are fetched in the order they were queued. */
  lemma ThreeUpdatesInOrder(config: StoreConfig, log: StoreLog, processed: nat, u1: GroupUpdate, u2: GroupUpdate,
                            u3: GroupUpdate, now: string)
    ensures var d := Drain(config, log, processed, [Update(u1), Update(u2), Update(u3)], now);
      d.log.fetched == log.fetched + [u1.userId, u2.userId, u3.userId] && d.processed == processed + 3 && !d.stopped
  {
    var q := [Update(u1), Update(u2), Update(u3)];
    DrainFetchesInOrder(config, log, processed, q, now);
    DrainCounts(config, log, processed, q, now);
    assert Pending(q) == [u1, u2, u3] by {
      var q2, q3 := [Update(u2), Update(u3)], [Update(u3)];
      assert q[1..] == q2 && q2[1..] == q3 && q3[1..] == [];
      assert Pending(q3) == [u3];
      assert Pending(q2) == [u2, u3];
    }
  }

  /** An update queued behind `Stop` is never fetched. */
  lemma UpdateAfterStopIgnored(config: StoreConfig, log: StoreLog, processed: nat, u1: GroupUpdate,
                               u2: GroupUpdate, now: string)
    ensures var d := Drain(config, log, processed, [Update(u1), Stop, Update(u2)], now);
      d.log.fetched == log.fetched + [u1.userId] && d.processed == processed + 1 && d.stopped
  {
    var q := [Update(u1), Stop, Update(u2)];
    assert q[1..] == [Stop, Update(u2)];
  }

  // ---------------------------------------------------------------------------------------
  // The bounded channel

  /** What `try_send` reports: the message went in, or the channel was full, or its receiver was gone. */
  datatype SendResult = Sent | Full | Closed

  /** The admission rule: a closed channel refuses everything; an open one takes messages up to its capacity. */
  function Admit(closed: bool, length: nat, capacity: nat): (r: SendResult)
    ensures r == Sent <==> !closed && length < capacity
  {
    if closed then Closed else if length < capacity then Sent else Full
  }

  /** The channel shared by every producer handle and the worker. */
  class Channel {
    const capacity: nat
    var buffer: seq<UpdateMessage>
    var closed: bool

    /** The buffer stays within its bound; once the receiver is gone nothing is buffered. */
    ghost predicate Valid()
      reads this
    {
      |buffer| <= capacity && (closed ==> buffer == [])
    }

    constructor (capacity: nat)
      ensures Valid() && this.capacity == capacity && buffer == [] && !closed
    {
      this.capacity := capacity;
      buffer := [];
      closed := false;
    }

    /** Never blocks: the message is appended at the tail if admitted and dropped otherwise. */
    method TrySend(message: UpdateMessage) returns (r: SendResult)
      requires Valid()
      modifies this
      ensures Valid() && closed == old(closed)
      ensures r == Admit(old(closed), |old(buffer)|, capacity)
      ensures buffer == if r == Sent then old(buffer) + [message] else old(buffer)
    {
      r := Admit(closed, |buffer|, capacity);
      if r == Sent {
        buffer := buffer + [message];
      }
    }

    /** Takes the oldest message, or reports that nothing is queued (where the worker would wait). */
    method Recv() returns (message: Option<UpdateMessage>)
      requires Valid()
      modifies this
      ensures Valid() && closed == old(closed)
      ensures old(buffer) == [] ==> message.None? && buffer == []
      ensures old(buffer) != [] ==> message == Some(old(buffer)[0]) && buffer == old(buffer)[1..]
    {
      if buffer == [] {
        message := None;
      } else {
        message := Some(buffer[0]);
        buffer := buffer[1..];
      }
    }

    /** The receiver is dropped: queued messages are discarded and later sends are refused. */
    method Close()
      modifies this
      ensures Valid() && closed && buffer == []
    {
      closed := true;
      buffer := [];
    }
  }

  /** What a send through the handle's lock yields: the lock was poisoned, or `try_send` ran with this outcome. */
  datatype LockedSend = Poisoned | Locked(sent: SendResult)

  /** The handle's warning condition as written: only a poisoned lock is reported. */
  predicate WarnsAsWritten(attempt: LockedSend) {
    attempt.Poisoned?
  }

  /** The warning condition the handle evidently intends: any message that did not go in is reported. */
  predicate Warns(attempt: LockedSend) {
    attempt.Poisoned? || attempt.sent != Sent
  }

  /** As written, a message refused by a full or closed channel is dropped without any warning. */
  lemma DroppedSilentlyAsWritten(closed: bool, length: nat, capacity: nat)
    requires closed || length >= capacity
    ensures var attempt := Locked(Admit(closed, length, capacity));
      attempt.sent != Sent && !WarnsAsWritten(attempt)
  {
  }

  /** With the corrected condition a warning is given exactly when the message is dropped. */
  lemma WarnsExactlyWhenDropped(closed: bool, length: nat, capacity: nat)
    ensures Warns(Locked(Admit(closed, length, capacity))) <==> !(!closed && length < capacity)
  {
  }

  /** A producer handle: every handle made by `InternalUpdater.Client` feeds the updater's one channel. */
  class InternalUpdaterClient {
    const channel: Channel

    constructor (channel: Channel)
      ensures this.channel == channel
    {
      this.channel := channel;
    }

    /**
     * Offers a message without blocking: it is appended at the tail when the channel is open and
     * not full, and dropped otherwise. `warned` is the corrected warning condition `Warns`.
     */
    method Update(message: UpdateMessage) returns (warned: bool)
      requires channel.Valid()
      modifies channel
      ensures channel.Valid() && channel.closed == old(channel.closed)
      ensures var admitted := Admit(old(channel.closed), |old(channel.buffer)|, channel.capacity) == Sent;
        && channel.buffer == (if admitted then old(channel.buffer) + [message] else old(channel.buffer))
        && (warned <==> !admitted)
    {
      var sent := channel.TrySend(message);
      warned := Warns(Locked(sent));
    }

    /**
     * The handle as written: the same send, but only a poisoned lock is reported, so a message
     * refused by a full or closed channel is dropped with no warning.
     */
    method UpdateAsWritten(message: UpdateMessage) returns (warned: bool)
      requires channel.Valid()
      modifies channel
      ensures channel.Valid() && channel.closed == old(channel.closed)
      ensures var admitted := Admit(old(channel.closed), |old(channel.buffer)|, channel.capacity) == Sent;
        && channel.buffer == (if admitted then old(channel.buffer) + [message] else old(channel.buffer))
        && !warned
    {
      var sent := channel.TrySend(message);
      warned := WarnsAsWritten(Locked(sent));
    }

    /** Offers `Stop` through the same channel, under the same drop rule and corrected warning. */
    method Stop() returns (warned: bool)
      requires channel.Valid()
      modifies channel
      ensures channel.Valid() && channel.closed == old(channel.closed)
      ensures var admitted := Admit(old(channel.closed), |old(channel.buffer)|, channel.capacity) == Sent;
        && channel.buffer == (if admitted then old(channel.buffer) + [UpdateMessage.Stop] else old(channel.buffer))
        && (warned <==> !admitted)
    {
      var sent := channel.TrySend(UpdateMessage.Stop);
      warned := Warns(Locked(sent));
    }
  }

  /** The worker: the receiving end of the channel, the store client, and the loop's counter. */
  class InternalUpdater {
    const store: FakeStore
    const channel: Channel
    var processed: nat
    var stopped: bool

    /** The channel has the fixed bound and is closed exactly when the worker has stopped. */
    ghost predicate Valid()
      reads this, channel
    {
      channel.Valid() && channel.capacity == CHANNEL_CAPACITY && channel.closed == stopped
    }

    constructor (store: FakeStore)
      ensures Valid() && this.store == store && fresh(channel)
      ensures channel.buffer == [] && processed == 0 && !stopped
    {
      this.store := store;
      channel := new Channel(CHANNEL_CAPACITY);
      processed := 0;
      stopped := false;
    }

    /** A new producer handle on this worker's channel. */
    method Client() returns (client: InternalUpdaterClient)
      ensures fresh(client) && client.channel == channel
    {
      client := new InternalUpdaterClient(channel);
    }

    /**
     * Drains the channel one message at a time, oldest first, until it meets `Stop` (the channel
     * is then closed) or nothing is queued (where the service's loop would wait for more).
     */
    method Run(now: string)
      requires Valid()
      modifies this, channel, store
      ensures Valid() && channel.buffer == []
      ensures var d := Drain(store.config, old(store.log), old(processed), old(channel.buffer), now);
        && store.log == d.log && processed == d.processed
        && stopped == (old(stopped) || d.stopped)
    {
      ghost var target := Drain(store.config, store.log, processed, channel.buffer, now);
      while !stopped
        invariant Valid()
        invariant target == Drain(store.config, old(store.log), old(processed), old(channel.buffer), now)
        invariant !stopped ==> Drain(store.config, store.log, processed, channel.buffer, now) == target
        invariant stopped ==> store.log == target.log && processed == target.processed
        invariant stopped ==> old(stopped) || target.stopped
        invariant old(stopped) ==> stopped
        invariant stopped ==> channel.buffer == []
        decreases |channel.buffer|
      {
        var next := channel.Recv();
        if next.None? {
          break;
        }
        var b: bool;
        match next.value {
          case Update(request) =>
            b := ProcessUpdate(store, request, now);
          case Bulk(requests) =>
            var count;
            b, count := UpdateBatch(store, requests, now);
          case Stop =>
            b := false;
        }
        if b {
          processed := processed + 1;
        } else {
          stopped := true;
          channel.Close();
        }
      }
    }
  }
}
