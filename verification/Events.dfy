/** The event bus and its bounded, drop-oldest subscriptions (core/events.py). */
module Events {
  import opened Common

  datatype Event = Event(id: nat, kind: string, taskId: Option<string>)

  predicate Matches(e: Event, kinds: Option<set<string>>, taskId: Option<string>) {
    && (kinds.Some? ==> e.kind in kinds.value)
    && (taskId.Some? ==> e.taskId == taskId)
  }

  // ---- who got what

  /** The events at the places marked true, in order. */
  function Selected(events: seq<Event>, marks: seq<bool>): seq<Event>
    requires |events| == |marks|
  {
    if marks == [] then []
    else
      var n := |marks| - 1;
      Selected(events[..n], marks[..n]) + if marks[n] then [events[n]] else []
  }

  function Lost(marks: seq<bool>): nat {
    if marks == [] then 0 else Lost(marks[..|marks| - 1]) + if marks[|marks| - 1] then 0 else 1
  }

  /** Where the selected events stood. */
  function Places(marks: seq<bool>): seq<nat> {
    if marks == [] then []
    else Places(marks[..|marks| - 1]) + if marks[|marks| - 1] then [|marks| - 1] else []
  }

  /** A selection is a subsequence, and what was not lost was selected. */
  lemma {:induction false} SelectedIsSubsequence(events: seq<Event>, marks: seq<bool>)
    requires |events| == |marks|
    ensures |Places(marks)| == |Selected(events, marks)|
    ensures forall i :: 0 <= i < |Places(marks)| ==> Places(marks)[i] < |events|
    ensures forall i, j :: 0 <= i < j < |Places(marks)| ==> Places(marks)[i] < Places(marks)[j]
    ensures forall i :: 0 <= i < |Places(marks)| ==> Selected(events, marks)[i] == events[Places(marks)[i]]
    ensures |Selected(events, marks)| + Lost(marks) == |events|
  {
    if marks != [] {
      SelectedIsSubsequence(events[..|marks| - 1], marks[..|marks| - 1]);
    }
  }

  lemma SelectedSnoc(events: seq<Event>, marks: seq<bool>, e: Event, mark: bool)
    requires |events| == |marks|
    ensures Selected(events + [e], marks + [mark])
            == if mark then Selected(events, marks) + [e] else Selected(events, marks)
    ensures Lost(marks + [mark]) == Lost(marks) + if mark then 0 else 1
  {
    assert (marks + [mark])[..|marks|] == marks && (events + [e])[..|marks|] == events;
  }

  /** What a consumer's `get` gives: an event, the end, or a wait. */
  datatype Got = Next(event: Event) | End | Waiting

  class Subscription {
    const kinds: Option<set<string>>
    const taskId: Option<string>
    const maxsize: int        // no bound unless positive
    var queue: seq<Option<Event>>
    var dropped: nat
    var closed: bool
    ghost var accepted: seq<Event>
    ghost var settled: seq<bool>     // of the first accepted events: delivered, or dropped
    ghost var delivered: seq<Event>

    predicate Full()
      reads this
    {
      maxsize > 0 && |queue| >= maxsize
    }

    /** The end marker is in the queue. */
    predicate Marked()
      reads this
    {
      queue != [] && queue[|queue| - 1] == None
    }

    /** Accepted and neither delivered nor dropped. */
    ghost function Outstanding(): seq<Event>
      requires |settled| <= |accepted|
      reads this
    {
      accepted[|settled|..]
    }

    /** Each accepted event was delivered, was dropped, or is in the queue; the
        queue is the latest of them, within its bound, and the marker after them;
        what was delivered was delivered in order. */
    ghost predicate Valid()
      reads this
    {
      && |settled| <= |accepted|
      && (maxsize > 0 ==> |queue| <= maxsize)
      && (Marked() ==> closed)
      && |queue| == |Outstanding()| + (if Marked() then 1 else 0)
      && (forall i :: 0 <= i < |Outstanding()| ==> queue[i] == Some(Outstanding()[i]))
      && delivered == Selected(accepted[..|settled|], settled)
      && dropped == Lost(settled)
    }

    constructor (kinds: Option<set<string>>, taskId: Option<string>, maxsize: int)
      ensures Valid() && queue == [] && accepted == [] && delivered == [] && !closed
      ensures this.kinds == kinds && this.taskId == taskId && this.maxsize == maxsize
    {
      this.kinds, this.taskId, this.maxsize := kinds, taskId, maxsize;
      queue, dropped, closed := [], 0, false;
      accepted, settled, delivered := [], [], [];
    }

    /** The head of the queue is delivered or dropped. */
    ghost method Settle(mark: bool)
      requires |settled| < |accepted|
      requires delivered == Selected(accepted[..|settled|], settled)
      modifies this`settled, this`delivered
      ensures settled == old(settled) + [mark]
      ensures delivered == Selected(accepted[..|settled|], settled)
      ensures delivered == if mark then old(delivered) + [accepted[|old(settled)|]] else old(delivered)
      ensures Lost(settled) == Lost(old(settled)) + if mark then 0 else 1
    {
      hide Selected, Lost;
      var n := |settled|;
      assert accepted[..n + 1] == accepted[..n] + [accepted[n]];
      SelectedSnoc(accepted[..n], settled, accepted[n], mark);
      if mark {
        delivered := delivered + [accepted[n]];
      }
      settled := settled + [mark];
    }

    /** Never blocks: a full queue gives up its oldest event. */
    method Offer(e: Event) returns (taken: bool)
      requires Valid()
      modifies this`queue, this`dropped, this`accepted, this`settled, this`delivered
      ensures Valid() && delivered == old(delivered)
      ensures taken <==>
                !closed && (kinds.Some? ==> e.kind in kinds.value) && (taskId.Some? ==> e.taskId == taskId)
      ensures taken ==> accepted == old(accepted) + [e] && queue != [] && queue[|queue| - 1] == Some(e)
      ensures taken ==>
                if maxsize > 0 && |old(queue)| >= maxsize then
                  dropped == old(dropped) + 1 && queue == old(queue)[1..] + [Some(e)]
                else dropped == old(dropped) && queue == old(queue) + [Some(e)]
      ensures !taken ==> accepted == old(accepted) && queue == old(queue) && dropped == old(dropped)
    {
      hide Selected, Lost;
      if closed || !Matches(e, kinds, taskId) {
        return false;
      }
      accepted := accepted + [e];
      assert accepted[..|settled|] == old(accepted)[..|settled|];
      if Full() {
        queue, dropped := queue[1..], dropped + 1;
        Settle(false);
      }
      queue := queue + [Some(e)];
      return true;
    }

    /** The oldest event, or the end; with nothing there the consumer waits. */
    method Get() returns (got: Got)
      requires Valid()
      modifies this`queue, this`settled, this`delivered
      ensures Valid() && accepted == old(accepted) && dropped == old(dropped)
      ensures old(Outstanding()) == (if got.Next? then [got.event] else []) + Outstanding()
      ensures match got
              case Next(e) => delivered == old(delivered) + [e] && old(queue) == [Some(e)] + queue
              case End => old(queue) == [None] && queue == [] && closed && delivered == old(delivered) == delivered
              case Waiting => old(queue) == [] == queue && delivered == old(delivered)
    {
      hide Selected, Lost;
      if queue == [] {
        return Waiting;
      }
      var head := queue[0];
      queue := queue[1..];
      if head == None {
        return End;
      }
      Settle(true);
      return Next(head.value);
    }

    /** The marker joins a queue that has room, and is lost on one that has not. */
    method Close()
      requires Valid()
      modifies this`queue, this`closed
      ensures Valid() && closed
      ensures queue == old(queue) + if old(closed) || (maxsize > 0 && |old(queue)| >= maxsize) then [] else [None]
    {
      if closed {
        return;
      }
      closed := true;
      if !Full() {
        queue := queue + [None];
      }
    }

    /** Iterate to the end, or until there is nothing to wait for but the end:
        exactly the outstanding events come out, in order; and the end comes if and
        only if its marker is in the queue. */
    method Drain() returns (events: seq<Event>, ended: bool)
      requires Valid()
      modifies this`queue, this`settled, this`delivered
      ensures Valid() && queue == [] && accepted == old(accepted) && dropped == old(dropped)
      ensures events == old(Outstanding()) && delivered == old(delivered) + events
      ensures ended <==> old(queue) != [] && old(queue)[|old(queue)| - 1] == None
    {
      hide Selected, Lost;
      events := [];
      ghost var left, before := Outstanding(), delivered;
      while true
        invariant Valid() && accepted == old(accepted) && dropped == old(dropped)
        invariant events + Outstanding() == left && delivered == before + events
        invariant Marked() == old(Marked())
        decreases |queue|
      {
        var got := Get();
        if !got.Next? {
          return events, got.End?;
        }
        OneMoreOut(before, events, got.event, Outstanding());
        events := events + [got.event];
      }
    }
  }

  lemma OneMoreOut(before: seq<Event>, events: seq<Event>, e: Event, rest: seq<Event>)
    ensures (events + [e]) + rest == events + ([e] + rest)
    ensures before + (events + [e]) == (before + events) + [e]
  {
  }

  /** Closed with room to spare, a subscription hands over exactly what is left
      and then ends; closed when full, it hands over the same and never ends. */
  method CloseAndDrain(s: Subscription) returns (events: seq<Event>, ended: bool)
    requires s.Valid() && !s.closed
    modifies s
    ensures s.Valid() && events == old(s.Outstanding())
    ensures ended <==> s.maxsize <= 0 || |old(s.queue)| < s.maxsize
  {
    s.Close();
    events, ended := s.Drain();
  }

  // ---- history

  /** The latest `n`. */
  function Latest(events: seq<Event>, n: nat): seq<Event> {
    if |events| <= n then events else events[|events| - n..]
  }

  lemma LatestAreLast(events: seq<Event>, n: nat)
    ensures |Latest(events, n)| == if |events| <= n then |events| else n
    ensures Latest(events, n) == events[|events| - |Latest(events, n)|..]
  {
  }

  lemma LatestSnoc(events: seq<Event>, e: Event, n: nat)
    ensures Latest(Latest(events, n) + [e], n) == Latest(events + [e], n)
  {
  }

  function OfTask(events: seq<Event>, taskId: Option<string>): seq<Event> {
    if events == [] then []
    else
      var last := events[|events| - 1];
      OfTask(events[..|events| - 1], taskId) + if taskId == None || last.taskId == taskId then [last] else []
  }

  lemma OfTaskSnoc(events: seq<Event>, e: Event, taskId: Option<string>)
    ensures OfTask(events + [e], taskId) ==
            OfTask(events, taskId) + if taskId.Some? && e.taskId != taskId then [] else [e]
  {
    assert (events + [e])[..|events|] == events;
  }

  /** Of each event, all or nothing, by its task. */
  lemma OfTaskTakesItsOwn(e: Event, taskId: Option<string>)
    ensures OfTask([e], taskId) == if taskId.Some? && e.taskId != taskId then [] else [e]
  {
    OfTaskSnoc([], e, taskId);
    assert [] + [e] == [e];
  }

  /** And in the order they came. */
  lemma {:induction false} OfTaskKeepsOrder(a: seq<Event>, b: seq<Event>, taskId: Option<string>)
    ensures OfTask(a + b, taskId) == OfTask(a, taskId) + OfTask(b, taskId)
  {
    hide OfTask;
    if b == [] {
      assert a + b == a;
      NoneOfTask(taskId);
    } else {
      var rest, last := b[..|b| - 1], b[|b| - 1];
      OfTaskKeepsOrder(a, rest, taskId);
      OfTaskSnoc(a + rest, last, taskId);
      OfTaskSnoc(rest, last, taskId);
      assert a + b == (a + rest) + [last] && b == rest + [last];
    }
  }

  lemma NoneOfTask(taskId: Option<string>)
    ensures OfTask([], taskId) == []
  {
  }

  /** `events[-limit:]`, for any integer. */
  function FromEnd(events: seq<Event>, limit: int): seq<Event> {
    if limit > 0 then Latest(events, limit)
    else if -limit <= |events| then events[-limit..]
    else []
  }

  /** A positive limit gives the latest events, at most so many. Zero does not give
      none: it gives all of them. The limit is kept exactly when it is positive, or
      zero with nothing to give. */
  lemma LimitIsKeptWhenPositive(events: seq<Event>, limit: int)
    ensures |FromEnd(events, limit)| <= limit <==> limit > 0 || (limit == 0 && events == [])
    ensures limit >= 0 ==> exists k :: 0 <= k <= |events| && FromEnd(events, limit) == events[k..]
    ensures FromEnd(events, 0) == events
    ensures 0 < limit ==> FromEnd(events, limit) == if limit <= |events| then events[|events| - limit..] else events
    ensures limit < 0 ==> FromEnd(events, limit) == if -limit <= |events| then events[-limit..] else []
  {
    if 0 <= limit < |events| {
      assert FromEnd(events, limit) == events[if limit == 0 then 0 else |events| - limit..];
    } else if limit >= 0 {
      assert FromEnd(events, limit) == events[0..];
    }
  }

  class InProcessEventBus {
    const historySize: nat
    var recent: seq<Event>
    var published: nat
    var subscriptions: seq<Subscription>
    ghost var all: seq<Event>

    ghost predicate Valid()
      reads this, subscriptions
    {
      && recent == Latest(all, historySize)
      && published == |all|
      && (forall i :: 0 <= i < |subscriptions| ==> subscriptions[i].Valid())
      && forall i, j :: 0 <= i < j < |subscriptions| ==> subscriptions[i] != subscriptions[j]
    }

    constructor (historySize: nat)
      ensures Valid() && all == [] && subscriptions == [] && this.historySize == historySize
    {
      this.historySize := historySize;
      recent, published, subscriptions, all := [], 0, [], [];
    }

    method Subscribe(kinds: Option<set<string>>, taskId: Option<string>, maxsize: int) returns (s: Subscription)
      requires Valid()
      modifies this`subscriptions
      ensures Valid() && fresh(s) && subscriptions == old(subscriptions) + [s]
      ensures s.Valid() && s.accepted == [] && s.kinds == kinds && s.taskId == taskId && s.maxsize == maxsize
    {
      s := new Subscription(kinds, taskId, maxsize);
      subscriptions := subscriptions + [s];
    }

    /** Each open subscription the event matches accepts it. */
    method OfferToAll(e: Event)
      requires Valid()
      modifies subscriptions
      ensures forall i :: 0 <= i < |subscriptions| ==> subscriptions[i].Valid()
      ensures forall i :: 0 <= i < |subscriptions| ==>
                var s := subscriptions[i];
                && s.closed == old(s.closed) && s.delivered == old(s.delivered)
                && s.accepted == old(s.accepted) + if !s.closed && Matches(e, s.kinds, s.taskId) then [e] else []
    {
      hide Selected, Lost, Latest;
      for i := 0 to |subscriptions|
        invariant forall k :: 0 <= k < i ==> subscriptions[k].Valid()
        invariant forall k :: i <= k < |subscriptions| ==> unchanged(subscriptions[k])
        invariant forall k :: 0 <= k < i ==>
                    var s := subscriptions[k];
                    && s.closed == old(s.closed) && s.delivered == old(s.delivered)
                    && s.accepted == old(s.accepted) + if !s.closed && Matches(e, s.kinds, s.taskId) then [e] else []
      {
        var taken := subscriptions[i].Offer(e);
      }
    }

    /** Keep it, then offer it to everyone. */
    method Publish(e: Event)
      requires Valid()
      modifies this`recent, this`published, this`all, subscriptions
      ensures Valid() && all == old(all) + [e]
      ensures forall i :: 0 <= i < |subscriptions| ==>
                var s := subscriptions[i];
                && s.closed == old(s.closed) && s.delivered == old(s.delivered)
                && s.accepted == old(s.accepted) + if !s.closed && Matches(e, s.kinds, s.taskId) then [e] else []
    {
      hide Selected, Lost, Latest, Matches;
      LatestSnoc(all, e, historySize);
      recent := Latest(recent + [e], historySize);
      published := published + 1;
      all := all + [e];
      OfferToAll(e);
    }

    /** Recent events of one task or of all, oldest first. */
    method History(taskId: Option<string>, limit: int) returns (events: seq<Event>)
      requires Valid()
      ensures events == FromEnd(OfTask(Latest(all, historySize), taskId), limit)
    {
      events := [];
      for i := 0 to |recent|
        invariant events == OfTask(recent[..i], taskId)
      {
        assert recent[..i + 1][..i] == recent[..i];
        if taskId == None || recent[i].taskId == taskId {
          events := events + [recent[i]];
        }
      }
      assert recent[..|recent|] == recent;
      events := FromEnd(events, limit);
    }
  }
}
