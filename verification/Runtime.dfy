/** The runtime's bookkeeping: which runs are active, and how many ended how,
    counted from the shared event stream (heart/runtime.py). */
module Runtime {
  import opened TaskEvents

  type RunId = string

  /** What reaches the runtime's handler: a task event of some run, or a beat. */
  datatype Published = OfRun(id: RunId, event: TaskEvent) | Heartbeat

  /** The events of one run, in order. */
  function Of(stream: seq<Published>, id: RunId): seq<TaskEvent> {
    if stream == [] then []
    else
      var last := stream[|stream| - 1];
      Of(stream[..|stream| - 1], id) + if last.OfRun? && last.id == id then [last.event] else []
  }

  function CountOf(stream: seq<Published>, e: TaskEvent): nat {
    if stream == [] then 0
    else
      var last := stream[|stream| - 1];
      CountOf(stream[..|stream| - 1], e) + if last.OfRun? && last.event == e then 1 else 0
  }

  function CountBeats(stream: seq<Published>): nat {
    if stream == [] then 0
    else CountBeats(stream[..|stream| - 1]) + if stream[|stream| - 1].Heartbeat? then 1 else 0
  }

  /** Where a run with these events stands: it succeeded, it was lost, or it has
      not ended. */
  predicate Stands(events: seq<TaskEvent>, succeeded: bool, lost: bool) {
    && !(succeeded && lost)
    && (succeeded ==> ClosedOnce(events) && events[|events| - 1] == TaskCompleted)
    && (lost ==> ClosedOnce(events) && events[|events| - 1] == TaskFailed)
    && (!succeeded && !lost ==> NoneClosing(events))
  }

  /** Every run ended once, in one of the two ways, or not at all. */
  ghost predicate Accounts(stream: seq<Published>, succeeded: set<RunId>, lost: set<RunId>) {
    forall id :: Stands(Of(stream, id), id in succeeded, id in lost)
  }

  lemma BeforeTheLast(events: seq<TaskEvent>, e: TaskEvent, succeeded: bool, lost: bool)
    requires Stands(events + [e], succeeded, lost)
    ensures Closing(e) ==> (succeeded <==> e == TaskCompleted) && (lost <==> e == TaskFailed)
    ensures !Closing(e) ==> !succeeded && !lost
    ensures Stands(events, false, false)
  {
    var all := events + [e];
    assert all[|all| - 1] == e && all[..|all| - 1] == events;
    assert NoneClosing(all) ==> NoneClosing(events);
  }

  /** However the runs interleave, the two counts are the numbers of runs that
      ended each way. */
  lemma {:induction false} CountsAreRuns(stream: seq<Published>, succeeded: set<RunId>, lost: set<RunId>)
    requires Accounts(stream, succeeded, lost)
    ensures succeeded !! lost
    ensures CountOf(stream, TaskCompleted) == |succeeded|
    ensures CountOf(stream, TaskFailed) == |lost|
  {
    forall id ensures !(id in succeeded && id in lost) {
      assert Stands(Of(stream, id), id in succeeded, id in lost);
    }
    if stream == [] {
      forall id ensures id !in succeeded && id !in lost {
        assert Stands(Of(stream, id), id in succeeded, id in lost);
      }
      assert succeeded == {} && lost == {};
    } else {
      var past, last := stream[..|stream| - 1], stream[|stream| - 1];
      var gone := if last.OfRun? then {last.id} else {};
      forall id ensures Stands(Of(past, id), id in succeeded - gone, id in lost - gone) {
        assert Stands(Of(stream, id), id in succeeded, id in lost);
        if id in gone {
          BeforeTheLast(Of(past, id), last.event, id in succeeded, id in lost);
        } else {
          assert Of(stream, id) == Of(past, id);
        }
      }
      CountsAreRuns(past, succeeded - gone, lost - gone);
      if last.OfRun? {
        assert Stands(Of(stream, last.id), last.id in succeeded, last.id in lost);
        BeforeTheLast(Of(past, last.id), last.event, last.id in succeeded, last.id in lost);
      }
    }
  }

  /** What runs publish: each its own story, which closes once and in which it may
      not have got to the end, and nobody else publishes under its id. `Orchestrator.Run`
      ensures `ClosedOnce` of the story it leaves. */
  ghost predicate Told(stream: seq<Published>, stories: map<RunId, seq<TaskEvent>>) {
    && (forall id <- stories :: ClosedOnce(stories[id]))
    && (forall id :: Of(stream, id) <= if id in stories then stories[id] else [])
  }

  /** The runs whose story has been told to its end. */
  ghost function Finished(stream: seq<Published>, stories: map<RunId, seq<TaskEvent>>): set<RunId> {
    set id <- stories | Of(stream, id) == stories[id]
  }

  /** Those among them that ended with `e`. */
  ghost function EndedWith(stream: seq<Published>, stories: map<RunId, seq<TaskEvent>>, e: TaskEvent): set<RunId>
    requires Told(stream, stories)
  {
    set id <- Finished(stream, stories) | stories[id][|stories[id]| - 1] == e
  }

  lemma UnfinishedHasNotClosed(told: seq<TaskEvent>, story: seq<TaskEvent>)
    requires ClosedOnce(story) && told <= story && told != story
    ensures NoneClosing(told)
  {
    assert told == story[..|told|];
    assert told <= story[..|story| - 1];
  }

  /** Runs that tell such stories are accounted for: a run succeeded or was lost
      exactly if its whole story is in the stream, and by how that story ends. */
  lemma StoriesAccount(stream: seq<Published>, stories: map<RunId, seq<TaskEvent>>)
    requires Told(stream, stories)
    ensures Accounts(stream, EndedWith(stream, stories, TaskCompleted), EndedWith(stream, stories, TaskFailed))
    ensures EndedWith(stream, stories, TaskCompleted) + EndedWith(stream, stories, TaskFailed)
         == Finished(stream, stories)
  {
    var succeeded, lost := EndedWith(stream, stories, TaskCompleted), EndedWith(stream, stories, TaskFailed);
    forall id ensures Stands(Of(stream, id), id in succeeded, id in lost) {
      if id in stories && Of(stream, id) != stories[id] {
        UnfinishedHasNotClosed(Of(stream, id), stories[id]);
      }
    }
  }

  /** The two counts together are the runs that have finished. */
  lemma CountsAreFinishedRuns(stream: seq<Published>, stories: map<RunId, seq<TaskEvent>>)
    requires Told(stream, stories)
    ensures CountOf(stream, TaskCompleted) == |EndedWith(stream, stories, TaskCompleted)|
    ensures CountOf(stream, TaskFailed) == |EndedWith(stream, stories, TaskFailed)|
    ensures CountOf(stream, TaskCompleted) + CountOf(stream, TaskFailed) == |Finished(stream, stories)|
  {
    StoriesAccount(stream, stories);
    CountsAreRuns(stream, EndedWith(stream, stories, TaskCompleted), EndedWith(stream, stories, TaskFailed));
  }

  lemma CountsOneMore(stream: seq<Published>, p: Published)
    ensures forall e :: CountOf(stream + [p], e) == CountOf(stream, e) + if p.OfRun? && p.event == e then 1 else 0
    ensures CountBeats(stream + [p]) == CountBeats(stream) + if p.Heartbeat? then 1 else 0
  {
    assert (stream + [p])[..|stream|] == stream;
  }

  class Runtime {
    var active: seq<RunId>   // the keys of `_active`, in insertion order
    var completed: nat
    var failed: nat
    var heartbeats: nat
    ghost var stream: seq<Published>
    ghost var spawned: seq<RunId>
    ghost var gone: set<RunId>

    ghost predicate Valid()
      reads this
    {
      && completed == CountOf(stream, TaskCompleted)
      && failed == CountOf(stream, TaskFailed)
      && heartbeats == CountBeats(stream)
      && active == Without(spawned, gone)
    }

    constructor ()
      ensures Valid() && stream == [] && spawned == [] && gone == {}
    {
      active, completed, failed, heartbeats := [], 0, 0, 0;
      stream, spawned, gone := [], [], {};
    }

    /** `_track_task_counters`. */
    method Track(p: Published)
      requires Valid()
      modifies this`completed, this`failed, this`heartbeats, this`stream
      ensures Valid() && stream == old(stream) + [p]
    {
      hide CountOf, CountBeats, Without;
      CountsOneMore(stream, p);
      stream := stream + [p];
      match p
      case OfRun(_, TaskCompleted) => completed := completed + 1;
      case OfRun(_, TaskFailed) => failed := failed + 1;
      case OfRun(_, _) =>
      case Heartbeat => heartbeats := heartbeats + 1;
    }

    /** `spawn`, under an id nobody had. */
    method Spawn(id: RunId)
      requires Valid() && id !in spawned && id !in gone
      modifies this`active, this`spawned
      ensures Valid() && spawned == old(spawned) + [id] && active == old(active) + [id]
    {
      spawned := spawned + [id];
      active := active + [id];
      assert spawned[..|spawned| - 1] == old(spawned);
    }

    /** `_forget`: the callback of a finished run; forgetting twice is harmless. */
    method Forget(id: RunId)
      requires Valid()
      modifies this`active, this`gone
      ensures Valid() && gone == old(gone) + {id}
      ensures forall other :: other in active <==> other in old(active) && other != id
      ensures id !in old(active) ==> active == old(active)
    {
      WithoutIsWhatIsLeft(active, {id});
      WithoutOne(spawned, gone, id);
      active := Without(active, {id});
      gone := gone + {id};
    }

    /** The counters are the runs that ended, by how they ended. */
    lemma CountersAreRuns(succeeded: set<RunId>, lost: set<RunId>)
      requires Valid() && Accounts(stream, succeeded, lost)
      ensures completed == |succeeded| && failed == |lost| && completed + failed == |succeeded + lost|
    {
      CountsAreRuns(stream, succeeded, lost);
    }

    /** When every run tells a story that closes once, the counters add up to the
        runs that have finished, and each counts those that ended its way. */
    lemma CountersAreFinishedRuns(stories: map<RunId, seq<TaskEvent>>)
      requires Valid() && Told(stream, stories)
      ensures completed == |EndedWith(stream, stories, TaskCompleted)|
      ensures failed == |EndedWith(stream, stories, TaskFailed)|
      ensures completed + failed == |Finished(stream, stories)|
    {
      CountsAreFinishedRuns(stream, stories);
    }
  }

  function Without(ids: seq<RunId>, gone: set<RunId>): seq<RunId> {
    if ids == [] then []
    else
      var last := ids[|ids| - 1];
      var left := Without(ids[..|ids| - 1], gone);
      if last in gone then left else left + [last]
  }

  lemma WithoutSnoc(ids: seq<RunId>, id: RunId, gone: set<RunId>)
    ensures Without(ids + [id], gone) == if id in gone then Without(ids, gone) else Without(ids, gone) + [id]
  {
    assert (ids + [id])[..|ids|] == ids;
  }

  /** What is left is exactly what is not gone; if nothing is gone, it is the same. */
  lemma {:induction false} WithoutIsWhatIsLeft(ids: seq<RunId>, gone: set<RunId>)
    ensures forall id :: id in Without(ids, gone) <==> id in ids && id !in gone
    ensures (forall id :: id in ids ==> id !in gone) ==> Without(ids, gone) == ids
  {
    if ids != [] {
      var rest, last := ids[..|ids| - 1], ids[|ids| - 1];
      WithoutIsWhatIsLeft(rest, gone);
      assert ids == rest + [last];
    }
  }

  lemma {:induction false} WithoutOne(ids: seq<RunId>, gone: set<RunId>, id: RunId)
    ensures Without(Without(ids, gone), {id}) == Without(ids, gone + {id})
  {
    if ids != [] {
      var rest, last := ids[..|ids| - 1], ids[|ids| - 1];
      WithoutOne(rest, gone, id);
      if last !in gone {
        WithoutSnoc(Without(rest, gone), last, {id});
      }
    }
  }
}
