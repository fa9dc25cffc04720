/** The de-duplicating work queue of client-go: an item is queued at most once, and not while
    it is being processed; adding it then re-queues it when processing ends. */
module WorkQueue {

  datatype QueueState = QueueState(queue: seq<string>, dirty: set<string>, processing: set<string>, shuttingDown: bool)

  const EMPTY_QUEUE := QueueState([], {}, {}, false)

  predicate NoDuplicates(s: seq<string>) {
    forall i, j :: 0 <= i < j < |s| ==> s[i] != s[j]
  }

  /** The queue lists exactly the dirty items nobody is processing, each once. */
  ghost predicate WellFormed(q: QueueState) {
    && NoDuplicates(q.queue)
    && (forall x :: x in q.queue <==> x in q.dirty && x !in q.processing)
  }

  function Added(q: QueueState, item: string): (r: QueueState)
    requires WellFormed(q)
    ensures WellFormed(r)
    ensures item in r.dirty || q.shuttingDown
    ensures q.shuttingDown ==> r == q
    ensures q.queue <= r.queue && |r.queue| <= |q.queue| + 1
    ensures r.processing == q.processing && forall x :: x != item ==> (x in r.dirty <==> x in q.dirty)
  {
    if q.shuttingDown || item in q.dirty then q
    else if item in q.processing then q.(dirty := q.dirty + {item})
    else
      var r := q.(dirty := q.dirty + {item}, queue := q.queue + [item]);
      r
  }

  /** Get blocks while there is nothing to return. */
  predicate CanGet(q: QueueState) { q.queue != [] || q.shuttingDown }

  /** Get tells a worker to stop only once the queue has been drained. */
  predicate MustStop(q: QueueState) { q.queue == [] && q.shuttingDown }

  function Taken(q: QueueState): (r: QueueState)
    requires WellFormed(q) && q.queue != []
    ensures WellFormed(r)
    ensures q.queue == [q.queue[0]] + r.queue && r.shuttingDown == q.shuttingDown
    ensures q.queue[0] !in q.processing && q.queue[0] in r.processing && q.queue[0] !in r.dirty
    ensures forall x :: x != q.queue[0] ==>
              (x in r.processing <==> x in q.processing) && (x in r.dirty <==> x in q.dirty) && (x in r.queue <==> x in q.queue)
  {
    var item := q.queue[0];
    assert item in q.queue;
    var r := q.(queue := q.queue[1..], dirty := q.dirty - {item}, processing := q.processing + {item});
    assert forall x :: x in q.queue <==> x == item || x in r.queue;
    assert item !in r.queue by {
      assert forall i :: 0 <= i < |r.queue| ==> r.queue[i] == q.queue[i + 1];
    }
    r
  }

  function Released(q: QueueState, item: string): (r: QueueState)
    requires WellFormed(q) && item in q.processing
    ensures WellFormed(r)
    ensures q.queue <= r.queue && |r.queue| <= |q.queue| + 1 && r.shuttingDown == q.shuttingDown
    ensures item !in r.processing && (item in r.queue <==> item in q.dirty)
    ensures forall x :: x != item ==>
              (x in r.processing <==> x in q.processing) && (x in r.dirty <==> x in q.dirty) && (x in r.queue <==> x in q.queue)
  {
    var r := q.(processing := q.processing - {item},
                queue := if item in q.dirty then q.queue + [item] else q.queue);
    assert item !in q.queue;
    r
  }

  function Closed(q: QueueState): QueueState { q.(shuttingDown := true) }

  /** The queue object the workers share; every method runs under its lock. */
  class Queue {
    var queue: seq<string>
    var dirty: set<string>
    var processing: set<string>
    var shuttingDown: bool

    function View(): QueueState
      reads this
    {
      QueueState(queue, dirty, processing, shuttingDown)
    }

    ghost predicate Valid()
      reads this
    {
      WellFormed(View())
    }

    constructor ()
      ensures Valid() && View() == EMPTY_QUEUE
    {
      queue, dirty, processing, shuttingDown := [], {}, {}, false;
    }

    method Add(item: string)
      requires Valid()
      modifies this
      ensures Valid() && View() == Added(old(View()), item)
    {
      if shuttingDown {
        return;
      }
      if item in dirty {
        return;
      }
      dirty := dirty + {item};
      if item in processing {
        return;
      }
      queue := queue + [item];
    }

    /** Returns at once because the caller knows there is something to return. */
    method Get() returns (item: string, shutdown: bool)
      requires Valid() && CanGet(View())
      modifies this
      ensures Valid()
      ensures shutdown == MustStop(old(View()))
      ensures shutdown ==> View() == old(View())
      ensures !shutdown ==> item == old(queue)[0] && View() == Taken(old(View()))
    {
      if |queue| == 0 {
        return "", true;
      }
      ghost var before := View();
      item, queue := queue[0], queue[1..];
      processing := processing + {item};
      dirty := dirty - {item};
      shutdown := false;
      assert View() == Taken(before);
    }

    method Done(item: string)
      requires Valid() && item in processing
      modifies this
      ensures Valid() && View() == Released(old(View()), item)
    {
      processing := processing - {item};
      if item in dirty {
        queue := queue + [item];
      }
    }

    method ShutDown()
      requires Valid()
      modifies this
      ensures Valid() && View() == Closed(old(View()))
    {
      shuttingDown := true;
    }
  }
}
