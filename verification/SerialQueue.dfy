/**
 A queue of tasks with a single drainer, as the source uses it for mDNS snapshots,
 pairing notifications, pairing effects and SPINE payloads: whoever finds nobody
 draining becomes the drainer, takes tasks out one by one and runs each without the
 lock, while others only enqueue.
 */
module SerialQueue {
  import opened Basics

  /** `drainers` counts the threads inside the drain loop; `current` is the task one of
      them has taken out and not finished. */
  datatype Queue<T> = Queue(items: seq<T>, draining: bool, drainers: nat, current: Option<T>)

  function Empty<T>(): Queue<T> {
    Queue([], false, 0, None)
  }

  /** The first caller becomes the drainer. */
  function Enqueue<T>(q: Queue<T>, tasks: seq<T>): Queue<T> {
    var q' := q.(items := q.items + tasks);
    if q.draining then q' else q'.(draining := true, drainers := q.drainers + 1)
  }

  /** One round of the drain loop up to the task. */
  function Take<T>(q: Queue<T>): Queue<T> {
    if q.drainers == 0 || q.current.Some? then q
    else if q.items == [] then q.(draining := false, drainers := q.drainers - 1)
    else q.(items := q.items[1..], current := Some(q.items[0]))
  }

  /** The task has run. */
  function Finish<T>(q: Queue<T>): Queue<T> {
    q.(current := None)
  }

  function Outstanding<T>(q: Queue<T>): seq<T> {
    (if q.current.Some? then [q.current.value] else []) + q.items
  }

  ghost predicate OneDrainer<T>(q: Queue<T>) {
    q.drainers == (if q.draining then 1 else 0) && (Outstanding(q) != [] ==> q.draining)
  }

  lemma EnqueueAppends<T>(q: Queue<T>, tasks: seq<T>)
    requires OneDrainer(q)
    ensures Outstanding(Enqueue(q, tasks)) == Outstanding(q) + tasks && OneDrainer(Enqueue(q, tasks))
  {
  }

  lemma TakeKeeps<T>(q: Queue<T>)
    requires OneDrainer(q)
    ensures Outstanding(Take(q)) == Outstanding(q) && OneDrainer(Take(q))
  {
  }

  lemma FinishPops<T>(q: Queue<T>)
    requires OneDrainer(q) && q.current.Some?
    ensures Outstanding(q) == [q.current.value] + Outstanding(Finish(q)) && OneDrainer(Finish(q))
  {
  }

  // ------------------------------------------------------------------- runs

  datatype Move<T> = Put(tasks: seq<T>) | Draw | Ran

  /** With everything that was enqueued and everything that has run, in order. */
  datatype Account<T> = Account(q: Queue<T>, put: seq<T>, ran: seq<T>)

  function Step<T>(w: Account<T>, e: Move<T>): Account<T> {
    match e
    case Put(tasks) => Account(Enqueue(w.q, tasks), w.put + tasks, w.ran)
    case Draw => w.(q := Take(w.q))
    case Ran => if w.q.current.None? then w else Account(Finish(w.q), w.put, w.ran + [w.q.current.value])
  }

  function Run<T>(events: seq<Move<T>>): Account<T> {
    if events == [] then Account(Empty(), [], []) else Step(Run(events[..|events| - 1]), events[|events| - 1])
  }

  /** Whatever the interleaving of enqueuers and drainer: tasks run one at a time, in
      the order they came, none is lost or run twice, and there is one drainer at most. */
  lemma {:induction false} RunsInOrder<T>(events: seq<Move<T>>)
    ensures var w := Run(events);
            w.ran + Outstanding(w.q) == w.put && OneDrainer(w.q)
  {
    if events != [] {
      var e, w := events[|events| - 1], Run(events[..|events| - 1]);
      RunsInOrder(events[..|events| - 1]);
      match e
      case Put(tasks) => EnqueueAppends(w.q, tasks);
      case Draw => TakeKeeps(w.q);
      case Ran => if w.q.current.Some? { FinishPops(w.q); }
    }
  }

  /** Nothing is stranded: as long as a task is outstanding, the drainer can go on. */
  lemma NothingStranded<T>(events: seq<Move<T>>)
    requires Outstanding(Run(events).q) != []
    ensures var w := Run(events);
            w.q.drainers == 1 && (w.q.current.Some? || Take(w.q).current == Some(w.q.items[0]))
  {
    RunsInOrder(events);
  }
}
