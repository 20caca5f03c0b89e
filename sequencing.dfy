/** The animator: a FIFO queue of animations with a single consumer that
    starts the next animation only once the previous one has finished.
    The source runs the consumer on its own thread; here each iteration of
    its loop, each completion signal and each enqueue is one sequential step. */
module Sequencing {
  import opened Wrappers
  import opened Colors
  import opened Geometry

  /** Which paint of the turtle's arrowhead a recolor animates. */
  datatype Paint = Stroke | Fill

  /** The descriptor of one animation, in place of a JavaFX timeline. */
  datatype Animation =
      /** Turn the arrowhead to `angle` degrees. */
    | Rotate(angle: real, millis: real)
      /** Slide the arrowhead from `from` to `to` (window space); `line` is
          the stroke of the segment drawn behind it, None with the pen up. */
    | Move(from: Point, to: Point, line: Option<Color>, millis: real)
      /** Repaint the arrowhead's stroke or fill; it lasts one millisecond. */
    | Recolor(paint: Paint, color: Color)

  /** The animator's state. `queue` and `finished` are the source's fields;
      `started` (every animation played so far, in order), `completed` (how
      many of them have signalled their end) and `added` (every animation
      ever enqueued, in order) are its history. */
  datatype Sequencer = Sequencer(
    queue: seq<Animation>,
    finished: bool,
    started: seq<Animation>,
    completed: nat,
    added: seq<Animation>)
  {
    /** Nothing is dropped or reordered: what has started followed by what
        waits is exactly what was enqueued; and the only animation not yet
        completed is the last one started, while `finished` is false. */
    ghost predicate Valid() {
      started + queue == added &&
      (if finished then completed == |started| else completed + 1 == |started|)
    }

    /** The number of animations started but not completed. */
    function InFlight(): int {
      |started| - completed
    }

    /** addAnimation: append at the tail; nothing starts. */
    function Add(a: Animation): (s: Sequencer)
      ensures Valid() ==> s.Valid()
      ensures s.queue == queue + [a] && s.added == added + [a]
      ensures s.started == started && s.finished == finished && s.completed == completed
    {
      this.(queue := queue + [a], added := added + [a])
    }

    /** One iteration of the consumer loop: when the previous animation has
        finished and one is waiting, take the head, mark it unfinished and
        hand it out to be played. */
    function Step(): (r: (Sequencer, Option<Animation>))
      ensures r.1.Some? <==> finished && queue != []
      ensures r.1.Some? ==>
        r.1.value == queue[0] && r.0.queue == queue[1..] &&
        r.0.started == started + [queue[0]] && !r.0.finished && r.0.InFlight() == InFlight() + 1
      ensures r.1.None? ==> r.0 == this
      ensures r.0.added == added
      ensures Valid() ==> r.0.Valid()
    {
      if finished && |queue| > 0 then
        (this.(queue := queue[1..], finished := false, started := started + [queue[0]]), Some(queue[0]))
      else
        (this, None)
    }

    /** The completion handler: the animation being played has finished. */
    function Finish(): (s: Sequencer)
      ensures Valid() ==> s.Valid() && s.InFlight() == 0
      ensures s.finished && s.queue == queue && s.started == started && s.added == added
    {
      this.(finished := true, completed := |started|)
    }
  }

  /** A fresh animator: nothing queued, nothing playing. */
  const Idle := Sequencer([], true, [], 0, [])

  /** The three things that can happen to the animator, in whatever order the
      command thread, the consumer thread and the rendering engine produce them. */
  datatype Event = Enqueue(animation: Animation) | Wake | Done

  function Apply(s: Sequencer, e: Event): Sequencer {
    match e
    case Enqueue(a) => s.Add(a)
    case Wake => s.Step().0
    case Done => s.Finish()
  }

  function Replay(s: Sequencer, events: seq<Event>): Sequencer
    decreases |events|
  {
    if events == [] then s else Replay(Apply(s, events[0]), events[1..])
  }

  /** The animations of the Enqueue events, in order. */
  function Enqueued(events: seq<Event>): seq<Animation> {
    if events == [] then []
    else (if events[0].Enqueue? then [events[0].animation] else []) + Enqueued(events[1..])
  }

  /** Any interleaving of events keeps the invariant, appends exactly the
      enqueued animations to the history, and never takes back a start. */
  lemma {:induction false} ReplayKeepsOrder(s: Sequencer, events: seq<Event>)
    requires s.Valid()
    ensures Replay(s, events).Valid()
    ensures Replay(s, events).added == s.added + Enqueued(events)
    ensures s.started <= Replay(s, events).started
    decreases |events|
  {
    if events != [] {
      var next := Apply(s, events[0]);
      ReplayKeepsOrder(next, events[1..]);
      assert s.started <= next.started;
      assert next.added == s.added + Enqueued(events[..1]);
      assert Enqueued(events) == Enqueued(events[..1]) + Enqueued(events[1..]);
    }
  }

  /** From a fresh animator, whatever the interleaving: the animations start
      in exactly enqueue order, those not yet started wait in the queue in
      that order, and at most one animation is unfinished. */
  lemma FifoSingleFlight(events: seq<Event>)
    ensures Replay(Idle, events).started + Replay(Idle, events).queue == Enqueued(events)
    ensures 0 <= Replay(Idle, events).InFlight() <= 1
    ensures Replay(Idle, events).InFlight() == 0 <==> Replay(Idle, events).finished
  {
    ReplayKeepsOrder(Idle, events);
  }

  /** `n` rounds of "the current animation ends, the consumer wakes". */
  function Rounds(n: nat): seq<Event> {
    if n == 0 then [] else [Done, Wake] + Rounds(n - 1)
  }

  /** If every played animation signals its end, one round per waiting
      animation starts all of them: none is left behind. */
  lemma {:induction false} RoundsPlayEverything(s: Sequencer)
    requires s.Valid()
    ensures Replay(s, Rounds(|s.queue|)).queue == []
    ensures Replay(s, Rounds(|s.queue|)).started == s.added
    decreases |s.queue|
  {
    if s.queue != [] {
      var rest := Rounds(|s.queue| - 1);
      var next := s.Finish().Step().0;
      assert Rounds(|s.queue|)[1..] == [Wake] + rest;
      assert ([Wake] + rest)[1..] == rest;
      assert Replay(s, Rounds(|s.queue|)) == Replay(next, rest);
      RoundsPlayEverything(next);
    }
  }

  /** The animator object: the queue and the finished flag, updated in place,
      with the history kept in ghost fields. */
  class Animator {
    var queue: seq<Animation>
    var finished: bool
    ghost var started: seq<Animation>
    ghost var completed: nat
    ghost var added: seq<Animation>

    ghost function State(): Sequencer
      reads this
    {
      Sequencer(queue, finished, started, completed, added)
    }

    ghost predicate Valid()
      reads this
    {
      State().Valid()
    }

    constructor ()
      ensures Valid() && State() == Idle
    {
      queue := [];
      finished := true;
      started := [];
      completed := 0;
      added := [];
    }

    /** addAnimation */
    method Add(a: Animation)
      requires Valid()
      modifies this
      ensures Valid() && State() == old(State()).Add(a)
    {
      queue := queue + [a];
      added := added + [a];
    }

    /** One iteration of run: `next` is the animation to play, if any. */
    method Step() returns (next: Option<Animation>)
      requires Valid()
      modifies this
      ensures Valid() && (State(), next) == old(State()).Step()
    {
      if finished && |queue| > 0 {
        finished := false;
        next := Some(queue[0]);
        queue := queue[1..];
        started := started + [next.value];
      } else {
        next := None;
      }
    }

    /** handle: the animation being played has finished. */
    method Finish()
      requires Valid()
      modifies this
      ensures Valid() && State() == old(State()).Finish()
    {
      finished := true;
      completed := |started|;
    }
  }
}
