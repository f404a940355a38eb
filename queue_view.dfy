/**
 * The queue panel (`components/QueueView.tsx`): the "Next Up" list and drag-and-drop reordering.
 * A drag remembers the dragged row's index in component state and the row under the pointer in a
 * ref; when the drag ends the queue is copied, the dragged song is spliced out and spliced back in
 * at the hovered index, the copy is handed to `updateQueue`, and both indices are cleared.
 */
module QueueView {
  import opened Optional
  import opened Types
  import opened Seqs
  import opened MusicContext

  /** `q.splice(i, 1)` on a copy: the sequence without its `i`-th entry. */
  function RemovedAt<T>(q: seq<T>, i: nat): seq<T>
    requires i < |q|
  {
    q[..i] + q[i + 1..]
  }

  /** `q.splice(at, 0, x)` on a copy: `x` inserted so that it sits at index `at`. */
  function InsertedAt<T>(q: seq<T>, at: nat, x: T): seq<T>
    requires at <= |q|
  {
    q[..at] + [x] + q[at..]
  }

  /** The queue after dragging the row at `from` onto the row at `to`. */
  function Moved<T>(q: seq<T>, from: nat, to: nat): seq<T>
    requires from < |q| && to < |q|
  {
    InsertedAt(RemovedAt(q, from), to, q[from])
  }

  /**
   * Entry by entry: outside the span between the two indices nothing moves; the dragged entry lands
   * at `to`; the entries it passed over shift one place towards `from`.
   */
  lemma MovedAt<T>(q: seq<T>, from: nat, to: nat, k: nat)
    requires from < |q| && to < |q| && k < |q|
    ensures |Moved(q, from, to)| == |q|
    ensures Moved(q, from, to)[k] ==
      if k == to then q[from]
      else if from < to && from <= k < to then q[k + 1]
      else if to < from && to < k <= from then q[k - 1]
      else q[k]
  {
  }

  /**
   * A drag keeps the queue's length and songs, puts the dragged song at the drop index, and keeps
   * every other song in its relative order.
   */
  lemma MovedPermutes<T>(q: seq<T>, from: nat, to: nat)
    requires from < |q| && to < |q|
    ensures |Moved(q, from, to)| == |q|
    ensures multiset(Moved(q, from, to)) == multiset(q)
    ensures Moved(q, from, to)[to] == q[from]
    ensures RemovedAt(Moved(q, from, to), to) == RemovedAt(q, from)
  {
    var rest := RemovedAt(q, from);
    var r := Moved(q, from, to);
    assert q == q[..from] + [q[from]] + q[from + 1..];
    assert rest == rest[..to] + rest[to..];
    assert r[..to] == rest[..to] && r[to + 1..] == rest[to..];
    assert r == rest[..to] + [q[from]] + rest[to..];
    calc {
      multiset(r);
      multiset(rest[..to]) + multiset{q[from]} + multiset(rest[to..]);
      multiset(rest) + multiset{q[from]};
      multiset(q[..from]) + multiset(q[from + 1..]) + multiset{q[from]};
      multiset(q);
    }
  }

  /** Dragging the song back from where it landed to where it was restores the queue. */
  lemma {:induction false} MoveBack<T>(q: seq<T>, from: nat, to: nat)
    requires from < |q| && to < |q|
    ensures Moved(Moved(q, from, to), to, from) == q
  {
    var r := Moved(q, from, to);
    MovedPermutes(q, from, to);
    forall k | 0 <= k < |q|
      ensures Moved(r, to, from)[k] == q[k]
    {
      MovedAt(r, to, from, k);
      if k == from {
        MovedAt(q, from, to, to);
      } else if from < to && from < k <= to {
        MovedAt(q, from, to, k - 1);
      } else if to < from && to <= k < from {
        MovedAt(q, from, to, k + 1);
      } else {
        MovedAt(q, from, to, k);
      }
    }
    MovedAt(r, to, from, 0);
  }

  /** Dropping a song on its own row changes nothing. */
  lemma MoveInPlace<T>(q: seq<T>, i: nat)
    requires i < |q|
    ensures Moved(q, i, i) == q
  {
    assert q == q[..i] + [q[i]] + q[i + 1..];
  }

  /**
   * The two splices on the copied queue, done in place: the entries between the two indices shift
   * one place towards `from` and the dragged entry is written at `to`.
   */
  method MoveWithin<T>(a: array<T>, from: nat, to: nat)
    requires from < a.Length && to < a.Length
    modifies a
    ensures a[..] == Moved(old(a[..]), from, to)
  {
    ghost var q := a[..];
    var item := a[from];
    var i := from;
    if from < to {
      while i < to
        invariant from <= i <= to
        invariant forall k :: 0 <= k < from || i < k < a.Length ==> a[k] == q[k]
        invariant forall k :: from <= k < i ==> a[k] == q[k + 1]
      {
        a[i] := a[i + 1];
        i := i + 1;
      }
    } else {
      while i > to
        invariant to <= i <= from
        invariant forall k :: 0 <= k < i || from < k < a.Length ==> a[k] == q[k]
        invariant forall k :: i < k <= from ==> a[k] == q[k - 1]
      {
        a[i] := a[i - 1];
        i := i - 1;
      }
    }
    a[to] := item;
    forall k | 0 <= k < a.Length
      ensures a[k] == Moved(q, from, to)[k]
    {
      MovedAt(q, from, to, k);
    }
    MovedAt(q, from, to, 0);
  }

  /** `[...playQueue]` followed by the two splices: the reordered copy, the queue itself untouched. */
  method Reordered(q: seq<Song>, from: nat, to: nat) returns (r: seq<Song>)
    requires from < |q| && to < |q|
    ensures r == Moved(q, from, to)
  {
    var copy := new Song[|q|];
    forall i | 0 <= i < |q| {
      copy[i] := q[i];
    }
    assert copy[..] == q;
    MoveWithin(copy, from, to);
    r := copy[..];
  }

  /**
   * `playQueue.indexOf(song)`, which is what each row passes as its index: the first entry equal to
   * the song, or -1 when the queue does not hold it.
   */
  function IndexOf(q: seq<Song>, song: Song): (r: int)
    ensures song in q ==> 0 <= r < |q| && q[r] == song && song !in q[..r]
    ensures song !in q ==> r == -1
  {
    FindIndex(q, (s: Song) => s == song)
  }

  /** Whether a queue entry is not the current song; with no current song every entry passes. */
  function NotCurrent(current: Option<Song>): Song -> bool {
    (s: Song) => current.None? || s.id != current.value.id
  }

  /** "Next Up": the queue without the entries that carry the current song's id, in queue order. */
  function NextUp(q: seq<Song>, current: Option<Song>): (r: seq<Song>)
    ensures forall s :: s in r <==> s in q && (current.None? || s.id != current.value.id)
    ensures IsSubseq(r, q)
  {
    FilterIsSubseq(q, NotCurrent(current));
    Filter(q, NotCurrent(current))
  }

  /** Every "Next Up" row hands the drag handlers an index into the queue that holds that row's song. */
  lemma RowIndexInQueue(q: seq<Song>, current: Option<Song>, song: Song)
    requires song in NextUp(q, current)
    ensures 0 <= IndexOf(q, song) < |q| && q[IndexOf(q, song)] == song
  {
  }

  /** The panel's drag state over the provider it reads the queue from. */
  class QueuePanel {
    const engine: MusicEngine
    /** `draggedItemIndex` (state). */
    var draggedItemIndex: Option<nat>
    /** `dragOverItemIndex.current` (ref). */
    var dragOverItemIndex: Option<nat>

    /** Both indices hold a row of the current queue when they are set. */
    ghost predicate Valid()
      reads this, engine`queues
    {
      (draggedItemIndex.Some? ==> draggedItemIndex.value < |engine.queues.playQueue|)
      && (dragOverItemIndex.Some? ==> dragOverItemIndex.value < |engine.queues.playQueue|)
    }

    constructor (engine: MusicEngine)
      ensures this.engine == engine
      ensures draggedItemIndex.None? && dragOverItemIndex.None?
      ensures Valid()
    {
      this.engine := engine;
      draggedItemIndex := None;
      dragOverItemIndex := None;
    }

    /** `handleDragStart(e, playQueue.indexOf(song))`. */
    method HandleDragStart(song: Song)
      requires Valid()
      requires song in NextUp(engine.queues.playQueue, engine.player.currentSong)
      modifies this`draggedItemIndex
      ensures draggedItemIndex == Some(IndexOf(engine.queues.playQueue, song) as nat)
      ensures engine.queues.playQueue[draggedItemIndex.value] == song
      ensures Valid()
    {
      var index := IndexOf(engine.queues.playQueue, song);
      draggedItemIndex := Some(index as nat);
    }

    /** `handleDragEnter(playQueue.indexOf(song))`. */
    method HandleDragEnter(song: Song)
      requires Valid()
      requires song in NextUp(engine.queues.playQueue, engine.player.currentSong)
      modifies this`dragOverItemIndex
      ensures dragOverItemIndex == Some(IndexOf(engine.queues.playQueue, song) as nat)
      ensures engine.queues.playQueue[dragOverItemIndex.value] == song
      ensures Valid()
    {
      var index := IndexOf(engine.queues.playQueue, song);
      dragOverItemIndex := Some(index as nat);
    }

    /**
     * `handleDragEnd`: with both indices set the reordered queue goes to `updateQueue`; with either
     * missing the queue is left alone. Both indices are cleared either way.
     */
    method HandleDragEnd()
      requires Valid()
      modifies this`draggedItemIndex, this`dragOverItemIndex, engine`queues
      ensures draggedItemIndex.None? && dragOverItemIndex.None?
      ensures old(draggedItemIndex).Some? && old(dragOverItemIndex).Some? ==>
        engine.queues == QueueUpdated(old(engine.queues),
          Moved(old(engine.queues).playQueue, old(draggedItemIndex).value, old(dragOverItemIndex).value))
      ensures old(draggedItemIndex).None? || old(dragOverItemIndex).None? ==> engine.queues == old(engine.queues)
      ensures old(engine.Valid()) ==> engine.Valid()
      ensures Valid()
    {
      if draggedItemIndex.Some? && dragOverItemIndex.Some? {
        var newQueue := Reordered(engine.queues.playQueue, draggedItemIndex.value, dragOverItemIndex.value);
        engine.UpdateQueue(newQueue);
      }
      draggedItemIndex := None;
      dragOverItemIndex := None;
    }
  }
}
