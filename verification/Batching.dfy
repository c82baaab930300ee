/** Buffering of one conversation's messages until a quiet period has passed. */
module Batching {
  import opened DispatchTail
  import opened Sequences

  datatype Batch = Batch(buffer: seq<Message>, timer: bool)

  const EMPTY := Batch([], false)

  function Pushed(b: Batch, m: Message): Batch {
    Batch(b.buffer + [m], true)
  }

  class MessageBatcher {
    var buffer: seq<Message>
    var timer: bool
    ghost var AllPushed: seq<Message>
    ghost var Flushed: seq<seq<Message>>
    ghost var Disposed: bool

    ghost function View(): Batch
      reads this
    {
      Batch(buffer, timer)
    }

    /** Until disposal the flushed batches and the buffer hold what was pushed; the timer runs iff something waits. */
    ghost predicate Valid()
      reads this
    {
      && (timer <==> buffer != [])
      && (!Disposed ==> Concat(Flushed) + buffer == AllPushed)
      && (forall b | b in Flushed :: b != [])
    }

    constructor ()
      ensures Valid() && View() == EMPTY && AllPushed == [] && Flushed == [] && !Disposed
    {
      buffer, timer, AllPushed, Flushed, Disposed := [], false, [], [], false;
    }

    method Push(m: Message)
      requires Valid()
      modifies this
      ensures Valid() && View() == Pushed(old(View()), m)
      ensures AllPushed == old(AllPushed) + [m] && Flushed == old(Flushed) && Disposed == old(Disposed)
    {
      buffer := buffer + [m];
      timer := true;
      AllPushed := AllPushed + [m];
      assert Concat(Flushed) + buffer == (Concat(Flushed) + old(buffer)) + [m];
    }

    /** The timer fires; `batch` is what is flushed, empty when nothing is. */
    method Fire() returns (batch: seq<Message>)
      requires Valid() && timer
      modifies this
      ensures Valid() && View() == EMPTY && batch == old(buffer) != []
      ensures AllPushed == old(AllPushed) && Flushed == old(Flushed) + [batch] && Disposed == old(Disposed)
    {
      timer := false;
      batch := [];
      if |buffer| == 0 {
        return;
      }
      batch := buffer;
      buffer := [];
      Flushed := Flushed + [batch];
      ConcatAppend(old(Flushed), batch);
      assert Concat(Flushed) + [] == Concat(old(Flushed)) + batch;
    }

    method Dispose()
      requires Valid()
      modifies this
      ensures Valid() && View() == EMPTY && Disposed
      ensures AllPushed == old(AllPushed) && Flushed == old(Flushed)
    {
      timer := false;
      buffer := [];
      Disposed := true;
    }
  }
}
