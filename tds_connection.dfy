/**
 TDSConnection's close-once lifecycle. The channel is reduced to its
 `isActive` flag; the hop onto the event loop is taken synchronously, with
 `taskAccepted` saying whether the event loop ran the submitted task.

 The source's close() completes the promise when the channel is active and
 asks the channel to close when it is inactive (CloseAsWritten). That is the
 wrong way round: a connection whose channel is active is never closed,
 and closing one whose channel is not active reports the channel's
 "already closed" failure. Close is the corrected version; both are kept.
 */
module Connection {
  import opened TDSTypes

  /** The connection's observable state. */
  datatype ConnState = ConnState(channelActive: bool, didClose: bool)

  /** What one close() call did. */
  datatype CloseEvent =
    | ReturnedSucceededFuture   // the already-closed guard: makeSucceededFuture(())
    | PromiseSucceeded          // promise.succeed(()) inside the submitted task
    | ChannelCloseAll           // channel.close(mode: .all, promise: promise)
    | TaskFailureCascaded       // the submit future failed; the failure went to the promise

  datatype CloseEffect = CloseEffect(state: ConnState, result: Future<()>, events: seq<CloseEvent>)

  /**
   Closing the channel itself: an active channel becomes inactive and the
   promise succeeds; a channel that is not active fails the promise.
   */
  function ChannelClose(active: bool): (r: (bool, Future<()>))
    ensures !r.0
    ensures r.1.Succeeded? <==> active
  {
    if active then (false, Succeeded(())) else (false, Failed(ChannelAlreadyClosed))
  }

  /** isClosed: reads the channel, never didClose. */
  function IsClosed(c: ConnState): (r: bool)
    ensures r <==> !c.channelActive
  {
    !c.channelActive
  }

  /** The deinit assertion: a connection may only be released once closed. */
  predicate MayRelease(c: ConnState): (r: bool)
    ensures r <==> c.didClose
  {
    c.didClose
  }

  /** The guard and the task rejection, common to both versions of close(). */
  function CloseWith(c: ConnState, taskAccepted: bool, task: ConnState -> CloseEffect): CloseEffect {
    if c.didClose then CloseEffect(c, Succeeded(()), [ReturnedSucceededFuture])
    else if !taskAccepted then CloseEffect(c.(didClose := true), Failed(EventLoopShutdown), [TaskFailureCascaded])
    else task(c.(didClose := true))
  }

  /** The submitted task as the source writes it. */
  function TaskAsWritten(c: ConnState): CloseEffect {
    if c.channelActive then CloseEffect(c, Succeeded(()), [PromiseSucceeded])
    else
      var (active, f) := ChannelClose(c.channelActive);
      CloseEffect(c.(channelActive := active), f, [ChannelCloseAll])
  }

  /** The submitted task with the branches the right way round. */
  function TaskCorrected(c: ConnState): CloseEffect {
    if c.channelActive then
      var (active, f) := ChannelClose(c.channelActive);
      CloseEffect(c.(channelActive := active), f, [ChannelCloseAll])
    else CloseEffect(c, Succeeded(()), [PromiseSucceeded])
  }

  function CloseAsWrittenEffect(c: ConnState, taskAccepted: bool): CloseEffect {
    CloseWith(c, taskAccepted, TaskAsWritten)
  }

  function CloseEffectOf(c: ConnState, taskAccepted: bool): CloseEffect {
    CloseWith(c, taskAccepted, TaskCorrected)
  }

  predicate TouchesChannel(events: seq<CloseEvent>) {
    ChannelCloseAll in events
  }

  class TDSConnection {
    /** channel.isActive */
    var channelActive: bool
    var didClose: bool
    /** Everything every close() call has done, in order. */
    var events: seq<CloseEvent>

    function State(): ConnState
      reads this
    {
      ConnState(channelActive, didClose)
    }

    constructor (channelActive: bool)
      ensures State() == ConnState(channelActive, false)
      ensures !MayRelease(State()) && events == []
    {
      this.channelActive := channelActive;
      didClose := false;
      events := [];
    }

    /** close() exactly as the source writes it. */
    method CloseAsWritten(taskAccepted: bool) returns (f: Future<()>)
      modifies this
      ensures var e := CloseAsWrittenEffect(old(State()), taskAccepted);
              State() == e.state && f == e.result && events == old(events) + e.events
      ensures MayRelease(State())
    {
      if didClose {
        events := events + [ReturnedSucceededFuture];
        return Succeeded(());
      }
      didClose := true;
      if !taskAccepted {
        events := events + [TaskFailureCascaded];
        return Failed(EventLoopShutdown);
      }
      if channelActive {
        events := events + [PromiseSucceeded];
        f := Succeeded(());
      } else {
        events := events + [ChannelCloseAll];
        var (active, result) := ChannelClose(channelActive);
        channelActive, f := active, result;
      }
    }

    /** close() with the channel closed when it is active. */
    method Close(taskAccepted: bool) returns (f: Future<()>)
      modifies this
      ensures var e := CloseEffectOf(old(State()), taskAccepted);
              State() == e.state && f == e.result && events == old(events) + e.events
      ensures MayRelease(State())
    {
      if didClose {
        events := events + [ReturnedSucceededFuture];
        return Succeeded(());
      }
      didClose := true;
      if !taskAccepted {
        events := events + [TaskFailureCascaded];
        return Failed(EventLoopShutdown);
      }
      if channelActive {
        events := events + [ChannelCloseAll];
        var (active, result) := ChannelClose(channelActive);
        channelActive, f := active, result;
      } else {
        events := events + [PromiseSucceeded];
        f := Succeeded(());
      }
    }
  }

  // ---------------------------------------------------------------------
  // Lemmas

  /**
   Every close() after the first, whatever the event loop does, returns an
   already-succeeded future, changes nothing and does not touch the channel;
   this holds of both versions.
   */
  lemma CloseIsIdempotent(c: ConnState, first: bool, again: bool)
    ensures var e1 := CloseEffectOf(c, first);
            var e2 := CloseEffectOf(e1.state, again);
            e2 == CloseEffect(e1.state, Succeeded(()), [ReturnedSucceededFuture]) && !TouchesChannel(e2.events)
    ensures var e1 := CloseAsWrittenEffect(c, first);
            var e2 := CloseAsWrittenEffect(e1.state, again);
            e2 == CloseEffect(e1.state, Succeeded(()), [ReturnedSucceededFuture]) && !TouchesChannel(e2.events)
  {
  }

  /** The first close() sets didClose, so the connection may be released. */
  lemma FirstCloseSetsDidClose(c: ConnState, taskAccepted: bool)
    requires !c.didClose
    ensures CloseEffectOf(c, taskAccepted).state.didClose
    ensures CloseAsWrittenEffect(c, taskAccepted).state.didClose
    ensures MayRelease(CloseEffectOf(c, taskAccepted).state)
  {
  }

  /**
   A failure of the submitted task reaches the caller: the first close()
   fails with the event loop's error and the channel is left as it was.
   */
  lemma TaskFailureIsCascaded(c: ConnState)
    requires !c.didClose
    ensures CloseEffectOf(c, false) == CloseEffect(c.(didClose := true), Failed(EventLoopShutdown), [TaskFailureCascaded])
    ensures CloseAsWrittenEffect(c, false) == CloseEffectOf(c, false)
  {
  }

  /**
   The corrected close(): once the task has run, the channel is closed and
   the caller is told success, whether or not the channel was still active;
   the channel is asked to close exactly when it was active.
   */
  lemma CloseClosesChannel(c: ConnState)
    requires !c.didClose
    ensures var e := CloseEffectOf(c, true);
            IsClosed(e.state) && e.state.didClose && e.result == Succeeded(())
    ensures TouchesChannel(CloseEffectOf(c, true).events) <==> c.channelActive
  {
  }

  /** As written, closing a connection whose channel is active reports success and leaves it active. */
  lemma AsWrittenLeavesOpenChannelOpen()
    ensures var e := CloseAsWrittenEffect(ConnState(true, false), true);
            e.result == Succeeded(()) && !IsClosed(e.state) && !TouchesChannel(e.events)
  {
  }

  /** As written, closing a connection whose channel is already inactive fails. */
  lemma AsWrittenFailsOnInactiveChannel()
    ensures CloseAsWrittenEffect(ConnState(false, false), true).result == Failed(ChannelAlreadyClosed)
  {
  }

  /** The two versions differ on every first close whose task runs. */
  lemma AsWrittenDiffersFromCorrected(c: ConnState)
    requires !c.didClose
    ensures CloseAsWrittenEffect(c, true).result != CloseEffectOf(c, true).result ||
            IsClosed(CloseAsWrittenEffect(c, true).state) != IsClosed(CloseEffectOf(c, true).state)
  {
  }

  /**
   A client that closes a fresh connection twice with the corrected close():
   both calls succeed, the first closes the channel (asking it to close
   exactly when it was active) and the second only returns the guard's
   already-succeeded future.
   */
  method CloseTwice(active: bool)
    returns (first: Future<()>, closedAfterFirst: bool, firstEvents: seq<CloseEvent>,
             second: Future<()>, secondEvents: seq<CloseEvent>)
    ensures first == Succeeded(()) && second == Succeeded(())
    ensures closedAfterFirst
    ensures firstEvents == if active then [ChannelCloseAll] else [PromiseSucceeded]
    ensures secondEvents == [ReturnedSucceededFuture]
  {
    var conn := new TDSConnection(active);
    first := conn.Close(true);
    closedAfterFirst := IsClosed(conn.State());
    firstEvents := conn.events;
    second := conn.Close(true);
    secondEvents := conn.events[|firstEvents|..];
  }
}
