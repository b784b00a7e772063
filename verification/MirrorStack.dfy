/** The simulator and a remote mirror together: what one publishes, and what the other makes of what arrives. */
module MirrorStack {
  import opened Common
  import opened Protocol
  import opened DeviceModel
  import opened Motion
  import opened MotionPublish
  import RemoteMirror

  /** An event of the device that arrives or is lost on the way. */
  ghost function Arrive(t: RemoteMirror.Remote, deviceId: string, e: Event, arrives: bool): RemoteMirror.Remote {
    if arrives && e.StateChanged?
    then RemoteMirror.OnEvent(t, true, RemoteMirror.StateEvent(e.state, ValidState(e.state, Some(deviceId))))
    else t
  }

  /** A log arrives in order, as far as it arrives. */
  ghost function Feed(t: RemoteMirror.Remote, deviceId: string, log: seq<Event>,
                      arrives: seq<bool>): RemoteMirror.Remote
    requires |arrives| == |log|
    decreases |log|
  {
    if log == [] then t
    else
      var n := |log| - 1;
      Arrive(Feed(t, deviceId, log[..n], arrives[..n]), deviceId, log[n], arrives[n])
  }

  /** The state that arrived last, if one did. */
  function LatestArrived(log: seq<Event>, arrives: seq<bool>): Option<Snapshot>
    requires |arrives| == |log|
  {
    if log == [] then None
    else
      var n := |log| - 1;
      if arrives[n] && log[n].StateChanged? then Some(log[n].state) else LatestArrived(log[..n], arrives[..n])
  }

  /** Its revision, or the one the mirror started with. */
  function LastRevision(revision: int, log: seq<Event>, arrives: seq<bool>): int
    requires |arrives| == |log|
  {
    var latest := LatestArrived(log, arrives);
    if latest.Some? then latest.value.revision else revision
  }

  /** A state of this revision was published and lost. */
  predicate Lost(log: seq<Event>, arrives: seq<bool>, revision: int)
    requires |arrives| == |log|
  {
    exists i :: 0 <= i < |log| && log[i].StateChanged? && !arrives[i] && log[i].state.revision == revision
  }

  lemma LostMore(log: seq<Event>, arrives: seq<bool>, e: Event, kept: bool, revision: int)
    requires |arrives| == |log|
    ensures Lost(log + [e], arrives + [kept], revision) <==>
      Lost(log, arrives, revision) || (e.StateChanged? && !kept && e.state.revision == revision)
  {
    var all, flags := log + [e], arrives + [kept];
    if Lost(log, arrives, revision) {
      var i :| 0 <= i < |log| && log[i].StateChanged? && !arrives[i] && log[i].state.revision == revision;
      assert all[i].StateChanged? && !flags[i] && all[i].state.revision == revision;
    } else if e.StateChanged? && !kept && e.state.revision == revision {
      assert all[|log|].StateChanged? && !flags[|log|] && all[|log|].state.revision == revision;
    }
  }

  /** Up to date with a device of this revision. */
  predicate InStep(t: RemoteMirror.Remote, revision: int) {
    !t.closed && !t.stale && t.floor.None? && t.latest.Some? && t.latest.value.revision == revision
  }

  /**
   A mirror that has followed a log: it holds what arrived last, or it is stale
   and the successor of what it holds was lost; nothing published since the last
   arrival has arrived.
   */
  ghost predicate Followed(m: RemoteMirror.Remote, revision: int, log: seq<Event>, arrives: seq<bool>, published: int)
    requires |arrives| == |log|
  {
    var last := LastRevision(revision, log, arrives);
    && !m.closed && m.latest.Some? && last <= published
    && (!m.stale ==> m.floor.None? && m.latest.value.revision == last
                     && (LatestArrived(log, arrives).Some? ==> m.latest == LatestArrived(log, arrives)))
    && (m.stale ==> m.floor == Some(last) && m.latest.value.revision + 1 < last
                    && Lost(log, arrives, m.latest.value.revision + 1))
    && forall x :: last < x <= published ==> Lost(log, arrives, x)
  }

  lemma {:induction false} CountedFront(revision: int, front: seq<Event>, e: Event)
    requires Counted(revision, front + [e]).Some?
    ensures Counted(revision, front).Some?
    ensures Counted(revision, front + [e]) ==
      Some(Counted(revision, front).value + if e.StateChanged? then 1 else 0)
    ensures e.StateChanged? ==> e.state.revision == Counted(revision, front).value + 1
    decreases |front|
  {
    if front == [] {
      assert front + [e] == [e] && [e][1..] == [];
    } else {
      assert (front + [e])[1..] == front[1..] + [e];
      CountedFront(if front[0].StateChanged? then revision + 1 else revision, front[1..], e);
    }
  }

  lemma ArrivedMore(log: seq<Event>, arrives: seq<bool>, e: Event, kept: bool)
    requires |arrives| == |log|
    ensures LatestArrived(log + [e], arrives + [kept]) ==
      if kept && e.StateChanged? then Some(e.state) else LatestArrived(log, arrives)
  {
    assert (log + [e])[..|log|] == log && (arrives + [kept])[..|log|] == arrives;
  }

  /** One more event of the log, arriving or not. */
  lemma ArriveFollows(m: RemoteMirror.Remote, deviceId: string, revision: int, log: seq<Event>, arrives: seq<bool>,
                      published: int, e: Event, kept: bool)
    requires |arrives| == |log| && Followed(m, revision, log, arrives, published)
    requires e.StateChanged? ==> e.state.revision == published + 1 && ValidState(e.state, Some(deviceId))
    ensures Followed(Arrive(m, deviceId, e, kept), revision, log + [e], arrives + [kept],
                     published + if e.StateChanged? then 1 else 0)
  {
    ArrivedMore(log, arrives, e, kept);
    var last := LastRevision(revision, log, arrives);
    forall x
      ensures Lost(log + [e], arrives + [kept], x) <==>
        Lost(log, arrives, x) || (e.StateChanged? && !kept && e.state.revision == x)
    {
      LostMore(log, arrives, e, kept, x);
    }
    if e.StateChanged? && kept && !m.stale && last < published {
      assert Lost(log, arrives, last + 1);
    }
  }

  lemma {:induction false} FeedFollows(t: RemoteMirror.Remote, deviceId: string, revision: int, log: seq<Event>,
                                       arrives: seq<bool>)
    requires |arrives| == |log| && InStep(t, revision)
    requires Counted(revision, log).Some? && AllValid(log, deviceId)
    ensures Followed(Feed(t, deviceId, log, arrives), revision, log, arrives, Counted(revision, log).value)
    decreases |log|
  {
    if log != [] {
      var n := |log| - 1;
      var front, flags := log[..n], arrives[..n];
      assert log == front + [log[n]] && arrives == flags + [arrives[n]];
      CountedFront(revision, front, log[n]);
      assert log[n] in log && forall e :: e in front ==> e in log;
      FeedFollows(t, deviceId, revision, front, flags);
      ArriveFollows(Feed(t, deviceId, front, flags), deviceId, revision, front, flags,
                    Counted(revision, front).value, log[n], arrives[n]);
    }
  }

  /**
   Whatever part of the states of any run is lost on the way, a mirror that was
   in step with the device is stale if and only if a state between the one it
   holds and the one that arrived last was lost; otherwise it holds the one that
   arrived last, which is the device's state if no later one was published.
   */
  lemma StaleIffSomethingIsMissing(q: Queue, run: seq<Step>, t: RemoteMirror.Remote, arrives: seq<bool>)
    requires Initial(q) && Legal(q, run) && InStep(t, q.dev.revision)
    requires |arrives| == |After(q, run).trace|
    ensures var r := After(q, run);
      var m := Feed(t, r.dev.deviceId, r.trace, arrives);
      var last := LastRevision(q.dev.revision, r.trace, arrives);
      && m.latest.Some? && last <= r.dev.revision
      && (m.stale <==> exists x :: m.latest.value.revision < x < last && Lost(r.trace, arrives, x))
      && (!m.stale && LatestArrived(r.trace, arrives).Some? ==> m.latest == LatestArrived(r.trace, arrives))
      && (!m.stale && LatestArrived(r.trace, arrives).Some? && last == r.dev.revision && r.stage != Closed ==>
            m.latest == Some(SnapshotOf(r.dev)))
  {
    var r := After(q, run);
    PublishedStatesFollowTheDevice(q, run);
    FeedFollows(t, r.dev.deviceId, q.dev.revision, r.trace, arrives);
    var m := Feed(t, r.dev.deviceId, r.trace, arrives);
    if m.stale {
      var x := m.latest.value.revision + 1;
      assert m.latest.value.revision < x < LastRevision(q.dev.revision, r.trace, arrives) && Lost(r.trace, arrives, x);
    }
    if LatestArrived(r.trace, arrives).Some? && LastRevision(q.dev.revision, r.trace, arrives) == r.dev.revision {
      LastArrivedIsLatest(q.dev.revision, r.trace, arrives);
    }
  }

  /** The state with the last revision is the latest one. */
  lemma {:induction false} LastArrivedIsLatest(revision: int, log: seq<Event>, arrives: seq<bool>)
    requires |arrives| == |log| && Counted(revision, log).Some?
    ensures LatestArrived(log, arrives).Some? ==>
      LatestArrived(log, arrives).value.revision <= Counted(revision, log).value
    ensures LatestArrived(log, arrives).Some? ==>
      LatestArrived(log, arrives).value.revision == Counted(revision, log).value ==>
      LatestArrived(log, arrives) == LatestState(log)
    decreases |log|
  {
    if log != [] {
      var n := |log| - 1;
      assert log == log[..n] + [log[n]];
      CountedFront(revision, log[..n], log[n]);
      LastArrivedIsLatest(revision, log[..n], arrives[..n]);
    }
  }

  // ---- nothing lost ------------------------------------------------------------------------

  lemma {:induction false} ContiguousLogKeepsStep(t: RemoteMirror.Remote, deviceId: string, revision: int,
                                                  log: seq<Event>, arrives: seq<bool>)
    requires |arrives| == |log| && forall i :: 0 <= i < |log| ==> arrives[i]
    requires InStep(t, revision) && Counted(revision, log).Some? && AllValid(log, deviceId)
    ensures InStep(Feed(t, deviceId, log, arrives), Counted(revision, log).value)
    ensures Feed(t, deviceId, log, arrives).resync == t.resync
    ensures LatestArrived(log, arrives) == LatestState(log)
    ensures Feed(t, deviceId, log, arrives).latest == if LatestState(log).Some? then LatestState(log) else t.latest
    decreases |log|
  {
    if log != [] {
      var n := |log| - 1;
      assert log == log[..n] + [log[n]];
      CountedFront(revision, log[..n], log[n]);
      assert log[n] in log && forall e :: e in log[..n] ==> e in log;
      ContiguousLogKeepsStep(t, deviceId, revision, log[..n], arrives[..n]);
    }
  }

  /**
   A remote mirror that starts with the device's revision and gets every state of
   any run is never stale, needs no recovery, and as long as the queue is not
   closed holds exactly the device's state once any has been published.
   */
  lemma MirrorFollowsSimulator(q: Queue, run: seq<Step>, t: RemoteMirror.Remote, arrives: seq<bool>)
    requires Initial(q) && Legal(q, run) && InStep(t, q.dev.revision)
    requires |arrives| == |After(q, run).trace| && forall i :: 0 <= i < |arrives| ==> arrives[i]
    ensures var r := After(q, run);
      var m := Feed(t, r.dev.deviceId, r.trace, arrives);
      && InStep(m, r.dev.revision) && m.resync == t.resync
      && (r.stage != Closed && LatestState(r.trace).Some? ==> m.latest == Some(SnapshotOf(r.dev)))
  {
    PublishedStatesFollowTheDevice(q, run);
    ContiguousLogKeepsStep(t, After(q, run).dev.deviceId, q.dev.revision, After(q, run).trace, arrives);
  }
}
