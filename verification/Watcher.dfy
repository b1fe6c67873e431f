/** The Docker events watcher (agent/internal/events/watcher.go). */
module Watcher {
  import opened Wrappers

  datatype DockerEvent = DockerEvent(name: string, container: string, action: string, exitCode: string, time: int)

  datatype EventType = ContainerStarted | ContainerExited | ContainerOOM

  datatype SandboxEvent = SandboxEvent(app: string, container: string, kind: EventType, exitCode: string, time: int,
                                       oomKilled: bool)

  const CONTAINER_PREFIX := "forge-"

  predicate IsForge(name: string) {
    |CONTAINER_PREFIX| <= |name| && name[..|CONTAINER_PREFIX|] == CONTAINER_PREFIX
  }

  function MapEvent(ev: DockerEvent): Option<SandboxEvent> {
    if !IsForge(ev.name) then None
    else
      var app := ev.name[|CONTAINER_PREFIX|..];
      if ev.action == "die" then Some(SandboxEvent(app, ev.container, ContainerExited, ev.exitCode, ev.time, false))
      else if ev.action == "oom" then Some(SandboxEvent(app, ev.container, ContainerOOM, ev.exitCode, ev.time, true))
      else if ev.action == "start" then
        Some(SandboxEvent(app, ev.container, ContainerStarted, ev.exitCode, ev.time, false))
      else None
  }

  /** Mappable are exactly the three known actions of containers with the prefix, and nothing of the event is lost. */
  lemma MapEventIsFaithful(ev: DockerEvent)
    ensures MapEvent(ev).Some? <==> (exists app :: ev.name == CONTAINER_PREFIX + app)
                                    && (ev.action == "start" || ev.action == "die" || ev.action == "oom")
    ensures MapEvent(ev).Some? ==>
              var e := MapEvent(ev).value;
              ev == DockerEvent(CONTAINER_PREFIX + e.app, e.container,
                                match e.kind
                                  case ContainerStarted => "start"
                                  case ContainerExited => "die"
                                  case ContainerOOM => "oom",
                                e.exitCode, e.time)
              && (e.oomKilled <==> e.kind == ContainerOOM)
  {
    if IsForge(ev.name) {
      assert ev.name == CONTAINER_PREFIX + ev.name[|CONTAINER_PREFIX|..];
    }
    forall app | ev.name == CONTAINER_PREFIX + app ensures IsForge(ev.name) {
      assert ev.name[..|CONTAINER_PREFIX|] == CONTAINER_PREFIX;
    }
  }

  // ---------------------------------------------------------------- one stream

  /** What the events of the log from position a up to b are mapped to. */
  function Mapped(log: seq<DockerEvent>, a: nat, b: nat): seq<SandboxEvent>
    requires a <= b <= |log|
  {
    if a == b then []
    else Mapped(log, a, b - 1) + match MapEvent(log[b - 1]) case Some(e) => [e] case None => []
  }

  /** The time of the last mappable event from position a up to b, or since when there is none. */
  function LastTime(log: seq<DockerEvent>, a: nat, b: nat, since: int): int
    requires a <= b <= |log|
  {
    if a == b then since
    else if MapEvent(log[b - 1]).Some? then log[b - 1].time else LastTime(log, a, b - 1, since)
  }

  /** Where the context is cancelled while a stream is read: after so many events, and whether the next one's time had
      been taken when its emission was given up; or only while the stream's errors are drained. */
  datatype Cancel = Never | AfterEvents(n: nat, taken: bool) | WhileDraining(n: nat)

  function Handled(count: nat, cancel: Cancel): (r: nat)
    ensures r <= count
  {
    if cancel.AfterEvents? && cancel.n < count then cancel.n else count
  }

  predicate Cancelled(count: nat, cancel: Cancel) { cancel.AfterEvents? && cancel.n < count }

  /** The stream yields the events of the log from position from up to to; again: it ended with an error, so the
      watcher reconnects. */
  method ProcessStream(log: seq<DockerEvent>, from: nat, to: nat, errors: nat, cancel: Cancel, since: int)
    returns (again: bool, out: seq<SandboxEvent>, since': int)
    requires from <= to <= |log|
    ensures again == (errors > 0 && !Cancelled(to - from, cancel) && !(cancel.WhileDraining? && cancel.n < errors))
    ensures out == Mapped(log, from, from + Handled(to - from, cancel))
    ensures since' == LastTime(log, from, from + Handled(to - from, cancel), since)
            || (Cancelled(to - from, cancel) && since' == LastTime(log, from, from + cancel.n + 1, since))
  {
    out, since' := [], since;
    for i := from to to
      invariant i - from <= Handled(to - from, cancel)
      invariant out == Mapped(log, from, i) && since' == LastTime(log, from, i, since)
    {
      if cancel.AfterEvents? && cancel.n == i - from && !cancel.taken {
        return false, out, since';
      }
      var mapped := MapEvent(log[i]);
      if mapped.None? {
        if cancel.AfterEvents? && cancel.n == i - from {
          return false, out, since';
        }
        continue;
      }
      since' := log[i].time;
      if cancel.AfterEvents? && cancel.n == i - from {
        return false, out, since';
      }
      out := out + [mapped.value];
    }
    again := false;
    for i := 0 to errors
      invariant again == (i > 0) && !(cancel.WhileDraining? && cancel.n < i)
    {
      if cancel.WhileDraining? && cancel.n == i {
        return false, out, since';
      }
      again := true;
    }
  }

  // ---------------------------------------------------------------- reconnecting

  ghost predicate Sorted(log: seq<DockerEvent>) { forall i, j | 0 <= i <= j < |log| :: log[i].time <= log[j].time }

  /** The first position from i on whose event is not older than since. */
  function StartAt(log: seq<DockerEvent>, since: int, i: nat): (r: nat)
    requires i <= |log|
    ensures i <= r <= |log|
    ensures forall j | i <= j < r :: log[j].time < since
    ensures r < |log| ==> log[r].time >= since
    decreases |log| - i
  {
    if i == |log| || log[i].time >= since then i else StartAt(log, since, i + 1)
  }

  /** Events before this position are older than since. */
  function Start(log: seq<DockerEvent>, since: int): (r: nat)
    ensures r <= |log|
    ensures forall i | 0 <= i < r :: log[i].time < since
    ensures r < |log| ==> log[r].time >= since
  {
    StartAt(log, since, 0)
  }

  /** A stream opened with since yields the first count events not older than it, as far as there are any: those from
      Start up to this position. */
  function End(log: seq<DockerEvent>, since: int, count: nat): (r: nat)
    ensures Start(log, since) <= r <= |log|
  {
    if Start(log, since) + count <= |log| then Start(log, since) + count else |log|
  }

  /** errors and cancel are how the stream ends. */
  datatype Stream = Stream(count: nat, errors: nat, cancel: Cancel)

  /** The watcher between two streams; reach is the furthest position of the log any stream has got to. */
  datatype Watch = Watch(out: seq<SandboxEvent>, since: int, reach: nat)

  function Max(a: nat, b: nat): nat { if a < b then b else a }

  /** One more stream, read to its end. */
  function Connect(log: seq<DockerEvent>, w: Watch, count: nat): Watch {
    var from, to := Start(log, w.since), End(log, w.since, count);
    Watch(w.out + Mapped(log, from, to), LastTime(log, from, to, w.since), Max(w.reach, to))
  }

  /** The watcher after the first n streams. */
  function Reconnects(log: seq<DockerEvent>, zero: int, streams: seq<Stream>, n: nat): Watch
    requires n <= |streams|
  {
    if n == 0 then Watch([], zero, 0)
    else Connect(log, Reconnects(log, zero, streams, n - 1), streams[n - 1].count)
  }

  /** Nothing before reach is missing from out. */
  ghost predicate Covered(log: seq<DockerEvent>, reach: nat, out: seq<SandboxEvent>)
    requires reach <= |log|
  {
    forall i | 0 <= i < reach && MapEvent(log[i]).Some? :: MapEvent(log[i]).value in out
  }

  /** Every event in out was mapped from one between a and b. */
  ghost predicate ComesFrom(log: seq<DockerEvent>, a: nat, b: nat, out: seq<SandboxEvent>)
    requires a <= b <= |log|
  {
    forall e | e in out :: exists i | a <= i < b :: MapEvent(log[i]) == Some(e)
  }

  /** Nothing before reach is missing from out, nothing else is in it, and the next stream starts no later. */
  ghost predicate NoGap(log: seq<DockerEvent>, zero: int, w: Watch) {
    && w.reach <= |log| && Start(log, w.since) <= w.reach && zero <= w.since
    && Covered(log, w.reach, w.out) && ComesFrom(log, 0, w.reach, w.out)
  }

  lemma {:induction false} MappedCovers(log: seq<DockerEvent>, a: nat, b: nat, i: nat)
    requires a <= i < b <= |log| && MapEvent(log[i]).Some?
    ensures MapEvent(log[i]).value in Mapped(log, a, b)
  {
    if i < b - 1 {
      MappedCovers(log, a, b - 1, i);
    }
  }

  lemma {:induction false} MappedComesFrom(log: seq<DockerEvent>, a: nat, b: nat)
    requires a <= b <= |log|
    ensures ComesFrom(log, a, b, Mapped(log, a, b))
  {
    if a < b {
      MappedComesFrom(log, a, b - 1);
      forall e | e in Mapped(log, a, b) ensures exists i | a <= i < b :: MapEvent(log[i]) == Some(e) {
        if e !in Mapped(log, a, b - 1) {
          assert MapEvent(log[b - 1]) == Some(e);
        }
      }
    }
  }

  lemma {:induction false} LastTimeIs(log: seq<DockerEvent>, a: nat, b: nat, since: int) returns (i: nat)
    requires a <= b <= |log|
    ensures LastTime(log, a, b, since) == since || (a <= i < b && LastTime(log, a, b, since) == log[i].time)
  {
    i := a;
    if a < b {
      if MapEvent(log[b - 1]).Some? {
        i := b - 1;
      } else {
        i := LastTimeIs(log, a, b - 1, since);
      }
    }
  }

  lemma StartIsBefore(log: seq<DockerEvent>, i: nat)
    requires Sorted(log) && i < |log|
    ensures Start(log, log[i].time) <= i
  {
  }

  /** since after a stream is since itself or the time of an event the stream yielded. */
  lemma SinceMoves(log: seq<DockerEvent>, since: int, to: nat, since': int)
    requires Sorted(log) && Start(log, since) <= to <= |log| && since' == LastTime(log, Start(log, since), to, since)
    ensures since <= since' && Start(log, since') <= to
  {
    var from := Start(log, since);
    var i := LastTimeIs(log, from, to, since);
    if since' != since {
      assert log[from].time <= log[i].time;
      StartIsBefore(log, i);
    }
  }

  lemma ConnectKeeps(log: seq<DockerEvent>, zero: int, w: Watch, count: nat, w': Watch)
    requires Sorted(log) && NoGap(log, zero, w) && w' == Connect(log, w, count)
    ensures NoGap(log, zero, w') && w.since <= w'.since
  {
    SinceMoves(log, w.since, End(log, w.since, count), w'.since);
    ConnectCovers(log, w, End(log, w.since, count), w');
    ConnectAddsNothing(log, w, End(log, w.since, count), w');
  }

  lemma ConnectCovers(log: seq<DockerEvent>, w: Watch, to: nat, w': Watch)
    requires Start(log, w.since) <= w.reach <= |log| && Start(log, w.since) <= to <= |log|
    requires w'.out == w.out + Mapped(log, Start(log, w.since), to) && w'.reach == Max(w.reach, to)
    requires Covered(log, w.reach, w.out)
    ensures Covered(log, w'.reach, w'.out)
  {
    forall i | 0 <= i < w'.reach && MapEvent(log[i]).Some? ensures MapEvent(log[i]).value in w'.out {
      if i >= w.reach {
        MappedCovers(log, Start(log, w.since), to, i);
      }
    }
  }

  lemma ConnectAddsNothing(log: seq<DockerEvent>, w: Watch, to: nat, w': Watch)
    requires w.reach <= |log| && Start(log, w.since) <= to <= |log|
    requires w'.out == w.out + Mapped(log, Start(log, w.since), to) && w'.reach == Max(w.reach, to)
    requires ComesFrom(log, 0, w.reach, w.out)
    ensures ComesFrom(log, 0, w'.reach, w'.out)
  {
    var added := Mapped(log, Start(log, w.since), to);
    MappedComesFrom(log, Start(log, w.since), to);
    forall e | e in w'.out ensures exists i | 0 <= i < w'.reach :: MapEvent(log[i]) == Some(e) {
      assert e in w.out || e in added;
    }
  }

  /** After any number of streams, each of which may break off anywhere: every mappable event up to the furthest point
      any of them reached has been emitted, and nothing else has. */
  lemma {:induction false} NoGapAcrossReconnects(log: seq<DockerEvent>, zero: int, streams: seq<Stream>, n: nat)
    requires Sorted(log) && (log != [] ==> zero <= log[0].time) && n <= |streams|
    ensures NoGap(log, zero, Reconnects(log, zero, streams, n))
  {
    if n > 0 {
      NoGapAcrossReconnects(log, zero, streams, n - 1);
      ConnectKeeps(log, zero, Reconnects(log, zero, streams, n - 1), streams[n - 1].count,
                   Reconnects(log, zero, streams, n));
    }
  }

  /** w' is no earlier than w. */
  predicate Later(w: Watch, w': Watch) { w.since <= w'.since && w.out <= w'.out }

  lemma ConnectAdvances(log: seq<DockerEvent>, w: Watch, count: nat, w': Watch)
    requires Sorted(log) && w' == Connect(log, w, count)
    ensures Later(w, w')
  {
    SinceMoves(log, w.since, End(log, w.since, count), w'.since);
  }

  /** since never goes back, and nothing emitted is taken back. */
  lemma {:induction false} SinceNeverGoesBack(log: seq<DockerEvent>, zero: int, streams: seq<Stream>, m: nat, n: nat)
    requires Sorted(log) && m <= n <= |streams|
    ensures Later(Reconnects(log, zero, streams, m), Reconnects(log, zero, streams, n))
  {
    if m < n {
      SinceNeverGoesBack(log, zero, streams, m, n - 1);
      ConnectAdvances(log, Reconnects(log, zero, streams, n - 1), streams[n - 1].count,
                      Reconnects(log, zero, streams, n));
      LaterStill(Reconnects(log, zero, streams, m), Reconnects(log, zero, streams, n - 1),
                 Reconnects(log, zero, streams, n));
    }
  }

  lemma LaterStill(w: Watch, w': Watch, w'': Watch)
    requires Later(w, w') && Later(w', w'')
    ensures Later(w, w'')
  {
  }

  lemma {:induction false} LastTimeSplits(log: seq<DockerEvent>, a: nat, m: nat, b: nat, since: int)
    requires a <= m <= b <= |log|
    ensures LastTime(log, a, b, since) == LastTime(log, m, b, LastTime(log, a, m, since))
    decreases b
  {
    if m < b {
      LastTimeSplits(log, a, m, b - 1, since);
    }
  }

  lemma {:induction false} LastIsLatest(log: seq<DockerEvent>, b: nat, i: nat, zero: int)
    requires Sorted(log) && i < b <= |log| && MapEvent(log[i]).Some?
    ensures log[i].time <= LastTime(log, 0, b, zero)
    decreases b
  {
    if i < b - 1 {
      LastIsLatest(log, b - 1, i, zero);
    }
  }

  /** Reading again what was read before does not move since. */
  lemma RereadKeeps(log: seq<DockerEvent>, since: int, to: nat, reach: nat, zero: int)
    requires Sorted(log) && Start(log, since) <= to <= reach <= |log| && since == LastTime(log, 0, reach, zero)
    ensures LastTime(log, Start(log, since), to, since) == since
  {
    var from := Start(log, since);
    SinceMoves(log, since, to, LastTime(log, from, to, since));
    LastMappable(log, from, to, since);
    if i :| from <= i < to && MapEvent(log[i]).Some? && log[i].time == LastTime(log, from, to, since) {
      LastIsLatest(log, reach, i, zero);
    }
  }

  /** LastTime is the time of the last mappable event, if there is one. */
  lemma {:induction false} LastMappable(log: seq<DockerEvent>, a: nat, b: nat, since: int)
    requires a <= b <= |log|
    ensures if exists i :: a <= i < b && MapEvent(log[i]).Some?
            then exists i :: a <= i < b && MapEvent(log[i]).Some? && log[i].time == LastTime(log, a, b, since)
                             && forall j | i < j < b :: MapEvent(log[j]).None?
            else LastTime(log, a, b, since) == since
    decreases b
  {
    if a < b {
      LastMappable(log, a, b - 1, since);
      if MapEvent(log[b - 1]).None? && exists i :: a <= i < b && MapEvent(log[i]).Some? {
        var i :| a <= i < b - 1 && MapEvent(log[i]).Some? && log[i].time == LastTime(log, a, b - 1, since)
                 && forall j | i < j < b - 1 :: MapEvent(log[j]).None?;
        assert forall j | i < j < b :: MapEvent(log[j]).None?;
      }
    }
  }

  lemma ConnectRemembers(log: seq<DockerEvent>, zero: int, w: Watch, count: nat, w': Watch)
    requires Sorted(log) && NoGap(log, zero, w) && w.since == LastTime(log, 0, w.reach, zero)
    requires w' == Connect(log, w, count)
    ensures w'.since == LastTime(log, 0, w'.reach, zero)
  {
    var from, to := Start(log, w.since), End(log, w.since, count);
    if to <= w.reach {
      RereadKeeps(log, w.since, to, w.reach, zero);
    } else {
      RereadKeeps(log, w.since, w.reach, w.reach, zero);
      LastTimeSplits(log, from, w.reach, to, w.since);
      LastTimeSplits(log, 0, w.reach, to, zero);
    }
  }

  lemma {:induction false} SinceRemembers(log: seq<DockerEvent>, zero: int, streams: seq<Stream>, n: nat)
    requires Sorted(log) && (log != [] ==> zero <= log[0].time) && n <= |streams|
    ensures var w := Reconnects(log, zero, streams, n); w.reach <= |log| && w.since == LastTime(log, 0, w.reach, zero)
    decreases n
  {
    NoGapAcrossReconnects(log, zero, streams, n);
    if n > 0 {
      SinceRemembers(log, zero, streams, n - 1);
      NoGapAcrossReconnects(log, zero, streams, n - 1);
      ConnectRemembers(log, zero, Reconnects(log, zero, streams, n - 1), streams[n - 1].count,
                       Reconnects(log, zero, streams, n));
    }
  }

  /** since moves on with the events: after any number of streams the next one is opened at the time of the last
      mappable event any of them reached, and at zero only when none has been. */
  lemma SinceIsTheLastEvent(log: seq<DockerEvent>, zero: int, streams: seq<Stream>, n: nat)
    requires Sorted(log) && (log != [] ==> zero <= log[0].time) && n <= |streams|
    ensures var w := Reconnects(log, zero, streams, n);
            && w.reach <= |log|
            && if exists i :: 0 <= i < w.reach && MapEvent(log[i]).Some?
               then exists i :: 0 <= i < w.reach && MapEvent(log[i]).Some? && w.since == log[i].time
                                && forall j | i < j < w.reach :: MapEvent(log[j]).None?
               else w.since == zero
  {
    SinceRemembers(log, zero, streams, n);
    LastMappable(log, 0, Reconnects(log, zero, streams, n).reach, zero);
  }

  // ---------------------------------------------------------------- back-off

  function Doubled(backoff: int, max: int): int { if backoff * 2 > max then max else backoff * 2 }

  /** The back-off after k errors. */
  function Backoff(base: int, max: int, k: nat): int {
    if k == 0 then base else Doubled(Backoff(base, max, k - 1), max)
  }

  /** The waits after the first n errors. */
  function Delays(base: int, max: int, n: nat): (r: seq<int>)
    ensures |r| == n
  {
    if n == 0 then [] else Delays(base, max, n - 1) + [Backoff(base, max, n - 1)]
  }

  lemma {:induction false} DelaysAre(base: int, max: int, n: nat, k: nat)
    requires k < n
    ensures Delays(base, max, n)[k] == Backoff(base, max, k)
  {
    if k < n - 1 {
      DelaysAre(base, max, n - 1, k);
    }
  }

  function Pow2(k: nat): nat { if k == 0 then 1 else 2 * Pow2(k - 1) }

  function Min(a: int, b: int): int { if a < b then a else b }

  lemma {:induction false} BackoffAfterErrors(base: int, max: int, k: nat)
    requires 0 <= base && 0 <= max
    ensures k > 0 ==> Backoff(base, max, k) == Min(base * Pow2(k), max)
  {
    if k > 1 {
      BackoffAfterErrors(base, max, k - 1);
      assert base * Pow2(k) == 2 * (base * Pow2(k - 1));
    }
  }

  /** The back-off is min(base * 2^k, max) for every k exactly when base <= max; otherwise only the first one is off. */
  lemma BackoffIsCapped(base: int, max: int)
    requires 0 <= base && 0 <= max
    ensures (forall k: nat :: Backoff(base, max, k) == Min(base * Pow2(k), max)) <==> base <= max
  {
    forall k: nat ensures Backoff(base, max, k) == Min(base * Pow2(k), max) <==> (k > 0 || base <= max) {
      BackoffAfterErrors(base, max, k);
      if k == 0 {
        assert base * Pow2(0) == base;
      }
    }
    if base > max {
      assert Backoff(base, max, 0) != Min(base * Pow2(0), max);
    }
  }

  // ---------------------------------------------------------------- the loop

  class EventWatcher {
    const baseBackoff: int
    const maxBackoff: int

    constructor (baseBackoff: int, maxBackoff: int)
      ensures this.baseBackoff == baseBackoff && this.maxBackoff == maxBackoff
    {
      this.baseBackoff, this.maxBackoff := baseBackoff, maxBackoff;
    }

    /** streams are the connections made until the source ends cleanly or the context is cancelled; delays are the waits
        between them. The first whole of them were read to their end, and the next one was cut short when the context
        was cancelled while it was read. */
    method WatchLoop(log: seq<DockerEvent>, zero: int, streams: seq<Stream>)
      returns (out: seq<SandboxEvent>, delays: seq<int>, ghost whole: nat, ghost cut: bool, ghost w: Watch)
      ensures whole <= |streams| && w == Reconnects(log, zero, streams, whole)
      ensures if cut then whole < |streams| && CutShort(log, w, streams[whole], out) else out == w.out
      ensures |delays| <= whole && delays == Delays(baseBackoff, maxBackoff, |delays|)
    {
      var lastEventTime := zero;
      var backoff := baseBackoff;
      out, delays, whole, cut, w := [], [], 0, false, Watch([], zero, 0);
      for i := 0 to |streams|
        invariant whole == i && !cut && w == Reconnects(log, zero, streams, i) && out == w.out
                  && lastEventTime == w.since
        invariant |delays| == i && Waited(backoff, delays)
      {
        var cancelled, again;
        cancelled, again, out, lastEventTime, w := ReadNext(log, zero, streams, i, out, lastEventTime, w);
        if cancelled {
          cut := true;
          return;
        }
        whole := whole + 1;
        if !again { return; }
        backoff, delays := Wait(backoff, delays);
      }
    }

    /** What the waits so far were, and what the next one is. */
    predicate Waited(backoff: int, delays: seq<int>) {
      delays == Delays(baseBackoff, maxBackoff, |delays|) && backoff == Backoff(baseBackoff, maxBackoff, |delays|)
    }

    /** Wait, and increase the back-off for the next attempt. */
    method Wait(backoff: int, delays: seq<int>) returns (backoff': int, delays': seq<int>)
      requires Waited(backoff, delays)
      ensures Waited(backoff', delays') && |delays'| == |delays| + 1
    {
      delays' := delays + [backoff];
      backoff' := backoff * 2;
      if backoff' > maxBackoff {
        backoff' := maxBackoff;
      }
    }

    /** Stream i, appended to what has been emitted so far. */
    static method ReadNext(log: seq<DockerEvent>, ghost zero: int, streams: seq<Stream>, i: nat, out: seq<SandboxEvent>,
                           since: int, ghost w: Watch)
      returns (cancelled: bool, again: bool, out': seq<SandboxEvent>, since': int, ghost w': Watch)
      requires i < |streams| && w == Reconnects(log, zero, streams, i) && out == w.out && since == w.since
      ensures if cancelled then w' == w && CutShort(log, w, streams[i], out')
              else w' == Reconnects(log, zero, streams, i + 1) && out' == w'.out && since' == w'.since
    {
      var emitted;
      cancelled, again, emitted, since' := ReadStream(log, since, streams[i]);
      out' := out + emitted;
      w' := if cancelled then w else Connect(log, w, streams[i].count);
    }

    static method ReadStream(log: seq<DockerEvent>, since: int, stream: Stream)
      returns (cancelled: bool, again: bool, out: seq<SandboxEvent>, since': int)
      ensures var from, to := Start(log, since), End(log, since, stream.count);
              && cancelled == Cancelled(to - from, stream.cancel)
              && out == Mapped(log, from, from + Handled(to - from, stream.cancel))
              && (!cancelled ==> out == Mapped(log, from, to) && since' == LastTime(log, from, to, since))
              && (again ==> stream.errors > 0)
    {
      var from, to := Start(log, since), End(log, since, stream.count);
      again, out, since' := ProcessStream(log, from, to, stream.errors, stream.cancel, since);
      cancelled := Cancelled(to - from, stream.cancel);
    }
  }

  /** out ends with the part of the stream before the cancellation. */
  predicate CutShort(log: seq<DockerEvent>, w: Watch, stream: Stream, out: seq<SandboxEvent>) {
    var from, to := Start(log, w.since), End(log, w.since, stream.count);
    Cancelled(to - from, stream.cancel)
    && out == w.out + Mapped(log, from, from + Handled(to - from, stream.cancel))
  }
}
