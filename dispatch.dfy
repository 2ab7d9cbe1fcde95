/** The dispatch task: a loop that, unless paused, takes the next balloon
    from the runner, prints it and acknowledges it, looking at the command
    channel before each balloon and waiting on it when there is nothing to
    print. One pass of the loop is the function Iteration; the whole run is
    the function Run; the method DispatchLoop is the loop itself, proved to
    do what Run says. The command channel, the server and the printer are
    oracles fixed in advance. */
module Dispatch {
  import opened Prelude
  import opened Urls
  import opened Output
  import opened DomJudge

  /** What one receive operation observes on the command channel: a
      command; nothing (no command pending when the loop looks, or none
      arriving before the five-second idle wait is over); or the channel
      closed, the console having dropped its sender. When the observations
      run out the channel behaves as closed. */
  datatype Event = Msg(cmd: Command) | Quiet | Closed

  /** What `try_recv` returns. */
  datatype Polled = Pending(cmd: Command) | Empty | Disconnected

  /** Which branch of the select between the idle sleep and `recv` wins. */
  datatype Woken = Slept | Woke(cmd: Command) | Hangup

  /** What the loop does to the outside world: ask the server for
      balloons, write a balloon to the printer, acknowledge a balloon. */
  datatype Action = Fetch | Print(id: nat) | Ack(id: nat)

  /** Why the loop ended. A failed write or acknowledgement is a panic of
      the dispatch task in src/main.rs; here it is a stop reason. */
  datatype Stop = ChannelClosed | FetchFailed(error: Error) | PrintFailed | AckFailed(error: Error)

  /** The loop's state and how far each oracle has been consumed: the
      pause flag, the runner's buffer, the channel observations still to
      come, and the numbers of list requests, acknowledgements and printer
      writes so far. */
  datatype World = World(pause: bool, buf: seq<Balloon>, events: seq<Event>, gets: nat, posts: nat, writes: nat)

  /** The server, and whether the k-th write to the printer succeeds. */
  datatype Env = Env(server: Server, printer: nat -> bool)

  /** One pass of the loop: the state after it, what it did, and whether
      the loop ends there. */
  datatype Step = Step(next: World, actions: seq<Action>, stop: Option<Stop>)

  /** The whole run: everything it did, why it ended, its last state. */
  datatype Outcome = Outcome(trace: seq<Action>, stop: Stop, last: World)

  /** A blocking `recv`: waits through quiet observations for a command,
      or sees the channel closed. */
  function RecvOf(evs: seq<Event>): (r: (Option<Command>, seq<Event>))
    ensures |r.1| <= |evs| && r.1 == evs[|evs| - |r.1|..]
    ensures r.0.Some? ==> |r.1| < |evs| && evs[|evs| - |r.1| - 1] == Msg(r.0.value)
    ensures r.0.None? ==> r.1 == [] || r.1[0] == Closed
    ensures forall i :: 0 <= i < |evs| - |r.1| - (if r.0.Some? then 1 else 0) ==> evs[i] == Quiet
  {
    if evs == [] then (None, [])
    else match evs[0]
      case Quiet => RecvOf(evs[1..])
      case Closed => (None, evs)
      case Msg(c) => (Some(c), evs[1..])
  }

  /** `try_recv`: looks once without waiting. */
  function TryRecvOf(evs: seq<Event>): (Polled, seq<Event>)
  {
    if evs == [] then (Disconnected, [])
    else match evs[0]
      case Msg(c) => (Pending(c), evs[1..])
      case Quiet => (Empty, evs[1..])
      case Closed => (Disconnected, evs)
  }

  /** The idle wait: the five-second sleep raced against `recv`. */
  function SleepOrRecvOf(evs: seq<Event>): (Woken, seq<Event>)
  {
    if evs == [] then (Hangup, [])
    else match evs[0]
      case Msg(c) => (Woke(c), evs[1..])
      case Quiet => (Slept, evs[1..])
      case Closed => (Hangup, evs)
  }

  /** One pass of the loop body. While paused, a blocking receive comes
      first: Resume clears the flag and starts the next pass, a closed
      channel ends the loop, and Pause falls through to the non-blocking
      check like a running pass. */
  function Iteration(w: World, env: Env): (s: Step)
    ensures s.stop.None? ==> |s.next.events| < |w.events|
    ensures w.gets <= s.next.gets
  {
    if w.pause then
      match RecvOf(w.events)
      case (None, rest) => Step(w.(events := rest), [], Some(ChannelClosed))
      case (Some(Resume), rest) => Step(w.(pause := false, events := rest), [], None)
      case (Some(Pause), rest) => Poll(w.(events := rest), env)
    else Poll(w, env)
  }

  /** The non-blocking check before asking for work: a pending Pause sets
      the flag and starts the next pass, a pending Resume clears it and
      goes on, a closed channel ends the loop, nothing pending goes on. */
  function Poll(w: World, env: Env): (s: Step)
    ensures s.stop.None? ==> |s.next.events| < |w.events|
    ensures w.gets <= s.next.gets
  {
    match TryRecvOf(w.events)
    case (Pending(Pause), rest) => Step(w.(pause := true, events := rest), [], None)
    case (Pending(Resume), rest) => Work(w.(pause := false, events := rest), env)
    case (Disconnected, rest) => Step(w.(events := rest), [], Some(ChannelClosed))
    case (Empty, rest) => Work(w.(events := rest), env)
  }

  /** Take the next balloon; a fetch error ends the loop; no balloon means
      the idle wait; a balloon is printed and then acknowledged. */
  function Work(w: World, env: Env): (s: Step)
    ensures s.stop.None? ==> |s.next.events| <= |w.events|
    ensures w.gets <= s.next.gets
  {
    var fetching := w.buf == [];
    var g := GetStep(w.buf, env.server.batch(w.gets));
    var w1 := w.(buf := g.buf, gets := if fetching then w.gets + 1 else w.gets);
    var fetched := if fetching then [Fetch] else [];
    match g.result
    case Err(e) => Step(w1, fetched, Some(FetchFailed(e)))
    case Ok(None) => Idle(w1, fetched)
    case Ok(Some(b)) => PrintAndAck(w1, fetched, b.balloonid, env)
  }

  /** The idle wait: a timeout or a command starts the next pass, the
      command setting or clearing the flag; a closed channel ends the
      loop. Nothing but the channel is touched. */
  function Idle(w: World, done: seq<Action>): (s: Step)
    ensures s.stop.None? ==> |s.next.events| <= |w.events|
    ensures s.actions == done && (s.stop.None? || s.stop == Some(ChannelClosed))
    ensures s.next == w.(pause := s.next.pause, events := s.next.events)
  {
    match SleepOrRecvOf(w.events)
    case (Slept, rest) => Step(w.(events := rest), done, None)
    case (Hangup, rest) => Step(w.(events := rest), done, Some(ChannelClosed))
    case (Woke(Pause), rest) => Step(w.(pause := true, events := rest), done, None)
    case (Woke(Resume), rest) => Step(w.(pause := false, events := rest), done, None)
  }

  /** Print balloon `id`, then acknowledge it; a failure of either ends
      the loop. The buffer, the channel and the list requests are left
      alone. */
  function PrintAndAck(w: World, done: seq<Action>, id: nat, env: Env): (s: Step)
    ensures s.next.buf == w.buf && s.next.events == w.events && s.next.gets == w.gets
    ensures s.actions == done + [Print(id)] || s.actions == done + [Print(id), Ack(id)]
    ensures Printed(s.actions) == Printed(done) + [id]
    ensures s.stop.None? || s.stop == Some(PrintFailed) || s.stop.value.AckFailed?
    ensures Acked(s.actions) == Acked(done) + (if s.stop == Some(PrintFailed) then [] else [id])
  {
    SmallTraces(id);
    var w2 := w.(writes := w.writes + 1);
    if !env.printer(w.writes) then
      PrintedAppend(done, [Print(id)]);
      AckedAppend(done, [Print(id)]);
      Step(w2, done + [Print(id)], Some(PrintFailed))
    else
      var w3 := w2.(posts := w2.posts + 1);
      var delivered := done + [Print(id), Ack(id)];
      PrintedAppend(done, [Print(id), Ack(id)]);
      AckedAppend(done, [Print(id), Ack(id)]);
      match env.server.ack(w2.posts)
      case Err(e) => Step(w3, delivered, Some(AckFailed(e)))
      case Ok(_) => Step(w3, delivered, None)
  }

  /** The dispatch task from state `w` until the loop ends, which it does once the
      channel observations run out if not before. */
  function Run(w: World, env: Env): (o: Outcome)
    ensures w.gets <= o.last.gets
    decreases |w.events|
  {
    var s := Iteration(w, env);
    match s.stop
    case Some(why) => Outcome(s.actions, why, s.next)
    case None =>
      var o := Run(s.next, env);
      Outcome(s.actions + o.trace, o.stop, o.last)
  }

  function PrintOf(a: Action): seq<nat>
  {
    if a.Print? then [a.id] else []
  }

  function AckOf(a: Action): seq<nat>
  {
    if a.Ack? then [a.id] else []
  }

  /** The identifiers printed, in order. */
  function Printed(t: seq<Action>): seq<nat>
  {
    if t == [] then [] else PrintOf(t[0]) + Printed(t[1..])
  }

  /** The identifiers acknowledged, in order. */
  function Acked(t: seq<Action>): seq<nat>
  {
    if t == [] then [] else AckOf(t[0]) + Acked(t[1..])
  }

  /** The HTTP requests an action sends. */
  function RequestsOf(api: Url, a: Action): seq<Request>
  {
    match a
    case Fetch => [Get(api)]
    case Print(_) => []
    case Ack(id) => [Post(AckUrl(api, id))]
  }

  /** The HTTP requests a trace stands for. */
  function Requests(api: Url, t: seq<Action>): seq<Request>
  {
    if t == [] then [] else RequestsOf(api, t[0]) + Requests(api, t[1..])
  }

  lemma {:induction false} PrintedAppend(a: seq<Action>, b: seq<Action>)
    ensures Printed(a + b) == Printed(a) + Printed(b)
  {
    if a == [] {
      assert a + b == b;
    } else {
      var head := PrintOf(a[0]);
      assert (a + b)[0] == a[0] && (a + b)[1..] == a[1..] + b;
      assert Printed(a + b) == head + Printed(a[1..] + b);
      assert Printed(a) == head + Printed(a[1..]);
      PrintedAppend(a[1..], b);
      Assoc(head, Printed(a[1..]), Printed(b));
    }
  }

  lemma {:induction false} AckedAppend(a: seq<Action>, b: seq<Action>)
    ensures Acked(a + b) == Acked(a) + Acked(b)
  {
    if a == [] {
      assert a + b == b;
    } else {
      var head := AckOf(a[0]);
      assert (a + b)[0] == a[0] && (a + b)[1..] == a[1..] + b;
      assert Acked(a + b) == head + Acked(a[1..] + b);
      assert Acked(a) == head + Acked(a[1..]);
      AckedAppend(a[1..], b);
      Assoc(head, Acked(a[1..]), Acked(b));
    }
  }

  lemma {:induction false} RequestsAppend(api: Url, a: seq<Action>, b: seq<Action>)
    ensures Requests(api, a + b) == Requests(api, a) + Requests(api, b)
  {
    if a == [] {
      assert a + b == b;
    } else {
      assert (a + b)[1..] == a[1..] + b;
      RequestsAppend(api, a[1..], b);
    }
  }

  /** The traces one pass can leave. */
  lemma SmallTraces(i: nat)
    ensures Printed([]) == [] && Acked([]) == []
    ensures Printed([Fetch]) == [] && Acked([Fetch]) == []
    ensures Printed([Print(i)]) == [i] && Acked([Print(i)]) == []
    ensures Printed([Print(i), Ack(i)]) == [i] && Acked([Print(i), Ack(i)]) == [i]
  {
    assert [Fetch][1..] == [] && [Print(i)][1..] == [] && [Ack(i)][1..] == [];
    assert [Print(i), Ack(i)][1..] == [Ack(i)];
  }

  /** The state in which a pass goes on to Work, if it does: after the
      blocking receive of a paused loop has returned Pause, or at once when
      running, and then after a non-blocking check that found nothing or
      Resume. */
  function WorkEntry(w: World): (u: Option<World>)
    ensures u.Some? ==> u.value.buf == w.buf && u.value.gets == w.gets
  {
    if w.pause && RecvOf(w.events).0 != Some(Pause) then None
    else
      var evs := if w.pause then RecvOf(w.events).1 else w.events;
      match TryRecvOf(evs)
      case (Pending(Pause), _) => None
      case (Disconnected, _) => None
      case (Pending(Resume), rest) => Some(w.(pause := false, events := rest))
      case (Empty, rest) => Some(w.(events := rest))
  }

  /** A pass either only talks to the channel, or goes on to Work. */
  lemma IterationReachesWork(w: World, env: Env)
    ensures var s := Iteration(w, env);
      && (WorkEntry(w).Some? ==> s == Work(WorkEntry(w).value, env))
      && (WorkEntry(w).None? ==>
            s.actions == [] && s.next.buf == w.buf && s.next.gets == w.gets
            && (s.stop.None? || s.stop == Some(ChannelClosed)))
  {
  }

  /** Work in terms of GetStep: it asks the server exactly when the
      buffer is empty, prints the balloon GetStep hands out, and
      acknowledges it unless the write failed. */
  lemma WorkTakesOne(w: World, env: Env)
    ensures var s := Work(w, env);
      var g := GetStep(w.buf, env.server.batch(w.gets));
      && s.next.buf == g.buf
      && s.next.gets == (if w.buf == [] then w.gets + 1 else w.gets)
      && (Fetch in s.actions <==> w.buf == [])
      && Printed(s.actions) == Ids(Served(g.result))
      && Acked(s.actions) <= Printed(s.actions)
      && |Printed(s.actions)| - |Acked(s.actions)| == (if s.stop == Some(PrintFailed) then 1 else 0)
  {
    var s := Work(w, env);
    var g := GetStep(w.buf, env.server.batch(w.gets));
    var fetched := if w.buf == [] then [Fetch] else [];
    var w1 := w.(buf := g.buf, gets := if w.buf == [] then w.gets + 1 else w.gets);
    WorkCases(w, env);
    SmallTraces(0);
    assert Fetch in fetched <==> w.buf == [];
    assert Printed(fetched) == [] && Acked(fetched) == [];
    if g.result.Ok? && g.result.value.Some? {
      var id := g.result.value.value.balloonid;
      assert Ids(Served(g.result)) == [id];
      FetchNotDelivered(fetched, id);
    }
  }

  /** Work, case by case on what get_balloon returns. */
  lemma WorkCases(w: World, env: Env)
    ensures var g := GetStep(w.buf, env.server.batch(w.gets));
      var fetched := if w.buf == [] then [Fetch] else [];
      var w1 := w.(buf := g.buf, gets := if w.buf == [] then w.gets + 1 else w.gets);
      && (g.result.Err? ==> Work(w, env) == Step(w1, fetched, Some(FetchFailed(g.result.error))))
      && (g.result == Ok(None) ==> Work(w, env) == Idle(w1, fetched))
      && (g.result.Ok? && g.result.value.Some? ==>
            Work(w, env) == PrintAndAck(w1, fetched, g.result.value.value.balloonid, env))
  {
  }

  lemma FetchNotDelivered(fetched: seq<Action>, id: nat)
    ensures Fetch in fetched + [Print(id)] <==> Fetch in fetched
    ensures Fetch in fetched + [Print(id), Ack(id)] <==> Fetch in fetched
  {
    assert forall a :: a in fetched + [Print(id), Ack(id)] <==> a in fetched || a == Print(id) || a == Ack(id);
  }

  /** What Work does to the buffer, the server and the trace. */
  lemma WorkDelivers(w: World, env: Env)
    ensures var s := Work(w, env);
      && (s.next.gets == w.gets || (s.next.gets == w.gets + 1 && w.buf == []))
      && (Fetch in s.actions <==> s.next.gets == w.gets + 1)
      && Printed(s.actions) + Ids(s.next.buf) == Ids(w.buf + Batches(env.server.batch, w.gets, s.next.gets))
      && |Printed(s.actions)| <= 1
      && Acked(s.actions) <= Printed(s.actions)
      && |Printed(s.actions)| - |Acked(s.actions)| == (if s.stop == Some(PrintFailed) then 1 else 0)
  {
    var s := Work(w, env);
    var reply := env.server.batch(w.gets);
    var g := GetStep(w.buf, reply);
    WorkTakesOne(w, env);
    assert Batches(env.server.batch, w.gets, s.next.gets) == Fetched(w.buf, reply) by {
      if w.buf == [] {
        assert Batches(env.server.batch, w.gets, w.gets) == [];
      }
    }
    IdsAppend(Served(g.result), g.buf);
    IdsAppend(w.buf, Fetched(w.buf, reply));
  }

  /** One pass asks the server at most once, and only when the buffer is
      empty; prints at most one balloon, the front of the buffer after that
      fetch; and acknowledges exactly the balloon it printed unless the
      write failed. */
  lemma IterationDelivers(w: World, env: Env)
    ensures var s := Iteration(w, env);
      && (s.next.gets == w.gets || (s.next.gets == w.gets + 1 && w.buf == []))
      && (Fetch in s.actions <==> s.next.gets == w.gets + 1)
      && Printed(s.actions) + Ids(s.next.buf) == Ids(w.buf + Batches(env.server.batch, w.gets, s.next.gets))
      && |Printed(s.actions)| <= 1
      && Acked(s.actions) <= Printed(s.actions)
      && |Printed(s.actions)| - |Acked(s.actions)| == (if s.stop == Some(PrintFailed) then 1 else 0)
  {
    IterationReachesWork(w, env);
    if WorkEntry(w).None? {
      assert Batches(env.server.batch, w.gets, w.gets) == [];
      assert w.buf + [] == w.buf;
      SmallTraces(0);
    } else {
      WorkDelivers(WorkEntry(w).value, env);
    }
  }

  /** The whole run prints, in order, exactly what was buffered followed
      by what the server sent, less what is still buffered at the end; and
      it acknowledges every balloon it printed, in the same order, except a
      last one whose write failed. */
  lemma {:induction false} RunDelivers(w: World, env: Env)
    ensures var o := Run(w, env);
      && Printed(o.trace) + Ids(o.last.buf) == Ids(w.buf + Batches(env.server.batch, w.gets, o.last.gets))
      && Acked(o.trace) <= Printed(o.trace)
      && |Printed(o.trace)| - |Acked(o.trace)| == (if o.stop == PrintFailed then 1 else 0)
    decreases |w.events|
  {
    var s := Iteration(w, env);
    IterationDelivers(w, env);
    if s.stop.None? {
      var o := Run(s.next, env);
      RunDelivers(s.next, env);
      var f := env.server.batch;
      PrintedAppend(s.actions, o.trace);
      AckedAppend(s.actions, o.trace);
      BatchesSplit(f, w.gets, s.next.gets, o.last.gets);
      ComposeDeliveries(Printed(s.actions), Acked(s.actions), w.buf, Batches(f, w.gets, s.next.gets), s.next.buf,
        Printed(o.trace), Acked(o.trace), Batches(f, s.next.gets, o.last.gets), o.last.buf);
    }
  }

  /** Two stretches of delivery, the first of which acknowledged all it
      printed, make one. */
  lemma ComposeDeliveries(p1: seq<nat>, a1: seq<nat>, b0: seq<Balloon>, x1: seq<Balloon>, b1: seq<Balloon>,
                          p2: seq<nat>, a2: seq<nat>, x2: seq<Balloon>, b2: seq<Balloon>)
    requires p1 + Ids(b1) == Ids(b0 + x1)
    requires p2 + Ids(b2) == Ids(b1 + x2)
    requires a1 <= p1 && |p1| - |a1| == 0 && a2 <= p2
    ensures (p1 + p2) + Ids(b2) == Ids(b0 + (x1 + x2))
    ensures a1 + a2 <= p1 + p2 && |p1 + p2| - |a1 + a2| == |p2| - |a2|
  {
    calc {
      (p1 + p2) + Ids(b2);
      { Assoc(p1, p2, Ids(b2)); }
      p1 + (p2 + Ids(b2));
      p1 + Ids(b1 + x2);
      { IdsAppend(b1, x2); }
      { Assoc(p1, Ids(b1), Ids(x2)); }
      (p1 + Ids(b1)) + Ids(x2);
      Ids(b0 + x1) + Ids(x2);
      { IdsAppend(b0 + x1, x2); }
      Ids((b0 + x1) + x2);
      { Assoc(b0, x1, x2); }
      Ids(b0 + (x1 + x2));
    }
    assert a1 == p1;
  }

  /** No balloon is acknowledged twice, provided the server never sends the
      same identifier twice. */
  lemma NoDuplicateAcks(w: World, env: Env)
    requires Distinct(Ids(w.buf + Batches(env.server.batch, w.gets, Run(w, env).last.gets)))
    ensures Distinct(Acked(Run(w, env).trace))
  {
    var o := Run(w, env);
    RunDelivers(w, env);
    var all := Ids(w.buf + Batches(env.server.batch, w.gets, o.last.gets));
    assert Acked(o.trace) <= all;
    forall i, j | 0 <= i < j < |Acked(o.trace)|
      ensures Acked(o.trace)[i] != Acked(o.trace)[j]
    {
      assert Acked(o.trace)[i] == all[i] && Acked(o.trace)[j] == all[j];
    }
  }

  /** While paused the loop does nothing but wait for a command: after any
      number of quiet observations, Resume clears the flag and a closed
      channel ends the loop, with the buffer and every oracle untouched. */
  lemma PausedWaitsForCommand(w: World, env: Env)
    requires w.pause && RecvOf(w.events).0 != Some(Pause)
    ensures var s := Iteration(w, env);
      && s.actions == []
      && s.next == w.(pause := s.stop.Some?, events := RecvOf(w.events).1)
      && (s.stop == Some(ChannelClosed) <==> RecvOf(w.events).0.None?)
      && (s.stop.None? <==> RecvOf(w.events).0 == Some(Resume))
  {
    var r := RecvOf(w.events);
    if r.0.None? {
      assert Iteration(w, env) == Step(w.(events := r.1), [], Some(ChannelClosed));
    } else {
      assert r.0.value == Resume;
      assert Iteration(w, env) == Step(w.(pause := false, events := r.1), [], None);
    }
  }

  /** A Pause received while already paused does not keep the loop waiting:
      when nothing else is pending it goes on to print and acknowledge the
      next balloon, still paused afterwards. */
  lemma PauseWhilePausedDelivers(w: World, env: Env, b: Balloon, rest: seq<Event>)
    requires w.pause && w.events == [Msg(Pause), Quiet] + rest
    requires w.buf != [] && w.buf[0] == b
    requires env.printer(w.writes) && env.server.ack(w.posts).Ok?
    ensures var s := Iteration(w, env);
      && s.actions == [Print(b.balloonid), Ack(b.balloonid)]
      && s.stop.None? && s.next.pause
      && s.next.buf == w.buf[1..] && s.next.events == rest
  {
    assert w.events[1..] == [Quiet] + rest;
    assert RecvOf(w.events) == (Some(Pause), [Quiet] + rest);
    assert ([Quiet] + rest)[1..] == rest;
    assert TryRecvOf([Quiet] + rest) == (Empty, rest);
    ServedFromBuffer(w.buf, env.server.batch(w.gets), Ok([]));
  }

  /** The check made before asking for work. */
  lemma PollBeforeWork(w: World, env: Env)
    requires !w.pause
    ensures var (p, rest) := TryRecvOf(w.events);
      var s := Iteration(w, env);
      && (p == Pending(Pause) ==> s == Step(w.(pause := true, events := rest), [], None))
      && (p == Disconnected ==> s.stop == Some(ChannelClosed) && s.actions == [] && s.next.buf == w.buf)
      && (p == Pending(Resume) || p == Empty ==> s == Work(w.(events := rest), env))
  {
  }

  /** A fetch error ends the loop before anything is buffered. */
  lemma FetchErrorEnds(w: World, env: Env, e: Error)
    requires Iteration(w, env).stop == Some(FetchFailed(e))
    ensures var s := Iteration(w, env);
      && w.buf == [] && env.server.batch(w.gets) == Err(e)
      && s.actions == [Fetch] && s.next.buf == []
  {
    IterationReachesWork(w, env);
    var u := WorkEntry(w).value;
    WorkTakesOne(u, env);
    var g := GetStep(u.buf, env.server.batch(u.gets));
    assert g.result.Err?;
  }

  /** With no balloon to print the loop waits: a timeout or a command ends
      the wait and starts the next pass (the command setting or clearing
      the flag), a closed channel ends the loop. */
  lemma EmptyFetchWaits(w: World, env: Env)
    requires !w.pause && w.events != [] && w.events[0] == Quiet
    requires w.buf == [] && env.server.batch(w.gets) == Ok([])
    ensures var s := Iteration(w, env);
      var (woken, rest) := SleepOrRecvOf(w.events[1..]);
      && s.actions == [Fetch] && s.next.buf == [] && s.next.gets == w.gets + 1
      && s.next.events == rest
      && (woken == Hangup <==> s.stop == Some(ChannelClosed))
      && (woken.Slept? ==> s.stop.None? && !s.next.pause)
      && (woken.Woke? ==> s.stop.None? && (s.next.pause <==> woken.cmd == Pause))
  {
  }

  /** Two balloons fetched in one batch are printed and acknowledged in
      order; then the buffer is empty, the next pass fetches again, finds
      nothing and sleeps, without acknowledging either balloon again. */
  lemma TwoBalloonScenario(w0: World, b1: Balloon, b2: Balloon, env: Env)
    requires w0 == World(false, [], [Quiet, Quiet, Quiet, Quiet], 0, 0, 0)
    requires b1.balloonid == 1 && b2.balloonid == 2
    requires env.server.batch(0) == Ok([b1, b2]) && env.server.batch(1) == Ok([])
    requires env.printer(0) && env.printer(1)
    requires env.server.ack(0).Ok? && env.server.ack(1).Ok?
    ensures Run(w0, env).trace == [Fetch, Print(1), Ack(1), Print(2), Ack(2), Fetch]
    ensures Run(w0, env).stop == ChannelClosed
  {
    var w1 := World(false, [b2], [Quiet, Quiet, Quiet], 1, 1, 1);
    var w2 := World(false, [], [Quiet, Quiet], 1, 2, 2);
    var w3 := World(false, [], [], 2, 2, 2);
    FirstPass(b1, b2, env);
    SecondPass(b2, env);
    ThirdPass(env);
    ClosedPass(w3, env);
    ThreePasses(w0, w1, w2, w3, env, [Fetch, Print(1), Ack(1)], [Print(2), Ack(2)], [Fetch], []);
    assert [Fetch, Print(1), Ack(1)] + [Print(2), Ack(2)] + [Fetch] + []
      == [Fetch, Print(1), Ack(1), Print(2), Ack(2), Fetch];
  }

  lemma ClosedPass(w: World, env: Env)
    requires !w.pause && w.events == []
    ensures Iteration(w, env) == Step(w, [], Some(ChannelClosed))
  {
    assert TryRecvOf([]) == (Disconnected, []);
  }

  /** Three passes that go on, then one that ends the loop. */
  lemma ThreePasses(w0: World, w1: World, w2: World, w3: World, env: Env, a0: seq<Action>, a1: seq<Action>, a2: seq<Action>, a3: seq<Action>)
    requires Iteration(w0, env) == Step(w1, a0, None)
    requires Iteration(w1, env) == Step(w2, a1, None)
    requires Iteration(w2, env) == Step(w3, a2, None)
    requires Iteration(w3, env).stop.Some? && Iteration(w3, env).actions == a3
    ensures Run(w0, env).trace == a0 + a1 + a2 + a3
    ensures Run(w0, env).stop == Iteration(w3, env).stop.value
  {
    RunStep(w0, env);
    RunStep(w1, env);
    RunStep(w2, env);
    RunStep(w3, env);
    Assoc(a0, a1, a2 + a3);
    Assoc(a0 + a1, a2, a3);
  }

  lemma FirstPass(b1: Balloon, b2: Balloon, env: Env)
    requires b1.balloonid == 1 && env.server.batch(0) == Ok([b1, b2])
    requires env.printer(0) && env.server.ack(0).Ok?
    ensures Iteration(World(false, [], [Quiet, Quiet, Quiet, Quiet], 0, 0, 0), env)
      == Step(World(false, [b2], [Quiet, Quiet, Quiet], 1, 1, 1), [Fetch, Print(1), Ack(1)], None)
  {
    assert TryRecvOf([Quiet, Quiet, Quiet, Quiet]) == (Empty, [Quiet, Quiet, Quiet]);
    assert GetStep([], Ok([b1, b2])) == Got(Ok(Some(b1)), [b2]);
  }

  lemma SecondPass(b2: Balloon, env: Env)
    requires b2.balloonid == 2 && env.printer(1) && env.server.ack(1).Ok?
    ensures Iteration(World(false, [b2], [Quiet, Quiet, Quiet], 1, 1, 1), env)
      == Step(World(false, [], [Quiet, Quiet], 1, 2, 2), [Print(2), Ack(2)], None)
  {
    assert TryRecvOf([Quiet, Quiet, Quiet]) == (Empty, [Quiet, Quiet]);
    assert GetStep([b2], env.server.batch(1)) == Got(Ok(Some(b2)), []);
  }

  lemma ThirdPass(env: Env)
    requires env.server.batch(1) == Ok([])
    ensures Iteration(World(false, [], [Quiet, Quiet], 1, 2, 2), env)
      == Step(World(false, [], [], 2, 2, 2), [Fetch], None)
  {
    assert TryRecvOf([Quiet, Quiet]) == (Empty, [Quiet]);
    assert GetStep([], Ok([])) == Got(Ok(None), []);
    assert SleepOrRecvOf([Quiet]) == (Slept, []);
  }

  /** The receiving end of the command channel. */
  class Receiver {
    var pending: seq<Event>

    constructor (events: seq<Event>)
      ensures pending == events
    {
      pending := events;
    }

    method Recv() returns (m: Option<Command>)
      modifies this
      ensures (m, pending) == RecvOf(old(pending))
    {
      while pending != [] && pending[0] == Quiet
        invariant RecvOf(pending) == RecvOf(old(pending))
        decreases |pending|
      {
        pending := pending[1..];
      }
      if pending != [] && pending[0].Msg? {
        m := Some(pending[0].cmd);
        pending := pending[1..];
      } else {
        m := None;
      }
    }

    method TryRecv() returns (p: Polled)
      modifies this
      ensures (p, pending) == TryRecvOf(old(pending))
    {
      if pending == [] {
        p := Disconnected;
      } else if pending[0].Msg? {
        p := Pending(pending[0].cmd);
        pending := pending[1..];
      } else if pending[0] == Quiet {
        p := Empty;
        pending := pending[1..];
      } else {
        p := Disconnected;
      }
    }

    method SleepOrRecv() returns (r: Woken)
      modifies this
      ensures (r, pending) == SleepOrRecvOf(old(pending))
    {
      if pending == [] {
        r := Hangup;
      } else if pending[0].Msg? {
        r := Woke(pending[0].cmd);
        pending := pending[1..];
      } else if pending[0] == Quiet {
        r := Slept;
        pending := pending[1..];
      } else {
        r := Hangup;
      }
    }
  }

  /** A page shows a balloon: it is the balloon's printed form under some
      order of its award categories. */
  ghost predicate Shows(page: BalloonOutput, b: Balloon)
  {
    exists order :: IsEnumeration(order, b.total.Keys) && page == ToOutput(b, order)
  }

  /** The printer device: the k-th write succeeds when `accepts(k)`. */
  class Printer {
    const accepts: nat -> bool
    var pages: seq<BalloonOutput>
    var writes: nat
    /** The balloons the pages show, one per page. */
    ghost var shown: seq<Balloon>

    /** Every page shows its balloon. */
    ghost predicate Valid()
      reads this
    {
      |pages| == |shown| && forall i :: 0 <= i < |pages| ==> Shows(pages[i], shown[i])
    }

    constructor (accepts: nat -> bool)
      ensures Valid()
      ensures this.accepts == accepts && pages == [] && writes == 0 && shown == []
    {
      this.accepts := accepts;
      pages := [];
      writes := 0;
      shown := [];
    }

    /** Write a page showing balloon `b`; the page stays only when the
        write succeeds. */
    method Write(out: BalloonOutput, ghost b: Balloon) returns (ok: bool)
      requires Valid() && Shows(out, b)
      modifies this
      ensures Valid()
      ensures ok == accepts(old(writes)) && writes == old(writes) + 1
      ensures pages == if ok then old(pages) + [out] else old(pages)
      ensures shown == if ok then old(shown) + [b] else old(shown)
    {
      ok := accepts(writes);
      writes := writes + 1;
      if ok {
        pages := pages + [out];
        shown := shown + [b];
      }
    }
  }

  function Extend(t: seq<Action>, o: Outcome): Outcome
  {
    Outcome(t + o.trace, o.stop, o.last)
  }

  /** The loop's state, read off the objects. */
  function Now(pause: bool, serv: Runner, rx: Receiver, printer: Printer): World
    reads serv, rx, printer
  {
    World(pause, serv.buf, rx.pending, serv.gets, serv.posts, printer.writes)
  }

  /** The part of the loop body after the channel check: take a balloon and
      print and acknowledge it, or wait on the channel when there is none.
      `stop` tells the loop to break, as the panics and `break`s of src/main.rs
      do; otherwise the loop goes on to its next pass. */
  method Deliver(serv: Runner, rx: Receiver, printer: Printer, pause: bool)
      returns (pause': bool, stop: Option<Stop>, actions: seq<Action>, ghost printed: seq<Balloon>)
    requires serv.Valid() && printer.Valid()
    modifies serv, rx, printer
    ensures serv.Valid()
    ensures Work(old(Now(pause, serv, rx, printer)), Env(serv.server, printer.accepts))
      == Step(Now(pause', serv, rx, printer), actions, stop)
    ensures serv.log == old(serv.log) + Requests(serv.balloonApi, actions)
    ensures printer.Valid() && old(printer.pages) <= printer.pages
    ensures Ids(printed) == Acked(actions) && printer.shown == old(printer.shown) + printed
    ensures stop != Some(PrintFailed) ==> serv.handed == old(serv.handed) + printed
    ensures stop == Some(PrintFailed) ==>
      printed == [] && |serv.handed| == |old(serv.handed)| + 1 && serv.handed[..|old(serv.handed)|] == old(serv.handed)
  {
    ghost var w := Now(pause, serv, rx, printer);
    ghost var env := Env(serv.server, printer.accepts);
    var api := serv.balloonApi;
    pause' := pause;
    var fetching := serv.buf == [];
    var b := serv.GetBalloon();
    if fetching {
      actions := [Fetch];
      assert Requests(api, actions) == [Get(api)] by {
        assert actions[1..] == [];
      }
    } else {
      actions := [];
    }
    assert serv.log == old(serv.log) + Requests(api, actions);
    assert Acked(actions) == [] by { SmallTraces(0); }
    printed := [];
    assert printer.shown + [] == printer.shown;
    ghost var w1 := Now(pause, serv, rx, printer);
    WorkCases(w, env);
    assert w1 == w.(buf := serv.buf, gets := serv.gets);
    if b.Err? {
      assert Work(w, env) == Step(w1, actions, Some(FetchFailed(b.error)));
      return pause', Some(FetchFailed(b.error)), actions, printed;
    }
    if b.value.None? {
      assert Work(w, env) == Idle(w1, actions);
      pause', stop := Wait(serv, rx, printer, pause, actions);
      return;
    }
    assert Work(w, env) == PrintAndAck(w1, actions, b.value.value.balloonid, env);
    var tail;
    stop, tail, printed := PrintAndAckBalloon(serv, rx, printer, pause, b.value.value, actions);
    AfterDelivery(old(serv.log), api, actions, tail);
    AckedAppend(actions, tail);
    actions := actions + tail;
  }

  lemma AfterDelivery(log: seq<Request>, api: Url, a: seq<Action>, t: seq<Action>)
    ensures (log + Requests(api, a)) + Requests(api, t) == log + Requests(api, a + t)
  {
    RequestsAppend(api, a, t);
    Assoc(log, Requests(api, a), Requests(api, t));
  }

  /** The idle wait: sleep five seconds unless a command comes first. */
  method Wait(serv: Runner, rx: Receiver, printer: Printer, pause: bool, ghost done: seq<Action>)
      returns (pause': bool, stop: Option<Stop>)
    modifies rx
    ensures Idle(old(Now(pause, serv, rx, printer)), done) == Step(Now(pause', serv, rx, printer), done, stop)
  {
    pause' := pause;
    var woken := rx.SleepOrRecv();
    match woken {
      case Slept =>
      case Hangup =>
        return pause', Some(ChannelClosed);
      case Woke(Pause) =>
        pause' := true;
      case Woke(Resume) =>
        pause' := false;
    }
    stop := None;
  }

  /** Print a balloon and acknowledge it: the page is the balloon's
      printed form, and a failed write skips the acknowledgement. */
  method PrintAndAckBalloon(serv: Runner, rx: Receiver, printer: Printer, pause: bool, balloon: Balloon, ghost done: seq<Action>)
      returns (stop: Option<Stop>, tail: seq<Action>, ghost printed: seq<Balloon>)
    requires serv.Valid() && printer.Valid()
    modifies serv, printer
    ensures serv.Valid()
    ensures PrintAndAck(old(Now(pause, serv, rx, printer)), done, balloon.balloonid, Env(serv.server, printer.accepts))
      == Step(Now(pause, serv, rx, printer), done + tail, stop)
    ensures serv.log == old(serv.log) + Requests(serv.balloonApi, tail)
    ensures serv.handed == old(serv.handed)
    ensures printed == (if stop == Some(PrintFailed) then [] else [balloon])
    ensures Ids(printed) == Acked(tail)
    ensures printer.Valid() && old(printer.pages) <= printer.pages && printer.shown == old(printer.shown) + printed
  {
    ghost var w := Now(pause, serv, rx, printer);
    ghost var env := Env(serv.server, printer.accepts);
    var api := serv.balloonApi;
    var id := balloon.balloonid;
    TailRequests(api, id);
    OneId(balloon);
    PrintAndAckCases(w, done, id, env);
    var written := PrintBalloon(printer, balloon);
    printed := if written then [balloon] else [];
    if !written {
      assert Now(pause, serv, rx, printer) == w.(writes := w.writes + 1);
      return Some(PrintFailed), [Print(id)], printed;
    }
    var acked := serv.DoneBalloon(id);
    assert Now(pause, serv, rx, printer) == w.(writes := w.writes + 1, posts := w.posts + 1);
    assert acked == env.server.ack(w.posts);
    tail := [Print(id), Ack(id)];
    stop := if acked.Err? then Some(AckFailed(acked.error)) else None;
  }

  /** Render a balloon and write it to the printer: the page is the
      balloon's printed form. */
  method PrintBalloon(printer: Printer, balloon: Balloon) returns (written: bool)
    requires printer.Valid()
    modifies printer
    ensures printer.Valid()
    ensures written == printer.accepts(old(printer.writes)) && printer.writes == old(printer.writes) + 1
    ensures !written ==> printer.pages == old(printer.pages)
    ensures written ==> exists order ::
      IsEnumeration(order, balloon.total.Keys) && printer.pages == old(printer.pages) + [ToOutput(balloon, order)]
    ensures printer.shown == old(printer.shown) + (if written then [balloon] else [])
  {
    var out := From(balloon);
    written := printer.Write(out, balloon);
    assert printer.shown == old(printer.shown) + (if written then [balloon] else []);
  }

  /** PrintAndAck, case by case. */
  lemma PrintAndAckCases(w: World, done: seq<Action>, id: nat, env: Env)
    ensures !env.printer(w.writes) ==>
      PrintAndAck(w, done, id, env) == Step(w.(writes := w.writes + 1), done + [Print(id)], Some(PrintFailed))
    ensures env.printer(w.writes) ==>
      PrintAndAck(w, done, id, env) == Step(
        w.(writes := w.writes + 1, posts := w.posts + 1),
        done + [Print(id), Ack(id)],
        if env.server.ack(w.posts).Err? then Some(AckFailed(env.server.ack(w.posts).error)) else None)
  {
  }

  lemma OneId(b: Balloon)
    ensures Ids([b]) == [b.balloonid] && Ids([]) == []
  {
  }

  /** The requests the two possible tails of a delivery stand for. */
  lemma TailRequests(api: Url, id: nat)
    ensures Requests(api, [Print(id)]) == []
    ensures Requests(api, [Print(id), Ack(id)]) == [Post(AckUrl(api, id))]
    ensures Acked([Print(id)]) == [] && Acked([Print(id), Ack(id)]) == [id]
  {
    SmallTraces(id);
    assert [Print(id)][1..] == [];
    assert [Print(id), Ack(id)][1..] == [Ack(id)] && [Ack(id)][1..] == [];
  }

  /** The spawned dispatch task: the loop with its `pause` flag. It
      does exactly what Run says and sends the HTTP requests the trace
      stands for. Its pages show, one each and in order, the balloons it
      acknowledges; these are the balloons the runner handed out, all but a
      last one whose write failed. */
  method DispatchLoop(serv: Runner, rx: Receiver, printer: Printer) returns (stop: Stop, trace: seq<Action>, ghost printed: seq<Balloon>)
    requires serv.Valid() && printer.Valid()
    modifies serv, rx, printer
    ensures serv.Valid() && printer.Valid()
    ensures var o := Run(old(Now(false, serv, rx, printer)), Env(serv.server, printer.accepts));
      && trace == o.trace && stop == o.stop
      && Now(o.last.pause, serv, rx, printer) == o.last
    ensures serv.log == old(serv.log) + Requests(serv.balloonApi, trace)
    ensures Ids(printed) == Acked(trace)
    ensures old(printer.pages) <= printer.pages && printer.shown == old(printer.shown) + printed
    ensures stop != PrintFailed ==> serv.handed == old(serv.handed) + printed
    ensures stop == PrintFailed ==>
      |serv.handed| == |old(serv.handed)| + |printed| + 1 && serv.handed[..|serv.handed| - 1] == old(serv.handed) + printed
  {
    ghost var env := Env(serv.server, printer.accepts);
    ghost var w0 := Now(false, serv, rx, printer);
    var pause := false;
    trace, printed := [], [];
    assert printer.shown + [] == printer.shown;
    while true
      invariant serv.Valid() && printer.Valid()
      invariant Run(w0, env) == Extend(trace, Run(Now(pause, serv, rx, printer), env))
      invariant serv.log == old(serv.log) + Requests(serv.balloonApi, trace)
      invariant Ids(printed) == Acked(trace)
      invariant old(printer.pages) <= printer.pages && printer.shown == old(printer.shown) + printed
      invariant serv.handed == old(serv.handed) + printed
      decreases |rx.pending|
    {
      ghost var w := Now(pause, serv, rx, printer);
      ghost var t0, p0, log, pages, shown, handed := trace, printed, serv.log, printer.pages, printer.shown, serv.handed;
      var halt, actions;
      ghost var more;
      pause, halt, actions, more := Pass(serv, rx, printer, pause);
      trace, printed := trace + actions, printed + more;
      AfterPass(w0, env, t0, w, Now(pause, serv, rx, printer), actions, halt);
      Accounting(serv.balloonApi, old(serv.log), log, serv.log, t0, actions, old(printer.pages), pages, printer.pages,
        old(printer.shown), shown, printer.shown, old(serv.handed), handed, serv.handed, p0, more, halt);
      if halt.Some? {
        stop := halt.value;
        break;
      }
    }
  }

  /** One pass of the loop body: the channel checks, then, unless they end
      the pass, a balloon taken and printed and acknowledged, or the idle
      wait. It does what Iteration says, and the pages it prints show the
      balloons it acknowledges, which are the balloons the runner handed
      out, except one whose write failed. */
  method Pass(serv: Runner, rx: Receiver, printer: Printer, pause: bool)
      returns (pause': bool, halt: Option<Stop>, actions: seq<Action>, ghost more: seq<Balloon>)
    requires serv.Valid() && printer.Valid()
    modifies serv, rx, printer
    ensures serv.Valid() && printer.Valid()
    ensures Iteration(old(Now(pause, serv, rx, printer)), Env(serv.server, printer.accepts))
      == Step(Now(pause', serv, rx, printer), actions, halt)
    ensures serv.log == old(serv.log) + Requests(serv.balloonApi, actions)
    ensures Ids(more) == Acked(actions)
    ensures old(printer.pages) <= printer.pages && printer.shown == old(printer.shown) + more
    ensures halt != Some(PrintFailed) ==> serv.handed == old(serv.handed) + more
    ensures halt == Some(PrintFailed) ==>
      more == [] && |serv.handed| == |old(serv.handed)| + 1 && serv.handed[..|old(serv.handed)|] == old(serv.handed)
  {
    IterationReachesWork(Now(pause, serv, rx, printer), Env(serv.server, printer.accepts));
    var go;
    pause', go, halt := Listen(serv, rx, printer, pause);
    if go {
      pause', halt, actions, more := Deliver(serv, rx, printer, pause');
    } else {
      actions, more := [], [];
      SmallTraces(0);
      assert serv.handed + [] == serv.handed && printer.shown + [] == printer.shown;
    }
  }

  /** The request log, the printed pages, the balloons they show and the
      handed-out balloons over one more pass: what the pass adds is appended to what the loop
      has accounted for so far. */
  lemma Accounting(api: Url, log0: seq<Request>, log1: seq<Request>, log2: seq<Request>, t0: seq<Action>, a: seq<Action>,
                   pages0: seq<BalloonOutput>, pages1: seq<BalloonOutput>, pages2: seq<BalloonOutput>,
                   s0: seq<Balloon>, s1: seq<Balloon>, s2: seq<Balloon>, h0: seq<Balloon>, h1: seq<Balloon>, h2: seq<Balloon>, p0: seq<Balloon>, m: seq<Balloon>, halt: Option<Stop>)
    requires log1 == log0 + Requests(api, t0) && log2 == log1 + Requests(api, a)
    requires Ids(p0) == Acked(t0) && Ids(m) == Acked(a)
    requires pages0 <= pages1 <= pages2 && s1 == s0 + p0 && s2 == s1 + m
    requires h1 == h0 + p0
    requires halt != Some(PrintFailed) ==> h2 == h1 + m
    requires halt == Some(PrintFailed) ==> m == [] && |h2| == |h1| + 1 && h2[..|h1|] == h1
    ensures log2 == log0 + Requests(api, t0 + a)
    ensures Ids(p0 + m) == Acked(t0 + a)
    ensures pages0 <= pages2 && s2 == s0 + (p0 + m)
    ensures halt != Some(PrintFailed) ==> h2 == h0 + (p0 + m)
    ensures halt == Some(PrintFailed) ==>
      |h2| == |h0| + |p0 + m| + 1 && h2[..|h2| - 1] == h0 + (p0 + m)
  {
    IdsAppend(p0, m);
    AckedAppend(t0, a);
    AfterDelivery(log0, api, t0, a);
    Assoc(h0, p0, m);
    Assoc(s0, p0, m);
    assert p0 + [] == p0;
  }

  /** The channel checks at the top of a pass: while paused, block until
      a command comes, Resume or a closed channel ending the pass; then a
      non-blocking check, a pending Pause or a closed channel ending the
      pass. `go` tells whether the pass goes on to take a balloon. */
  method Listen(serv: Runner, rx: Receiver, printer: Printer, pause: bool) returns (pause': bool, go: bool, stop: Option<Stop>)
    modifies rx
    ensures var w := old(Now(pause, serv, rx, printer));
      && (go <==> WorkEntry(w).Some?)
      && (go ==> WorkEntry(w).value == Now(pause', serv, rx, printer) && stop.None?)
      && (!go ==> Iteration(w, Env(serv.server, printer.accepts)) == Step(Now(pause', serv, rx, printer), [], stop))
  {
    pause', stop := pause, None;
    if pause {
      var msg := rx.Recv();
      if msg.None? {
        return pause', false, Some(ChannelClosed);
      } else if msg.value == Resume {
        return false, false, None;
      }
    }
    var polled := rx.TryRecv();
    match polled {
      case Pending(Pause) =>
        pause', go := true, false;
      case Pending(Resume) =>
        pause', go := false, true;
      case Disconnected =>
        go, stop := false, Some(ChannelClosed);
      case Empty =>
        go := true;
    }
  }

  /** Run takes one pass at a time. */
  lemma RunStep(w: World, env: Env)
    ensures var s := Iteration(w, env);
      Run(w, env) == if s.stop.Some? then Outcome(s.actions, s.stop.value, s.next)
                     else Extend(s.actions, Run(s.next, env))
  {
  }

  /** The loop's invariant carried over one pass. */
  lemma AfterPass(w0: World, env: Env, t0: seq<Action>, w: World, next: World, actions: seq<Action>, halt: Option<Stop>)
    requires Run(w0, env) == Extend(t0, Run(w, env))
    requires Iteration(w, env) == Step(next, actions, halt)
    ensures halt.None? ==> Run(w0, env) == Extend(t0 + actions, Run(next, env))
    ensures halt.Some? ==> Run(w0, env) == Outcome(t0 + actions, halt.value, next)
  {
    RunStep(w, env);
    Assoc(t0, actions, Run(next, env).trace);
  }
}
