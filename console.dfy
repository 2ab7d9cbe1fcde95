/** The operator console: a read-eval loop that turns the words "pause"
    and "resume", and Ctrl-C, into commands on the channel to the dispatch
    task, and keeps a `paused` flag for its prompt. The line editor and
    the channel are oracles: each turn is what `readline` returned and
    whether a send in that turn would reach the dispatch task. */
module Console {
  import opened Prelude

  /** What one `readline` returns. */
  datatype Read = Line(text: string) | Interrupted | Eof | ReadFailed(detail: string)

  /** One turn of the console: what was read, and whether sending a
      command would succeed (it fails once the dispatch task has ended and
      dropped its receiver). */
  datatype Turn = Turn(read: Read, sendOk: bool)

  /** What a turn does: the flag afterwards, the command delivered to the
      dispatch task if any, the message printed if any, and whether the
      console stops. */
  datatype Effect = Effect(paused: bool, sent: Option<Command>, said: Option<string>, exit: bool)

  /** The console after a sequence of turns. */
  datatype Session = Session(paused: bool, sent: seq<Command>, said: seq<string>, exited: bool)

  const UnknownCommand: string := "unknown command"
  const UseExit: string := "use ``exit'' to quit"

  /** The prompt shows whether dispatch is paused. */
  function Prompt(paused: bool): string
  {
    if paused then "balloon (paused)  >> " else "balloon (running) >> "
  }

  /** Both prompts have the same width and differ. */
  lemma PromptsAlign()
    ensures |Prompt(true)| == |Prompt(false)| == 21
    ensures Prompt(true) != Prompt(false)
  {
    assert Prompt(true)[9] == 'p' && Prompt(false)[9] == 'r';
  }

  /** The reads that send a command. */
  predicate Sends(r: Read)
  {
    r == Line("pause") || r == Line("resume") || r.Interrupted?
  }

  /** The command a sending read asks for: Ctrl-C asks for the opposite of
      the current state. */
  function Wanted(paused: bool, r: Read): Command
  {
    if r == Line("pause") then Pause
    else if r == Line("resume") then Resume
    else if paused then Resume
    else Pause
  }

  function Opt<T>(o: Option<T>): (r: seq<T>)
    ensures |r| <= 1
    ensures o.Some? ==> r == [o.value]
  {
    if o.Some? then [o.value] else []
  }

  /** One turn. "exit" stops; "pause" and "resume" send their command and
      then set the flag, stopping instead if the send fails; Ctrl-C flips
      the flag first and then sends the matching command, stopping if that
      fails; an empty line does nothing; anything else is reported. */
  function React(paused: bool, t: Turn): (e: Effect)
    ensures e.exit <==> t.read == Line("exit") || (Sends(t.read) && !t.sendOk)
    ensures e.sent.Some? <==> Sends(t.read) && t.sendOk
    ensures e.sent.Some? ==> e.sent.value == Wanted(paused, t.read) && (e.paused <==> e.sent.value == Pause)
    ensures !Sends(t.read) ==> e.paused == paused
    ensures e.said.Some? <==> !Sends(t.read) && t.read != Line("exit") && t.read != Line("")
  {
    match t.read
    case Line(text) =>
      if text == "exit" then Effect(paused, None, None, true)
      else if text == "pause" then
        if !t.sendOk then Effect(paused, None, None, true) else Effect(true, Some(Pause), None, false)
      else if text == "resume" then
        if !t.sendOk then Effect(paused, None, None, true) else Effect(false, Some(Resume), None, false)
      else if text == "" then Effect(paused, None, None, false)
      else Effect(paused, None, Some(UnknownCommand), false)
    case Interrupted =>
      var flipped := !paused;
      var cmd := if flipped then Pause else Resume;
      if !t.sendOk then Effect(flipped, None, None, true) else Effect(flipped, Some(cmd), None, false)
    case Eof => Effect(paused, None, Some(UseExit), false)
    case ReadFailed(detail) => Effect(paused, None, Some("error: " + detail), false)
  }

  /** The console over a sequence of turns, until it stops or the turns run
      out. */
  function Replay(paused: bool, turns: seq<Turn>): Session
    decreases |turns|
  {
    if turns == [] then Session(paused, [], [], false)
    else
      var e := React(paused, turns[0]);
      if e.exit then Session(e.paused, Opt(e.sent), Opt(e.said), true)
      else
        var r := Replay(e.paused, turns[1..]);
        Session(r.paused, Opt(e.sent) + r.sent, Opt(e.said) + r.said, r.exited)
  }

  /** Unless the console stopped on a failed send, its flag says whether
      the last command it delivered was Pause (or is the starting value
      when it delivered none): the prompt tells the truth about what the
      dispatch task was last asked to do. */
  lemma {:induction false} FlagFollowsLastCommand(paused: bool, turns: seq<Turn>)
    ensures var r := Replay(paused, turns);
      !r.exited ==> r.paused == if r.sent == [] then paused else r.sent[|r.sent| - 1] == Pause
    decreases |turns|
  {
    if turns != [] {
      var e := React(paused, turns[0]);
      if !e.exit {
        FlagFollowsLastCommand(e.paused, turns[1..]);
      }
    }
  }

  /** Interrupting twice, with both sends delivered, sends Pause and Resume
      in the order the state asks for and leaves the flag as it was. */
  lemma CtrlCTwiceRestores(paused: bool)
    ensures var r := Replay(paused, [Turn(Interrupted, true), Turn(Interrupted, true)]);
      && !r.exited && r.paused == paused
      && r.sent == (if paused then [Resume, Pause] else [Pause, Resume])
  {
    var t := [Turn(Interrupted, true), Turn(Interrupted, true)];
    assert t[1..] == [Turn(Interrupted, true)];
    assert t[1..][1..] == [];
  }

  /** The console stops exactly on "exit" or on a failed send, and stops at
      the first such turn: at most one command per earlier turn is
      delivered, and the turns after it change nothing. */
  lemma {:induction false} StopsAtFirstExit(paused: bool, turns: seq<Turn>, k: nat)
    requires k < |turns| && (turns[k].read == Line("exit") || (Sends(turns[k].read) && !turns[k].sendOk))
    ensures Replay(paused, turns).exited
    ensures |Replay(paused, turns).sent| <= k
    ensures Replay(paused, turns) == Replay(paused, turns[..k + 1])
    decreases k
  {
    var e := React(paused, turns[0]);
    assert turns[..k + 1][0] == turns[0];
    if k > 0 && !e.exit {
      StopsAtFirstExit(e.paused, turns[1..], k - 1);
      assert turns[..k + 1][1..] == turns[1..][..k];
    }
  }

  /** The console loop, on the given turns; it reports what
      it delivered and printed, and whether it stopped. */
  method ConsoleLoop(turns: seq<Turn>) returns (paused: bool, sent: seq<Command>, said: seq<string>, exited: bool)
    ensures Replay(false, turns) == Session(paused, sent, said, exited)
  {
    paused, sent, said, exited := false, [], [], false;
    var i := 0;
    while i < |turns|
      invariant 0 <= i <= |turns|
      invariant Replay(false, turns) == Extend(sent, said, Replay(paused, turns[i..]))
      decreases |turns| - i
    {
      TurnStep(sent, said, paused, turns[i..]);
      assert turns[i..][1..] == turns[i + 1..];
      var e := React(paused, turns[i]);
      sent, said, paused := sent + Opt(e.sent), said + Opt(e.said), e.paused;
      if e.exit {
        exited := true;
        break;
      }
      i := i + 1;
    }
    if !exited {
      assert turns[i..] == [];
    }
  }

  /** The loop's invariant carried over one turn. */
  lemma TurnStep(sent: seq<Command>, said: seq<string>, paused: bool, ts: seq<Turn>)
    requires ts != []
    ensures var e := React(paused, ts[0]);
      Extend(sent, said, Replay(paused, ts)) ==
        if e.exit then Session(e.paused, sent + Opt(e.sent), said + Opt(e.said), true)
        else Extend(sent + Opt(e.sent), said + Opt(e.said), Replay(e.paused, ts[1..]))
  {
    var e := React(paused, ts[0]);
    if !e.exit {
      var r := Replay(e.paused, ts[1..]);
      assert Replay(paused, ts) == Session(r.paused, Opt(e.sent) + r.sent, Opt(e.said) + r.said, r.exited);
      Assoc(sent, Opt(e.sent), r.sent);
      Assoc(said, Opt(e.said), r.said);
    }
  }

  function Extend(sent: seq<Command>, said: seq<string>, r: Session): Session
  {
    Session(r.paused, sent + r.sent, said + r.said, r.exited)
  }
}
