/** The runtime client's command intake: per connection, commands are queued in order and handled
    one at a time; nothing outlives the connection. */
module CommandQueue {
  import opened Vocabulary

  datatype Inbound = CommandFrame(command: Command) | TranscriptRequest | Malformed

  /** One connection: `received` and `handed` are its histories of valid commands received and of
      commands given to the handler. A handler that raises ends the consumer. `reading` is over once
      the receive loop has failed while the consumer went on. */
  datatype Session = Session(
    queue: seq<Command>,
    handling: Option<Command>,
    consuming: bool,
    reading: bool,
    received: seq<Command>,
    handed: seq<Command>)

  const NEW_SESSION := Session([], None, true, true, [], [])

  function CommandsOf(frame: Inbound): seq<Command> {
    if frame.CommandFrame? then [frame.command] else []
  }

  function Received(s: Session, frame: Inbound): Session {
    s.(queue := s.queue + CommandsOf(frame), received := s.received + CommandsOf(frame))
  }

  predicate CanTake(s: Session) {
    s.consuming && s.handling.None? && s.queue != []
  }

  function Taken(s: Session): Session
    requires CanTake(s)
  {
    s.(queue := s.queue[1..], handling := Some(s.queue[0]), handed := s.handed + [s.queue[0]])
  }

  function HandlerLeft(s: Session, raised: bool): Session {
    s.(handling := None, consuming := s.consuming && !raised)
  }

  /** Nothing is lost, doubled or reordered between the socket and the handler. */
  predicate InOrder(s: Session) {
    s.received == s.handed + s.queue
  }

  class RuntimeSession {
    var queue: seq<Command>
    var handling: Option<Command>
    var consuming: bool
    ghost var received: seq<Command>
    ghost var handed: seq<Command>

    ghost function View(): Session
      reads this
    {
      Session(queue, handling, consuming, true, received, handed)
    }

    ghost predicate Valid()
      reads this
    {
      InOrder(View()) && (handling.Some? ==> handed != [] && handling == Some(handed[|handed| - 1]))
    }

    constructor ()
      ensures Valid() && View() == NEW_SESSION
    {
      queue, handling, consuming, received, handed := [], None, true, [], [];
    }

    method OnFrame(frame: Inbound)
      requires Valid()
      modifies this`queue, this`received
      ensures Valid() && View() == Received(old(View()), frame)
      ensures frame.CommandFrame? ==>
                queue == old(queue) + [frame.command] && received == old(received) + [frame.command]
      ensures !frame.CommandFrame? ==> queue == old(queue) && received == old(received)
    {
      match frame
      case CommandFrame(c) =>
        queue := queue + [c];
        received := received + [c];
      case _ =>
    }

    /** The handler gets the earliest command received that it has not been given. */
    method TakeNext() returns (command: Command)
      requires Valid() && CanTake(View())
      modifies this`queue, this`handling, this`handed
      ensures Valid() && View() == Taken(old(View()))
      ensures |old(handed)| < |received| && command == received[|old(handed)|]
      ensures handed == received[..|old(handed)| + 1]
      ensures handling == Some(command) && queue == old(queue)[1..]
    {
      command := queue[0];
      queue := queue[1..];
      handling := Some(command);
      handed := handed + [command];
    }

    /** The consumer goes on with the queue unless the handler raised. */
    method OnHandlerLeft(raised: bool)
      requires Valid()
      modifies this`handling, this`consuming
      ensures Valid() && View() == HandlerLeft(old(View()), raised)
      ensures handling.None?
      ensures consuming == (old(consuming) && !raised)
    {
      handling := None;
      if raised {
        consuming := false;
      }
    }
  }

  /** What the event loop gets round to on a connection. */
  datatype Turn = Arrives(frame: Inbound) | ConsumerRuns | HandlerLeaves(raised: bool)

  function CommandsIn(turns: seq<Turn>): seq<Command> {
    if turns == [] then []
    else
      var last := turns[|turns| - 1];
      CommandsIn(turns[..|turns| - 1]) + if last.Arrives? then CommandsOf(last.frame) else []
  }

  function AfterTurn(s: Session, turn: Turn): Session {
    match turn
    case Arrives(frame) => Received(s, frame)
    case ConsumerRuns => if CanTake(s) then Taken(s) else s
    case HandlerLeaves(raised) => if s.handling.Some? then HandlerLeft(s, raised) else s
  }

  function AfterTurns(turns: seq<Turn>): Session {
    if turns == [] then NEW_SESSION else AfterTurn(AfterTurns(turns[..|turns| - 1]), turns[|turns| - 1])
  }

  predicate NoneRaises(turns: seq<Turn>) {
    forall t | t in turns :: t != HandlerLeaves(true)
  }

  lemma TurnKeepsOrder(s: Session, turn: Turn)
    requires InOrder(s)
    ensures InOrder(AfterTurn(s, turn))
    ensures AfterTurn(s, turn).received == s.received + if turn.Arrives? then CommandsOf(turn.frame) else []
  {
    if turn.ConsumerRuns? && CanTake(s) {
      assert s.queue == [s.queue[0]] + s.queue[1..];
    }
  }

  lemma {:induction false} TurnsKeepOrder(turns: seq<Turn>)
    ensures InOrder(AfterTurns(turns)) && AfterTurns(turns).received == CommandsIn(turns)
    ensures NoneRaises(turns) ==> AfterTurns(turns).consuming
  {
    if turns != [] {
      var front := turns[..|turns| - 1];
      TurnsKeepOrder(front);
      TurnKeepsOrder(AfterTurns(front), turns[|turns| - 1]);
      assert turns[|turns| - 1] in turns && forall t | t in front :: t in turns;
    }
  }

  /** While no handler raises, every turn of the consumer that finds nothing in hand and a command
      waiting hands on exactly that command, the first not yet handed. */
  lemma ConsumerKeepsUp(turns: seq<Turn>)
    requires NoneRaises(turns)
    ensures
      var s, s' := AfterTurns(turns), AfterTurns(turns + [ConsumerRuns]);
      if s.handling.None? && |s.handed| < |CommandsIn(turns)| then
        var next := CommandsIn(turns)[|s.handed|];
        s'.handed == s.handed + [next] && s'.handling == Some(next)
      else s' == s
  {
    TurnsKeepOrder(turns);
    assert (turns + [ConsumerRuns])[..|turns|] == turns;
  }

  /** As many turns of taking a command and of seeing it through. */
  function Rounds(n: nat): seq<Turn> {
    if n == 0 then [] else Rounds(n - 1) + [ConsumerRuns, HandlerLeaves(false)]
  }

  /** A command is taken and seen through. */
  lemma RoundHands(turns: seq<Turn>)
    requires NoneRaises(turns) && AfterTurns(turns).handling.None? && AfterTurns(turns).queue != []
    ensures
      var s, s' := AfterTurns(turns), AfterTurns(turns + [ConsumerRuns, HandlerLeaves(false)]);
      && s'.handling.None? && s'.consuming && s'.received == s.received && |s'.handed| == |s.handed| + 1
  {
    TurnsKeepOrder(turns);
    var taken := turns + [ConsumerRuns];
    assert taken[..|turns|] == turns;
    var seen := turns + [ConsumerRuns, HandlerLeaves(false)];
    assert seen[..|taken|] == taken;
  }

  lemma {:induction false} RoundsHand(turns: seq<Turn>, n: nat)
    requires NoneRaises(turns) && AfterTurns(turns).handling.None? && n <= |AfterTurns(turns).queue|
    ensures
      var s, s' := AfterTurns(turns), AfterTurns(turns + Rounds(n));
      && NoneRaises(turns + Rounds(n)) && s'.handling.None? && s'.consuming
      && s'.received == s.received && |s'.handed| == |s.handed| + n && InOrder(s')
  {
    TurnsKeepOrder(turns);
    if n == 0 {
      assert turns + Rounds(0) == turns;
    } else {
      RoundsHand(turns, n - 1);
      var before := turns + Rounds(n - 1);
      RoundHands(before);
      assert before + [ConsumerRuns, HandlerLeaves(false)] == turns + Rounds(n);
      TurnsKeepOrder(turns + Rounds(n));
    }
  }

  /** A backlog is worked off: after as many rounds as commands are waiting, everything received has been
      handed on, in order. */
  lemma BacklogIsWorkedOff(turns: seq<Turn>)
    requires NoneRaises(turns) && AfterTurns(turns).handling.None?
    ensures AfterTurns(turns + Rounds(|AfterTurns(turns).queue|)).handed == CommandsIn(turns)
  {
    TurnsKeepOrder(turns);
    RoundsHand(turns, |AfterTurns(turns).queue|);
  }

  /** One connection from start to end: the receive loop and the consumer, interleaved as given. */
  method RunSession(turns: seq<Turn>) returns (s: RuntimeSession)
    ensures fresh(s) && s.Valid()
    ensures s.received == CommandsIn(turns) && s.handed <= CommandsIn(turns)
    ensures s.View() == AfterTurns(turns)
    ensures NoneRaises(turns) ==>
              s.consuming && (s.handling.None? && s.queue == [] ==> s.handed == CommandsIn(turns))
  {
    s := new RuntimeSession();
    var i := 0;
    while i < |turns|
      invariant 0 <= i <= |turns|
      invariant fresh(s) && s.Valid() && s.received == CommandsIn(turns[..i])
      invariant s.View() == AfterTurns(turns[..i])
    {
      assert turns[..i + 1][..i] == turns[..i];
      match turns[i] {
        case Arrives(frame) => s.OnFrame(frame);
        case ConsumerRuns =>
          if s.consuming && s.handling.None? && s.queue != [] {
            var _ := s.TakeNext();
          }
        case HandlerLeaves(raised) =>
          if s.handling.Some? {
            s.OnHandlerLeft(raised);
          }
      }
      i := i + 1;
    }
    assert turns[..i] == turns;
    TurnsKeepOrder(turns);
  }

  // ---------------------------------------------------------------- across reconnects

  /** What the handler saw: the start of a command on a connection, and that command's end. */
  datatype Mark = Begins(connection: nat, command: Command) | Ends

  /** `ended` holds the sessions of past connections, in order; `now` the open one, if any. */
  datatype Client = Client(ended: seq<Session>, now: Option<Session>, marks: seq<Mark>)

  const NEW_CLIENT := Client([], None, [])

  datatype Step =
    | Connects
    | Receives(frame: Inbound)
    | TakesNext
    | HandlerReturns
    | HandlerRaises
    | CancelIsSwallowed
    | Disconnects

  predicate Enabled(c: Client, step: Step) {
    match step
    case Connects => c.now.None?
    case Receives(_) => c.now.Some? && c.now.value.reading
    case TakesNext => c.now.Some? && CanTake(c.now.value)
    case HandlerReturns => c.now.Some? && c.now.value.handling.Some?
    case HandlerRaises => c.now.Some? && c.now.value.handling.Some?
    case CancelIsSwallowed =>
      && c.now.Some? && c.now.value.reading && c.now.value.handling.Some?
      && c.now.value.handling.value.kind.StopAgentSession?
    case Disconnects => c.now.Some?
  }

  /** Ending a connection cancels the consumer, and with it a command being handled; but a stop that
      waits for its run's task swallows the cancellation, and the consumer goes on with the queue. */
  function Next(c: Client, step: Step): Client {
    if !Enabled(c, step) then c
    else
      match step
      case Connects => c.(now := Some(NEW_SESSION))
      case Receives(frame) => c.(now := Some(Received(c.now.value, frame)))
      case TakesNext =>
        c.(now := Some(Taken(c.now.value)), marks := c.marks + [Begins(|c.ended|, c.now.value.queue[0])])
      case HandlerReturns => c.(now := Some(HandlerLeft(c.now.value, false)), marks := c.marks + [Ends])
      case HandlerRaises => c.(now := Some(HandlerLeft(c.now.value, true)), marks := c.marks + [Ends])
      case CancelIsSwallowed => c.(now := Some(c.now.value.(reading := false)))
      case Disconnects =>
        Client(c.ended + [HandlerLeft(c.now.value, true)], None,
               if c.now.value.handling.Some? then c.marks + [Ends] else c.marks)
  }

  function Execute(steps: seq<Step>): Client {
    if steps == [] then NEW_CLIENT else Next(Execute(steps[..|steps| - 1]), steps[|steps| - 1])
  }

  /** The commands that marks say were begun on a connection. */
  function BegunOn(marks: seq<Mark>, connection: nat): seq<Command> {
    if marks == [] then []
    else
      var rest := BegunOn(marks[..|marks| - 1], connection);
      var last := marks[|marks| - 1];
      if last.Begins? && last.connection == connection then rest + [last.command] else rest
  }

  /** Handling is serial: a command ends before the next begins. */
  ghost predicate Alternates(marks: seq<Mark>) {
    forall i | 0 <= i < |marks| :: marks[i].Begins? <==> i % 2 == 0
  }

  function Connection(c: Client, k: nat): Session
    requires k < |c.ended| || (k == |c.ended| && c.now.Some?)
  {
    if k < |c.ended| then c.ended[k] else c.now.value
  }

  predicate HandedAs(s: Session, begun: seq<Command>) {
    s.handed == begun && InOrder(s)
  }

  /** What was begun on a connection is what its session was handed, in order; nothing on others. */
  predicate ConnectionOk(c: Client, k: nat) {
    var begun := BegunOn(c.marks, k);
    if k < |c.ended| then HandedAs(c.ended[k], begun)
    else if k == |c.ended| && c.now.Some? then HandedAs(c.now.value, begun)
    else begun == []
  }

  ghost predicate Serial(c: Client) {
    Alternates(c.marks) && (|c.marks| % 2 == 1 <==> c.now.Some? && c.now.value.handling.Some?)
  }

  ghost predicate Inv(c: Client) {
    Serial(c) && forall k: nat :: ConnectionOk(c, k)
  }

  lemma BegunAfter(marks: seq<Mark>, mark: Mark, k: nat)
    ensures BegunOn(marks + [mark], k)
            == BegunOn(marks, k) + if mark.Begins? && mark.connection == k then [mark.command] else []
  {
    assert (marks + [mark])[..|marks|] == marks;
  }

  lemma StepKeepsSerial(c: Client, step: Step)
    requires Serial(c)
    ensures Serial(Next(c, step))
  {
  }

  /** What a step marks. */
  function MarksOf(c: Client, step: Step): seq<Mark> {
    if !Enabled(c, step) then []
    else
      match step
      case TakesNext => [Begins(|c.ended|, c.now.value.queue[0])]
      case HandlerReturns => [Ends]
      case HandlerRaises => [Ends]
      case Disconnects => if c.now.value.handling.Some? then [Ends] else []
      case _ => []
  }

  lemma StepBegins(c: Client, step: Step, k: nat)
    ensures BegunOn(Next(c, step).marks, k)
            == BegunOn(c.marks, k)
               + if step.TakesNext? && Enabled(c, step) && k == |c.ended| then [c.now.value.queue[0]] else []
    ensures !(step.TakesNext? && Enabled(c, step) && k == |c.ended|) ==>
              BegunOn(Next(c, step).marks, k) == BegunOn(c.marks, k)
  {
    assert Next(c, step).marks == c.marks + MarksOf(c, step);
    if MarksOf(c, step) != [] {
      BegunAfter(c.marks, MarksOf(c, step)[0], k);
    } else {
      assert c.marks + MarksOf(c, step) == c.marks;
    }
  }

  lemma StepKeepsConnection(c: Client, step: Step, k: nat)
    requires ConnectionOk(c, k)
    ensures ConnectionOk(Next(c, step), k)
  {
    StepBegins(c, step, k);
    if Enabled(c, step) && k == |c.ended| {
      if step.TakesNext? {
        TakingKeepsOrder(c.now.value, BegunOn(c.marks, k));
      } else if step.Receives? {
        ReceivingKeepsOrder(c.now.value, BegunOn(c.marks, k), step.frame);
      } else {
        assert BegunOn(c.marks, k) + [] == BegunOn(c.marks, k);
      }
    }
  }

  /** A handler has raised on the open connection. */
  predicate RaisedSince(steps: seq<Step>) {
    steps != [] &&
    var front, step := steps[..|steps| - 1], steps[|steps| - 1];
    if !Enabled(Execute(front), step) || !(step.Connects? || step.HandlerRaises?) then RaisedSince(front)
    else step.HandlerRaises?
  }

  lemma {:induction false} ConsumesUntilRaised(steps: seq<Step>)
    ensures Execute(steps).now.Some? ==> (Execute(steps).now.value.consuming <==> !RaisedSince(steps))
  {
    if steps != [] {
      ConsumesUntilRaised(steps[..|steps| - 1]);
    }
  }

  /** Over every schedule: the open connection can take a command exactly if none is in hand, one received
      has not been handed on, and no handler has raised since the connection was made. */
  lemma CanTakeExactly(steps: seq<Step>)
    requires Execute(steps).now.Some?
    ensures
      var s := Execute(steps).now.value;
      Enabled(Execute(steps), TakesNext)
      <==> s.handling.None? && |s.handed| < |s.received| && !RaisedSince(steps)
  {
    ConsumesUntilRaised(steps);
    HandledIsAPrefix(steps);
    assert ConnectionOk(Execute(steps), |Execute(steps).ended|);
  }

  /** A new connection serves: a command that arrives on it is begun and ends there, and the consumer is
      ready for the next, or takes none any more if the handler raised; after the disconnect that
      connection is over. */
  lemma ConnectionServes(c: Client, command: Command)
    requires c.now.None?
    ensures
      var c1 := Next(Next(Next(c, Connects), Receives(CommandFrame(command))), TakesNext);
      var c2 := Next(c1, HandlerReturns);
      && c1.marks == c.marks + [Begins(|c.ended|, command)]
      && c2.marks == c.marks + [Begins(|c.ended|, command), Ends]
      && c2.now == Some(Session([], None, true, true, [command], [command]))
      && Next(c2, Disconnects).now.None? && |Next(c2, Disconnects).ended| == |c.ended| + 1
      && Next(c1, Disconnects).marks == c2.marks
      && Next(c1, HandlerRaises).marks == c2.marks
      && !Enabled(Next(Next(c1, HandlerRaises), Receives(CommandFrame(command))), TakesNext)
  {
    var c0 := Next(Next(c, Connects), Receives(CommandFrame(command)));
    assert [] + [command] == [command];
    assert c0.now == Some(Session([command], None, true, true, [command], []));
    var c1 := Next(c0, TakesNext);
    assert [command][1..] == [];
    assert c1.now == Some(Session([], Some(command), true, true, [command], [command]));
    assert c.marks + [Begins(|c.ended|, command)] + [Ends] == c.marks + [Begins(|c.ended|, command), Ends];
  }

  /** A stop that swallows the end of its connection goes on with what is queued, and with nothing else. */
  lemma SwallowedCancelGoesOn(c: Client, frame: Inbound)
    requires Enabled(c, CancelIsSwallowed) && c.now.value.consuming && c.now.value.queue != []
    ensures
      var c1 := Next(c, CancelIsSwallowed);
      var c3 := Next(Next(c1, HandlerReturns), TakesNext);
      && Next(c1, Receives(frame)) == c1
      && c3.now.Some? && c3.now.value.handling == Some(c.now.value.queue[0])
      && c3.marks == c.marks + [Ends, Begins(|c.ended|, c.now.value.queue[0])]
  {
    assert c.marks + [Ends] + [Begins(|c.ended|, c.now.value.queue[0])]
        == c.marks + [Ends, Begins(|c.ended|, c.now.value.queue[0])];
  }

  lemma TakingKeepsOrder(s: Session, begun: seq<Command>)
    requires HandedAs(s, begun) && CanTake(s)
    ensures HandedAs(Taken(s), begun + [s.queue[0]])
  {
    assert s.queue == [s.queue[0]] + s.queue[1..];
  }

  lemma ReceivingKeepsOrder(s: Session, begun: seq<Command>, frame: Inbound)
    requires HandedAs(s, begun)
    ensures HandedAs(Received(s, frame), begun)
  {
  }

  /** Over every schedule: commands are handled serially, and on each connection what the handler
      was given is a prefix of the valid commands received there, each once and in order. */
  lemma {:induction false} HandledIsAPrefix(steps: seq<Step>)
    ensures
      var c := Execute(steps);
      && Alternates(c.marks)
      && (forall k: nat | k < |c.ended| || (k == |c.ended| && c.now.Some?) ::
            BegunOn(c.marks, k) <= Connection(c, k).received)
      && (forall k: nat | k > |c.ended| || (k == |c.ended| && c.now.None?) :: BegunOn(c.marks, k) == [])
    ensures Inv(Execute(steps))
  {
    if steps != [] {
      HandledIsAPrefix(steps[..|steps| - 1]);
      var front, step := Execute(steps[..|steps| - 1]), steps[|steps| - 1];
      StepKeepsSerial(front, step);
      forall k: nat ensures ConnectionOk(Next(front, step), k) {
        StepKeepsConnection(front, step, k);
      }
    }
    var c := Execute(steps);
    forall k: nat | k < |c.ended| || (k == |c.ended| && c.now.Some?)
      ensures BegunOn(c.marks, k) <= Connection(c, k).received
    {
      assert ConnectionOk(c, k);
    }
  }
}
