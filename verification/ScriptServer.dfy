/**
 The pool of PHP script servers. Each slot is worked by the thread that holds its lock:
 a command is written and its answer read, a failed write or read closes the slot and
 starts a new server, and a start ends with a handshake that never restarts. Steps are
 system calls; threads on different slots, the servers themselves and the rest of the
 program interleave freely.
 */
module ScriptServer {

  /** The ends of the two pipes between a slot and its server. */
  datatype Kind = ReqRead | ReqWrite | AnsRead | AnsWrite

  /** What an open descriptor refers to. */
  datatype End = Foreign | PipeEnd(channel: nat, kind: Kind)

  /** Lines on the pipes; requests and answers carry the number of the command. */
  datatype Line = Hello | Request(id: nat) | Answer(id: nat) | Quit

  /** The two pipes made by one start, by which slot, and how far the server on them has come. */
  datatype Channel = Channel(maker: nat, requests: seq<Line>, answers: seq<Line>, spawned: bool, booted: bool)

  /** What a close or a start is for. */
  datatype Goal = AfterWrite(id: nat, retries: nat) | AfterRead(id: nat) | Recovery | Shutdown

  datatype Stage = NoPipes | OnePipe | TwoPipes | Parent | Failing

  /** Where the thread that holds the slot's lock stands; Idle when nobody does. */
  datatype Phase =
    | Idle
    | Command(id: nat, retries: nat)
    | Reading(id: nat)
    | Closing(goal: Goal)
    | ClosingRead(goal: Goal)
    | Starting(stage: Stage, goal: Goal)
    | Handshake(goal: Goal)

  // Positions of the descriptors a slot's thread may hold: the slot's two, the four pipe
  // ends of a start in progress, and its two temporary duplicates.
  const WRITE := 0
  const READ := 1
  const CHILD_IN := 2
  const TO_CHILD := 3
  const FROM_CHILD := 4
  const CHILD_OUT := 5
  const DUP_IN := 6
  const DUP_OUT := 7

  function KindAt(j: int): Kind {
    if j == WRITE || j == TO_CHILD then ReqWrite
    else if j == READ || j == FROM_CHILD then AnsRead
    else if j == CHILD_IN || j == DUP_IN then ReqRead
    else AnsWrite
  }

  /** A negative descriptor is none. pid says whether a process id is recorded; the counters are per command. */
  datatype Slot = Slot(ready: bool, pid: bool, fds: seq<int>, channel: nat, phase: Phase, writes: nat, restarts: nat)

  datatype Reply = Undefined | Text(lines: seq<Line>)

  /** What a command returned. */
  datatype Outcome = Outcome(id: nat, reply: Reply)

  datatype State = State(slots: seq<Slot>, open: map<int, End>, channels: seq<Channel>, nextId: nat,
                         outcomes: seq<Outcome>)

  const NO_FDS: seq<int> := [-1, -1, -1, -1, -1, -1, -1, -1]

  /** php_processes_initialize */
  function Initial(count: nat): State {
    State(seq(count, i => Slot(false, false, NO_FDS, 0, Idle, 0, 0)), map[], [], 0, [])
  }

  /** The test made before a command is written and when a slot is chosen. */
  predicate Usable(slot: Slot)
    requires |slot.fds| == 8
  {
    slot.ready && slot.pid && slot.fds[READ] >= 0 && slot.fds[WRITE] >= 0
  }

  /** Steps that change nothing but the slot. */
  datatype Move =
    Begin | Refuse | WriteFail | ReadFail | InitFail | HandOver | FailDone | GreetFail | Recover | ShutDown

  /** Steps that put lines on the slot's pipes, take them off, or start the server on them. */
  datatype Wire = WriteOk | Receive(n: nat) | Greet(n: nat) | Spawn

  /** Steps that open or close descriptors. */
  datatype FdAct = CloseWrite(quit: bool) | CloseRead | Pipe(a: int, b: int) | Dup(j: nat, fd: int) | CloseLocal(j: nat)

  /** A step of the thread on slot i, of the server on channel c, or of the rest of the program. */
  datatype Step =
    | Moving(i: nat, move: Move)
    | Wiring(i: nat, wire: Wire)
    | Opening(i: nat, act: FdAct)
    | Boot(c: nat)
    | Serve(c: nat)
    | ForeignOpen(fd: int)
    | ForeignClose(fd: int)

  /** Where reading through a descriptor finds lines: the answers of the channel it refers to. */
  function Readable(s: State, fd: int): seq<Line> {
    if fd in s.open && s.open[fd].PipeEnd? && s.open[fd].channel < |s.channels| && s.open[fd].kind == AnsRead
    then s.channels[s.open[fd].channel].answers else []
  }

  /** Takes lines off the channel a descriptor refers to. */
  function Taken(s: State, fd: int, n: nat): seq<Channel>
    requires n <= |Readable(s, fd)|
  {
    if n == 0 then s.channels
    else
      var c := s.open[fd].channel;
      s.channels[c := s.channels[c].(answers := s.channels[c].answers[n..])]
  }

  /** Writes a line through a descriptor. */
  function Sent(s: State, fd: int, line: Line): seq<Channel> {
    if fd in s.open && s.open[fd].PipeEnd? && s.open[fd].channel < |s.channels| && s.open[fd].kind == ReqWrite then
      var c := s.open[fd].channel;
      s.channels[c := s.channels[c].(requests := s.channels[c].requests + [line])]
    else s.channels
  }

  predicate Free(s: State, fd: int) {
    fd >= 0 && fd !in s.open
  }

  /** A slot and what its command returned in the same step, if it returned. */
  datatype Turn = Turn(slot: Slot, done: seq<Outcome>)

  /** php_close has ended: a start follows, unless the retries are spent or the pool shuts down. */
  function Closed(slot: Slot, goal: Goal): Turn {
    match goal
    case AfterWrite(id, retries) =>
      if retries < 3 then Turn(slot.(phase := Starting(NoPipes, goal), restarts := slot.restarts + 1), [])
      else Turn(slot.(phase := Idle), [Outcome(id, Undefined)])
    case AfterRead(_) => Turn(slot.(phase := Starting(NoPipes, goal), restarts := slot.restarts + 1), [])
    case Recovery => Turn(slot.(phase := Starting(NoPipes, goal)), [])
    case Shutdown => Turn(slot.(phase := Idle), [])
  }

  /** php_init has returned. */
  function Started(slot: Slot, goal: Goal, ok: bool): Turn {
    match goal
    case AfterWrite(id, retries) =>
      if ok && slot.ready then Turn(slot.(phase := Command(id, retries)), [])
      else Turn(slot.(phase := Idle), [Outcome(id, Undefined)])
    case AfterRead(id) => Turn(slot.(phase := Idle), [Outcome(id, Undefined)])
    case Recovery => Turn(slot.(phase := Idle), [])
    case Shutdown => Turn(slot.(phase := Idle), [])
  }

  predicate MoveEnabled(slot: Slot, move: Move)
    requires |slot.fds| == 8
  {
    match move
    case Begin => slot.phase.Idle?
    case Refuse => slot.phase.Command? && !Usable(slot)
    case WriteFail => slot.phase.Command? && Usable(slot)
    case ReadFail => slot.phase.Reading?
    case InitFail => slot.phase.Starting? && slot.phase.stage in {NoPipes, OnePipe, TwoPipes}
    case HandOver =>
      && slot.phase.Starting? && slot.phase.stage == Parent && slot.fds[CHILD_IN] < 0 && slot.fds[CHILD_OUT] < 0
      && slot.fds[DUP_IN] < 0 && slot.fds[DUP_OUT] < 0
    case FailDone => slot.phase.Starting? && slot.phase.stage == Failing && forall j | 2 <= j < 8 :: slot.fds[j] < 0
    case GreetFail => slot.phase.Handshake?
    case Recover => slot.phase.Idle? && !Usable(slot)
    case ShutDown => slot.phase.Idle?
  }

  function MoveTurn(slot: Slot, move: Move, next: nat): Turn
    requires |slot.fds| == 8 && MoveEnabled(slot, move)
  {
    match move
    case Begin => Turn(slot.(phase := Command(next, 0), writes := 0, restarts := 0), [])
    case Refuse => Turn(slot.(phase := Idle), [Outcome(slot.phase.id, Undefined)])
    case WriteFail =>
      Turn(slot.(phase := Closing(AfterWrite(slot.phase.id, slot.phase.retries + 1)), writes := slot.writes + 1), [])
    case ReadFail => Turn(slot.(ready := false, phase := Closing(AfterRead(slot.phase.id))), [])
    case InitFail => Turn(slot.(phase := Starting(Failing, slot.phase.goal)), [])
    case HandOver =>
      Turn(slot.(pid := true, phase := Handshake(slot.phase.goal),
                 fds := [slot.fds[TO_CHILD], slot.fds[FROM_CHILD], -1, -1, -1, -1, -1, -1]), [])
    case FailDone => Started(slot.(ready := false, pid := false, fds := slot.fds[WRITE := -1][READ := -1]),
                             slot.phase.goal, false)
    case GreetFail => Started(slot.(ready := false), slot.phase.goal, true)
    case Recover =>
      Turn(slot.(phase := if slot.pid || slot.fds[READ] >= 0 || slot.fds[WRITE] >= 0
                          then Closing(Recovery) else Starting(NoPipes, Recovery)), [])
    case ShutDown => Turn(slot.(phase := Closing(Shutdown)), [])
  }

  predicate WireEnabled(s: State, slot: Slot, wire: Wire)
    requires |slot.fds| == 8
  {
    match wire
    case WriteOk => slot.phase.Command? && Usable(slot)
    case Receive(n) => slot.phase.Reading? && 0 < n <= |Readable(s, slot.fds[READ])|
    case Greet(n) => slot.phase.Handshake? && 0 < n <= |Readable(s, slot.fds[READ])|
    case Spawn => slot.phase.Starting? && slot.phase.stage == TwoPipes
  }

  function WireChannels(s: State, slot: Slot, wire: Wire): seq<Channel>
    requires |slot.fds| == 8 && WireEnabled(s, slot, wire)
  {
    match wire
    case WriteOk => Sent(s, slot.fds[WRITE], Request(slot.phase.id))
    case Receive(n) => Taken(s, slot.fds[READ], n)
    case Greet(n) => Taken(s, slot.fds[READ], n)
    case Spawn =>
      if slot.channel < |s.channels| then s.channels[slot.channel := s.channels[slot.channel].(spawned := true)]
      else s.channels
  }

  function WireTurn(s: State, slot: Slot, wire: Wire): Turn
    requires |slot.fds| == 8 && WireEnabled(s, slot, wire)
  {
    match wire
    case WriteOk => Turn(slot.(phase := Reading(slot.phase.id), writes := slot.writes + 1), [])
    case Receive(n) =>
      Turn(slot.(ready := true, phase := Idle), [Outcome(slot.phase.id, Text(Readable(s, slot.fds[READ])[..n]))])
    case Greet(n) => Started(slot.(ready := Hello in Readable(s, slot.fds[READ])[..n]), slot.phase.goal, true)
    case Spawn => Turn(slot.(phase := Starting(Parent, slot.phase.goal)), [])
  }

  predicate FdEnabled(s: State, slot: Slot, act: FdAct)
    requires |slot.fds| == 8
  {
    match act
    case CloseWrite(_) => slot.phase.Closing?
    case CloseRead => slot.phase.ClosingRead?
    case Pipe(a, b) =>
      slot.phase.Starting? && slot.phase.stage in {NoPipes, OnePipe} && Free(s, a) && Free(s, b) && a != b
    case Dup(j, fd) =>
      && slot.phase.Starting? && slot.phase.stage == TwoPipes && Free(s, fd) && j < 8 && slot.fds[j] < 0
      && ((j == DUP_IN && slot.fds[CHILD_IN] == 0) || (j == DUP_OUT && slot.fds[CHILD_OUT] == 1))
    case CloseLocal(j) =>
      && slot.phase.Starting? && 2 <= j < 8 && slot.fds[j] >= 0
      && (slot.phase.stage == Failing || (slot.phase.stage == Parent && j != TO_CHILD && j != FROM_CHILD))
  }

  /** The tables after a step that opens or closes, and the slot. */
  function FdEffect(s: State, i: nat, slot: Slot, act: FdAct): (State, Turn)
    requires |slot.fds| == 8 && FdEnabled(s, slot, act)
  {
    match act
    case CloseWrite(quit) =>
      (if slot.fds[WRITE] < 0 then s
       else (if quit then s.(channels := Sent(s, slot.fds[WRITE], Quit)) else s).(open := s.open - {slot.fds[WRITE]}),
       Turn(slot.(fds := slot.fds[WRITE := -1], phase := ClosingRead(slot.phase.goal)), []))
    case CloseRead =>
      (s.(open := s.open - {slot.fds[READ]}), Closed(slot.(pid := false, fds := slot.fds[READ := -1]), slot.phase.goal))
    case Pipe(a, b) =>
      if slot.phase.stage == NoPipes then
        var c := |s.channels|;
        (s.(channels := s.channels + [Channel(i, [], [], false, false)],
            open := s.open[a := PipeEnd(c, ReqRead)][b := PipeEnd(c, ReqWrite)]),
         Turn(WithFirstPipe(slot, c, a, b), []))
      else
        (s.(open := s.open[a := PipeEnd(slot.channel, AnsRead)][b := PipeEnd(slot.channel, AnsWrite)]),
         Turn(WithSecondPipe(slot, a, b), []))
    case Dup(j, fd) =>
      (s.(open := s.open[fd := PipeEnd(slot.channel, KindAt(j))]), Turn(slot.(fds := slot.fds[j := fd]), []))
    case CloseLocal(j) => (s.(open := s.open - {slot.fds[j]}), Turn(slot.(fds := slot.fds[j := -1]), []))
  }

  predicate EightEach(s: State) {
    forall k | 0 <= k < |s.slots| :: |s.slots[k].fds| == 8
  }

  predicate Enabled(s: State, step: Step)
    requires EightEach(s)
  {
    match step
    case Moving(i, move) => i < |s.slots| && MoveEnabled(s.slots[i], move)
    case Wiring(i, wire) => i < |s.slots| && WireEnabled(s, s.slots[i], wire)
    case Opening(i, act) => i < |s.slots| && FdEnabled(s, s.slots[i], act)
    case Boot(c) => c < |s.channels| && s.channels[c].spawned && !s.channels[c].booted
    case Serve(c) => c < |s.channels| && s.channels[c].booted && s.channels[c].requests != []
    case ForeignOpen(fd) => Free(s, fd)
    case ForeignClose(fd) => fd in s.open && s.open[fd] == Foreign
  }

  function Put(s: State, i: nat, turn: Turn): State
    requires i < |s.slots|
  {
    s.(slots := s.slots[i := turn.slot], outcomes := s.outcomes + turn.done)
  }

  /** The server answers each request with one line. */
  function ServeOne(ch: Channel): Channel
    requires ch.requests != []
  {
    ch.(requests := ch.requests[1..],
        answers := ch.answers + if ch.requests[0].Request? then [Answer(ch.requests[0].id)] else [])
  }

  function Apply(s: State, step: Step): State
    requires EightEach(s) && Enabled(s, step)
  {
    match step
    case Moving(i, move) =>
      Put(s.(nextId := if move.Begin? then s.nextId + 1 else s.nextId), i, MoveTurn(s.slots[i], move, s.nextId))
    case Wiring(i, wire) => Put(s.(channels := WireChannels(s, s.slots[i], wire)), i, WireTurn(s, s.slots[i], wire))
    case Opening(i, act) => var (t, turn) := FdEffect(s, i, s.slots[i], act); Put(t, i, turn)
    case Boot(c) =>
      s.(channels := s.channels[c := s.channels[c].(answers := s.channels[c].answers + [Hello], booted := true)])
    case Serve(c) => s.(channels := s.channels[c := ServeOne(s.channels[c])])
    case ForeignOpen(fd) => s.(open := s.open[fd := Foreign])
    case ForeignClose(fd) => s.(open := s.open - {fd})
  }

  // ---- Descriptors: one owner each ----

  predicate MadeBy(channels: seq<Channel>, c: nat, i: nat) {
    c < |channels| && channels[c].maker == i
  }

  /** What slot i holds is open, refers to the right pipe end of its own channel, and is held once. */
  predicate Owns(open: map<int, End>, channels: seq<Channel>, i: nat, slot: Slot) {
    && |slot.fds| == 8 && (forall j | 0 <= j < 8 :: slot.fds[j] >= -1)
    && (forall j | 0 <= j < 8 && slot.fds[j] >= 0 ::
          slot.fds[j] in open && open[slot.fds[j]] == PipeEnd(slot.channel, KindAt(j)))
    && (forall j, k | 0 <= j < k < 8 && slot.fds[j] >= 0 :: slot.fds[j] != slot.fds[k])
    && ((exists j :: 0 <= j < 8 && slot.fds[j] >= 0) ==> MadeBy(channels, slot.channel, i))
  }

  /** Every open end of a pipe that slot i made is held by slot i. */
  predicate NoLeak(open: map<int, End>, channels: seq<Channel>, i: nat, slot: Slot) {
    forall fd | fd in open && open[fd].PipeEnd? && MadeBy(channels, open[fd].channel, i) :: fd >= 0 && fd in slot.fds
  }

  predicate Holds(open: map<int, End>, channels: seq<Channel>, i: nat, slot: Slot) {
    Owns(open, channels, i, slot) && NoLeak(open, channels, i, slot)
  }

  /** Closing a held descriptor and forgetting it. */
  lemma HoldsClose(open: map<int, End>, channels: seq<Channel>, i: nat, slot: Slot, j: nat)
    requires Holds(open, channels, i, slot) && j < 8 && slot.fds[j] >= 0
    ensures Holds(open - {slot.fds[j]}, channels, i, slot.(fds := slot.fds[j := -1]))
  {
    var fd, left := slot.fds[j], slot.fds[j := -1];
    forall x | x in open - {fd} && open[x].PipeEnd? && MadeBy(channels, open[x].channel, i)
      ensures x >= 0 && x in left
    {
      var k :| 0 <= k < 8 && slot.fds[k] == x;
      assert left[k] == x;
    }
  }

  /** Putting a new descriptor, for an end of the slot's own channel, where there was none. */
  lemma HoldsOpen(open: map<int, End>, channels: seq<Channel>, i: nat, slot: Slot, j: nat, fd: int)
    requires Holds(open, channels, i, slot) && j < 8 && slot.fds[j] < 0 && MadeBy(channels, slot.channel, i)
    requires fd >= 0 && fd !in open
    ensures Holds(open[fd := PipeEnd(slot.channel, KindAt(j))], channels, i, slot.(fds := slot.fds[j := fd]))
  {
    var open', more := open[fd := PipeEnd(slot.channel, KindAt(j))], slot.fds[j := fd];
    assert more[j] == fd;
    forall x | x in open' && open'[x].PipeEnd? && MadeBy(channels, open'[x].channel, i) ensures x >= 0 && x in more {
      if x != fd {
        var k :| 0 <= k < 8 && slot.fds[k] == x;
        assert more[k] == x;
      }
    }
  }

  /** A start that opens its first pipe makes a channel of its own. */
  lemma HoldsNewChannel(open: map<int, End>, channels: seq<Channel>, i: nat, slot: Slot)
    requires Holds(open, channels, i, slot) && forall j | 0 <= j < 8 :: slot.fds[j] < 0
    requires forall fd | fd in open && open[fd].PipeEnd? :: open[fd].channel < |channels|
    ensures Holds(open, channels + [Channel(i, [], [], false, false)], i, slot.(channel := |channels|))
  {
    var more := channels + [Channel(i, [], [], false, false)];
    forall fd | fd in open && open[fd].PipeEnd? && MadeBy(more, open[fd].channel, i) ensures fd >= 0 && fd in slot.fds {
      assert MadeBy(channels, open[fd].channel, i);
    }
  }

  /** Channels may change in content, not in maker. */
  predicate SameMakers(channels: seq<Channel>, channels': seq<Channel>) {
    |channels| == |channels'| && forall c | 0 <= c < |channels| :: channels'[c].maker == channels[c].maker
  }

  lemma HoldsContent(open: map<int, End>, channels: seq<Channel>, channels': seq<Channel>, i: nat, slot: Slot)
    requires Holds(open, channels, i, slot) && SameMakers(channels, channels')
    ensures Holds(open, channels', i, slot)
  {
    assert forall c: nat :: MadeBy(channels', c, i) <==> MadeBy(channels, c, i);
  }

  // ---- Shape, conversation and effort of a slot ----

  predicate None(slot: Slot, from: nat, to: nat)
    requires |slot.fds| == 8 && to <= 8
  {
    forall j | from <= j < to :: slot.fds[j] < 0
  }

  /** Which descriptors are there at each point. */
  predicate Shape(slot: Slot)
    requires |slot.fds| == 8
  {
    match slot.phase
    case Idle => None(slot, 2, 8)
    case Command(_, _) => None(slot, 2, 8)
    case Reading(_) => None(slot, 2, 8) && slot.fds[WRITE] >= 0 && slot.fds[READ] >= 0 && slot.pid
    case Closing(_) => None(slot, 2, 8)
    case ClosingRead(_) => None(slot, 2, 8) && slot.fds[WRITE] < 0
    case Starting(stage, goal) =>
      && !goal.Shutdown? && None(slot, 0, 2)
      && (match stage
          case NoPipes => None(slot, 2, 8)
          case OnePipe => None(slot, 4, 8) && slot.fds[CHILD_IN] >= 0 && slot.fds[TO_CHILD] >= 0
          case TwoPipes => forall j | 2 <= j < 6 :: slot.fds[j] >= 0
          case Parent => slot.fds[TO_CHILD] >= 0 && slot.fds[FROM_CHILD] >= 0
          case Failing => true)
    case Handshake(goal) =>
      !goal.Shutdown? && None(slot, 2, 8) && slot.fds[WRITE] >= 0 && slot.fds[READ] >= 0 && slot.pid
  }

  /** Nothing was said yet but perhaps the greeting. */
  predicate Fresh(ch: Channel) {
    ch.requests == [] && ch.answers == if ch.booted then [Hello] else []
  }

  predicate Quiet(ch: Channel) {
    ch.booted && ch.requests == [] && ch.answers == []
  }

  /** The only thing under way is one command or its answer. */
  predicate Asked(ch: Channel, id: nat) {
    ch.booted && ((ch.requests == [Request(id)] && ch.answers == []) ||
                  (ch.requests == [] && ch.answers == [Answer(id)]))
  }

  /** What may be on the slot's pipes at each point. */
  predicate Talk(channels: seq<Channel>, slot: Slot)
    requires |slot.fds| == 8
  {
    slot.channel < |channels| ==>
      var ch := channels[slot.channel];
      match slot.phase
      case Idle => Usable(slot) ==> Quiet(ch)
      case Command(_, _) => Usable(slot) ==> Quiet(ch)
      case Reading(id) => Asked(ch, id)
      case Closing(_) => true
      case ClosingRead(_) => true
      case Starting(stage, _) =>
        (match stage
         case NoPipes => true
         case OnePipe => Fresh(ch) && !ch.spawned && !ch.booted
         case TwoPipes => Fresh(ch) && !ch.spawned && !ch.booted
         case Parent => Fresh(ch)
         case Failing => true)
      case Handshake(_) => Fresh(ch)
  }

  /** Writes and restarts made so far for the command under way. */
  predicate Effort(slot: Slot) {
    && slot.writes <= 3 && slot.restarts <= 3
    && (match slot.phase
        case Command(_, r) => slot.writes == r == slot.restarts && r < 3
        case Reading(_) => slot.restarts < 3
        case Closing(goal) => Spent(slot, goal, false)
        case ClosingRead(goal) => Spent(slot, goal, false)
        case Starting(_, goal) => Spent(slot, goal, true)
        case Handshake(goal) => Spent(slot, goal, true)
        case Idle => true)
  }

  predicate Spent(slot: Slot, goal: Goal, restarted: bool) {
    match goal
    case AfterWrite(_, r) =>
      && slot.writes == r && 0 < r <= 3
      && (if restarted then r < 3 && slot.restarts == r else slot.restarts + 1 == r)
    case AfterRead(_) => restarted || slot.restarts < 3
    case Recovery => true
    case Shutdown => true
  }

  predicate Ok(open: map<int, End>, channels: seq<Channel>, i: nat, slot: Slot) {
    Holds(open, channels, i, slot) && Shape(slot) && Talk(channels, slot) && Effort(slot)
  }

  // ---- One step of one slot ----

  /** Tables refer to what exists. */
  predicate Tables(s: State) {
    && -1 !in s.open
    && (forall fd | fd in s.open && s.open[fd].PipeEnd? :: s.open[fd].channel < |s.channels|)
    && (forall c | 0 <= c < |s.channels| :: s.channels[c].maker < |s.slots|)
  }

  predicate SlotOk(s: State, i: nat) {
    i < |s.slots| && Ok(s.open, s.channels, i, s.slots[i])
  }

  /** Every text returned is the one answer to the command that returned it. */
  predicate Answered(outcomes: seq<Outcome>) {
    forall k | 0 <= k < |outcomes| && outcomes[k].reply.Text? :: outcomes[k].reply.lines == [Answer(outcomes[k].id)]
  }

  /** A step touched nothing that other slots made. */
  predicate Local(s: State, t: State, i: nat) {
    && |t.slots| == |s.slots| && (forall k | 0 <= k < |s.slots| && k != i :: t.slots[k] == s.slots[k])
    && |s.channels| <= |t.channels|
    && (forall c | 0 <= c < |s.channels| ::
          t.channels[c].maker == s.channels[c].maker && (s.channels[c].maker != i ==> t.channels[c] == s.channels[c]))
    && (forall c | |s.channels| <= c < |t.channels| :: t.channels[c].maker == i)
    && (forall fd | fd in s.open && s.open[fd].PipeEnd? && !MadeBy(s.channels, s.open[fd].channel, i) ::
          fd in t.open && t.open[fd] == s.open[fd])
    && (forall fd | fd in t.open && t.open[fd].PipeEnd? ::
          MadeBy(t.channels, t.open[fd].channel, i) || (fd in s.open && s.open[fd] == t.open[fd]))
  }

  lemma Frame(s: State, t: State, i: nat, k: nat)
    requires Tables(s) && Local(s, t, i) && k != i && k < |s.slots| && SlotOk(s, k)
    ensures SlotOk(t, k)
  {
    var slot := s.slots[k];
    assert Owns(t.open, t.channels, k, slot) by {
      if j :| 0 <= j < 8 && slot.fds[j] >= 0 {
        assert !MadeBy(s.channels, slot.channel, i);
      }
    }
    forall fd | fd in t.open && t.open[fd].PipeEnd? && MadeBy(t.channels, t.open[fd].channel, k)
      ensures fd >= 0 && fd in slot.fds
    {
      assert fd in s.open && s.open[fd] == t.open[fd];
    }
    assert Talk(t.channels, slot) by { TalkFrame(s, t, i, k); }
  }

  /** The phases that say anything of the channel hold a descriptor of it. */
  lemma TalkFrame(s: State, t: State, i: nat, k: nat)
    requires Local(s, t, i) && k != i && k < |s.slots| && SlotOk(s, k)
    ensures Talk(t.channels, s.slots[k])
  {
    var slot := s.slots[k];
    if j :| 0 <= j < 8 && slot.fds[j] >= 0 {
      assert MadeBy(s.channels, slot.channel, k);
      assert t.channels[slot.channel] == s.channels[slot.channel];
    } else {
      assert slot.fds[WRITE] < 0 && slot.fds[CHILD_IN] < 0 && slot.fds[TO_CHILD] < 0;
    }
  }

  /** What a step of slot i must show. */
  predicate Good(s: State, t: State, i: nat) {
    SlotOk(t, i) && Local(s, t, i) && Tables(t) && Answered(t.outcomes)
  }

  lemma AnsweredMore(outcomes: seq<Outcome>, done: seq<Outcome>)
    requires Answered(outcomes) && Answered(done)
    ensures Answered(outcomes + done)
  {
  }

  /** A slot changes while the kernel's tables stay. */
  lemma PutGood(s: State, i: nat, turn: Turn, next: nat)
    requires SlotOk(s, i) && Tables(s) && Answered(s.outcomes)
    requires Ok(s.open, s.channels, i, turn.slot) && Answered(turn.done)
    ensures Good(s, Put(s.(nextId := next), i, turn), i)
  {
    AnsweredMore(s.outcomes, turn.done);
  }

  /** Rules for the slot alone: everything but who holds what. */
  predicate Fits(channels: seq<Channel>, slot: Slot) {
    |slot.fds| == 8 && Shape(slot) && Talk(channels, slot) && Effort(slot)
  }

  lemma StartedFits(channels: seq<Channel>, slot: Slot, goal: Goal, ok: bool)
    requires |slot.fds| == 8 && None(slot, 2, 8) && !goal.Shutdown? && slot.writes <= 3 && slot.restarts <= 3
    requires Spent(slot, goal, true) && (Usable(slot) && slot.channel < |channels| ==> Quiet(channels[slot.channel]))
    ensures Fits(channels, Started(slot, goal, ok).slot) && Answered(Started(slot, goal, ok).done)
    ensures Started(slot, goal, ok).slot.fds == slot.fds && Started(slot, goal, ok).slot.channel == slot.channel
  {
  }

  /** Steps before and after a command. */
  lemma OuterMoveFits(channels: seq<Channel>, slot: Slot, move: Move, next: nat)
    requires Fits(channels, slot) && (move.Begin? || move.Refuse? || move.Recover? || move.ShutDown?)
    requires MoveEnabled(slot, move)
    ensures var turn := MoveTurn(slot, move, next); Fits(channels, turn.slot) && Answered(turn.done)
  {
  }

  /** Steps on a failure. */
  lemma FailMoveFits(channels: seq<Channel>, slot: Slot, move: Move, next: nat)
    requires Fits(channels, slot) && (move.WriteFail? || move.ReadFail? || move.InitFail?) && MoveEnabled(slot, move)
    ensures var turn := MoveTurn(slot, move, next); Fits(channels, turn.slot) && Answered(turn.done)
  {
  }

  /** The end of a start. */
  lemma StartMoveFits(channels: seq<Channel>, slot: Slot, move: Move, next: nat)
    requires Fits(channels, slot) && (move.FailDone? || move.GreetFail? || move.HandOver?) && MoveEnabled(slot, move)
    ensures var turn := MoveTurn(slot, move, next); Fits(channels, turn.slot) && Answered(turn.done)
  {
    if move.FailDone? {
      StartedFits(channels, slot.(ready := false, pid := false, fds := slot.fds[WRITE := -1][READ := -1]),
                  slot.phase.goal, false);
    } else if move.GreetFail? {
      StartedFits(channels, slot.(ready := false), slot.phase.goal, true);
    }
  }

  /** Moving a descriptor to another place for the same kind of pipe end. */
  lemma HoldsMove(open: map<int, End>, channels: seq<Channel>, i: nat, slot: Slot, j: nat, k: nat)
    requires Holds(open, channels, i, slot) && j < 8 && k < 8 && j != k && KindAt(j) == KindAt(k) && slot.fds[k] < 0
    ensures Holds(open, channels, i, slot.(fds := slot.fds[k := slot.fds[j]][j := -1]))
  {
    OwnsMove(open, channels, i, slot, j, k);
    NoLeakMove(open, channels, i, slot, j, k);
  }

  lemma OwnsMove(open: map<int, End>, channels: seq<Channel>, i: nat, slot: Slot, j: nat, k: nat)
    requires Owns(open, channels, i, slot) && j < 8 && k < 8 && j != k && KindAt(j) == KindAt(k) && slot.fds[k] < 0
    ensures Owns(open, channels, i, slot.(fds := slot.fds[k := slot.fds[j]][j := -1]))
  {
  }

  lemma NoLeakMove(open: map<int, End>, channels: seq<Channel>, i: nat, slot: Slot, j: nat, k: nat)
    requires NoLeak(open, channels, i, slot) && |slot.fds| == 8 && j < 8 && k < 8 && j != k && slot.fds[k] < 0
    ensures NoLeak(open, channels, i, slot.(fds := slot.fds[k := slot.fds[j]][j := -1]))
  {
    var moved := slot.fds[k := slot.fds[j]][j := -1];
    forall fd | fd in open && open[fd].PipeEnd? && MadeBy(channels, open[fd].channel, i)
      ensures fd >= 0 && fd in moved
    {
      var x :| 0 <= x < 8 && slot.fds[x] == fd;
      assert moved[if x == j then k else x] == fd;
    }
  }

  /** The slot's descriptors move from the start's locals to the slot. */
  lemma HoldsHandOver(open: map<int, End>, channels: seq<Channel>, i: nat, slot: Slot)
    requires Holds(open, channels, i, slot) && None(slot, 0, 3) && None(slot, 5, 8)
    ensures Holds(open, channels, i, slot.(fds := [slot.fds[TO_CHILD], slot.fds[FROM_CHILD], -1, -1, -1, -1, -1, -1]))
  {
    HoldsMove(open, channels, i, slot, TO_CHILD, WRITE);
    var half := slot.(fds := slot.fds[WRITE := slot.fds[TO_CHILD]][TO_CHILD := -1]);
    HoldsMove(open, channels, i, half, FROM_CHILD, READ);
    assert half.fds[READ := half.fds[FROM_CHILD]][FROM_CHILD := -1] ==
           [slot.fds[TO_CHILD], slot.fds[FROM_CHILD], -1, -1, -1, -1, -1, -1];
  }

  /** Holding depends on the descriptors and the channel alone. */
  lemma HoldsSame(open: map<int, End>, channels: seq<Channel>, i: nat, slot: Slot, slot': Slot)
    requires Holds(open, channels, i, slot) && slot'.fds == slot.fds && slot'.channel == slot.channel
    ensures Holds(open, channels, i, slot')
  {
  }

  lemma MoveFds(slot: Slot, move: Move, next: nat)
    requires |slot.fds| == 8 && Shape(slot) && (forall j | 0 <= j < 8 :: slot.fds[j] >= -1) && MoveEnabled(slot, move)
    ensures var slot' := MoveTurn(slot, move, next).slot;
            && slot'.channel == slot.channel
            && slot'.fds == if move.HandOver? then [slot.fds[TO_CHILD], slot.fds[FROM_CHILD], -1, -1, -1, -1, -1, -1]
                            else slot.fds
  {
    if move.FailDone? {
      assert slot.fds[WRITE := -1][READ := -1] == slot.fds;
    }
  }

  lemma MoveHolds(s: State, i: nat, move: Move)
    requires SlotOk(s, i) && MoveEnabled(s.slots[i], move)
    ensures Holds(s.open, s.channels, i, MoveTurn(s.slots[i], move, s.nextId).slot)
  {
    var slot := s.slots[i];
    var slot' := MoveTurn(slot, move, s.nextId).slot;
    MoveFds(slot, move, s.nextId);
    if move.HandOver? {
      HoldsHandOver(s.open, s.channels, i, slot);
      HoldsSame(s.open, s.channels, i, slot.(fds := slot'.fds), slot');
    } else {
      HoldsSame(s.open, s.channels, i, slot, slot');
    }
  }

  lemma MoveStep(s: State, i: nat, move: Move)
    requires EightEach(s) && SlotOk(s, i) && Tables(s) && Answered(s.outcomes) && MoveEnabled(s.slots[i], move)
    ensures Good(s, Apply(s, Moving(i, move)), i)
  {
    var slot, next := s.slots[i], s.nextId;
    MoveHolds(s, i, move);
    assert Fits(s.channels, MoveTurn(slot, move, next).slot) && Answered(MoveTurn(slot, move, next).done) by {
      if move.Begin? || move.Refuse? || move.Recover? || move.ShutDown? {
        OuterMoveFits(s.channels, slot, move, next);
      } else if move.WriteFail? || move.ReadFail? || move.InitFail? {
        FailMoveFits(s.channels, slot, move, next);
      } else {
        StartMoveFits(s.channels, slot, move, next);
      }
    }
    PutGood(s, i, MoveTurn(slot, move, next), if move.Begin? then next + 1 else next);
  }

  // ---- Lines ----

  /** A slot's descriptors reach its own channel. */
  lemma OwnLines(s: State, i: nat)
    requires SlotOk(s, i)
    ensures var slot := s.slots[i];
            && (slot.fds[READ] >= 0 ==>
                  && MadeBy(s.channels, slot.channel, i)
                  && Readable(s, slot.fds[READ]) == s.channels[slot.channel].answers)
            && (slot.fds[WRITE] >= 0 ==>
                  && MadeBy(s.channels, slot.channel, i)
                  && forall line :: Sent(s, slot.fds[WRITE], line) ==
                       s.channels[slot.channel :=
                                  s.channels[slot.channel].(requests := s.channels[slot.channel].requests + [line])])
  {
  }

  /** Only the content of the slot's own channel changes. */
  lemma PutContent(s: State, i: nat, turn: Turn, ch: Channel)
    requires SlotOk(s, i) && Tables(s) && Answered(s.outcomes) && Answered(turn.done)
    requires MadeBy(s.channels, s.slots[i].channel, i) && ch.maker == i
    requires turn.slot.fds == s.slots[i].fds && turn.slot.channel == s.slots[i].channel
    requires Fits(s.channels[s.slots[i].channel := ch], turn.slot)
    ensures Good(s, Put(s.(channels := s.channels[s.slots[i].channel := ch]), i, turn), i)
  {
    var channels := s.channels[s.slots[i].channel := ch];
    HoldsContent(s.open, s.channels, channels, i, s.slots[i]);
    AnsweredMore(s.outcomes, turn.done);
  }

  lemma WriteStep(s: State, i: nat, t: State)
    requires EightEach(s) && SlotOk(s, i) && Tables(s) && Answered(s.outcomes) && WireEnabled(s, s.slots[i], WriteOk)
    requires t == Apply(s, Wiring(i, WriteOk))
    ensures Good(s, t, i)
  {
    var slot := s.slots[i];
    OwnLines(s, i);
    var was := s.channels[slot.channel];
    var ch, turn := was.(requests := was.requests + [Request(slot.phase.id)]), WireTurn(s, slot, WriteOk);
    assert Quiet(was);
    assert Asked(ch, slot.phase.id);
    assert Fits(s.channels[slot.channel := ch], turn.slot);
    PutContent(s, i, turn, ch);
  }

  /** Reading takes exactly the answer to the command under way. */
  lemma ReceiveStep(s: State, i: nat, n: nat, t: State)
    requires EightEach(s) && SlotOk(s, i) && Tables(s) && Answered(s.outcomes) && WireEnabled(s, s.slots[i], Receive(n))
    requires t == Apply(s, Wiring(i, Receive(n)))
    ensures Good(s, t, i)
  {
    var slot := s.slots[i];
    OwnLines(s, i);
    var was := s.channels[slot.channel];
    var ch, turn := was.(answers := was.answers[n..]), WireTurn(s, slot, Receive(n));
    assert was.answers == [Answer(slot.phase.id)] && n == 1;
    assert was.answers[..n] == was.answers;
    assert Quiet(ch);
    assert Fits(s.channels[slot.channel := ch], turn.slot);
    PutContent(s, i, turn, ch);
  }

  /** The greeting is all there is to read after a start. */
  lemma GreetStep(s: State, i: nat, n: nat, t: State)
    requires EightEach(s) && SlotOk(s, i) && Tables(s) && Answered(s.outcomes) && WireEnabled(s, s.slots[i], Greet(n))
    requires t == Apply(s, Wiring(i, Greet(n)))
    ensures Good(s, t, i)
  {
    var slot := s.slots[i];
    OwnLines(s, i);
    var was := s.channels[slot.channel];
    var ch, turn := was.(answers := was.answers[n..]), WireTurn(s, slot, Greet(n));
    assert was.answers == [Hello] && n == 1;
    assert Quiet(ch);
    var channels, greeted := s.channels[slot.channel := ch], slot.(ready := Hello in was.answers[..n]);
    assert && Fits(channels, turn.slot) && Answered(turn.done)
           && turn.slot.fds == slot.fds && turn.slot.channel == slot.channel by {
      StartedFits(channels, greeted, slot.phase.goal, true);
    }
    PutContent(s, i, turn, ch);
  }

  lemma SpawnStep(s: State, i: nat, t: State)
    requires EightEach(s) && SlotOk(s, i) && Tables(s) && Answered(s.outcomes) && WireEnabled(s, s.slots[i], Spawn)
    requires t == Apply(s, Wiring(i, Spawn))
    ensures Good(s, t, i)
  {
    var slot := s.slots[i];
    assert slot.fds[CHILD_IN] >= 0;
    var ch, turn := s.channels[slot.channel].(spawned := true), WireTurn(s, slot, Spawn);
    assert Fits(s.channels[slot.channel := ch], turn.slot);
    PutContent(s, i, turn, ch);
  }

  // ---- Descriptors ----

  /** The tables of t and a slot that goes with them. */
  predicate Lands(s: State, t: State, i: nat, turn: Turn) {
    && i < |s.slots| && t.slots == s.slots && t.outcomes == s.outcomes
    && Local(s, t, i) && Tables(t) && Holds(t.open, t.channels, i, turn.slot) && Fits(t.channels, turn.slot)
  }

  /** A slot changes together with the kernel's tables. */
  lemma PutTables(s: State, t: State, i: nat, turn: Turn)
    requires Lands(s, t, i, turn) && Answered(s.outcomes) && Answered(turn.done)
    ensures Good(s, Put(t, i, turn), i)
  {
    AnsweredMore(s.outcomes, turn.done);
  }

  lemma CloseTables(s: State, i: nat, j: nat)
    requires SlotOk(s, i) && Tables(s) && j < 8 && s.slots[i].fds[j] >= 0
    ensures var t := s.(open := s.open - {s.slots[i].fds[j]}); Local(s, t, i) && Tables(t)
  {
  }

  lemma CloseLands(s: State, i: nat, j: nat, turn: Turn)
    requires SlotOk(s, i) && Tables(s) && j < 8 && s.slots[i].fds[j] >= 0
    requires turn.slot.fds == s.slots[i].fds[j := -1]
    requires turn.slot.channel == s.slots[i].channel && Fits(s.channels, turn.slot)
    ensures Lands(s, s.(open := s.open - {s.slots[i].fds[j]}), i, turn)
  {
    var slot, t := s.slots[i], s.(open := s.open - {s.slots[i].fds[j]});
    HoldsClose(s.open, s.channels, i, slot, j);
    HoldsSame(t.open, t.channels, i, slot.(fds := turn.slot.fds), turn.slot);
    CloseTables(s, i, j);
  }

  lemma ClosedFits(channels: seq<Channel>, slot: Slot, goal: Goal)
    requires |slot.fds| == 8 && None(slot, 0, 8) && slot.writes <= 3 && slot.restarts <= 3 && Spent(slot, goal, false)
    ensures Fits(channels, Closed(slot, goal).slot) && Answered(Closed(slot, goal).done)
    ensures Closed(slot, goal).slot.fds == slot.fds && Closed(slot, goal).slot.channel == slot.channel
  {
  }

  /** The slot stays; only tables below it matter, which for a closing slot do not. */
  lemma QuitStep(s: State, i: nat)
    requires SlotOk(s, i) && Tables(s) && Answered(s.outcomes)
    requires s.slots[i].phase.Closing? && s.slots[i].fds[WRITE] >= 0
    ensures Good(s, s.(channels := Sent(s, s.slots[i].fds[WRITE], Quit)), i)
  {
    var slot := s.slots[i];
    OwnLines(s, i);
    var ch := s.channels[slot.channel];
    PutContent(s, i, Turn(slot, []), ch.(requests := ch.requests + [Quit]));
    assert s.slots[i := slot] == s.slots && s.outcomes + [] == s.outcomes;
  }

  lemma LocalTrans(s: State, t: State, u: State, i: nat)
    requires Local(s, t, i) && Local(t, u, i) && Tables(s)
    ensures Local(s, u, i)
  {
    forall fd | fd in s.open && s.open[fd].PipeEnd? && !MadeBy(s.channels, s.open[fd].channel, i)
      ensures fd in u.open && u.open[fd] == s.open[fd]
    {
      assert fd in t.open && t.open[fd] == s.open[fd];
      assert !MadeBy(t.channels, t.open[fd].channel, i);
    }
    forall fd | fd in u.open && u.open[fd].PipeEnd?
      ensures MadeBy(u.channels, u.open[fd].channel, i) || (fd in s.open && s.open[fd] == u.open[fd])
    {
      if !MadeBy(u.channels, u.open[fd].channel, i) {
        assert fd in t.open && t.open[fd] == u.open[fd];
        assert !MadeBy(t.channels, t.open[fd].channel, i);
      }
    }
  }

  /** From one change of the tables to the next. */
  lemma LandsAfter(s: State, t: State, u: State, i: nat, turn: Turn)
    requires Local(s, t, i) && Tables(s) && t.slots == s.slots && t.outcomes == s.outcomes && Lands(t, u, i, turn)
    ensures Lands(s, u, i, turn)
  {
    LocalTrans(s, t, u, i);
  }

  /** php_close, first part: the request pipe is closed whether or not the quit line could be written. */
  lemma CloseWriteLands(s: State, i: nat, quit: bool, slot': Slot)
    requires SlotOk(s, i) && Tables(s) && Answered(s.outcomes)
    requires s.slots[i].phase.Closing? && s.slots[i].fds[WRITE] >= 0
    requires slot' == s.slots[i].(fds := s.slots[i].fds[WRITE := -1], phase := ClosingRead(s.slots[i].phase.goal))
    ensures var t := if quit then s.(channels := Sent(s, s.slots[i].fds[WRITE], Quit)) else s;
            Lands(s, t.(open := s.open - {s.slots[i].fds[WRITE]}), i, Turn(slot', []))
  {
    if quit {
      var t := s.(channels := Sent(s, s.slots[i].fds[WRITE], Quit));
      QuitStep(s, i);
      CloseLands(t, i, WRITE, Turn(slot', []));
      LandsAfter(s, t, t.(open := s.open - {s.slots[i].fds[WRITE]}), i, Turn(slot', []));
    } else {
      CloseLands(s, i, WRITE, Turn(slot', []));
    }
  }

  /** A new descriptor for an end of one of slot i's channels. */
  lemma OpenTables(s: State, i: nat, fd: int, c: nat, kind: Kind)
    requires Tables(s) && Free(s, fd) && MadeBy(s.channels, c, i)
    ensures var t := s.(open := s.open[fd := PipeEnd(c, kind)]); Local(s, t, i) && Tables(t)
  {
  }

  lemma PipeTables(s: State, i: nat, a: int, b: int, c: nat, read: Kind, write: Kind)
    requires Tables(s) && Free(s, a) && Free(s, b) && a != b && MadeBy(s.channels, c, i)
    ensures var t := s.(open := s.open[a := PipeEnd(c, read)][b := PipeEnd(c, write)]); Local(s, t, i) && Tables(t)
  {
    var u := s.(open := s.open[a := PipeEnd(c, read)]);
    OpenTables(s, i, a, c, read);
    OpenTables(u, i, b, c, write);
    LocalTrans(s, u, u.(open := u.open[b := PipeEnd(c, write)]), i);
  }

  lemma ChannelTables(s: State, i: nat)
    requires Tables(s) && i < |s.slots|
    ensures var t := s.(channels := s.channels + [Channel(i, [], [], false, false)]); Local(s, t, i) && Tables(t)
  {
  }

  lemma DupFits(channels: seq<Channel>, slot: Slot, j: nat, fd: int)
    requires Fits(channels, slot) && slot.phase.Starting? && slot.phase.stage == TwoPipes && slot.channel < |channels|
    requires (j == DUP_IN || j == DUP_OUT) && fd >= 0
    ensures Fits(channels, slot.(fds := slot.fds[j := fd]))
  {
  }

  lemma DupLands(s: State, i: nat, j: nat, fd: int)
    requires SlotOk(s, i) && Tables(s) && Free(s, fd) && (j == DUP_IN || j == DUP_OUT) && s.slots[i].fds[j] < 0
    requires s.slots[i].phase.Starting? && s.slots[i].phase.stage == TwoPipes
    ensures Lands(s, s.(open := s.open[fd := PipeEnd(s.slots[i].channel, KindAt(j))]), i,
                  Turn(s.slots[i].(fds := s.slots[i].fds[j := fd]), []))
  {
    var slot := s.slots[i];
    assert slot.fds[CHILD_IN] >= 0;
    OpenTables(s, i, fd, slot.channel, KindAt(j));
    HoldsOpen(s.open, s.channels, i, slot, j, fd);
    DupFits(s.channels, slot, j, fd);
  }

  /** Opening both ends of a pipe of the slot's own channel. */
  lemma HoldsPipe(open: map<int, End>, channels: seq<Channel>, i: nat, slot: Slot, j: nat, k: nat, a: int, b: int)
    requires Holds(open, channels, i, slot) && j < k < 8 && slot.fds[j] < 0 && slot.fds[k] < 0
    requires MadeBy(channels, slot.channel, i) && a >= 0 && b >= 0 && a != b && a !in open && b !in open
    ensures Holds(open[a := PipeEnd(slot.channel, KindAt(j))][b := PipeEnd(slot.channel, KindAt(k))], channels, i,
                  slot.(fds := slot.fds[j := a][k := b]))
  {
    HoldsOpen(open, channels, i, slot, j, a);
    HoldsOpen(open[a := PipeEnd(slot.channel, KindAt(j))], channels, i, slot.(fds := slot.fds[j := a]), k, b);
  }

  /** The slot after the first pipe, and after the second. */
  function WithFirstPipe(slot: Slot, c: nat, a: int, b: int): Slot
    requires |slot.fds| == 8 && slot.phase.Starting?
  {
    slot.(channel := c, fds := slot.fds[CHILD_IN := a][TO_CHILD := b], phase := Starting(OnePipe, slot.phase.goal))
  }

  function WithSecondPipe(slot: Slot, a: int, b: int): Slot
    requires |slot.fds| == 8 && slot.phase.Starting?
  {
    slot.(fds := slot.fds[FROM_CHILD := a][CHILD_OUT := b], phase := Starting(TwoPipes, slot.phase.goal))
  }

  lemma FirstPipeFits(channels: seq<Channel>, slot: Slot, a: int, b: int, i: nat)
    requires Fits(channels, slot) && slot.phase.Starting? && slot.phase.stage == NoPipes && a >= 0 && b >= 0
    ensures Fits(channels + [Channel(i, [], [], false, false)], WithFirstPipe(slot, |channels|, a, b))
  {
  }

  lemma SecondPipeFits(channels: seq<Channel>, slot: Slot, a: int, b: int)
    requires Fits(channels, slot) && slot.phase.Starting? && slot.phase.stage == OnePipe && a >= 0 && b >= 0
    ensures Fits(channels, WithSecondPipe(slot, a, b))
  {
  }

  lemma FirstPipeLands(s: State, i: nat, a: int, b: int, t: State)
    requires SlotOk(s, i) && Tables(s) && Free(s, a) && Free(s, b) && a != b
    requires s.slots[i].phase.Starting? && s.slots[i].phase.stage == NoPipes
    requires t == s.(channels := s.channels + [Channel(i, [], [], false, false)],
                     open := s.open[a := PipeEnd(|s.channels|, ReqRead)][b := PipeEnd(|s.channels|, ReqWrite)])
    ensures Lands(s, t, i, Turn(WithFirstPipe(s.slots[i], |s.channels|, a, b), []))
  {
    var slot, c := s.slots[i], |s.channels|;
    var slot' := WithFirstPipe(slot, c, a, b);
    assert Holds(t.open, t.channels, i, slot') by {
      HoldsNewChannel(s.open, s.channels, i, slot);
      HoldsPipe(s.open, t.channels, i, slot.(channel := c), CHILD_IN, TO_CHILD, a, b);
      HoldsSame(t.open, t.channels, i, slot.(channel := c, fds := slot'.fds), slot');
    }
    assert Local(s, t, i) && Tables(t) by {
      var u := s.(channels := t.channels);
      ChannelTables(s, i);
      PipeTables(u, i, a, b, c, ReqRead, ReqWrite);
      LocalTrans(s, u, t, i);
    }
    FirstPipeFits(s.channels, slot, a, b, i);
  }

  lemma SecondPipeHolds(open: map<int, End>, channels: seq<Channel>, i: nat, slot: Slot, a: int, b: int,
                        open': map<int, End>)
    requires Holds(open, channels, i, slot) && slot.phase.Starting?
    requires slot.fds[FROM_CHILD] < 0 && slot.fds[CHILD_OUT] < 0
    requires MadeBy(channels, slot.channel, i) && a >= 0 && b >= 0 && a != b && a !in open && b !in open
    requires open' == open[a := PipeEnd(slot.channel, AnsRead)][b := PipeEnd(slot.channel, AnsWrite)]
    ensures Holds(open', channels, i, WithSecondPipe(slot, a, b))
  {
    HoldsPipe(open, channels, i, slot, FROM_CHILD, CHILD_OUT, a, b);
    HoldsSame(open', channels, i, slot.(fds := slot.fds[FROM_CHILD := a][CHILD_OUT := b]), WithSecondPipe(slot, a, b));
  }

  lemma SecondPipeLands(s: State, i: nat, a: int, b: int, t: State)
    requires SlotOk(s, i) && Tables(s) && Free(s, a) && Free(s, b) && a != b
    requires s.slots[i].phase.Starting? && s.slots[i].phase.stage == OnePipe
    requires t ==
             s.(open := s.open[a := PipeEnd(s.slots[i].channel, AnsRead)][b := PipeEnd(s.slots[i].channel, AnsWrite)])
    ensures Lands(s, t, i, Turn(WithSecondPipe(s.slots[i], a, b), []))
  {
    var slot := s.slots[i];
    var slot' := WithSecondPipe(slot, a, b);
    assert MadeBy(s.channels, slot.channel, i) by { assert slot.fds[CHILD_IN] >= 0; }
    assert Holds(t.open, t.channels, i, slot') by { SecondPipeHolds(s.open, s.channels, i, slot, a, b, t.open); }
    assert Local(s, t, i) && Tables(t) by { PipeTables(s, i, a, b, slot.channel, AnsRead, AnsWrite); }
    assert Fits(t.channels, slot') by { SecondPipeFits(s.channels, slot, a, b); }
  }

  lemma CloseReadLands(s: State, i: nat)
    requires SlotOk(s, i) && Tables(s) && s.slots[i].phase.ClosingRead?
    ensures var slot := s.slots[i];
            var turn := Closed(slot.(pid := false, fds := slot.fds[READ := -1]), slot.phase.goal);
            Lands(s, s.(open := s.open - {slot.fds[READ]}), i, turn) && Answered(turn.done)
  {
    var slot := s.slots[i];
    var shut := slot.(pid := false, fds := slot.fds[READ := -1]);
    ClosedFits(s.channels, shut, slot.phase.goal);
    if slot.fds[READ] >= 0 {
      CloseLands(s, i, READ, Closed(shut, slot.phase.goal));
    } else {
      assert s.open - {-1} == s.open && shut.fds == slot.fds;
      HoldsSame(s.open, s.channels, i, slot, Closed(shut, slot.phase.goal).slot);
    }
  }

  lemma CloseLocalLands(s: State, i: nat, j: nat)
    requires SlotOk(s, i) && Tables(s) && FdEnabled(s, s.slots[i], CloseLocal(j))
    ensures Lands(s, s.(open := s.open - {s.slots[i].fds[j]}), i, Turn(s.slots[i].(fds := s.slots[i].fds[j := -1]), []))
  {
    CloseLands(s, i, j, Turn(s.slots[i].(fds := s.slots[i].fds[j := -1]), []));
  }

  lemma FdLands(s: State, i: nat, act: FdAct)
    requires SlotOk(s, i) && Tables(s) && Answered(s.outcomes) && FdEnabled(s, s.slots[i], act)
    ensures var (t, turn) := FdEffect(s, i, s.slots[i], act); Lands(s, t, i, turn) && Answered(turn.done)
  {
    var slot := s.slots[i];
    match act
    case CloseWrite(quit) =>
      var slot' := slot.(fds := slot.fds[WRITE := -1], phase := ClosingRead(slot.phase.goal));
      if slot.fds[WRITE] >= 0 {
        CloseWriteLands(s, i, quit, slot');
      } else {
        assert slot'.fds == slot.fds;
        HoldsSame(s.open, s.channels, i, slot, slot');
      }
    case CloseRead => CloseReadLands(s, i);
    case Pipe(a, b) =>
      if slot.phase.stage == NoPipes {
        FirstPipeLands(s, i, a, b, FdEffect(s, i, slot, act).0);
      } else {
        SecondPipeLands(s, i, a, b, FdEffect(s, i, slot, act).0);
      }
    case Dup(j, fd) => DupLands(s, i, j, fd);
    case CloseLocal(j) => CloseLocalLands(s, i, j);
  }

  // ---- Every step keeps the invariant ----

  predicate Inv(s: State) {
    Tables(s) && Answered(s.outcomes) && forall k | 0 <= k < |s.slots| :: SlotOk(s, k)
  }

  lemma InvEight(s: State)
    requires Inv(s)
    ensures EightEach(s)
  {
    forall k | 0 <= k < |s.slots| ensures |s.slots[k].fds| == 8 {
      assert SlotOk(s, k);
    }
  }

  lemma GoodKeeps(s: State, t: State, i: nat)
    requires Inv(s) && i < |s.slots| && Good(s, t, i)
    ensures Inv(t)
  {
    forall k | 0 <= k < |t.slots| ensures SlotOk(t, k) {
      if k != i { Frame(s, t, i, k); }
    }
  }

  lemma FdStep(s: State, i: nat, act: FdAct)
    requires EightEach(s) && SlotOk(s, i) && Tables(s) && Answered(s.outcomes) && FdEnabled(s, s.slots[i], act)
    ensures Good(s, Apply(s, Opening(i, act)), i)
  {
    var (t, turn) := FdEffect(s, i, s.slots[i], act);
    FdLands(s, i, act);
    PutTables(s, t, i, turn);
  }

  lemma WireStep(s: State, i: nat, wire: Wire, t: State)
    requires EightEach(s) && SlotOk(s, i) && Tables(s) && Answered(s.outcomes) && WireEnabled(s, s.slots[i], wire)
    requires t == Apply(s, Wiring(i, wire))
    ensures Good(s, t, i)
  {
    match wire
    case WriteOk => WriteStep(s, i, t);
    case Receive(n) => ReceiveStep(s, i, n, t);
    case Greet(n) => GreetStep(s, i, n, t);
    case Spawn => SpawnStep(s, i, t);
  }

  /** A server changes only the content of its own channel, and only in the ways a slot allows. */
  lemma ServerTalk(channels: seq<Channel>, slot: Slot, c: nat, ch: Channel)
    requires |slot.fds| == 8 && Talk(channels, slot) && c < |channels|
    requires || (channels[c].spawned && !channels[c].booted
                 && ch == channels[c].(answers := channels[c].answers + [Hello], booted := true))
             || (channels[c].booted && channels[c].requests != [] && ch == ServeOne(channels[c]))
    ensures Talk(channels[c := ch], slot)
  {
  }

  lemma ServerKeeps(s: State, c: nat, ch: Channel)
    requires Inv(s) && c < |s.channels|
    requires || (s.channels[c].spawned && !s.channels[c].booted
                 && ch == s.channels[c].(answers := s.channels[c].answers + [Hello], booted := true))
             || (s.channels[c].booted && s.channels[c].requests != [] && ch == ServeOne(s.channels[c]))
    ensures Inv(s.(channels := s.channels[c := ch]))
  {
    var t := s.(channels := s.channels[c := ch]);
    forall k | 0 <= k < |t.slots| ensures SlotOk(t, k) {
      assert SlotOk(s, k);
      HoldsContent(s.open, s.channels, t.channels, k, s.slots[k]);
      ServerTalk(s.channels, s.slots[k], c, ch);
    }
  }

  lemma ForeignKeeps(s: State, step: Step)
    requires Inv(s) && EightEach(s) && (step.ForeignOpen? || step.ForeignClose?) && Enabled(s, step)
    ensures Inv(Apply(s, step))
  {
    var t := Apply(s, step);
    forall k | 0 <= k < |t.slots| ensures SlotOk(t, k) {
      assert SlotOk(s, k);
    }
  }

  lemma StepKeeps(s: State, step: Step)
    requires Inv(s) && EightEach(s) && Enabled(s, step)
    ensures Inv(Apply(s, step))
  {
    match step
    case Moving(i, move) => assert SlotOk(s, i); MoveStep(s, i, move); GoodKeeps(s, Apply(s, step), i);
    case Wiring(i, wire) => assert SlotOk(s, i); WireStep(s, i, wire, Apply(s, step)); GoodKeeps(s, Apply(s, step), i);
    case Opening(i, act) => assert SlotOk(s, i); FdStep(s, i, act); GoodKeeps(s, Apply(s, step), i);
    case Boot(c) => ServerKeeps(s, c, Apply(s, step).channels[c]);
    case Serve(c) => ServerKeeps(s, c, Apply(s, step).channels[c]);
    case ForeignOpen(_) => ForeignKeeps(s, step);
    case ForeignClose(_) => ForeignKeeps(s, step);
  }

  // ---- Runs ----

  predicate Possible(s: State, run: seq<Step>)
    decreases |run|
  {
    EightEach(s) && (run == [] || (Enabled(s, run[0]) && Possible(Apply(s, run[0]), run[1..])))
  }

  function After(s: State, run: seq<Step>): State
    requires Possible(s, run)
    decreases |run|
  {
    if run == [] then s else After(Apply(s, run[0]), run[1..])
  }

  lemma {:induction false} RunKeeps(s: State, run: seq<Step>)
    requires Inv(s) && Possible(s, run)
    ensures Inv(After(s, run))
    decreases |run|
  {
    if run != [] {
      StepKeeps(s, run[0]);
      RunKeeps(Apply(s, run[0]), run[1..]);
    }
  }

  lemma InitialInv(count: nat)
    ensures Inv(Initial(count))
  {
  }

  /** In every run a command returns U or the answer to that very command, never another one's. */
  lemma OwnAnswerOnly(count: nat, run: seq<Step>, k: nat)
    requires Possible(Initial(count), run) && k < |After(Initial(count), run).outcomes|
    ensures var o := After(Initial(count), run).outcomes[k];
            o.reply == Undefined || o.reply == Text([Answer(o.id)])
  {
    InitialInv(count);
    RunKeeps(Initial(count), run);
  }

  predicate HeldAt(s: State, fd: int, i: nat, j: nat) {
    i < |s.slots| && j < |s.slots[i].fds| && s.slots[i].fds[j] == fd
  }

  /** Every open pipe descriptor is held in exactly one place, and what is held is an open pipe descriptor. */
  ghost predicate OneOwner(s: State, fd: int) {
    && (fd in s.open && s.open[fd].PipeEnd? <==> fd >= 0 && exists i: nat, j: nat :: HeldAt(s, fd, i, j))
    && (fd >= 0 ==> forall i: nat, j: nat, i': nat, j': nat ::
          HeldAt(s, fd, i, j) && HeldAt(s, fd, i', j') ==> i == i' && j == j')
  }

  lemma HeldIsOwn(s: State, fd: int, i: nat, j: nat)
    requires Inv(s) && fd >= 0 && HeldAt(s, fd, i, j)
    ensures fd in s.open && s.open[fd].PipeEnd? && MadeBy(s.channels, s.open[fd].channel, i)
    ensures forall j': nat :: HeldAt(s, fd, i, j') ==> j' == j
  {
    assert SlotOk(s, i);
  }

  lemma InvOneOwner(s: State, fd: int)
    requires Inv(s)
    ensures OneOwner(s, fd)
  {
    if fd in s.open && s.open[fd].PipeEnd? {
      var m := s.channels[s.open[fd].channel].maker;
      assert SlotOk(s, m);
      var j :| 0 <= j < 8 && s.slots[m].fds[j] == fd;
      assert HeldAt(s, fd, m, j);
    }
    forall i: nat, j: nat | fd >= 0 && HeldAt(s, fd, i, j)
      ensures fd in s.open && s.open[fd].PipeEnd? && MadeBy(s.channels, s.open[fd].channel, i)
      ensures forall j': nat :: HeldAt(s, fd, i, j') ==> j' == j
    {
      HeldIsOwn(s, fd, i, j);
    }
  }

  /** Throughout every run no pipe descriptor leaks, is shared, or is used after it was closed. */
  lemma DescriptorsHaveOneOwner(count: nat, run: seq<Step>, fd: int)
    requires Possible(Initial(count), run)
    ensures OneOwner(After(Initial(count), run), fd)
  {
    InitialInv(count);
    RunKeeps(Initial(count), run);
    InvOneOwner(After(Initial(count), run), fd);
  }

  /** A slot that nobody works on holds at most its two descriptors; a command costs at most 3 writes and 3 restarts. */
  lemma SlotsAtRestAndEffort(count: nat, run: seq<Step>, i: nat)
    requires Possible(Initial(count), run) && i < count
    ensures var s := After(Initial(count), run);
            && |s.slots| == count && |s.slots[i].fds| == 8 && s.slots[i].writes <= 3 && s.slots[i].restarts <= 3
            && (s.slots[i].phase.Idle? ==> forall j | 2 <= j < 8 :: s.slots[i].fds[j] < 0)
  {
    InitialInv(count);
    RunKeeps(Initial(count), run);
    RunSlots(Initial(count), run);
    assert SlotOk(After(Initial(count), run), i);
  }

  lemma {:induction false} RunSlots(s: State, run: seq<Step>)
    requires Possible(s, run)
    ensures |After(s, run).slots| == |s.slots| && EightEach(After(s, run))
    decreases |run|
  {
    if run != [] { RunSlots(Apply(s, run[0]), run[1..]); }
  }

  // ---- The recursion ends ----

  /** Descriptors still to close. */
  function Held(fds: seq<int>): nat {
    if fds == [] then 0 else Held(fds[1..]) + if fds[0] >= 0 then 1 else 0
  }

  lemma {:induction false} HeldBound(fds: seq<int>)
    ensures Held(fds) <= |fds|
  {
    if fds != [] { HeldBound(fds[1..]); }
  }

  lemma {:induction false} HeldLess(fds: seq<int>, j: nat)
    requires j < |fds| && fds[j] >= 0
    ensures Held(fds[j := -1]) + 1 == Held(fds)
  {
    if j == 0 {
      assert fds[j := -1][1..] == fds[1..];
    } else {
      HeldLess(fds[1..], j - 1);
      assert fds[j := -1][1..] == fds[1..][j - 1 := -1];
    }
  }

  /** Steps left after a start has returned. */
  function GoalRank(goal: Goal): nat {
    if goal.AfterWrite? && goal.retries < 3 then 100 * (3 - goal.retries) else 0
  }

  /** Bounds the steps the thread on a slot can still take before it lets go of the lock. */
  function Rank(slot: Slot): nat
    requires |slot.fds| == 8
  {
    match slot.phase
    case Idle => 0
    case Command(_, retries) => if retries < 3 then 100 * (3 - retries) else 1
    case Reading(_) => 60
    case Closing(goal) => GoalRank(goal) + 52
    case ClosingRead(goal) => GoalRank(goal) + 51
    case Starting(stage, goal) =>
      GoalRank(goal) + (match stage
                        case NoPipes => 50
                        case OnePipe => 40
                        case TwoPipes =>
                          30 + (if slot.fds[DUP_IN] < 0 then 1 else 0) + (if slot.fds[DUP_OUT] < 0 then 1 else 0)
                        case Parent => 20 + Held(slot.fds)
                        case Failing => 10 + Held(slot.fds))
    case Handshake(goal) => GoalRank(goal) + 5
  }

  lemma MoveRank(slot: Slot, move: Move, next: nat)
    requires |slot.fds| == 8 && Shape(slot) && Effort(slot) && MoveEnabled(slot, move)
    requires !move.Begin? && !move.Recover? && !move.ShutDown?
    ensures var slot' := MoveTurn(slot, move, next).slot; |slot'.fds| == 8 && Rank(slot') < Rank(slot)
  {
    HeldBound(slot.fds);
  }

  lemma WireRank(s: State, slot: Slot, wire: Wire)
    requires |slot.fds| == 8 && Shape(slot) && Effort(slot) && WireEnabled(s, slot, wire)
    ensures var slot' := WireTurn(s, slot, wire).slot; |slot'.fds| == 8 && Rank(slot') < Rank(slot)
  {
    HeldBound(slot.fds);
  }

  lemma FdRank(s: State, i: nat, slot: Slot, act: FdAct)
    requires |slot.fds| == 8 && Shape(slot) && Effort(slot) && FdEnabled(s, slot, act)
    ensures var slot' := FdEffect(s, i, slot, act).1.slot; |slot'.fds| == 8 && Rank(slot') < Rank(slot)
  {
    if act.CloseLocal? { HeldLess(slot.fds, act.j); }
  }

  /** The slot whose thread takes a step, for steps inside a call. */
  predicate Inside(step: Step, i: nat) {
    || (step.Moving? && step.i == i && !step.move.Begin? && !step.move.Recover? && !step.move.ShutDown?)
    || (step.Wiring? && step.i == i)
    || (step.Opening? && step.i == i)
  }

  predicate Enters(step: Step, i: nat) {
    step.Moving? && step.i == i && (step.move.Begin? || step.move.Recover? || step.move.ShutDown?)
  }

  /** Every step inside a call brings its end nearer, and steps of others do not take it away. */
  lemma StepRank(s: State, step: Step, i: nat)
    requires Inv(s) && EightEach(s) && Enabled(s, step) && i < |s.slots| && !Enters(step, i)
    ensures EightEach(Apply(s, step)) && |Apply(s, step).slots| == |s.slots|
    ensures var before, after := Rank(s.slots[i]), Rank(Apply(s, step).slots[i]);
            if Inside(step, i) then after < before else after == before
  {
    StepKeeps(s, step);
    InvEight(Apply(s, step));
    if Inside(step, i) {
      assert SlotOk(s, i);
      match step
      case Moving(_, move) => MoveRank(s.slots[i], move, s.nextId);
      case Wiring(_, wire) => WireRank(s, s.slots[i], wire);
      case Opening(_, act) => FdRank(s, i, s.slots[i], act);
    }
  }

  function InsideCount(run: seq<Step>, i: nat): nat {
    if run == [] then 0 else InsideCount(run[1..], i) + if Inside(run[0], i) then 1 else 0
  }

  /**
   A call on a slot ends: between one entry and the next the slot's thread takes no more steps than
   the rank allows, at most 300, whatever everybody else does. In particular init and read do not
   call each other without end.
   */
  lemma {:induction false} CallsEnd(s: State, run: seq<Step>, i: nat)
    requires Inv(s) && Possible(s, run) && i < |s.slots| && forall k | 0 <= k < |run| :: !Enters(run[k], i)
    ensures InsideCount(run, i) <= Rank(s.slots[i]) <= 300
    decreases |run|
  {
    assert Rank(s.slots[i]) <= 300 by {
      assert SlotOk(s, i);
      HeldBound(s.slots[i].fds);
    }
    if run != [] {
      StepRank(s, run[0], i);
      StepKeeps(s, run[0]);
      assert forall k | 0 <= k < |run[1..]| :: run[1..][k] == run[k + 1];
      CallsEnd(Apply(s, run[0]), run[1..], i);
    }
  }

  /** Some descriptor of a start in progress is still to be closed, or none is. */
  lemma {:induction false} FindHeld(fds: seq<int>, from: nat) returns (j: nat)
    requires from <= |fds|
    ensures from <= j <= |fds| && (j < |fds| ==> fds[j] >= 0) && forall k | from <= k < j :: fds[k] < 0
    decreases |fds| - from
  {
    j := from;
    if from < |fds| && fds[from] < 0 { j := FindHeld(fds, from + 1); }
  }

  /**
   A call that has not ended can take a step, whatever the others do; with the bound on its steps, it can
   always end.
   */
  lemma UnfinishedCallCanStep(s: State, i: nat) returns (step: Step)
    requires EightEach(s) && SlotOk(s, i) && !s.slots[i].phase.Idle?
    ensures Inside(step, i) && Enabled(s, step)
  {
    var slot := s.slots[i];
    match slot.phase
    case Command(_, _) => step := Moving(i, if Usable(slot) then WriteFail else Refuse);
    case Reading(_) => step := Moving(i, ReadFail);
    case Closing(_) => step := Opening(i, CloseWrite(false));
    case ClosingRead(_) => step := Opening(i, CloseRead);
    case Handshake(_) => step := Moving(i, GreetFail);
    case Starting(stage, _) =>
      if stage == Parent {
        step := if slot.fds[CHILD_IN] >= 0 then Opening(i, CloseLocal(CHILD_IN))
                else if slot.fds[CHILD_OUT] >= 0 then Opening(i, CloseLocal(CHILD_OUT))
                else if slot.fds[DUP_IN] >= 0 then Opening(i, CloseLocal(DUP_IN))
                else if slot.fds[DUP_OUT] >= 0 then Opening(i, CloseLocal(DUP_OUT))
                else Moving(i, HandOver);
      } else if stage == Failing {
        var j := FindHeld(slot.fds, 2);
        step := if j < 8 then Opening(i, CloseLocal(j)) else Moving(i, FailDone);
      } else {
        step := Moving(i, InitFail);
      }
  }

  // ---- A run that reaches an answer ----

  /** A pool of one slot, before any command has returned. */
  function Single(slot: Slot, open: map<int, End>, channels: seq<Channel>): State {
    State([slot], open, channels, 0, [])
  }

  function Early(fds: seq<int>, phase: Phase): Slot {
    Slot(false, false, fds, 0, phase, 0, 0)
  }

  const PIPE_ONE: map<int, End> := map[3 := PipeEnd(0, ReqRead), 4 := PipeEnd(0, ReqWrite)]
  const PIPE_TWO: map<int, End> :=
    map[3 := PipeEnd(0, ReqRead), 4 := PipeEnd(0, ReqWrite), 5 := PipeEnd(0, AnsRead), 6 := PipeEnd(0, AnsWrite)]
  const KEPT_TWO: map<int, End> := map[4 := PipeEnd(0, ReqWrite), 5 := PipeEnd(0, AnsRead)]

  /** The states of a first start, one step after the other. */
  function StartState(k: nat): State {
    if k == 0 then Single(Early(NO_FDS, Idle), map[], [])
    else if k == 1 then Single(Early(NO_FDS, Starting(NoPipes, Recovery)), map[], [])
    else if k == 2 then
      Single(Early([-1, -1, 3, 4, -1, -1, -1, -1], Starting(OnePipe, Recovery)), PIPE_ONE,
             [Channel(0, [], [], false, false)])
    else if k == 3 then
      Single(Early([-1, -1, 3, 4, 5, 6, -1, -1], Starting(TwoPipes, Recovery)), PIPE_TWO,
             [Channel(0, [], [], false, false)])
    else if k == 4 then
      Single(Early([-1, -1, 3, 4, 5, 6, -1, -1], Starting(Parent, Recovery)), PIPE_TWO,
             [Channel(0, [], [], true, false)])
    else if k == 5 then
      Single(Early([-1, -1, -1, 4, 5, 6, -1, -1], Starting(Parent, Recovery)), PIPE_TWO - {3},
             [Channel(0, [], [], true, false)])
    else if k == 6 then
      Single(Early([-1, -1, -1, 4, 5, -1, -1, -1], Starting(Parent, Recovery)), KEPT_TWO,
             [Channel(0, [], [], true, false)])
    else if k == 7 then
      Single(Early([4, 5, -1, -1, -1, -1, -1, -1], Handshake(Recovery)).(pid := true), KEPT_TWO,
             [Channel(0, [], [], true, false)])
    else if k == 8 then
      Single(Early([4, 5, -1, -1, -1, -1, -1, -1], Handshake(Recovery)).(pid := true), KEPT_TWO,
             [Channel(0, [], [Hello], true, true)])
    else
      Single(Early([4, 5, -1, -1, -1, -1, -1, -1], Idle).(pid := true, ready := true), KEPT_TWO,
             [Channel(0, [], [], true, true)])
  }

  function StartStep(k: nat): Step {
    if k == 0 then Moving(0, Recover)
    else if k == 1 then Opening(0, Pipe(3, 4))
    else if k == 2 then Opening(0, Pipe(5, 6))
    else if k == 3 then Wiring(0, Spawn)
    else if k == 4 then Opening(0, CloseLocal(CHILD_IN))
    else if k == 5 then Opening(0, CloseLocal(CHILD_OUT))
    else if k == 6 then Moving(0, HandOver)
    else if k == 7 then Boot(0)
    else Wiring(0, Greet(1))
  }

  predicate Leads(s: State, step: Step, t: State) {
    EightEach(s) && Enabled(s, step) && Apply(s, step) == t
  }

  lemma StartsAt0() ensures Leads(StartState(0), StartStep(0), StartState(1)) {
  }

  lemma StartsAt1() ensures Leads(StartState(1), StartStep(1), StartState(2)) {
    var t := Apply(StartState(1), StartStep(1));
    assert t.open == PIPE_ONE && t.slots[0].fds == [-1, -1, 3, 4, -1, -1, -1, -1];
  }

  lemma StartsAt2() ensures Leads(StartState(2), StartStep(2), StartState(3)) {
    var t := Apply(StartState(2), StartStep(2));
    assert t.open == PIPE_TWO && t.slots[0].fds == [-1, -1, 3, 4, 5, 6, -1, -1];
  }

  lemma StartsAt3() ensures Leads(StartState(3), StartStep(3), StartState(4)) {
  }

  lemma StartsAt4() ensures Leads(StartState(4), StartStep(4), StartState(5)) {
    assert Apply(StartState(4), StartStep(4)).slots[0].fds == [-1, -1, -1, 4, 5, 6, -1, -1];
  }

  lemma StartsAt5() ensures Leads(StartState(5), StartStep(5), StartState(6)) {
    var t := Apply(StartState(5), StartStep(5));
    assert t.open == KEPT_TWO && t.slots[0].fds == [-1, -1, -1, 4, 5, -1, -1, -1];
  }

  lemma StartsAt6() ensures Leads(StartState(6), StartStep(6), StartState(7)) {
  }

  lemma StartsAt7() ensures Leads(StartState(7), StartStep(7), StartState(8)) {
    var answers: seq<Line> := [];
    assert answers + [Hello] == [Hello];
    assert Apply(StartState(7), StartStep(7)).channels == [Channel(0, [], [Hello], true, true)];
  }

  lemma StartsAt8() ensures Leads(StartState(8), StartStep(8), StartState(9)) {
    assert [Hello][..1] == [Hello] && [Hello][1..] == [];
    assert Readable(StartState(8), 5) == [Hello];
  }

  lemma StartLeads(k: nat)
    requires k < 9
    ensures Leads(StartState(k), StartStep(k), StartState(k + 1))
  {
    if k == 0 { StartsAt0(); }
    else if k == 1 { StartsAt1(); }
    else if k == 2 { StartsAt2(); }
    else if k == 3 { StartsAt3(); }
    else if k == 4 { StartsAt4(); }
    else if k == 5 { StartsAt5(); }
    else if k == 6 { StartsAt6(); }
    else if k == 7 { StartsAt7(); }
    else { StartsAt8(); }
  }

  /** A command from its entry to its answer, on the started slot. */
  function CommandState(k: nat): State {
    var slot := StartState(9).slots[0];
    if k == 0 then StartState(9)
    else if k == 1 then StartState(9).(slots := [slot.(phase := Command(0, 0))], nextId := 1)
    else if k == 2 then
      State([slot.(phase := Reading(0), writes := 1)], KEPT_TWO, [Channel(0, [Request(0)], [], true, true)], 1, [])
    else if k == 3 then
      State([slot.(phase := Reading(0), writes := 1)], KEPT_TWO, [Channel(0, [], [Answer(0)], true, true)], 1, [])
    else
      State([slot.(writes := 1)], KEPT_TWO, [Channel(0, [], [], true, true)], 1, [Outcome(0, Text([Answer(0)]))])
  }

  function CommandStep(k: nat): Step {
    if k == 0 then Moving(0, Begin)
    else if k == 1 then Wiring(0, WriteOk)
    else if k == 2 then Serve(0)
    else Wiring(0, Receive(1))
  }

  lemma CommandAt0() ensures Leads(CommandState(0), CommandStep(0), CommandState(1)) {
  }

  lemma CommandAt1() ensures Leads(CommandState(1), CommandStep(1), CommandState(2)) {
    var requests: seq<Line> := [];
    assert requests + [Request(0)] == [Request(0)];
  }

  lemma CommandAt2() ensures Leads(CommandState(2), CommandStep(2), CommandState(3)) {
    var answers: seq<Line> := [];
    assert [Request(0)][1..] == [] && answers + [Answer(0)] == [Answer(0)];
    assert ServeOne(Channel(0, [Request(0)], [], true, true)) == Channel(0, [], [Answer(0)], true, true);
  }

  lemma CommandAt3() ensures Leads(CommandState(3), CommandStep(3), CommandState(4)) {
    assert [Answer(0)][..1] == [Answer(0)] && [Answer(0)][1..] == [];
    assert Readable(CommandState(3), 5) == [Answer(0)];
  }

  lemma CommandLeads(k: nat)
    requires k < 4
    ensures Leads(CommandState(k), CommandStep(k), CommandState(k + 1))
  {
    if k == 0 { CommandAt0(); } else if k == 1 { CommandAt1(); } else if k == 2 { CommandAt2(); } else { CommandAt3(); }
  }

  lemma FirstStep(s: State, step: Step, t: State, rest: seq<Step>)
    requires Leads(s, step, t) && Possible(t, rest)
    ensures Possible(s, [step] + rest) && After(s, [step] + rest) == After(t, rest)
  {
    assert ([step] + rest)[1..] == rest;
  }

  lemma {:induction false} CommandRuns(k: nat) returns (run: seq<Step>)
    requires k <= 4
    ensures Possible(CommandState(k), run) && After(CommandState(k), run) == CommandState(4)
    decreases 4 - k
  {
    run := [];
    if k < 4 {
      var rest := CommandRuns(k + 1);
      CommandLeads(k);
      FirstStep(CommandState(k), CommandStep(k), CommandState(k + 1), rest);
      run := [CommandStep(k)] + rest;
    }
  }

  lemma {:induction false} StartRuns(k: nat) returns (run: seq<Step>)
    requires k <= 9
    ensures Possible(StartState(k), run) && After(StartState(k), run) == CommandState(4)
    decreases 9 - k
  {
    if k == 9 {
      run := CommandRuns(0);
    } else {
      var rest := StartRuns(k + 1);
      StartLeads(k);
      FirstStep(StartState(k), StartStep(k), StartState(k + 1), rest);
      run := [StartStep(k)] + rest;
    }
  }

  /** From an empty pool there is a run in which a server is started and a command returns its answer. */
  lemma CommandIsAnswered() returns (run: seq<Step>)
    ensures Possible(Initial(1), run) && After(Initial(1), run).outcomes == [Outcome(0, Text([Answer(0)]))]
  {
    run := StartRuns(0);
    assert Initial(1) == StartState(0) by { assert Initial(1).slots == StartState(0).slots; }
  }
}
