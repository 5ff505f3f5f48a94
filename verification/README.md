# Verification model of the libradio control plane

This project models the control plane of libradio, a master/slave radio network for
Si4463 chips, and proves properties of it. Three programs are modelled, and then put
together:

* **the radio library** (`lib/`): the 16-byte packet with its XOR checksum, the
  ten-minute clock, the state machine of a client, and the routines that receive and
  execute commands;
* **the controller firmware** (`control/`): a parser that is fed one serial byte at a
  time, six channel slots, an ageing scheduler with a periodic time broadcast, and a
  single outstanding response that blocks all sending;
* **the host daemon** (`lrmon/`): the printer side of the serial protocol, the line
  re-framer, the decoder of controller lines, a linked-list timer queue and the
  supervisor that brings the controller up.

Each program appears twice. The firmware and daemon code updates globals, arrays and
linked nodes in place, and so do the classes `Devices.Device`, `Board.Controller`,
`Reframer.SerialInput`, `Status.Host`, `TimerQueue.TimerList` and `Daemons.Daemon`. Each of
their methods is proved to take exactly one step of a specification over values
(`Radios`, `Controllers`, `TimerQueue`, `Supervisor` and the functions of `Reframer` and
`Status`). The main results are then proved about every run of that specification:
any sequence of clock interrupts, passes, serial bytes, received frames, timeouts and
lines, in any order.

| file | contents |
|---|---|
| `Bytes.dfy`, `Text.dfy` | C integer widths, exclusive-or, decimal text as `printf` and `atoi` have it, splitting at a delimiter |
| `Packets.dfy` | packet layout, checksum, frames |
| `Radio.dfy`, `Device.dfy` | the library's global record: steps, and the code refining them |
| `Clock.dfy`, `Seconds.dfy`, `Client.dfy`, `Lifecycle.dfy`, `Network.dfy` | runs of the clock and of its seconds counter, of one client, of any number of clients |
| `Controller.dfy`, `Board.dfy` | the controller: steps, and the code refining them |
| `Scheduling.dfy`, `Answers.dfy` | one scheduler pass; replies, responses and the controller's own commands |
| `Exclusivity.dfy`, `BrokenWait.dfy` | response exclusivity, and how a SET_CHANNEL breaks it |
| `Starvation.dfy`, `Rivalry.dfy`, `MainLoop.dfy`, `Outwaited.dfy` | freedom from starvation in scheduler passes and in passes of the main loop, and its limits |
| `TimeSync.dfy` | time broadcasts |
| `Printer.dfy`, `Lines.dfy`, `RoundTrip.dfy`, `Script.dfy`, `EndToEnd.dfy` | the serial protocol and the way of the wall clock |
| `FailingRuns.dfy` | runs from power-on to the states in which a natural statement fails |
| `Reframer.dfy`, `Status.dfy` | from serial bytes to lines, and what the lines mean |
| `TimerQueue.dfy`, `TimerOrder.dfy`, `Supervisor.dfy`, `Daemon.dfy` | timers, supervisor, and the daemon class over both |
| `Station.dfy`, `Link.dfy` | daemon and controller together: what READY means for the board |

The chip and the outside world answer through parameters: whether the chip powers up, is
ready, has room and starts (`Devices.Chip`), the bytes in its receive queue, the battery
voltage, each serial byte, what a read returned, the wall clock. All results hold for
every value of them unless a precondition says otherwise.

Where a natural statement is false of the code, the model follows the code and the exact
condition is proved instead:

* a client obeys on the channel its chip is tuned to, which an ACTIVATE does not change
  until the next reception: two clients can obey one unicast (`TwoObey`). Only the planned
  client obeys if and only if no such straggler shares the node, and at most one obeys if
  and only if no straggler shares it with another active client (`UnicastIsExclusive`).
  A client becomes a straggler by obeying an ACTIVATE to another channel and by nothing
  else, and stays one until it receives or retunes (`StragglesExactly`);
* a wrong length byte is accepted exactly when it is smaller and the payload bytes cut off
  cancel against the difference, or when a full payload is clamped back
  (`WrongLengthByte`); one flipped bit can cut the index off a time packet
  (`TimeLosesItsIndex`);
* with a NUL in the stream the lines can depend on how it was read: they do not exactly when
  nothing but NULs and line breaks follows the first NUL, and no break if a line is open
  there (`SplitsAgreeExactly`; `NulBreaksIndependence` is the smallest failing stream);
* a SET_CHANNEL to 0, 1 or 2 aimed at the channel that awaits its response breaks
  exclusivity, and is the only thing that does (`StepKeepsSound`); a run from power-on gets
  there and makes up a packet (`BreakingRun`);
* a time broadcast refused on the very channel whose line is being read queues the
  half-read slot, and together with a broken wait is the only thing that spoils the order
  of priorities (`StepKeepsCalm`); a run from power-on gets there (`ClobberingIsReached`);
* a time broadcast that finds the slot of a line EMPTY while the line is being read, the
  half of it having been sent by an earlier one, overwrites what has been read
  (`LineIsSpoilt`). The round trip holds without broadcasts of that kind
  (`PrinterParserRoundTrip`);
* a priority zeroed by SET_CHANNEL keeps a packet waiting exactly as long as no check tries
  to send on any channel (`ZeroPriorityWaits`, reached in `ZeroPriorityIsReached`), after
  which it is served like any other;
* ageing stops at 252, so that failed sends let rivals catch up. A packet is sent once the
  successful passes outnumber the turns that five rivals can take, each once and again
  after every 103, 107, 111, 115 and 119 checks (`NoStarvationEver`): over a long run that
  is up to 21 failed sends and time broadcasts for each successful pass. With 114 failed
  sends for every five successful ones, 22.8 for each, the host can keep a packet waiting
  for ever (`StarvesForEver`). Between the two the bound counts each rival as if it were
  alone, while two that reach 252 together cannot both be sent in one pass; what the host
  can achieve there is not settled. `FailuresDefeatAgeing` says exactly when a newcomer
  overtakes;
* a time packet that the chip refused and sends later is right exactly when the ten-minute
  index is still the one it was filled in with (`StaleTimePacket`); a run from power-on
  sets every client back by ten minutes (`StaleTimeIsSent`);
* READY is the daemon's view. If no answer comes late and channel 0 is free it is true exactly when
  that board did not, at the start, have node 1 without being active, as a failed activation
  leaves it (`ReadyIsTrueExactly`). One status request repeated before its answer has been
  read is enough for a daemon to become READY on a controller that never powered up
  (`LateAnswersMislead`);
* the timer queue is not sorted by time left, as its comments have it: a timer is due in
  time if and only if it goes to the head or the seconds around it cancel
  (`OnTimeExactly`); the last call of the supervisor comes after 305 seconds instead of 5
  (`LastCallIsLate`). Of several timers that expire together only the last is run
  (`ExpireExactly`);
* the supervisor first configures channel 3 as EMPTY, and READ only on a retry
  (`ChannelThreeStartsEmpty`, `EightAreEnough`).

Where the code and its documentation differ, the code is modelled: the payload limit is
10 bytes, so frames have 16 (`README.md:20` says up to 22); the checksum is used
(`README.md:24` says it is not); LISTEN has no timeout, as `lib/loop.c:87-95` is compiled
out (`README.md:58-76`); `tx_init` never advances `chp` and clears channel 0 six
times, the others being DISABLED because the array starts zeroed
(`control/transmit.c:62-65`); the comment at `lib/state.c:129-133` speaks of 60,000
passes where the value is 6000; SET_CHANNEL accepts channel number 6 as an argument and
then ignores it (`control/command.c:152-154`).

## Model

| member | source | states |
|---|---|---|
| Packets.FromImageOfImage | libradio.h:117-124 | the memory image of a packet, ticks little-endian, determines the packet |
| Packets.StampedSumIsZero | lib/packet.c:183-192 | stamping any packet leaves a header and payload whose XOR is zero |
| Packets.FrameRoundTrip | lib/packet.c:123-206 | a sent frame is accepted whatever the slot held and whatever follows it in the queue, with the sender's ticks and the same node, command and payload |
| Packets.FramingRoundTrip | lib/packet.c:123-206 | a stream of any sent packets is received whole and in order; the receiver's clock ends at the last stamp of a command below 9 |
| Packets.ChecksumDetects | lib/packet.c:142-153 | a sent packet altered without touching its length byte is accepted if and only if the error bytes over header and payload cancel |
| Packets.SingleByteErrorRejected | lib/packet.c:144-153 | any one wrong byte of header or payload, the length byte aside, is rejected |
| Packets.PaddingErrorsHarmless | lib/packet.c:144-153 | errors in the padding neither reject nor change the message |
| Packets.WrongLengthByte | lib/packet.c:142-153 | a frame whose length byte is wrong is accepted if and only if it is too small and the payload bytes cut off cancel against the difference of the lengths, or the payload is full and the clamp restores it |
| Packets.WrongLengthDelivers | lib/packet.c:142-153 | what such a packet delivers: stamp, node and command, and the payload cut short, or whole if it was full |
| Packets.TimeLosesItsIndex | lib/packet.c:142-153 | a SET_TIME for index 1 with one bit of its length byte flipped is accepted with no payload |
| Packets.LongLengthByteEscapes | lib/packet.c:142-146 | with a full payload any over-long length byte is clamped back and the very packet sent arrives |
| Packets.SingleByteErrorAccepted | lib/packet.c:142-153 | for every position and value of one wrong byte, the frame is accepted if and only if the byte is padding or is a length byte as above |
| Bytes.XorLaws | lib/packet.c:190-192 | the checksum's exclusive-or, built bit by bit, is associative and commutative |
| Bytes.ShiftOrJoins | lrmon/response.c:107-109 | on 32-bit integers `hi << 8 \| lo` of two bytes is their 16-bit word |
| Devices.Device.PowerOn | lib/init.c:65-96 | power-on leaves the initial record: STARTUP, unknown time, periods 1 and 16 |
| Devices.Device.ClockTick | lib/clock.c:66-108 | one interrupt advances time of day and wake-up countdown as Tick does |
| Devices.Device.Delay | lib/clock.c:124-132 | a new delay takes effect now only if no countdown is running |
| Devices.Device.TickWait | lib/clock.c:148-155 | the wake-up flag is read and cleared |
| Devices.Device.ChangeState | lib/state.c:70-139 | each transition sets period, clock, timeout, channel and delay as SetState does; the same state again changes nothing |
| Devices.Device.EnterSleep | lib/state.c:79-94 | COLD and WARM slow down, park the clock and wait 60 or 5 minutes, saturating at 65535 |
| Devices.Device.EnterListen | lib/state.c:96-121 | LISTEN speeds up only out of sleep and sets channel, flag, timeout and delay |
| Devices.Device.Execute | lib/command.c:57-181 | a received command acts as Command does: gate on ACTIVE, identity match, length checks |
| Devices.Device.TxPacket | lib/packet.c:171-206 | the slot is stamped and sealed, the queue gets the 16-byte padded frame, an over-long packet is refused untouched |
| Devices.Device.ReadFifo | lib/packet.c:132-138 | at most 16 queue bytes replace the head of the packet's memory image |
| Devices.Device.RxPacket | lib/packet.c:123-163 | length clamped, checksum over header and payload, clock taken only from good commands below 9 |
| Devices.Device.Checksum | lib/packet.c:144-147 | the byte loop computes the XOR of header and payload |
| Devices.Device.Recv | lib/rxtx.c:70-112 | a packet is taken only from a full frame; counters and flags change only for a good one |
| Devices.Device.Send | lib/rxtx.c:141-188 | sending succeeds exactly when power, readiness, space, length and start allow; what each failure leaves behind |
| Devices.Device.StartReceiving | lib/rxtx.c:53-61 | restarting the receiver tunes it to the channel assigned, or leaves ERROR if the chip stays down |
| Devices.Device.HandleReception | lib/handle.c:49-61 | a good packet is executed exactly when broadcast or addressed to this node |
| Devices.Device.RxLoop | lib/loop.c:50-114 | one pass of the client loop is LoopPass |
| Devices.Device.StateStep | lib/loop.c:69-113 | the state switch of the pass, with the silence timeout of the active states |
| Clock.TickStaysInRange | lib/clock.c:84-89 | from below 60000 the tick count stays there and the 16-bit sum never wraps |
| Clock.TimeAdvancesExactly | lib/clock.c:84-89 | at period 1 any n ticks advance the time of day by exactly n until it parks at 255 and stays |
| Clock.DriftBound | lib/clock.c:84-89 | at period p every rollover loses at most p - 1 units and nothing else is lost or gained, over any n ticks |
| Clock.ParkedStays | lib/clock.c:84-89 | a parked clock never moves |
| Clock.WakesOnTime | lib/clock.c:95-98 | the main loop wakes at exactly the pending tick, and the countdown restarts from the configured delay |
| Seconds.SecondsAreExact | lib/clock.c:103-106 | at up to 100 units per interrupt the once-a-second flag is raised exactly once per 100 units counted, over any n interrupts |
| Seconds.LongPeriodsFallBehind | lib/clock.c:103-106 | above 100 units every interrupt raises it once and the surplus piles up in the counter |
| Seconds.SecondCounter.CountTick | lib/clock.c:103-106 | the counter and flag after one interrupt |
| Seconds.SecondCounter.ElapsedSecond | lib/clock.c:161-168 | the flag is read and taken down |
| Clients.InitialIsSteady | lib/init.c:65-81 | the client invariant holds at power-on |
| Clients.RunKeepsSteady | lib/state.c:70-139 | over every run COLD and WARM are slow with the clock parked, all other states fast, the clock runs only once active, the active timeout is in 1..60000 |
| Clients.SilenceTimeout | lib/loop.c:97-112 | an active client goes to WARM on exactly the 60000th pass after it heard a packet, that pass counted, and not before |
| Clients.HearingRewinds | lib/loop.c:101-104 | a pass that hears a packet and stays active leaves the timeout at 59999 |
| Lifecycle.StateAfterPass | lib/loop.c:69-113 | the state after any pass, exactly: STARTUP, COLD and WARM end in LISTEN with the next pass, and so does the pass that obeys a DEACTIVATE; ERROR ends in WARM; LISTEN is left only by an ACTIVATE for this client; an active client goes to WARM only when nothing has been heard and the timeout is up |
| Lifecycle.PlaceAfterPass | lib/command.c:92-121 | channel and node after a pass: those of the ACTIVATE obeyed, 0 and 0 after a DEACTIVATE, channel 0 when it starts to listen, else as before; a reception tunes the radio to the channel it had |
| Lifecycle.SlotAfterPass | lib/packet.c:132-138 | the slot keeps what was last read from a full frame |
| Lifecycle.TakenFromPacket | lib/command.c:57-181 | what a pass takes from a packet: ticks from commands below 9, index and date from the commands that set them, and for the application exactly status requests of length 3, EEPROM reads of length 4 and commands above 10; receptions are counted; the index is lost in sleep |
| Lifecycle.DelayAfterPass | lib/state.c:79-121 | how long it then waits: 5 ticks after a reception, 500 when it starts to listen, five minutes when it falls asleep, and never less than a wait already running |
| Lifecycle.PaceAfterPass | lib/state.c:79-139 | the clock runs slow from the pass that falls asleep and fast from the next, and from an activation |
| Lifecycle.DeactivationIsObeyed | lib/command.c:112-121 | a DEACTIVATE sent to an active client leaves it listening at channel and node 0 with its clock parked |
| Lifecycle.ListensUntilActivated | lib/command.c:59-64 | over any run a listening client obeys nothing until an ACTIVATE for it: same state and place, no date taken, nothing handed on |
| Lifecycle.DeactivatedObeysNothing | lib/command.c:112-121 | so over any run after a DEACTIVATE no command is obeyed, whatever its node, until the next activation |
| Lifecycle.DateIsTaken | lib/command.c:133-142 | a date sent to an active client arrives high byte first |
| Lifecycle.HandedOnExactly | lib/command.c:77-181 | a packet sent is handed on, as the very message, if and only if the client is active and addressed and it is a status request, an EEPROM read or an application command |
| Lifecycle.ApplicationState | lib/state.c:126-138 | a change of state by the application keeps the client fast and where it is, and sets the timeout to 6000 |
| Lifecycle.RunsOn | lib/clock.c:66-108 | over any number of interrupts a client's time of day grows by their number, its main loop is woken by exactly the one that ends the wait, and nothing else changes |
| Lifecycle.SleepLasts | lib/state.c:79-94 | the wake-up from COLD comes after an hour and from WARM after five minutes of slow ticks, or 65535 of them if that is fewer |
| Lifecycle.PowerOn | lib/init.c:65-96 | after power-on the fifth interrupt wakes the main loop, whose pass leaves the client listening on channel 0, fast, with time and date unknown |
| Lifecycle.ReceiverRestarts | lib/rxtx.c:53-61 | the receiver restarts on the channel assigned, or leaves ERROR for a minute if the chip stays down |
| Network.OthersOnlyHear | lib/handle.c:56-60 | a client that does not obey a packet is changed by its reception and nothing else |
| Network.RunStaysOrderly | lib/command.c:92-114 | over every run that follows an injective plan each active client sits at its planned channel and node |
| Network.AtMostOneActivates | lib/command.c:92-114 | over any run at most one of any number of clients obeys an ACTIVATE, on whatever channel it is heard |
| Network.UnicastIsExclusive | lib/rxtx.c:108-110 | at any point of any run that follows the plan, only the planned client obeys a unicast if and only if no active client still tuned to that channel, but assigned another, has the node; and at most one obeys if and only if no such client shares the node with another active one there |
| Network.TwoObey | lib/command.c:106-109 | the failing run: after two activations on channel 0, for (0, 5) and (3, 5), both clients obey a unicast for node 5 on channel 0 |
| Network.StragglerLeaves | lib/rxtx.c:108-110 | the next reception, good or bad, retunes such a client to its own channel |
| Network.StragglesExactly | lib/command.c:92-114 | a client is a straggler after a step if and only if the step is an ACTIVATE that it obeys and that assigns another channel, or it was one before, is still active, and has neither received nor retuned |
| Network.NetStepDisplaces | lib/command.c:106-109 | on the air: a client that is none becomes one exactly by an ACTIVATE heard on its channel and moving it to another |
| Network.StragglersWereDisplaced | lib/command.c:106-109 | over any run, every straggler has obeyed such an ACTIVATE |
| Network.DistinctNodesSuffice | lib/handle.c:56-60 | a plan that uses no node twice has at most one client obey in any case |
| Controllers.Run | control/input.c:166-186 | in every reachable state packet lengths are at most 10 and the parser has a channel whenever it is past the letter, so no data write is out of range |
| Controllers.PickIsBest | control/transmit.c:119-128 | the scan finds a channel whenever one is eligible, and none beats it in priority or, on a tie, in index |
| Board.Controller.Start | control/main.c:80-90 | power-on and reset reach the boot state: all channels DISABLED, radio in WARM |
| Board.Controller.TxInit | control/transmit.c:56-67 | the initialisation marks channel 0 only and leaves a zeroed array as it is |
| Board.Controller.Respond | control/input.c:204-212 | one reply line is printed and the parser waits for the newline |
| Board.Controller.ConfigureChannel | control/enqueue.c:110-121 | valid states are installed, others only zero the priority |
| Board.Controller.LocalStatus | control/command.c:172-207 | the status line printed is the report of the station's own fields |
| Board.Controller.PrintList | control/response.c:71-75 | the print loop writes the numbers separated by commas |
| Board.Controller.ActivateSelf | control/command.c:82-100 | node and channel are taken before the power-up, whose failure leaves ERROR and code 7 |
| Board.Controller.ExecuteOwn | control/command.c:65-167 | the controller's own commands act as MyCommand does and return its code |
| Board.Controller.EnqueueChannel | control/enqueue.c:51-104 | local execution, refusal or queueing with the priority given, one reply each |
| Board.Controller.ReadLetter | control/input.c:83-110 | unknown and busy channels are refused, a free one starts ADDING |
| Board.Controller.EndCommand | control/input.c:164-174 | the end of the command number stores it, empties the payload and goes on to data or enqueues |
| Board.Controller.EndData | control/input.c:176-191 | the end of a data number appends it or refuses the eleventh, and a full stop enqueues |
| Board.Controller.ProcessInput | control/input.c:61-199 | one byte moves the parser, the slot and the queues exactly as ParseByte does |
| Board.Controller.Choose | control/transmit.c:119-128 | the loop returns the scan's pick |
| Board.Controller.AgeChannels | control/transmit.c:156-159 | every channel from TRANSMIT up and below 252 gains 2, all others are unchanged |
| Board.Controller.SendChannel | control/transmit.c:132-159 | a sent channel is emptied or starts to wait, then ageing hits all, itself included |
| Board.Controller.TxCheckQueues | control/transmit.c:73-160 | one check is CheckQueues: broadcast on a wrap, else the pick, DISABLED and READ slots returning early |
| Board.Controller.TakeResponse | control/response.c:57-77 | a received response replaces the slot and is printed with the node asked and the channel the chip reported before the request was sent |
| Board.Controller.AwaitResponse | control/main.c:94-112 | one pass of a wait ends it with the packet, ends it on the fourth try or counts on |
| Board.Controller.MainPass | control/main.c:91-123 | one turn of the main loop, once its wait returns, is the steps Wake, Wait, Serial and Scheduler in that order |
| Answers.ResponseIsForwarded | control/response.c:57-77 | a response that arrives during a wait adds one printed line and ends the wait; the daemon reads it as a report if and only if it is a status response and the chip's channel is at most 15, and then with that channel, the node asked, the client's ticks and its payload |
| Answers.NothingForwarded | control/response.c:57-66 | a reception that is no good frame, or none at all, prints nothing; the first ends the wait |
| Answers.ReplyTellsOutcome | control/enqueue.c:51-104 | the reply to every completed packet: 0 if and only if it now waits on its channel, or was the board's own, known and with power; 6 exactly if it was for the radio and the board is not active; 7 exactly for want of power; 8 exactly for an unknown command |
| Answers.RefusalsExactly | control/input.c:61-199 | a byte that completes no packet is answered exactly if it is refused: 1 for an unknown channel, 2 for a busy one, 4 for an eleventh number, 5 for what has no place in a line |
| Answers.BoardObeys | control/command.c:65-145 | what the board's own commands do to its radio: channel and node in that order, ACTIVE with power and ERROR without, time high byte first, date and deactivation only when active, and nothing else |
| Answers.BoardReports | control/command.c:116-123 | a status command prints one line, read by the daemon as the report of the kind its third argument asks for, all numbers included; no other command prints one |
| Answers.LetterReports | control/input.c:119-123 | S prints the identity and T the state, and nothing else changes |
| Answers.BoardRestarts | control/input.c:115-117 | R restarts the board: asleep in WARM at no address, clock parked, all channels DISABLED, nothing awaited |
| Answers.ChannelsAfterPacket | control/enqueue.c:51-121 | all channels after a completed packet: the one a SET_CHANNEL names, and the packet's own, free again or holding it at the entry priority |
| Scheduling.PassExactly | control/transmit.c:73-160 | one pass, exactly: the channel whose turn a boundary makes it, else the most urgent and of those the lowest; what it sends, stamped; the channel freed, made to wait or left; all others aged; the wait, the sent log and the radio |
| Scheduling.NoPass | control/main.c:118-122 | while a response is awaited, or the radio is not up, the scheduler does nothing |
| Scheduling.SleepsBetweenTurns | lib/clock.c:148-155 | once woken, the main loop sleeps until exactly the wait under way has run out |
| Exclusivity.BootIsSound | control/transmit.c:56-67 | exclusivity holds at boot |
| Exclusivity.StepKeepsSound | control/main.c:94-122 | a step keeps "resp_chp is set exactly when one channel awaits a response, and it is that one" if and only if it is not a SET_CHANNEL to 0..2 on the awaiting channel |
| Exclusivity.RunKeepsSound | control/main.c:94-122 | exclusivity over every run without such a step |
| Exclusivity.StepDuringWait | control/transmit.c:136-150 | any step of a wait sends nothing and leaves the wait with its channel, one count further only for a wait pass, or ends it |
| Exclusivity.NothingSentWhileWaiting | control/main.c:118-122 | until a wait is over nothing is handed to the radio, over any run |
| Exclusivity.WaitEnds | control/main.c:94-112 | every wait is over within four wait passes, whatever else happens |
| Exclusivity.BrokenWaitFabricatesPacket | control/enqueue.c:118-120 | a wait whose channel was marked EMPTY looks like a queued packet two passes later, though nothing was queued |
| Script.TypedCommand | control/input.c:61-199 | a printed command typed for a free channel leaves the controller as enqueue leaves it on exactly the packet meant, and nothing else changed |
| BrokenWait.SetChannelDuringWait | control/command.c:146-160 | from any state with a wait, a SET_CHANNEL to 0..2 for the awaiting channel, typed on another, leaves the wait set on a channel that no longer awaits |
| BrokenWait.WaitIsReached | control/transmit.c:136-150 | activation and one status request lead from power-on to a wait |
| BrokenWait.BreakingRun | control/main.c:94-112 | the failing run from power-on: after that SET_CHANNEL and two silent passes the channel holds a packet for sending that nobody queued |
| Exclusivity.EnqueueChannels | control/enqueue.c:51-104 | enqueue logs one packet and one reply, touches the wait and the sent log never, and other channels only through SET_CHANNEL |
| Exclusivity.MyCommandChannels | control/command.c:148-160 | of the controller's own commands only SET_CHANNEL touches channels |
| Starvation.StepKeepsPacket | control/transmit.c:119-159 | one step leaves a queued packet as it is, sends it, or, if a check has tried to send on some channel, ages it with its message intact |
| Starvation.CheckOnlyAges | control/transmit.c:73-160 | a check queues nothing but a time broadcast that the chip refuses: whatever else is queued after it was queued before and has aged |
| Starvation.ProductiveStep | control/transmit.c:119-159 | a pass whose packet the chip takes sends the packet watched or removes a rival at least as urgent |
| Starvation.StepKeepsCalm | control/transmit.c:146-159 | a step keeps the order of priorities the theorems need, idle channels at 0 or 2, if and only if it neither breaks a wait nor is a broadcast refused on the channel whose line is being read |
| Starvation.ReachableIsCalm | control/transmit.c:146-159 | every state reached from power-on without such a step has it |
| FailingRuns.ClobberingIsReached | control/transmit.c:92-111 | a run from power-on to such a refused broadcast: half a line, sent as it stands at one turn of its channel, and the next turn |
| Rivalry.NoStarvationEver | control/transmit.c:119-159 | over any run, with any failed sends, broadcasts and refills, a queued packet is sent, message intact, once the productive passes outnumber those that lift it above the entry priorities, the turns its rivals can then take, and the broadcasts refused |
| Rivalry.RipeIsSent | control/transmit.c:119-159 | the same for a packet already above the entry priorities |
| Rivalry.NoStarvation | control/transmit.c:119-159 | in round numbers: 29 productive passes suffice, five more for every 98 setbacks, and one more for each broadcast refused, which also counts among the setbacks once more |
| Rivalry.AcceptedPacketIsSent | control/enqueue.c:75-103 | from power-on: a line that completes a packet for the radio while the controller is ACTIVE queues it, and over any such run it is sent |
| MainLoop.NoStarvationInLoop | control/main.c:91-123 | counted in turns of the main loop, waits for responses included: 116 turns suffice, four more for each setback, twenty for every 98, and four for each broadcast refused |
| MainLoop.PassLoops | control/main.c:91-123 | the steps of one call of the loop body are one turn in that count |
| Outwaited.StarvesForEver | control/transmit.c:146-159 | for every n there is a run of n rounds, each of 114 refused sends and five successful ones, in which a packet on channel 5 is never sent |
| Outwaited.OutwaitingIsReached | control/transmit.c:146-159 | the state it starts from is reached from power-on |
| Rivalry.SentWithinChances | control/transmit.c:119-159 | the bound from any point of a wait, computed from the checks each rival has waited since its last turn |
| Starvation.EntryPriorityRange | control/enqueue.c:93-102 | in every such state a queued packet enters at a priority from 3 to 48 |
| Starvation.ZeroPriorityWaits | control/enqueue.c:118-120 | over any run, a packet whose priority SET_CHANNEL has zeroed stays unsent in an unchanged slot if and only if no check tries to send on any channel |
| FailingRuns.ZeroPriorityIsReached | control/enqueue.c:118-120 | a run from power-on to such a packet: a command queued on channel 1, and a SET_CHANNEL to 3 for it typed on channel 0 |
| Rivalry.ZeroPriorityIsServed | control/transmit.c:156-159 | once one has, the packet is sent within one productive pass more than any other |
| Starvation.ZeroPriorityStarves | control/enqueue.c:118-120 | alone in the queue, no pass short of a broadcast tries to send it or changes anything but the modulo |
| Starvation.FailuresDefeatAgeing | control/transmit.c:146-159 | of two queued packets the newer, on a lower channel, goes first after n failed sends if and only if its priority plus 2n reaches 252 and the other's ceiling is no higher, for all n and all priorities |
| TimeSync.OneBroadcastPerBoundary | control/transmit.c:83-111 | at period 1 with checks less than 500 ticks apart exactly one broadcast falls due per 500-tick boundary and the channels take turns, across ten-minute rollovers |
| TimeSync.EveryChannelEvery3000 | control/transmit.c:83-111 | six boundaries give every channel exactly one turn |
| TimeSync.TurnOutcome | control/transmit.c:92-159 | a turn with the chip willing: DISABLED and READ channels send and age nothing; a free one sends the time, and any other its own packet, queued or half built, out of order, stamped with the ticks |
| TimeSync.TurnBroadcastsTime | control/transmit.c:92-108 | a turn on a free channel puts the controller's index and ticks on the air in that pass |
| TimeSync.TimePasses | lib/clock.c:84-89 | over a run that only interrupts move the clock by, the time of day grows by the number of interrupts |
| Printer.SendCommand | lrmon/command.c:164-184 | the printing loop writes the command line and the line end |
| Printer.WallClockCounts | lrmon/command.c:115-123 | the time sent is the number of whole hundredths of a second since midnight |
| Printer.TimeFields | lrmon/command.c:115-126 | the three bytes sent are the ten-minute index and ticks of the time of day in 10 ms, each in range |
| Printer.SetTime | lrmon/command.c:106-127 | the step-by-step arithmetic sends exactly these bytes to channel 0, node 1 |
| Lines.AtMostOneReplyPerLine | control/input.c:70-75 | any line causes at most one reply and one queued packet, and its newline returns the parser to the start from any state |
| Lines.ExactlyOneReply | control/input.c:83-199 | any line naming channel A to H and ending in a full stop is answered exactly once |
| Lines.PrintedLinesAreAnsweredOnce | lrmon/command.c:164-184 | so is every line the daemon prints for channels 0 to 7, whatever its numbers |
| Lines.ByteReplies | control/input.c:61-212 | no byte causes two replies, and a packet is never queued without one |
| RoundTrip.ReadNumber | control/input.c:153-155 | a printed number arrives modulo 256 |
| RoundTrip.ReadLine | control/input.c:157-186 | the printed line is read as exactly the packet meant, over any old slot contents |
| RoundTrip.PrinterParserRoundTrip | control/input.c:61-199 | fed between any other steps, a printed line for a free channel enqueues exactly its packet, once, modulo 256 per field, with one reply, unless a broadcast fills that channel's slot once the node has been read or is refused there before the letter |
| RoundTrip.OtherStepSlot | control/transmit.c:92-159 | what any step short of serial input does to the slot of a line: a broadcast that finds it EMPTY makes it a time packet; otherwise node, command and payload stay and it is at most sent |
| FailingRuns.LineIsSpoilt | control/transmit.c:102-108 | a run from power-on in which such a broadcast overwrites the node: the line names node 5, the packet queued is for every node |
| EndToEnd.ControllerTakesWallClock | control/command.c:102-114 | once the time line is read the controller's clock is the host's time of day, and nothing else of the radio changed |
| EndToEnd.ClientTakesTime | lib/command.c:123-131 | an active client takes index and ticks from a time packet |
| EndToEnd.StaleTimePacket | control/transmit.c:102-108 | a broadcast filled in, refused by the chip, and sent after any run gives an active client the controller's time if and only if the ten-minute index is still the one filled in |
| FailingRuns.StaleTimeIsSent | control/transmit.c:102-108 | a run from power-on in which a refused broadcast goes out five seconds later and sets every active client back by ten minutes |
| EndToEnd.TimeTextIsPrinted | lrmon/command.c:106-127 | the printed time line, spelled out |
| EndToEnd.WallClockReachesClients | lrmon/command.c:106-127 | in any run whose input begins with the printed time line, and whose clock then only ticks, a broadcast gives a client the wall clock plus the ticks since the line's full stop |
| Reframer.SegmentsCoverStream | lrmon/serial.c:171-184 | lines and remainder together are the stream without its line breaks: nothing lost, reordered or invented |
| Reframer.SegmentsAreClean | lrmon/serial.c:171-184 | no line is empty and neither lines nor remainder hold a line break |
| Reframer.SplitAnywhere | lrmon/serial.c:171-192 | cutting a stream anywhere leaves its lines and remainder the same |
| Reframer.ChunkIndependence | lrmon/serial.c:157-193 | however a NUL-free stream is split into reads, the lines handed on are its non-empty segments in order and the buffer holds the unterminated tail |
| Reframer.SplitsAgreeExactly | lrmon/serial.c:170-192 | all ways of splitting a stream agree if and only if nothing but NULs and breaks follows its first NUL, and no break if a line is open there |
| Reframer.EveryReadFits | lrmon/serial.c:163-166 | every split of a stream shorter than the buffer can come about |
| Reframer.NulBreaksIndependence | lrmon/serial.c:170-172 | the smallest failing stream: four bytes with a NUL give different lines for different reads |
| Reframer.SerialInput.ProcessSio | lrmon/serial.c:157-193 | one read into the 1024-byte buffer is ReadChunk, cutting and shifting in place |
| Reframer.SerialInput.TakeLine | lrmon/serial.c:171-184 | one turn of the loop cuts off and hands on the next non-empty line |
| Reframer.SerialInput.Shift | lrmon/serial.c:190-192 | the copy loop moves the remainder to the front |
| Status.Host.StrChr | lrmon/main.c:212-212 | the scan stops at the first delimiter or at the end of the string |
| Status.Host.Crack | lrmon/main.c:204-220 | the in-place splitter leaves exactly the fields of the line, at most nargs |
| Status.Host.ParseData | lrmon/main.c:135-199 | a line is read as ignored, good, bad with a code, or a report, as ParseLine says |
| Status.Host.LocalResponse | lrmon/response.c:84-115 | a report of seven or nine numbers with type 0 or 1 fills the static or dynamic record, anything else changes nothing |
| Status.ReportRoundTrip | lrmon/main.c:167-191 | a printed report is understood if and only if its channel is at most 15 and its command 9, and then channel, node, ticks and list come back |
| Status.DataRoundTrip | lrmon/response.c:90-92 | up to 16 printed bytes come back from the list, and an empty list as one zero |
| Status.LinesMean | lrmon/main.c:140-166 | a line means nothing unless it begins with `<`; `<+` is success, `<-` a failure with the number up to the slash as its code, or 99 for zero |
| Status.StatusRoundTrip | control/command.c:172-207 | the controller's own status gives the daemon its identity and version, or its state, index, and all 16-bit battery, receive and transmit counts |
| Status.RecordsRoundTrip | lrmon/response.c:84-115 | any report understood fills the records from its numbers in the order sent, words high byte first, if it has seven numbers of type 0 or nine of type 1, and leaves them otherwise |
| Status.ResponseRoundTrip | control/response.c:57-77 | a client's response as forwarded, of any length, gives channel, node, ticks and data back, no data as one zero |
| TimerQueue.TimerList.constructor | lrmon/timer.c:52-58 | both lists start empty with the default timeout |
| TimerQueue.TimerList.Allocate | lrmon/timer.c:70-82 | a node comes off the free list or is new, and is then on no list |
| TimerQueue.TimerList.TimerInsert | lrmon/timer.c:63-114 | the linked queue becomes Insert of the old one; lists stay acyclic and disjoint and no node is dropped |
| TimerQueue.TimerList.FindPlace | lrmon/timer.c:105-109 | the walk reaches the insertion point with the seconds left there |
| TimerQueue.TimerList.TimerRemove | lrmon/timer.c:119-138 | the first timer of the callback, if any, moves to the free list |
| TimerQueue.TimerList.TakeExpired | lrmon/timer.c:144-168 | everything up to the last expired timer is detached, of which only that one can run |
| TimerQueue.TimerList.ReleaseNode | lrmon/timer.c:178-179 | the node that has run goes to the free list |
| TimerOrder.InsertExactly | lrmon/timer.c:63-114 | where a timer goes in any queue, with what seconds, and when it is due: in time at the head, and else late by the wait under way and the seconds of the timer before it, less the head's; all behind it are due later by its own seconds |
| TimerOrder.OnTimeExactly | lrmon/timer.c:84-112 | a timer is due in time if and only if it goes to the head or these seconds cancel |
| TimerOrder.LastCallIsLate | lrmon/state.c:197-215 | the failing queue: entering READY, the last call set for 5 seconds is due after 305 |
| TimerOrder.RemoveExactly | lrmon/timer.c:119-138 | removal takes out the first timer of the callback and nothing else |
| TimerOrder.ExpireExactly | lrmon/timer.c:144-182 | an expiry takes the head and all due with it, runs only the last of them, loses the others, and leaves the rest due when they were |
| TimerOrder.ExpireNothing | lrmon/timer.c:150-155 | with nothing pending an expiry sets the wait back to 60 seconds |
| TimerOrder.NodesConserved | lrmon/timer.c:63-182 | no step makes or loses a node, but that an insertion without a free one makes one |
| Supervisor.ReachableQueues | lrmon/timer.c:63-182 | after any timeouts and any lines: one supervisor timer before READY, one status timer and at most one supervisor timer after; no node lost, at most three allocated |
| Supervisor.StepKeepsOk | lrmon/state.c:80-216 | every event keeps the supervisor's invariant: retries in 0..11, no stale answer, successes enough for the stage, queue as above |
| Supervisor.RunKeepsOk | lrmon/state.c:80-216 | the same over every run |
| Supervisor.ParsedCodesArePositive | lrmon/main.c:157-158 | no line is read as a failure with a code that would look like success |
| Supervisor.OneMessageOneStage | lrmon/state.c:91-215 | outside READY each timer or understood line sends exactly one message; the next stage is exactly UNKNOWN on a reset, sent above ten tries, the first request from UNKNOWN, the following stage on an answer, with the branch on the reporting node, and the same one otherwise |
| Supervisor.ReadyIsAbsorbing | lrmon/state.c:87-88 | READY is never left and only status requests are sent from there |
| Supervisor.FirstCall | lrmon/state.c:69-75 | the first call comes three seconds after the start |
| Supervisor.MessageOfStage | lrmon/state.c:80-216 | each call sends exactly the request of the stage it leads to, or the reset, and is due again in three seconds after the static request and else in five; on the way into READY the status timer is set to 300 |
| Supervisor.TriesCounted | lrmon/state.c:89-207 | the tries counted after each call: none after a reset, one more in the same stage, and the first request of a stage entered, save the time without an activation and the channels after the first |
| Supervisor.LineIsNoted | lrmon/main.c:147-192 | a failure leaves its code, a report its node and, once the first one is answered, one response more; the success that leads to READY, and any in READY, leave no failure |
| Supervisor.ReadyLine | lrmon/state.c:86-88 | a line in READY sends nothing, and if it is understood cancels a last pending call of the supervisor |
| Supervisor.ReadyTimeout | lrmon/state.c:230-236 | a timeout in READY sends one dynamic status request if the status timer heads the queue and nothing otherwise, and leaves the status timer pending, 300 seconds away unless a last call of the supervisor comes between |
| Supervisor.ReadyPolls | lrmon/state.c:230-236 | over any run in READY the requests are one for each timeout of the status timer, and all timeouts but at most one are its |
| Supervisor.ResetWithinTwelveCalls | lrmon/state.c:89-97 | without a success the next reset is the message of exactly the (12 - retries)th call |
| Supervisor.ReadyNeedsEight | lrmon/state.c:104-202 | READY takes at least eight successes after the start or any reset |
| Supervisor.EightAreEnough | lrmon/state.c:104-202 | and a run of eight exists, in which channel 3 is never set to READ |
| Supervisor.ChannelThreeStartsEmpty | lrmon/state.c:186-206 | on entering its stage channel 3 is set to EMPTY; READ is sent exactly when that stage is called again without success |
| Supervisor.RunKeepsBroughtUp | lrmon/state.c:140-207 | whatever stage is reached, time, date and every channel before it have been sent since the last reset |
| Supervisor.ReadyIsBroughtUp | lrmon/state.c:140-207 | after any timeouts and lines that lead to READY, all six settings have been sent since the last reset |
| Daemons.Daemon.constructor | lrmon/state.c:69-75 | the daemon starts with one timer and nothing sent |
| Daemons.Daemon.StateMachine | lrmon/state.c:80-216 | the code over the linked queue does RunMachine |
| Daemons.Daemon.Stages | lrmon/state.c:91-139 | the fall-through switch leaves the state, message and delay of Call |
| Daemons.Daemon.Settings | lrmon/state.c:140-207 | the stages from ACTIVATE on: a request again, or the next stage with its first request |
| Daemons.Daemon.DynamicStatusTimer | lrmon/state.c:230-236 | one status request and a new timer of 300 seconds |
| Daemons.Daemon.TimerExpiry | lrmon/timer.c:144-182 | an expiry runs the one callback and returns its node |
| Daemons.Daemon.TakeLine | lrmon/main.c:135-199 | a line updates failure status, response count, node and records, publishes a response, and runs the supervisor, exactly as Take does |
| Daemons.Daemon.TakeReport | lrmon/main.c:188-192 | the same for a response that has been read |
| Daemons.Daemon.Response | lrmon/response.c:55-79 | a response is counted, its node noted, published as JSON, and read into the records when it is the controller's own |
| Daemons.PublishedTextFits | lrmon/response.c:66-71 | the JSON of any response understood fits the memory set aside for it |
| Daemons.PublishedMembers | lrmon/response.c:66-73 | the published text holds channel, node, command 9 and ticks under their names, and the list as it came |
| Station.CommandTyped | control/input.c:83-199 | a command line on channel 0 is refused if the channel is busy, and otherwise executed on exactly its packet |
| Station.StatusTyped | control/input.c:119-123 | a status request prints the station's report and changes nothing else |
| Station.ResetTyped | control/input.c:115-117 | a reset line boots the board |
| Station.SettingTyped | control/command.c:102-160 | on a board with node 1, active or not, a time, date or channel setting is done and answered with success, or refused for a busy channel 0; channels open for sending stay open |
| Station.ActivationTyped | control/command.c:82-100 | the daemon's activation is answered with success only if the board is then active at node 1; without power it keeps the node number and the ERROR state |
| Link.ReplyMeans | control/input.c:204-212 | each reply line is read by the daemon as success or as its very code |
| Link.OutcomeIsHeard | control/enqueue.c:51-104 | what the host hears of every packet typed: success if and only if it now waits on its channel or the board knew it and had the power, else 6, 7 or 8 for exactly these reasons |
| Link.TimeIsLeft | lrmon/command.c:106-127 | a time setting that is not refused leaves the board's clock at the host's time of day |
| Link.DateIsLeft | lrmon/command.c:132-145 | a date setting leaves an active board with the day's number, modulo 65536 |
| Link.MessageHeard | lrmon/state.c:80-216 | whatever the daemon sends at a stage, the answers that come back are true of the board: success of an activation means active at node 1, success of a channel setting means that channel open |
| Link.HappensKeepsOk | lrmon/state.c:80-216 | any step of controller or daemon, any lost line and any prompt answer keep stage, board and answers under way in agreement |
| Link.ReadyMeansUp | lrmon/state.c:186-206 | in every such run, READY implies an active, powered controller at node 1 with channels 0 to 2 open for sending: EMPTY, or holding a time broadcast the chip refused |
| Link.ReadyMeansUpFromPowerOn | lrmon/state.c:69-75 | the same for daemon and controller switched on together |
| Link.ReadyIsTrueExactly | lrmon/state.c:117-136 | starting on a board whose channel 0 is free, that holds of every run without late answers if and only if the board does not have node 1 without being active |
| Link.MisleadingStart | lrmon/state.c:127-134 | the failing run otherwise: the board reports node 1, is never activated and answers every setting with success |
| Link.LateAnswersMislead | lrmon/state.c:104-202 | with late answers it fails from power-on too: one repeated status request, and every answer counts for the next request |

## Left out

- The SPI exchange, chip queries and configuration table (`lib/radio.c`, `lib/power.c`, `pkt_send`): the chip is an oracle.
- Interrupt vectors, sleep, watchdog, UART and timer registers, and the interrupt enable flag of the receiver: a clock interrupt is an atomic step between main-loop steps.
- The LED song, `hbclock` and `all_ticks`: no effect on the control plane.
- EEPROM contents: reads and writes change nothing modelled; the lines and packets that carry EEPROM bytes are not modelled.
- The RabbitMQ connection, syslog, termios, select and fork: lines sent and events heard are lists.
- Debug and banner output of the controller, among it the "Response timeout!" line and the two status lines printed before the radio is initialised.
- The application callbacks `operate` and `fetch_status`: a command handed to them, or answered from them, is only logged, and the transmission of a client's answer is not modelled; neither is the power-up failure that could put a client into ERROR during it.
- The LOW_BATTERY state and the LISTEN timeout, which no code reaches.
- `atoi` on numbers that do not fit an `int`, and the fixed size of the daemon's print buffer.
- A failing `gettimeofday`, in which case no time is sent.
- The passage of time between timer events: a select interrupted by serial input is taken to go on waiting for what is left.
- Reset: the watchdog reset behind `_reset` is modelled as an immediate restart.
- Reframer.SerialInput.ProcessSio: hands the line on as text; that `parse_data` cuts the same buffer in place is modelled in `Status.Host`, on a buffer of its own.
- Board.Controller.ExecuteOwn: does not model the lines printed for READ_EEPROM, which show EEPROM bytes, and after SET_CHANNEL, which show the LED pattern.
- EndToEnd.WallClockReachesClients: the broadcast is assumed to find its channel EMPTY and the chip willing; TurnOutcome says what other slots send, StaleTimePacket what a packet that waited is worth.
- RoundTrip.PrinterParserRoundTrip: assumes that no broadcast fills the channel's slot while it is EMPTY and the node has been read, and that none is refused there before the letter; whether a line so hit is still read right by coincidence of its bytes is not said.
- Rivalry.NoStarvationEver: assumes that no SET_CHANNEL aims at the waiting channel or at the one that awaits a response, that no line is clobbered, and that the board is not reset.
- Outwaited.StarvesForEver: starves at 22.8 failed sends for each successful one, while NoStarvationEver ends at about 21; between the two nothing is claimed, since rivals that reach the ceiling together delay each other.
- Link.ReadyMeansUp: the daemon's messages arrive whole and at once, and nothing else is typed meanwhile; packets that third parties have the daemon send after READY are not modelled. A reset brings the two status lines of the banner, which the other modules leave out.
- TimeSync.OneBroadcastPerBoundary: says on which channel a broadcast falls due; a turn that finds its channel DISABLED or READ sends nothing, and one that finds a packet queued there sends that instead.
- Devices.Device.Execute: WRITE_EEPROM and FIRMWARE change nothing modelled, and the packets sent in answer to STATUS and READ_EEPROM are only logged.
- Reframer.SplitsAgreeExactly: takes reads of any size; for a stream longer than the buffer some of the splits that would disagree cannot come about.
- Network.UnicastIsExclusive: the chip's receive queue is not followed across a retuning; a packet is heard on the channel tuned to when it arrives.
