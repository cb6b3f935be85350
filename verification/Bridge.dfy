/** The bridge between the daemon and one worker process: commands go to the
    worker as numbered requests, its answers come back by number. */
module Bridge {
  import opened Types
  import opened Collections
  import Ids

  datatype Result = Ok(text: string) | Err(error: string)

  // What one turn of the loop takes: a command for the worker, together with
  // whether writing it to the worker succeeded, or a message from the worker,
  // or word that one of the two ends has closed.
  datatype Input =
    | UserMessage(message: string, awaited: bool, written: bool)
    | ChannelMessage(channel: ChannelId, message: string, written: bool)
    | JobExecute(written: bool)
    | Stop
    | CommandsClosed
    | ChatResponse(id: string, result: Result)
    | Status(stopped: bool)
    | OtherOutput
    | OutputClosed

  // What the sender of an awaited message gets.
  datatype Reply = Answer(result: Result) | WorkerExited

  datatype Sent = Sent(ticket: nat, reply: Reply)

  // What the orchestrator is told of an answer to a channel message.
  datatype Event = Spoken(channel: ChannelId, content: string) | SpeechFailed(error: string)

  datatype Raised = Raised(ticket: nat, event: Event)

  datatype Seat = Seat(ticket: nat, channel: ChannelId)

  predicate IsRequest(x: Input) {
    x.UserMessage? || x.ChannelMessage?
  }

  predicate IsAwaited(x: Input) {
    x.UserMessage? && x.awaited
  }

  predicate Exits(x: Input) {
    match x
    case UserMessage(_, _, written) => !written
    case ChannelMessage(_, _, written) => !written
    case JobExecute(written) => !written
    case Status(stopped) => stopped
    case CommandsClosed => true
    case OutputClosed => true
    case _ => false
  }

  // The loop is left when an end has closed, when the worker says that it has
  // stopped, and when a command could not be written to it; for nothing else.
  lemma ExitsIff(x: Input)
    ensures Exits(x) <==>
      || x == CommandsClosed || x == OutputClosed || x == Status(true)
      || ((x.UserMessage? || x.ChannelMessage? || x.JobExecute?) && !x.written)
  {
  }

  function RequestId(k: nat): string {
    "req-" + Ids.Decimal(k)
  }

  // ---- The specification, read off the inputs alone ----

  function Requests(inputs: seq<Input>, n: nat): nat
    requires n <= |inputs|
  {
    if n == 0 then 0 else Requests(inputs, n - 1) + if IsRequest(inputs[n - 1]) then 1 else 0
  }

  // The id the request taken at position i goes out under.
  function IdAt(inputs: seq<Input>, i: nat): string
    requires i < |inputs|
  {
    RequestId(Requests(inputs, i + 1))
  }

  predicate Answers(inputs: seq<Input>, i: nat, k: nat)
    requires i < |inputs| && k < |inputs|
  {
    inputs[k].ChatResponse? && inputs[k].id == IdAt(inputs, i)
  }

  // The first response with that id among the inputs after i and before n.
  function FirstAnswer(inputs: seq<Input>, i: nat, n: nat): (k: Option<nat>)
    requires i < n <= |inputs|
    ensures k.Some? ==> i < k.value < n && Answers(inputs, i, k.value)
    ensures k.Some? ==> forall m :: i < m < k.value ==> !Answers(inputs, i, m)
    ensures k.None? ==> forall m :: i < m < n ==> !Answers(inputs, i, m)
  {
    if n == i + 1 then None
    else
      var before := FirstAnswer(inputs, i, n - 1);
      if before.Some? then before
      else if Answers(inputs, i, n - 1) then Some(n - 1)
      else None
  }

  lemma {:induction false} RequestsMonotone(inputs: seq<Input>, m: nat, n: nat)
    requires m <= n <= |inputs|
    ensures Requests(inputs, m) <= Requests(inputs, n)
    decreases n
  {
    if m < n {
      RequestsMonotone(inputs, m, n - 1);
    }
  }

  lemma RequestIdInjective(k: nat, l: nat)
    requires RequestId(k) == RequestId(l)
    ensures k == l
  {
    assert RequestId(k)[4..] == Ids.Decimal(k) && RequestId(l)[4..] == Ids.Decimal(l);
    Ids.DecimalInjective(k, l);
  }

  // No two requests of one bridge go out under the same id.
  lemma RequestIdsUnique(inputs: seq<Input>, i: nat, k: nat)
    requires i < k < |inputs| && IsRequest(inputs[k])
    ensures IdAt(inputs, i) != IdAt(inputs, k)
  {
    RequestsMonotone(inputs, i + 1, k);
    if IdAt(inputs, i) == IdAt(inputs, k) {
      RequestIdInjective(Requests(inputs, i + 1), Requests(inputs, k + 1));
    }
  }

  // ---- Open and answered requests of one kind ----

  // A table of open requests of one kind, by id, and a log of the answered
  // ones agree with the inputs: a request is in the log, once, if an answer has
  // come, and in the table under its id if not.
  ghost predicate Tracks(inputs: seq<Input>, n: nat, kind: Input -> bool, table: map<string, nat>, log: seq<nat>)
    requires n <= |inputs|
  {
    && (forall id :: id in table ==> OpenAt(inputs, n, kind, table[id]) && id == IdAt(inputs, table[id]))
    && (forall i :: OpenAt(inputs, n, kind, i) ==> IdAt(inputs, i) in table && table[IdAt(inputs, i)] == i)
    && Distinct(log)
    && (forall i :: i in log <==> ClosedAt(inputs, n, kind, i))
  }

  ghost predicate OpenAt(inputs: seq<Input>, n: nat, kind: Input -> bool, i: nat)
    requires n <= |inputs|
  {
    i < n && kind(inputs[i]) && FirstAnswer(inputs, i, n).None?
  }

  ghost predicate ClosedAt(inputs: seq<Input>, n: nat, kind: Input -> bool, i: nat)
    requires n <= |inputs|
  {
    i < n && kind(inputs[i]) && FirstAnswer(inputs, i, n).Some?
  }

  ghost predicate OfRequests(kind: Input -> bool) {
    forall x :: kind(x) ==> IsRequest(x)
  }

  // What one input does to a table and its log.
  ghost function NextTable(inputs: seq<Input>, n: nat, kind: Input -> bool, table: map<string, nat>): map<string, nat>
    requires n < |inputs|
  {
    if kind(inputs[n]) then table[IdAt(inputs, n) := n]
    else if inputs[n].ChatResponse? then table - {inputs[n].id}
    else table
  }

  ghost function NextLog(inputs: seq<Input>, n: nat, table: map<string, nat>, log: seq<nat>): seq<nat>
    requires n < |inputs|
  {
    if inputs[n].ChatResponse? && inputs[n].id in table then log + [table[inputs[n].id]] else log
  }

  lemma OpenNext(inputs: seq<Input>, n: nat, kind: Input -> bool, i: nat)
    requires n < |inputs| && OfRequests(kind)
    ensures OpenAt(inputs, n + 1, kind, i) <==>
      || (i == n && kind(inputs[n]))
      || (OpenAt(inputs, n, kind, i) && !(inputs[n].ChatResponse? && inputs[n].id == IdAt(inputs, i)))
    ensures ClosedAt(inputs, n + 1, kind, i) <==>
      || ClosedAt(inputs, n, kind, i)
      || (OpenAt(inputs, n, kind, i) && inputs[n].ChatResponse? && inputs[n].id == IdAt(inputs, i))
  {
  }

  lemma OpenIdsDiffer(inputs: seq<Input>, n: nat, kind: Input -> bool, i: nat, k: nat)
    requires n <= |inputs| && OfRequests(kind) && i < n && k < n && kind(inputs[i]) && kind(inputs[k]) && i != k
    ensures IdAt(inputs, i) != IdAt(inputs, k)
  {
    if i < k { RequestIdsUnique(inputs, i, k); } else { RequestIdsUnique(inputs, k, i); }
  }

  lemma TracksRequest(inputs: seq<Input>, n: nat, kind: Input -> bool, table: map<string, nat>, log: seq<nat>)
    requires n < |inputs| && OfRequests(kind) && Tracks(inputs, n, kind, table, log) && !inputs[n].ChatResponse?
    ensures Tracks(inputs, n + 1, kind, NextTable(inputs, n, kind, table), log)
  {
    hide FirstAnswer, IdAt;
    var next := NextTable(inputs, n, kind, table);
    forall i: nat
      ensures OpenAt(inputs, n + 1, kind, i) <==> OpenAt(inputs, n, kind, i) || (i == n && kind(inputs[n]))
      ensures ClosedAt(inputs, n + 1, kind, i) <==> ClosedAt(inputs, n, kind, i)
    {
      OpenNext(inputs, n, kind, i);
    }
    forall i | OpenAt(inputs, n, kind, i) && kind(inputs[n]) ensures IdAt(inputs, i) != IdAt(inputs, n) {
      OpenIdsDiffer(inputs, n + 1, kind, i, n);
    }
  }

  lemma TracksResponse(inputs: seq<Input>, n: nat, kind: Input -> bool, table: map<string, nat>, log: seq<nat>)
    requires n < |inputs| && OfRequests(kind) && Tracks(inputs, n, kind, table, log) && inputs[n].ChatResponse?
    ensures Tracks(inputs, n + 1, kind, NextTable(inputs, n, kind, table), NextLog(inputs, n, table, log))
  {
    hide FirstAnswer, IdAt;
    var next, longer, id := NextTable(inputs, n, kind, table), NextLog(inputs, n, table, log), inputs[n].id;
    assert !kind(inputs[n]);
    forall i: nat
      ensures OpenAt(inputs, n + 1, kind, i) <==> OpenAt(inputs, n, kind, i) && id != IdAt(inputs, i)
      ensures ClosedAt(inputs, n + 1, kind, i) <==>
        ClosedAt(inputs, n, kind, i) || (OpenAt(inputs, n, kind, i) && id == IdAt(inputs, i))
    {
      OpenNext(inputs, n, kind, i);
    }
    if id in table {
      assert OpenAt(inputs, n, kind, table[id]) && table[id] !in log;
      DistinctConcat(log, [table[id]]);
    }
  }

  // ---- The loop's variables ----

  // heard is the tickets of the channel requests answered, in order; the rest
  // are the variables of the loop and what it has sent out.
  datatype State = State(
    pending: map<string, nat>,
    pendingChannel: map<string, Seat>,
    counter: nat,
    replies: seq<Sent>,
    events: seq<Raised>,
    heard: seq<nat>
  )

  const IDLE := State(map[], map[], 0, [], [], [])

  function EventOf(channel: ChannelId, result: Result): Event {
    match result
    case Ok(text) => Spoken(channel, text)
    case Err(error) => SpeechFailed("channel message failed: " + error)
  }

  // What one turn of the loop does.
  function Turn(forwards: bool, s: State, i: nat, x: Input): State {
    match x
    case UserMessage(_, awaited, _) =>
      if awaited then s.(counter := s.counter + 1, pending := s.pending[RequestId(s.counter + 1) := i])
      else s.(counter := s.counter + 1)
    case ChannelMessage(channel, _, _) =>
      s.(counter := s.counter + 1,
         pendingChannel := s.pendingChannel[RequestId(s.counter + 1) := Seat(i, channel)])
    case ChatResponse(id, result) =>
      if id in s.pending then
        s.(pending := s.pending - {id}, replies := s.replies + [Sent(s.pending[id], Answer(result))])
      else if id in s.pendingChannel then
        var seat := s.pendingChannel[id];
        s.(pendingChannel := s.pendingChannel - {id}, heard := s.heard + [seat.ticket],
           events := if forwards then s.events + [Raised(seat.ticket, EventOf(seat.channel, result))] else s.events)
      else s
    case _ => s
  }

  ghost function Awaited(): Input -> bool {
    x => IsAwaited(x)
  }

  ghost function Channelled(): Input -> bool {
    (x: Input) => x.ChannelMessage?
  }

  ghost function Tickets(replies: seq<Sent>): seq<nat> {
    seq(|replies|, a requires 0 <= a < |replies| => replies[a].ticket)
  }

  ghost function Seats(seats: map<string, Seat>): map<string, nat> {
    map id | id in seats :: seats[id].ticket
  }

  // Every reply is the first answer to its request.
  ghost predicate Justified(inputs: seq<Input>, n: nat, r: Sent)
    requires n <= |inputs|
  {
    r.ticket < n && var k := FirstAnswer(inputs, r.ticket, n);
                    k.Some? && r.reply == Answer(inputs[k.value].result)
  }

  // The event is what an answer on that channel is to be reported as: the text
  // as it was given, or that the job has failed, and why.
  ghost predicate Conveys(channel: ChannelId, result: Result, event: Event) {
    match result
    case Ok(text) => event.Spoken? && event.channel == channel && event.content == text
    case Err(error) => event.SpeechFailed? && event.error == "channel message failed: " + error
  }

  ghost predicate Told(inputs: seq<Input>, n: nat, e: Raised)
    requires n <= |inputs|
  {
    e.ticket < n && inputs[e.ticket].ChannelMessage?
    && var k := FirstAnswer(inputs, e.ticket, n);
       k.Some? && Conveys(inputs[e.ticket].channel, inputs[k.value].result, e.event)
  }

  ghost predicate ToldAll(forwards: bool, inputs: seq<Input>, n: nat, s: State)
    requires n <= |inputs|
  {
    && (forall id :: id in s.pendingChannel ==>
          var seat := s.pendingChannel[id];
          seat.ticket < n && inputs[seat.ticket].ChannelMessage? && inputs[seat.ticket].channel == seat.channel)
    && (if forwards
        then |s.events| == |s.heard|
             && forall a :: 0 <= a < |s.events| ==> s.events[a].ticket == s.heard[a] && Told(inputs, n, s.events[a])
        else s.events == [])
  }

  ghost predicate InLoop(forwards: bool, inputs: seq<Input>, n: nat, s: State)
    requires n <= |inputs|
  {
    && s.counter == Requests(inputs, n)
    && Tracks(inputs, n, Awaited(), s.pending, Tickets(s.replies))
    && (forall r :: r in s.replies ==> Justified(inputs, n, r))
    && Tracks(inputs, n, Channelled(), Seats(s.pendingChannel), s.heard)
    && ToldAll(forwards, inputs, n, s)
  }

  lemma KindsAreRequests()
    ensures OfRequests(Awaited()) && OfRequests(Channelled())
  {
  }

  // The two tables never share an id.
  lemma TablesDisjoint(forwards: bool, inputs: seq<Input>, n: nat, s: State)
    requires n <= |inputs| && InLoop(forwards, inputs, n, s)
    ensures s.pending.Keys !! s.pendingChannel.Keys
  {
    hide FirstAnswer, IdAt, ToldAll;
    forall id | id in s.pending && id in s.pendingChannel ensures false {
      var i, k := s.pending[id], s.pendingChannel[id].ticket;
      assert id in Seats(s.pendingChannel);
      assert IsAwaited(inputs[i]) && inputs[k].ChannelMessage?;
      if i < k { RequestIdsUnique(inputs, i, k); } else { RequestIdsUnique(inputs, k, i); }
    }
  }

  // ---- More inputs do not change what has been ----

  lemma {:induction false} RequestsPrefix(a: seq<Input>, b: seq<Input>, n: nat)
    requires a <= b && n <= |a|
    ensures Requests(b, n) == Requests(a, n)
  {
    if n > 0 {
      RequestsPrefix(a, b, n - 1);
    }
  }

  lemma {:induction false} FirstAnswerPrefix(a: seq<Input>, b: seq<Input>, i: nat, n: nat)
    requires a <= b && i < n <= |a|
    ensures IdAt(b, i) == IdAt(a, i) && FirstAnswer(b, i, n) == FirstAnswer(a, i, n)
    decreases n
  {
    hide RequestId;
    RequestsPrefix(a, b, i + 1);
    if n > i + 1 {
      FirstAnswerPrefix(a, b, i, n - 1);
    }
  }

  // A first answer stays the first.
  lemma {:induction false} AnswerRemains(a: seq<Input>, b: seq<Input>, i: nat)
    requires a <= b && i < |a| && FirstAnswer(a, i, |a|).Some?
    ensures FirstAnswer(b, i, |b|) == FirstAnswer(a, i, |a|)
    decreases |b|
  {
    if |b| == |a| {
      assert a == b;
    } else {
      var c := b[..|b| - 1];
      AnswerRemains(a, c, i);
      FirstAnswerPrefix(c, b, i, |c|);
      AnswersStay(b, i, |c|);
    }
  }

  lemma TracksPrefix(a: seq<Input>, b: seq<Input>, n: nat, kind: Input -> bool, table: map<string, nat>, log: seq<nat>)
    requires a <= b && n <= |a| && Tracks(a, n, kind, table, log)
    ensures Tracks(b, n, kind, table, log)
  {
    hide FirstAnswer, IdAt;
    forall i: nat | i < n
      ensures IdAt(b, i) == IdAt(a, i) && FirstAnswer(b, i, n) == FirstAnswer(a, i, n)
    {
      FirstAnswerPrefix(a, b, i, n);
    }
    forall i: nat
      ensures OpenAt(b, n, kind, i) <==> OpenAt(a, n, kind, i)
      ensures ClosedAt(b, n, kind, i) <==> ClosedAt(a, n, kind, i)
    {
    }
  }

  lemma InLoopPrefix(forwards: bool, a: seq<Input>, b: seq<Input>, n: nat, s: State)
    requires a <= b && n <= |a| && InLoop(forwards, a, n, s)
    ensures InLoop(forwards, b, n, s)
  {
    hide FirstAnswer, IdAt, Tracks, Conveys;
    RequestsPrefix(a, b, n);
    TracksPrefix(a, b, n, Awaited(), s.pending, Tickets(s.replies));
    TracksPrefix(a, b, n, Channelled(), Seats(s.pendingChannel), s.heard);
    forall i: nat | i < n ensures FirstAnswer(b, i, n) == FirstAnswer(a, i, n) && b[i] == a[i] {
      FirstAnswerPrefix(a, b, i, n);
    }
    forall r | r in s.replies ensures Justified(b, n, r) {
      assert Justified(a, n, r);
    }
  }

  // ---- Every turn keeps the agreement ----

  lemma PendingNext(forwards: bool, inputs: seq<Input>, n: nat, s: State)
    requires n < |inputs| && s.counter == Requests(inputs, n)
    ensures var t := Turn(forwards, s, n, inputs[n]);
      && t.counter == Requests(inputs, n + 1)
      && t.pending == NextTable(inputs, n, Awaited(), s.pending)
      && Tickets(t.replies) == NextLog(inputs, n, s.pending, Tickets(s.replies))
  {
    assert inputs[n].ChatResponse? && inputs[n].id !in s.pending ==> s.pending - {inputs[n].id} == s.pending;
  }

  lemma SeatTaken(seats: map<string, Seat>, id: string, i: nat, channel: ChannelId)
    ensures Seats(seats[id := Seat(i, channel)]) == Seats(seats)[id := i]
  {
  }

  lemma SeatFreed(seats: map<string, Seat>, id: string)
    ensures Seats(seats - {id}) == Seats(seats) - {id}
    ensures id in seats <==> id in Seats(seats)
    ensures id in seats ==> Seats(seats)[id] == seats[id].ticket
    ensures id !in seats ==> seats - {id} == seats
  {
  }

  lemma SeatsNext(forwards: bool, inputs: seq<Input>, n: nat, s: State)
    requires n < |inputs| && s.counter == Requests(inputs, n) && s.pending.Keys !! s.pendingChannel.Keys
    ensures var t := Turn(forwards, s, n, inputs[n]);
      && Seats(t.pendingChannel) == NextTable(inputs, n, Channelled(), Seats(s.pendingChannel))
      && t.heard == NextLog(inputs, n, Seats(s.pendingChannel), s.heard)
  {
    hide RequestId, Seats;
    match inputs[n]
    case ChannelMessage(channel, _, _) => SeatTaken(s.pendingChannel, RequestId(s.counter + 1), n, channel);
    case ChatResponse(id, _) => SeatFreed(s.pendingChannel, id);
    case _ =>
  }

  lemma TurnTables(forwards: bool, inputs: seq<Input>, n: nat, s: State)
    requires n < |inputs| && InLoop(forwards, inputs, n, s)
    ensures var t := Turn(forwards, s, n, inputs[n]);
      && t.counter == Requests(inputs, n + 1)
      && t.pending == NextTable(inputs, n, Awaited(), s.pending)
      && Tickets(t.replies) == NextLog(inputs, n, s.pending, Tickets(s.replies))
      && Seats(t.pendingChannel) == NextTable(inputs, n, Channelled(), Seats(s.pendingChannel))
      && t.heard == NextLog(inputs, n, Seats(s.pendingChannel), s.heard)
  {
    hide Tracks, Justified, ToldAll, Turn, NextTable, NextLog, Seats, Tickets;
    TablesDisjoint(forwards, inputs, n, s);
    PendingNext(forwards, inputs, n, s);
    SeatsNext(forwards, inputs, n, s);
  }

  lemma AnswersStay(inputs: seq<Input>, i: nat, n: nat)
    requires i < n < |inputs| && FirstAnswer(inputs, i, n).Some?
    ensures FirstAnswer(inputs, i, n + 1) == FirstAnswer(inputs, i, n)
  {
  }

  lemma NewlyAnswered(inputs: seq<Input>, n: nat, kind: Input -> bool, table: map<string, nat>, log: seq<nat>)
    requires n < |inputs| && Tracks(inputs, n, kind, table, log)
    requires inputs[n].ChatResponse? && inputs[n].id in table
    ensures var i := table[inputs[n].id]; i < n && FirstAnswer(inputs, i, n + 1) == Some(n)
  {
    assert OpenAt(inputs, n, kind, table[inputs[n].id]);
  }

  lemma TurnReplies(forwards: bool, inputs: seq<Input>, n: nat, s: State)
    requires n < |inputs| && InLoop(forwards, inputs, n, s)
    ensures forall r :: r in Turn(forwards, s, n, inputs[n]).replies ==> Justified(inputs, n + 1, r)
  {
    hide Tracks, ToldAll, FirstAnswer;
    var t := Turn(forwards, s, n, inputs[n]);
    if inputs[n].ChatResponse? && inputs[n].id in s.pending {
      NewlyAnswered(inputs, n, Awaited(), s.pending, Tickets(s.replies));
    }
    forall r | r in t.replies ensures Justified(inputs, n + 1, r) {
      if r in s.replies {
        assert Justified(inputs, n, r);
        AnswersStay(inputs, r.ticket, n);
      }
    }
  }

  lemma TurnEvents(forwards: bool, inputs: seq<Input>, n: nat, s: State)
    requires n < |inputs| && InLoop(forwards, inputs, n, s)
    ensures ToldAll(forwards, inputs, n + 1, Turn(forwards, s, n, inputs[n]))
  {
    hide Tracks, Justified, FirstAnswer;
    var t := Turn(forwards, s, n, inputs[n]);
    if inputs[n].ChatResponse? && inputs[n].id in s.pendingChannel {
      assert inputs[n].id in Seats(s.pendingChannel);
      NewlyAnswered(inputs, n, Channelled(), Seats(s.pendingChannel), s.heard);
    }
    if forwards {
      forall a | 0 <= a < |s.events| ensures Told(inputs, n + 1, s.events[a]) {
        AnswersStay(inputs, s.events[a].ticket, n);
      }
    }
  }

  lemma TurnKeeps(forwards: bool, inputs: seq<Input>, n: nat, s: State)
    requires n < |inputs| && InLoop(forwards, inputs, n, s)
    ensures InLoop(forwards, inputs, n + 1, Turn(forwards, s, n, inputs[n]))
  {
    hide Tracks, ToldAll, Justified, Turn, NextTable, OfRequests, Tickets, Seats;
    KindsAreRequests();
    TurnTables(forwards, inputs, n, s);
    TurnReplies(forwards, inputs, n, s);
    TurnEvents(forwards, inputs, n, s);
    if inputs[n].ChatResponse? {
      TracksResponse(inputs, n, Awaited(), s.pending, Tickets(s.replies));
      TracksResponse(inputs, n, Channelled(), Seats(s.pendingChannel), s.heard);
    } else {
      TracksRequest(inputs, n, Awaited(), s.pending, Tickets(s.replies));
      TracksRequest(inputs, n, Channelled(), Seats(s.pendingChannel), s.heard);
    }
  }

  // ---- The bridge itself ----

  // What an awaited request gets in the end: its first answer if that came
  // before the bridge left its loop, the exit notice otherwise.
  ghost function Due(inputs: seq<Input>, taken: nat, i: nat): Reply
    requires i < taken <= |inputs|
  {
    var k := FirstAnswer(inputs, i, taken);
    if k.Some? then Answer(inputs[k.value].result) else WorkerExited
  }

  // Every awaited request taken has got exactly one reply, the one due, and
  // nothing else has got any.
  ghost predicate RepliedOnce(inputs: seq<Input>, taken: nat, replies: seq<Sent>)
    requires taken <= |inputs|
  {
    && Distinct(Tickets(replies))
    && (forall i :: 0 <= i < taken && IsAwaited(inputs[i]) ==> Sent(i, Due(inputs, taken, i)) in replies)
    && (forall r :: r in replies ==> r.ticket < taken && IsAwaited(inputs[r.ticket]))
  }

  // Where the loop stops: at the first input that makes it leave.
  ghost predicate LeavesAt(inputs: seq<Input>, taken: nat, exited: bool) {
    && taken <= |inputs|
    && (forall i :: 0 <= i < taken && Exits(inputs[i]) ==> exited && i == taken - 1)
    && (exited ==> taken > 0 && Exits(inputs[taken - 1]))
    && (!exited ==> taken == |inputs|)
  }

  // ---- The drain ----

  function Notices(pending: map<string, nat>, order: seq<string>): seq<Sent>
    requires forall id :: id in order ==> id in pending
  {
    seq(|order|, k requires 0 <= k < |order| => Sent(pending[order[k]], WorkerExited))
  }

  lemma DrainTickets(inputs: seq<Input>, n: nat, pending: map<string, nat>, log: seq<nat>, order: seq<string>)
    requires n <= |inputs| && Tracks(inputs, n, Awaited(), pending, log) && Enumerates(order, pending.Keys)
    ensures Distinct(log + Tickets(Notices(pending, order)))
    ensures forall i :: i in Tickets(Notices(pending, order)) <==> OpenAt(inputs, n, Awaited(), i)
  {
    var more := Tickets(Notices(pending, order));
    forall a, b | 0 <= a < b < |more| ensures more[a] != more[b] {
      assert order[a] in pending && order[b] in pending && order[a] != order[b];
    }
    forall i | OpenAt(inputs, n, Awaited(), i) ensures i in more {
      var k := IndexOf(order, IdAt(inputs, i));
      assert more[k] == i;
    }
    forall i | i in more ensures OpenAt(inputs, n, Awaited(), i) {
      var k := IndexOf(more, i);
      assert order[k] in pending;
    }
    DistinctConcat(log, more);
  }

  lemma TicketsConcat(a: seq<Sent>, b: seq<Sent>)
    ensures Tickets(a + b) == Tickets(a) + Tickets(b)
  {
  }

  lemma TicketIn(replies: seq<Sent>, i: nat) returns (r: Sent)
    requires i in Tickets(replies)
    ensures r in replies && r.ticket == i
  {
    var k := IndexOf(Tickets(replies), i);
    r := replies[k];
  }

  // Telling everyone still waiting that the worker is gone leaves every
  // awaited request with the one reply it is due.
  lemma DrainSpec(inputs: seq<Input>, n: nat, pending: map<string, nat>, replies: seq<Sent>, order: seq<string>)
    requires n <= |inputs| && Tracks(inputs, n, Awaited(), pending, Tickets(replies))
    requires forall r :: r in replies ==> Justified(inputs, n, r)
    requires Enumerates(order, pending.Keys)
    ensures RepliedOnce(inputs, n, replies + Notices(pending, order))
  {
    hide FirstAnswer;
    var notices := Notices(pending, order);
    var all := replies + notices;
    DrainTickets(inputs, n, pending, Tickets(replies), order);
    TicketsConcat(replies, notices);
    forall i | 0 <= i < n && IsAwaited(inputs[i]) ensures Sent(i, Due(inputs, n, i)) in all {
      if OpenAt(inputs, n, Awaited(), i) {
        var r := TicketIn(notices, i);
        assert r.reply.WorkerExited? && r in all;
      } else {
        assert ClosedAt(inputs, n, Awaited(), i);
        var r := TicketIn(replies, i);
        assert Justified(inputs, n, r) && r in all;
      }
    }
    forall r | r in all ensures r.ticket < n && IsAwaited(inputs[r.ticket]) {
      if r in replies {
        assert r.ticket in Tickets(replies) by { TicketOf(replies, r); }
        assert ClosedAt(inputs, n, Awaited(), r.ticket);
      } else {
        assert r.ticket in Tickets(notices) by { TicketOf(notices, r); }
      }
    }
  }

  lemma TicketOf(replies: seq<Sent>, r: Sent)
    requires r in replies
    ensures r.ticket in Tickets(replies)
  {
    var k := IndexOf(replies, r);
    assert Tickets(replies)[k] == r.ticket;
  }

  ghost function AwaitedBefore(inputs: seq<Input>, n: nat): set<nat>
    requires n <= |inputs|
  {
    set i: nat | i < n && IsAwaited(inputs[i])
  }

  lemma OrderExists(keys: set<string>) returns (order: seq<string>)
    ensures Enumerates(order, keys)
  {
    if keys == {} {
      order := [];
    } else {
      var id :| id in keys;
      order := OrderExists(keys - {id});
      DistinctConcat(order, [id]);
      order := order + [id];
    }
  }

  // At every moment: awaited requests taken = answered + pending.
  lemma RequestsConserved(forwards: bool, inputs: seq<Input>, n: nat, s: State)
    requires n <= |inputs| && InLoop(forwards, inputs, n, s)
    ensures |AwaitedBefore(inputs, n)| == |s.replies| + |s.pending|
  {
    var order := OrderExists(s.pending.Keys);
    var all := s.replies + Notices(s.pending, order);
    DrainSpec(inputs, n, s.pending, s.replies, order);
    EnumerationSize(order, s.pending.Keys);
    forall i ensures i in Tickets(all) <==> i in AwaitedBefore(inputs, n) {
      if i in Tickets(all) { var r := TicketIn(all, i); }
      if i in AwaitedBefore(inputs, n) { TicketOf(all, Sent(i, Due(inputs, n, i))); }
    }
    EnumerationSize(Tickets(all), AwaitedBefore(inputs, n));
    assert |s.pending.Keys| == |s.pending|;
  }

  // The orchestrator hears of every channel request answered, once, and of no other.
  ghost predicate ToldOnce(inputs: seq<Input>, taken: nat, events: seq<Raised>)
    requires taken <= |inputs|
  {
    && (forall a, b :: 0 <= a < b < |events| ==> events[a].ticket != events[b].ticket)
    && (forall e :: e in events ==> Told(inputs, taken, e))
    && (forall i :: 0 <= i < taken && inputs[i].ChannelMessage? && FirstAnswer(inputs, i, taken).Some? ==>
          exists e :: e in events && e.ticket == i)
  }

  lemma HeardIsTold(forwards: bool, inputs: seq<Input>, n: nat, s: State)
    requires n <= |inputs| && InLoop(forwards, inputs, n, s)
    ensures if forwards then ToldOnce(inputs, n, s.events) else s.events == []
  {
    hide FirstAnswer;
    if forwards {
      forall i | 0 <= i < n && inputs[i].ChannelMessage? && FirstAnswer(inputs, i, n).Some?
        ensures exists e :: e in s.events && e.ticket == i
      {
        assert ClosedAt(inputs, n, Channelled(), i);
        var k := IndexOf(s.heard, i);
        assert s.events[k] in s.events && s.events[k].ticket == i;
      }
    }
  }

  class WorkerBridge {
    // Whether the bridge serves an orchestrated job and has someone to tell.
    const forwards: bool
    var pending: map<string, nat>
    var pendingChannel: map<string, Seat>
    var reqCounter: nat
    // What has been sent out, in order.
    var replies: seq<Sent>
    var events: seq<Raised>
    ghost var heard: seq<nat>

    ghost function Vars(): State
      reads this
    {
      State(pending, pendingChannel, reqCounter, replies, events, heard)
    }

    constructor (forwards: bool)
      ensures this.forwards == forwards && Vars() == IDLE
    {
      this.forwards := forwards;
      pending, pendingChannel, reqCounter, replies, events, heard := map[], map[], 0, [], [], [];
    }

    // One turn of the loop: i stands for the oneshot sender the input brings.
    method Take(i: nat, x: Input) returns (leave: bool)
      modifies this
      ensures Vars() == Turn(forwards, old(Vars()), i, x) && leave == Exits(x)
      ensures x.ChatResponse? && x.id !in old(pending) && x.id in old(pendingChannel) && forwards ==>
        && |events| == |old(events)| + 1 && events[..|old(events)|] == old(events)
        && events[|old(events)|].ticket == old(pendingChannel)[x.id].ticket
        && Conveys(old(pendingChannel)[x.id].channel, x.result, events[|old(events)|].event)
    {
      leave := false;
      match x
      case UserMessage(_, awaited, written) =>
        reqCounter := reqCounter + 1;
        var id := RequestId(reqCounter);
        if awaited { pending := pending[id := i]; }
        if !written { leave := true; }
      case ChannelMessage(channel, _, written) =>
        reqCounter := reqCounter + 1;
        var id := RequestId(reqCounter);
        pendingChannel := pendingChannel[id := Seat(i, channel)];
        if !written { leave := true; }
      case JobExecute(written) =>
        if !written { leave := true; }
      case Stop =>
      case CommandsClosed =>
        leave := true;
      case ChatResponse(id, result) =>
        if id in pending {
          replies := replies + [Sent(pending[id], Answer(result))];
          pending := pending - {id};
        } else if id in pendingChannel {
          var seat := pendingChannel[id];
          pendingChannel := pendingChannel - {id};
          heard := heard + [seat.ticket];
          if forwards {
            events := events + [Raised(seat.ticket, EventOf(seat.channel, result))];
          }
        }
      case Status(stopped) =>
        if stopped { leave := true; }
      case OtherOutput =>
      case OutputClosed =>
        leave := true;
    }

    // Fail whoever is still waiting, in the order the table is iterated.
    method Drain() returns (ghost order: seq<string>)
      modifies this
      ensures Enumerates(order, old(pending).Keys)
      ensures pending == map[] && replies == old(replies) + Notices(old(pending), order)
      ensures pendingChannel == old(pendingChannel) && events == old(events) && reqCounter == old(reqCounter)
      ensures heard == old(heard)
    {
      ghost var all := pending;
      order := [];
      while |pending| > 0
        invariant Distinct(order) && (forall id :: id in order ==> id in all && id !in pending)
        invariant forall id :: id in all ==> id in pending || id in order
        invariant forall id :: id in pending ==> id in all && pending[id] == all[id]
        invariant replies == old(replies) + Notices(all, order)
        invariant pendingChannel == old(pendingChannel) && events == old(events) && reqCounter == old(reqCounter)
        invariant heard == old(heard)
        decreases |pending|
      {
        assert |pending.Keys| > 0;
        var id :| id in pending.Keys;
        replies := replies + [Sent(pending[id], WorkerExited)];
        DistinctConcat(order, [id]);
        NoticesNext(all, order, id);
        order := order + [id];
        pending := pending - {id};
      }
      assert pending == map[];
    }

    // The bridge over a whole session. While it has not left its loop it is as
    // InLoop says; once it has, every awaited message it took has its one reply.
    method Run(inputs: seq<Input>) returns (taken: nat, exited: bool)
      requires Vars() == IDLE
      modifies this
      ensures LeavesAt(inputs, taken, exited)
      ensures !exited ==> InLoop(forwards, inputs, taken, Vars())
      ensures exited ==> pending == map[] && RepliedOnce(inputs, taken, replies)
      ensures if forwards then ToldOnce(inputs, taken, events) else events == []
    {
      hide Turn, FirstAnswer, Tracks, Conveys, Exits;
      taken, exited := 0, false;
      NothingTaken(forwards, inputs);
      while taken < |inputs| && !exited
        invariant taken <= |inputs| && InLoop(forwards, inputs, taken, Vars())
        invariant forall i :: 0 <= i < taken && Exits(inputs[i]) ==> exited && i == taken - 1
        invariant exited ==> taken > 0 && Exits(inputs[taken - 1])
      {
        TurnKeeps(forwards, inputs, taken, Vars());
        exited := Take(taken, inputs[taken]);
        taken := taken + 1;
      }
      HeardIsTold(forwards, inputs, taken, Vars());
      if exited {
        ghost var s := Vars();
        ghost var order := Drain();
        DrainSpec(inputs, taken, s.pending, s.replies, order);
      }
    }
  }

  lemma NoticesNext(all: map<string, nat>, order: seq<string>, id: string)
    requires id in all && forall x :: x in order ==> x in all
    ensures Notices(all, order + [id]) == Notices(all, order) + [Sent(all[id], WorkerExited)]
  {
  }

  lemma NothingTaken(forwards: bool, inputs: seq<Input>)
    ensures InLoop(forwards, inputs, 0, IDLE)
  {
  }
}
