/** One channel between peers: whose turn it is, what a routed message does, and
    when the round limit ends the conversation. */
module Channels {
  import opened Types
  import opened Collections

  datatype Action =
    | SendTo(job: JobId, message: string)
    | Broadcast(jobs: seq<JobId>, message: string)
    | Close
    | KillParticipants(jobs: seq<JobId>)
    | NotifyPeers(jobs: seq<JobId>, peer: JobId)
    | NoOp

  predicate MayTalk(ch: Channel, sender: JobId) {
    && ch.active
    && sender in ch.participants
    && (ch.mode.TurnBased? ==> ch.speaker < |ch.participants| && ch.participants[ch.speaker] == sender)
  }

  function NextSpeaker(ch: Channel): nat
    requires ch.participants != []
  {
    (ch.speaker + 1) % |ch.participants|
  }

  function NextRound(ch: Channel): nat
    requires ch.participants != []
  {
    if NextSpeaker(ch) == 0 then ch.round + 1 else ch.round
  }

  predicate LimitReached(ch: Channel, round: nat) {
    ch.maxRounds.Some? && round >= ch.maxRounds.value
  }

  function Closed(ch: Channel): Channel {
    ch.(active := false, closed := true)
  }

  function Recorded(ch: Channel, sender: JobId, content: string): Channel
    requires ch.participants != []
  {
    ch.(history := ch.history + [ChannelMessage(sender, content, ch.round)],
        speaker := NextSpeaker(ch),
        round := NextRound(ch))
  }

  function Peers(ch: Channel, job: JobId): seq<JobId> {
    Filter(ch.participants, p => p != job)
  }

  function Forward(ch: Channel, next: nat, sender: JobId, content: string): Action
    requires next < |ch.participants|
  {
    match ch.mode
    case TurnBased => SendTo(ch.participants[next], content)
    case Stream =>
      var targets := Peers(ch, sender);
      if targets == [] then NoOp
      else if |targets| == 1 then SendTo(targets[0], content)
      else Broadcast(targets, content)
  }

  function Route(ch: Channel, sender: JobId, content: string): (Channel, Action) {
    if !MayTalk(ch, sender) then (ch, NoOp)
    else
      var after := Recorded(ch, sender, content);
      if LimitReached(ch, after.round) then (Closed(after), Close)
      else (after, Forward(ch, after.speaker, sender, content))
  }

  function Done(ch: Channel, sender: JobId): (Channel, Action) {
    if ch.active && sender in ch.participants then (Closed(ch), Close) else (ch, NoOp)
  }

  function PeerLost(ch: Channel, job: JobId): (Channel, Action) {
    (Closed(ch),
     match ch.onPeerFailure
     case KillAll => KillParticipants(Peers(ch, job))
     case Continue => NotifyPeers(Peers(ch, job), job))
  }

  // Losing a peer closes the channel; its policy says whether the survivors are
  // killed or told, of that peer. Either way they are exactly the participants
  // but the one lost, each as often as it has a seat.
  lemma PeerLostSpec(ch: Channel, job: JobId)
    ensures var (after, action) := PeerLost(ch, job);
      && after == ch.(active := false, closed := true)
      && (ch.onPeerFailure.KillAll? <==> action.KillParticipants?) && (ch.onPeerFailure.Continue? <==> action.NotifyPeers?)
      && (action.NotifyPeers? ==> action.peer == job)
      && var survivors := if action.KillParticipants? || action.NotifyPeers? then action.jobs else [];
         forall p :: multiset(survivors)[p] == if p == job then 0 else multiset(ch.participants)[p]
  {
    forall p ensures multiset(Peers(ch, job))[p] == if p == job then 0 else multiset(ch.participants)[p] {
      FilterCount(ch.participants, x => x != job, p);
    }
  }

  // ---- The cursor ----

  // Everything the channel remembers about turns, recomputed from its history.
  ghost predicate CursorOk(ch: Channel) {
    var n := |ch.participants|;
    if n == 0 then ch.history == [] && ch.speaker == 0 && ch.round == 0
    else
      && ch.speaker == |ch.history| % n
      && ch.round == |ch.history| / n
      && (forall i :: 0 <= i < |ch.history| ==> ch.history[i].round == i / n)
      && (forall i :: 0 <= i < |ch.history| ==> ch.history[i].sender in ch.participants)
      && (ch.mode.TurnBased? ==>
            forall i :: 0 <= i < |ch.history| ==> ch.history[i].sender == ch.participants[i % n])
  }

  lemma DivModStep(k: nat, n: nat)
    requires n > 0
    ensures (k % n + 1) % n == (k + 1) % n
    ensures (k + 1) / n == if (k + 1) % n == 0 then k / n + 1 else k / n
  {
    var q, r := k / n, k % n;
    assert k == q * n + r;
    if r + 1 < n {
      DivModUnique(k + 1, n, q, r + 1);
      DivModUnique(r + 1, n, 0, r + 1);
    } else {
      assert k + 1 == (q + 1) * n;
      DivModUnique(k + 1, n, q + 1, 0);
      DivModUnique(r + 1, n, 1, 0);
    }
  }

  lemma DivModUnique(k: nat, n: nat, q: nat, r: nat)
    requires n > 0 && k == q * n + r && r < n
    ensures k / n == q && k % n == r
  {
    assert k == (k / n) * n + k % n;
    assert (k / n - q) * n == r - k % n;
    Multiple(k / n - q, n);
  }

  lemma Multiple(d: int, n: int)
    requires n > 0
    ensures d >= 1 ==> d * n >= n
    ensures d <= -1 ==> d * n <= -n
  {
  }

  // Whole rounds against whole messages.
  lemma RoundsInMessages(k: nat, n: nat, m: nat)
    requires n > 0
    ensures k / n >= m <==> k >= m * n
  {
    assert k == (k / n) * n + k % n;
    assert (k / n - m) * n == (k / n) * n - m * n;
    Multiple(k / n - m, n);
  }

  // One more message is one more turn of the seat it came from.
  lemma OneMoreTurn(k: nat, n: nat, i: nat)
    requires i < n
    ensures Turns(k + 1, n, i) == Turns(k, n, i) + if Seat(k, n) == i then 1 else 0
  {
    DivModStep(k, n);
    var r := k % n;
    if r + 1 < n {
      DivModUnique(r + 1, n, 0, r + 1);
    } else {
      DivModUnique(r + 1, n, 1, 0);
    }
  }

  // A message is accepted exactly when its sender may talk; then the history
  // grows by that message and the cursor moves on; otherwise nothing changes.
  lemma RouteSpec(ch: Channel, sender: JobId, content: string)
    requires CursorOk(ch)
    ensures var (after, action) := Route(ch, sender, content);
      && CursorOk(after)
      && (if ch.active && sender in ch.participants
             && (ch.mode.TurnBased? ==> ch.participants[|ch.history| % |ch.participants|] == sender)
          then |after.history| == |ch.history| + 1 && after.history[..|ch.history|] == ch.history
               && after.history[|ch.history|].sender == sender && after.history[|ch.history|].content == content
          else after == ch && action == NoOp)
  {
    if MayTalk(ch, sender) {
      DivModStep(|ch.history|, |ch.participants|);
    }
  }

  // Whom an action sends something to.
  function Recipients(action: Action): seq<JobId> {
    match action
    case SendTo(job, _) => [job]
    case Broadcast(jobs, _) => jobs
    case _ => []
  }

  function MessageOf(action: Action): Option<string> {
    match action
    case SendTo(_, message) => Some(message)
    case Broadcast(_, message) => Some(message)
    case _ => None
  }

  // An accepted message either closes the channel, and goes to nobody, or is
  // passed on as it is: in turns to the one whose turn is next, in a stream to
  // everyone but its sender.
  lemma RouteRecipients(ch: Channel, sender: JobId, content: string)
    requires CursorOk(ch) && MayTalk(ch, sender) && !ch.closed
    ensures var (after, action) := Route(ch, sender, content);
      var n, to := |ch.participants|, Recipients(action);
      && (action == Close <==> after.closed) && (after.closed ==> to == [])
      && (!after.closed && ch.mode.TurnBased? ==> to == [ch.participants[Seat(|ch.history| + 1, n)]])
      && (!after.closed && ch.mode.Stream? ==> forall p :: p in to <==> p in ch.participants && p != sender)
      && (to != [] ==> MessageOf(action) == Some(content))
  {
    DivModStep(|ch.history|, |ch.participants|);
    var peers := Peers(ch, sender);
    assert |peers| == 1 ==> peers == [peers[0]];
  }

  datatype Incoming = Incoming(sender: JobId, content: string)

  function RouteAll(ch: Channel, messages: seq<Incoming>): Channel
    decreases |messages|
  {
    if messages == [] then ch
    else
      var n := |messages| - 1;
      Route(RouteAll(ch, messages[..n]), messages[n].sender, messages[n].content).0
  }

  // The conversation the messages amount to, read off the turn order alone.
  function Accepted(ch: Channel, messages: seq<Incoming>): seq<Incoming>
    decreases |messages|
  {
    if messages == [] then []
    else
      var n := |messages| - 1;
      var before := Accepted(ch, messages[..n]);
      if Turn(ch, |before|, messages[n].sender) then before + [messages[n]] else before
  }

  // Whether sender is heard after k accepted messages: the limit is not
  // exhausted, the sender has a seat, and in turns the seat is the k-th one.
  predicate Turn(ch: Channel, k: nat, sender: JobId) {
    && sender in ch.participants
    && !Exhausted(ch, k)
    && (ch.mode.TurnBased? ==> ch.participants[k % |ch.participants|] == sender)
  }

  // The round limit has been met by k messages. A limit of zero is met by the first.
  predicate Exhausted(ch: Channel, k: nat) {
    ch.maxRounds.Some? && k > 0 && k >= ch.maxRounds.value * |ch.participants|
  }

  ghost predicate NewlyActive(ch: Channel) {
    ch.active && !ch.closed && ch.history == [] && ch.speaker == 0 && ch.round == 0
  }

  // Whatever is sent, in whatever order and by whomever: the channel is the
  // function of its history that CursorOk says; the history is exactly the
  // messages that were in turn; and the channel has closed exactly when the
  // round limit is exhausted.
  lemma {:induction false} ConversationSpec(ch: Channel, messages: seq<Incoming>)
    requires NewlyActive(ch)
    ensures var after, heard := RouteAll(ch, messages), Accepted(ch, messages);
      && CursorOk(after)
      && |after.history| == |heard|
      && (forall i :: 0 <= i < |heard| ==>
            after.history[i].sender == heard[i].sender && after.history[i].content == heard[i].content)
      && after.closed == Exhausted(ch, |heard|) && after.active == !after.closed
      && after == ch.(history := after.history, speaker := after.speaker, round := after.round,
                      active := after.active, closed := after.closed)
    decreases |messages|
  {
    if messages != [] {
      var n := |messages| - 1;
      ConversationSpec(ch, messages[..n]);
      var before := RouteAll(ch, messages[..n]);
      var m := messages[n];
      RouteSpec(before, m.sender, m.content);
      if MayTalk(before, m.sender) {
        LimitInMessages(before, m.sender, m.content);
      }
    }
  }

  lemma LimitInMessages(ch: Channel, sender: JobId, content: string)
    requires CursorOk(ch) && MayTalk(ch, sender)
    ensures LimitReached(ch, Recorded(ch, sender, content).round) <==> Exhausted(ch, |ch.history| + 1)
  {
    var n, k := |ch.participants|, |ch.history| + 1;
    DivModStep(|ch.history|, n);
    assert Recorded(ch, sender, content).round == k / n;
    if ch.maxRounds.Some? {
      RoundsInMessages(k, n, ch.maxRounds.value);
    }
  }

  // Hence with a limit of m >= 1 rounds at most m * n messages are ever
  // accepted and the channel closes on message m * n and no other.
  lemma RoundLimit(ch: Channel, messages: seq<Incoming>)
    requires NewlyActive(ch) && ch.maxRounds.Some? && ch.participants != []
    ensures var after := RouteAll(ch, messages);
      var m, n := ch.maxRounds.value, |ch.participants|;
      if m == 0 then |after.history| <= 1 && (after.closed <==> |after.history| == 1)
      else |after.history| <= m * n && (after.closed <==> |after.history| == m * n)
  {
    hide CursorOk, RouteAll;
    ConversationSpec(ch, messages);
    AcceptedWithinLimit(ch, messages);
    var m, n := ch.maxRounds.value, |ch.participants|;
    if m >= 1 {
      assert m * n >= n;
    }
  }

  lemma {:induction false} AcceptedWithinLimit(ch: Channel, messages: seq<Incoming>)
    requires ch.maxRounds.Some?
    ensures var k, limit := |Accepted(ch, messages)|, ch.maxRounds.value * |ch.participants|;
      k <= limit || (limit == 0 && k <= 1)
    decreases |messages|
  {
    if messages != [] {
      AcceptedWithinLimit(ch, messages[..|messages| - 1]);
    }
  }

  // What the limit leaves true of a channel at any time: one that is not closed
  // has not exhausted it, and nobody ever talks past it.
  ghost predicate WithinLimit(ch: Channel) {
    && (!ch.closed ==> !Exhausted(ch, |ch.history|))
    && (ch.maxRounds.Some? ==>
          var limit := ch.maxRounds.value * |ch.participants|;
          |ch.history| <= limit || (limit == 0 && |ch.history| <= 1))
  }

  lemma RouteWithinLimit(ch: Channel, sender: JobId, content: string)
    requires CursorOk(ch) && WithinLimit(ch) && !(ch.active && ch.closed)
    ensures WithinLimit(Route(ch, sender, content).0)
  {
    if MayTalk(ch, sender) {
      LimitInMessages(ch, sender, content);
    }
  }

  // ---- Fairness ----

  function Spoken(history: seq<ChannelMessage>, p: JobId): nat {
    if history == [] then 0
    else
      var n := |history| - 1;
      Spoken(history[..n], p) + if history[n].sender == p then 1 else 0
  }

  function Seat(k: nat, n: nat): (seat: nat)
    requires n > 0
    ensures seat < n
  {
    k % n
  }

  function Turns(k: nat, n: nat, i: nat): nat
    requires n > 0
  {
    k / n + if i < k % n then 1 else 0
  }

  // In a turn-based channel of distinct participants, seat i has spoken once
  // per completed round, and once more if its turn has come in this one.
  lemma {:induction false} TurnsTaken(participants: seq<JobId>, history: seq<ChannelMessage>, i: nat)
    requires Distinct(participants) && i < |participants|
    requires forall k :: 0 <= k < |history| ==> history[k].sender == participants[Seat(k, |participants|)]
    ensures Spoken(history, participants[i]) == Turns(|history|, |participants|, i)
    decreases |history|
  {
    var n := |participants|;
    if history != [] {
      var k := |history| - 1;
      TurnsTaken(participants, history[..k], i);
      OneMoreTurn(k, n, i);
      assert history[k].sender == participants[i] <==> Seat(k, n) == i;
    }
  }

  // At every moment any two participants have spoken equally often, up to one
  // turn; when the limit of m rounds closes the channel, each has spoken m times.
  lemma Fairness(ch: Channel, messages: seq<Incoming>, p: JobId, q: JobId)
    requires NewlyActive(ch) && ch.mode.TurnBased? && Distinct(ch.participants)
    requires p in ch.participants && q in ch.participants
    ensures var after := RouteAll(ch, messages);
      && Spoken(after.history, p) <= Spoken(after.history, q) + 1
      && (after.closed && ch.maxRounds.Some? && ch.maxRounds.value >= 1 ==> Spoken(after.history, p) == ch.maxRounds.value)
  {
    ConversationSpec(ch, messages);
    var after := RouteAll(ch, messages);
    var i :| 0 <= i < |ch.participants| && ch.participants[i] == p;
    var k :| 0 <= k < |ch.participants| && ch.participants[k] == q;
    TurnsTaken(ch.participants, after.history, i);
    TurnsTaken(ch.participants, after.history, k);
    if after.closed && ch.maxRounds.Some? && ch.maxRounds.value >= 1 {
      RoundLimit(ch, messages);
      DivModUnique(|after.history|, |ch.participants|, ch.maxRounds.value, 0);
    }
  }
}
