/** A turn-based channel as a distributed protocol: the daemon, one bridge per
    worker with its mailbox, and answers on their way back. The workers may say
    anything at any time, under any request id; the daemon may send them other
    work in between. */
module Token {
  import opened Types
  import opened Collections
  import opened Bridge
  import Channels

  datatype Node = Node(inputs: seq<Input>, vars: State)

  // An event on its way from a worker's bridge to the daemon, with the position
  // of the request it answers among the inputs of that bridge.
  datatype Posted = Posted(from: JobId, raised: Raised)

  // origins[i] is the position, at its sender's bridge, of the request that
  // message i of the history answers.
  datatype Net = Net(
    ch: Channel,
    mail: map<JobId, seq<Input>>,
    nodes: map<JobId, Node>,
    queue: seq<Posted>,
    origins: seq<nat>
  )

  datatype Step =
    | Activate
    | Command(to: JobId, command: Input)
    | Deliver(to: JobId)
    | Output(worker: JobId, output: Input)
    | Handle

  function Raises(vars: State, x: Input): seq<Raised> {
    if x.ChatResponse? && x.id !in vars.pending && x.id in vars.pendingChannel
    then [Raised(vars.pendingChannel[x.id].ticket, EventOf(vars.pendingChannel[x.id].channel, x.result))]
    else []
  }

  // What the bridge tells the orchestrator in one turn: what its event log grows by.
  function News(vars: State, i: nat, x: Input): seq<Raised> {
    var told := Turn(true, vars, i, x).events;
    if |told| > |vars.events| then told[|vars.events|..] else []
  }

  lemma NewsIsRaised(vars: State, i: nat, x: Input)
    ensures Turn(true, vars, i, x).events == vars.events + Raises(vars, x)
    ensures News(vars, i, x) == Raises(vars, x)
  {
  }

  function Fed(node: Node, x: Input): Node {
    Node(node.inputs + [x], Turn(true, node.vars, |node.inputs|, x))
  }

  // No command is sent to a worker that is gone, none fails to be written, and
  // no worker leaves or reports that it could not answer a channel message.
  ghost predicate Allowed(s: Net, c: ChannelId, e: Step) {
    match e
    case Activate => !s.ch.active && !s.ch.closed
    case Command(to, x) =>
      to in s.mail && !Exits(x) && IsCommand(x) && (x.ChannelMessage? ==> x.channel != c)
    case Deliver(to) => to in s.mail && s.mail[to] != []
    case Output(worker, x) =>
      && worker in s.nodes && !Exits(x)
      && (x.ChatResponse? || x.Status? || x.OtherOutput?)
      && forall r :: r in News(s.nodes[worker].vars, |s.nodes[worker].inputs|, x) ==> r.event.Spoken?
    case Handle => s.queue != []
  }

  function Post(mail: map<JobId, seq<Input>>, to: JobId, x: Input): map<JobId, seq<Input>> {
    if to in mail then mail[to := mail[to] + [x]] else mail
  }

  function PostAll(from: JobId, raised: seq<Raised>): seq<Posted> {
    if raised == [] then [] else [Posted(from, raised[0])] + PostAll(from, raised[1..])
  }

  ghost function Next(s: Net, c: ChannelId, e: Step): Net {
    match e
    case Activate =>
      var on := s.(ch := s.ch.(active := true));
      if s.ch.history == [] && s.ch.initial.Some? && s.ch.participants != []
      then on.(mail := Post(s.mail, s.ch.participants[0], Input.ChannelMessage(c, s.ch.initial.value, true)))
      else on
    case Command(to, x) => s.(mail := Post(s.mail, to, x))
    case Deliver(to) =>
      if to in s.mail && to in s.nodes && s.mail[to] != [] then
        s.(mail := s.mail[to := s.mail[to][1..]],
           nodes := s.nodes[to := Fed(s.nodes[to], s.mail[to][0])])
      else s
    case Output(worker, x) =>
      if worker in s.nodes then
        s.(nodes := s.nodes[worker := Fed(s.nodes[worker], x)],
           queue := s.queue + PostAll(worker, News(s.nodes[worker].vars, |s.nodes[worker].inputs|, x)))
      else s
    case Handle =>
      if s.queue == [] then s
      else
        var m, rest := s.queue[0], s.(queue := s.queue[1..]);
        if m.raised.event.Spoken? && m.raised.event.channel == c
        then Routed(rest, c, m.from, m.raised)
        else rest
  }

  // The daemon routes an answer and forwards what it is told to.
  ghost function Routed(s: Net, c: ChannelId, from: JobId, r: Raised): Net
    requires r.event.Spoken?
  {
    var (ch, action) := Channels.Route(s.ch, from, r.event.content);
    s.(ch := ch,
       origins := if |ch.history| > |s.ch.history| then s.origins + [r.ticket] else s.origins,
       mail := if action.SendTo? then Post(s.mail, action.job, Input.ChannelMessage(c, action.message, true)) else s.mail)
  }

  // ---- Where the token is ----

  datatype Place = InMail(job: JobId, at: nat) | InTable(job: JobId, id: string) | InQueue(at: nat)

  ghost predicate At(s: Net, c: ChannelId, p: Place) {
    match p
    case InMail(j, k) => j in s.mail && k < |s.mail[j]| && s.mail[j][k].ChannelMessage? && s.mail[j][k].channel == c
    case InTable(j, id) =>
      j in s.nodes && id in s.nodes[j].vars.pendingChannel && s.nodes[j].vars.pendingChannel[id].channel == c
    case InQueue(k) =>
      k < |s.queue| && s.queue[k].raised.event.Spoken? && s.queue[k].raised.event.channel == c
  }

  // A request of channel c carrying that text was taken by j's bridge there.
  ghost predicate Asked(s: Net, c: ChannelId, j: JobId, ticket: nat, text: string) {
    && j in s.nodes && ticket < |s.nodes[j].inputs|
    && s.nodes[j].inputs[ticket].ChannelMessage?
    && s.nodes[j].inputs[ticket].channel == c && s.nodes[j].inputs[ticket].message == text
  }

  // The token is addressed to job j and carries the text j is to answer.
  ghost predicate Carries(s: Net, c: ChannelId, p: Place, j: JobId, text: string)
    requires At(s, c, p)
  {
    match p
    case InMail(to, k) => to == j && s.mail[to][k].message == text
    case InTable(to, id) => to == j && Asked(s, c, j, s.nodes[to].vars.pendingChannel[id].ticket, text)
    case InQueue(k) => s.queue[k].from == j && Asked(s, c, j, s.queue[k].raised.ticket, text)
  }

  ghost predicate Only(s: Net, c: ChannelId, p: Place) {
    At(s, c, p) && forall q :: At(s, c, q) ==> q == p
  }

  ghost predicate Nowhere(s: Net, c: ChannelId) {
    forall q :: !At(s, c, q)
  }

  // What the next speaker is to answer: the last message, or the initial one.
  function Heard(ch: Channel, n: nat): string
    requires n <= |ch.history| && ch.initial.Some?
  {
    if n == 0 then ch.initial.value else ch.history[n - 1].content
  }

  ghost predicate Single(s: Net, c: ChannelId)
    requires s.ch.initial.Some?
  {
    if s.ch.active then
      && s.ch.speaker < |s.ch.participants|
      && exists p :: Only(s, c, p)
           && Carries(s, c, p, s.ch.participants[s.ch.speaker], Heard(s.ch, |s.ch.history|))
    else Nowhere(s, c)
  }

  // Message i of the history is the answer of its sender to message i - 1.
  ghost predicate Conversed(s: Net, c: ChannelId)
    requires s.ch.initial.Some?
  {
    && |s.origins| == |s.ch.history|
    && forall i :: 0 <= i < |s.origins| ==> Asked(s, c, s.ch.history[i].sender, s.origins[i], Heard(s.ch, i))
  }

  // Ids in a bridge's table were issued by it.
  ghost predicate Issued(vars: State) {
    forall id :: id in vars.pendingChannel ==> exists k: nat :: k <= vars.counter && id == RequestId(k)
  }

  predicate IsCommand(x: Input) {
    x.UserMessage? || x.ChannelMessage? || x.JobExecute?
  }

  ghost predicate MailOk(mail: map<JobId, seq<Input>>) {
    forall j, k :: j in mail && 0 <= k < |mail[j]| ==> IsCommand(mail[j][k])
  }

  ghost predicate NetOk(s: Net, c: ChannelId) {
    && s.ch.mode.TurnBased? && s.ch.initial.Some? && s.ch.participants != []
    && s.mail.Keys == s.nodes.Keys
    && (forall p :: p in s.ch.participants ==> p in s.mail)
    && MailOk(s.mail)
    && (forall j :: j in s.nodes ==> Issued(s.nodes[j].vars))
    && Channels.CursorOk(s.ch) && (s.ch.active ==> !s.ch.closed)
    && (!s.ch.active && !s.ch.closed ==> s.ch.history == [])
    && Single(s, c) && Conversed(s, c)
  }

  // ---- Each step keeps it ----

  lemma AskedGrows(s: Net, t: Net, c: ChannelId, j: JobId, ticket: nat, text: string)
    requires Asked(s, c, j, ticket, text)
    requires j in t.nodes && s.nodes[j].inputs <= t.nodes[j].inputs
    ensures Asked(t, c, j, ticket, text)
  {
  }

  ghost predicate NodesGrow(s: Net, t: Net) {
    t.nodes.Keys == s.nodes.Keys && forall j :: j in s.nodes ==> s.nodes[j].inputs <= t.nodes[j].inputs
  }

  lemma ConversedGrows(s: Net, t: Net, c: ChannelId)
    requires s.ch.initial.Some? && Conversed(s, c) && NodesGrow(s, t)
    requires t.origins == s.origins && t.ch.history == s.ch.history && t.ch.initial == s.ch.initial
    ensures Conversed(t, c)
  {
    forall i | 0 <= i < |t.origins| ensures Asked(t, c, t.ch.history[i].sender, t.origins[i], Heard(t.ch, i)) {
      assert Heard(t.ch, i) == Heard(s.ch, i);
      AskedGrows(s, t, c, s.ch.history[i].sender, s.origins[i], Heard(s.ch, i));
    }
  }

  // The token has moved from p to q, or stayed.
  lemma TokenMoves(s: Net, t: Net, c: ChannelId, p: Place, q: Place)
    requires s.ch.initial.Some? && t.ch == s.ch && s.ch.active && s.ch.speaker < |s.ch.participants|
    requires Only(t, c, q)
    requires Carries(t, c, q, s.ch.participants[s.ch.speaker], Heard(s.ch, |s.ch.history|))
    ensures Single(t, c)
  {
  }

  lemma FreshId(vars: State)
    requires Issued(vars)
    ensures RequestId(vars.counter + 1) !in vars.pendingChannel
  {
    if RequestId(vars.counter + 1) in vars.pendingChannel {
      var k: nat :| k <= vars.counter && RequestId(vars.counter + 1) == RequestId(k);
      RequestIdInjective(k, vars.counter + 1);
    }
  }

  lemma TurnIssued(vars: State, i: nat, x: Input)
    requires Issued(vars)
    ensures Issued(Turn(true, vars, i, x))
  {
    var t := Turn(true, vars, i, x);
    forall id | id in t.pendingChannel ensures exists k: nat :: k <= t.counter && id == RequestId(k) {
      if id in vars.pendingChannel {
        var k: nat :| k <= vars.counter && id == RequestId(k);
      } else {
        assert id == RequestId(t.counter);
      }
    }
  }

  // -- a command from elsewhere

  lemma CommandSingle(s: Net, c: ChannelId, to: JobId, x: Input)
    requires NetOk(s, c) && Allowed(s, c, Command(to, x))
    ensures Single(Next(s, c, Command(to, x)), c)
  {
    var t := Next(s, c, Command(to, x));
    forall q ensures At(t, c, q) <==> At(s, c, q) {
    }
    if s.ch.active {
      var p :| Only(s, c, p) && Carries(s, c, p, s.ch.participants[s.ch.speaker], Heard(s.ch, |s.ch.history|));
      TokenMoves(s, t, c, p, p);
    }
  }

  // -- a bridge takes a command

  function Delivered(to: JobId, id: string, p: Place): Place {
    match p
    case InMail(j, k) => if j != to then p else if k == 0 then InTable(to, id) else InMail(j, k - 1)
    case _ => p
  }

  lemma DeliverAt(s: Net, c: ChannelId, to: JobId, p: Place)
    requires NetOk(s, c) && Allowed(s, c, Deliver(to)) && At(s, c, p)
    ensures At(Next(s, c, Deliver(to)), c, Delivered(to, RequestId(s.nodes[to].vars.counter + 1), p))
  {
    hide Conversed, Single, Channels.CursorOk, RequestId;
    FreshId(s.nodes[to].vars);
  }

  lemma DeliverGrows(s: Net, c: ChannelId, to: JobId)
    requires to in s.nodes
    ensures NodesGrow(s, Next(s, c, Deliver(to)))
  {
  }

  lemma DeliverCarries(s: Net, c: ChannelId, to: JobId, p: Place, j: JobId, text: string)
    requires NetOk(s, c) && Allowed(s, c, Deliver(to)) && At(s, c, p) && Carries(s, c, p, j, text)
    requires At(Next(s, c, Deliver(to)), c, Delivered(to, RequestId(s.nodes[to].vars.counter + 1), p))
    ensures Carries(Next(s, c, Deliver(to)), c, Delivered(to, RequestId(s.nodes[to].vars.counter + 1), p), j, text)
  {
    hide Conversed, Single, Channels.CursorOk, RequestId;
    var t := Next(s, c, Deliver(to));
    DeliverGrows(s, c, to);
    FreshId(s.nodes[to].vars);
    match p
    case InMail(k, n) =>
    case InTable(k, id) =>
      AskedGrows(s, t, c, j, s.nodes[k].vars.pendingChannel[id].ticket, text);
    case InQueue(n) =>
      AskedGrows(s, t, c, j, s.queue[n].raised.ticket, text);
  }

  lemma DeliverBack(s: Net, c: ChannelId, to: JobId, q: Place) returns (p: Place)
    requires NetOk(s, c) && Allowed(s, c, Deliver(to)) && At(Next(s, c, Deliver(to)), c, q)
    ensures At(s, c, p) && q == Delivered(to, RequestId(s.nodes[to].vars.counter + 1), p)
  {
    var id := RequestId(s.nodes[to].vars.counter + 1);
    FreshId(s.nodes[to].vars);
    match q
    case InMail(j, k) => p := if j == to then InMail(j, k + 1) else q;
    case InTable(j, i) => p := if j == to && i == id && s.mail[to][0].ChannelMessage? then InMail(to, 0) else q;
    case InQueue(k) => p := q;
  }

  lemma DeliverSingle(s: Net, c: ChannelId, to: JobId)
    requires NetOk(s, c) && Allowed(s, c, Deliver(to))
    ensures Single(Next(s, c, Deliver(to)), c)
  {
    var t, id := Next(s, c, Deliver(to)), RequestId(s.nodes[to].vars.counter + 1);
    forall q | At(t, c, q) ensures exists p :: At(s, c, p) && q == Delivered(to, id, p) {
      var p := DeliverBack(s, c, to, q);
    }
    if s.ch.active {
      var p :| Only(s, c, p) && Carries(s, c, p, s.ch.participants[s.ch.speaker], Heard(s.ch, |s.ch.history|));
      DeliverAt(s, c, to, p);
      DeliverCarries(s, c, to, p, s.ch.participants[s.ch.speaker], Heard(s.ch, |s.ch.history|));
      TokenMoves(s, t, c, p, Delivered(to, id, p));
    }
  }

  // -- a worker says something

  function Said(worker: JobId, id: string, last: nat, p: Place): Place {
    if p == InTable(worker, id) then InQueue(last) else p
  }

  // The id the output answers to, if it answers to one of channel requests.
  ghost predicate Hits(s: Net, worker: JobId, x: Input) {
    worker in s.nodes && Raises(s.nodes[worker].vars, x) != []
  }

  lemma PostOne(from: JobId, r: Raised)
    ensures PostAll(from, [r]) == [Posted(from, r)]
  {
    assert PostAll(from, [r][1..]) == [];
  }

  lemma OutputQueue(s: Net, c: ChannelId, worker: JobId, x: Input)
    requires worker in s.nodes
    ensures Next(s, c, Output(worker, x)).queue == s.queue +
      if Hits(s, worker, x) then [Posted(worker, Raises(s.nodes[worker].vars, x)[0])] else []
  {
    NewsIsRaised(s.nodes[worker].vars, |s.nodes[worker].inputs|, x);
    if Hits(s, worker, x) {
      PostOne(worker, Raises(s.nodes[worker].vars, x)[0]);
    }
  }

  lemma OutputAt(s: Net, c: ChannelId, worker: JobId, x: Input, p: Place)
    requires NetOk(s, c) && Allowed(s, c, Output(worker, x)) && At(s, c, p)
    ensures At(Next(s, c, Output(worker, x)), c, if Hits(s, worker, x) then Said(worker, x.id, |s.queue|, p) else p)
  {
    hide Conversed, Single, Channels.CursorOk, RequestId;
    hide News, PostAll;
    OutputQueue(s, c, worker, x);
    NewsIsRaised(s.nodes[worker].vars, |s.nodes[worker].inputs|, x);
    if Hits(s, worker, x) {
      assert Raises(s.nodes[worker].vars, x)[0] in Raises(s.nodes[worker].vars, x);
    }
  }

  lemma OutputGrows(s: Net, c: ChannelId, worker: JobId, x: Input)
    requires worker in s.nodes
    ensures NodesGrow(s, Next(s, c, Output(worker, x)))
  {
  }

  lemma OutputCarries(s: Net, c: ChannelId, worker: JobId, x: Input, p: Place, q: Place, j: JobId, text: string)
    requires NetOk(s, c) && Allowed(s, c, Output(worker, x)) && At(s, c, p) && Carries(s, c, p, j, text)
    requires q == if Hits(s, worker, x) then Said(worker, x.id, |s.queue|, p) else p
    requires At(Next(s, c, Output(worker, x)), c, q)
    ensures Carries(Next(s, c, Output(worker, x)), c, q, j, text)
  {
    hide Conversed, Single, Channels.CursorOk, RequestId, PostAll, News;
    var t := Next(s, c, Output(worker, x));
    OutputQueue(s, c, worker, x);
    OutputGrows(s, c, worker, x);
    match p
    case InMail(k, n) =>
    case InTable(k, id) =>
      AskedGrows(s, t, c, j, s.nodes[k].vars.pendingChannel[id].ticket, text);
    case InQueue(n) =>
      AskedGrows(s, t, c, j, s.queue[n].raised.ticket, text);
  }

  lemma OutputBack(s: Net, c: ChannelId, worker: JobId, x: Input, q: Place) returns (p: Place)
    requires NetOk(s, c) && Allowed(s, c, Output(worker, x)) && At(Next(s, c, Output(worker, x)), c, q)
    ensures At(s, c, p) && q == if Hits(s, worker, x) then Said(worker, x.id, |s.queue|, p) else p
  {
    hide News, PostAll, Conversed, Single;
    OutputQueue(s, c, worker, x);
    NewsIsRaised(s.nodes[worker].vars, |s.nodes[worker].inputs|, x);
    if Hits(s, worker, x) && q == InQueue(|s.queue|) {
      p := InTable(worker, x.id);
      assert Raises(s.nodes[worker].vars, x)[0] in Raises(s.nodes[worker].vars, x);
    } else {
      p := q;
    }
  }

  lemma OutputSingle(s: Net, c: ChannelId, worker: JobId, x: Input)
    requires NetOk(s, c) && Allowed(s, c, Output(worker, x))
    ensures Single(Next(s, c, Output(worker, x)), c)
  {
    var t, hit := Next(s, c, Output(worker, x)), Hits(s, worker, x);
    forall q | At(t, c, q)
      ensures exists p :: At(s, c, p) && q == if hit then Said(worker, x.id, |s.queue|, p) else p
    {
      var p := OutputBack(s, c, worker, x, q);
    }
    if s.ch.active {
      var p :| Only(s, c, p) && Carries(s, c, p, s.ch.participants[s.ch.speaker], Heard(s.ch, |s.ch.history|));
      var q := if hit then Said(worker, x.id, |s.queue|, p) else p;
      OutputAt(s, c, worker, x, p);
      OutputCarries(s, c, worker, x, p, q, s.ch.participants[s.ch.speaker], Heard(s.ch, |s.ch.history|));
      TokenMoves(s, t, c, p, q);
    }
  }

  // -- the daemon starts the conversation

  lemma ActivateSingle(s: Net, c: ChannelId)
    requires NetOk(s, c) && Allowed(s, c, Activate)
    ensures Single(Next(s, c, Activate), c)
  {
    var t, first := Next(s, c, Activate), s.ch.participants[0];
    var p := InMail(first, |s.mail[first]|);
    assert s.ch.history == [] && s.ch.speaker == 0;
    assert Nowhere(s, c);
    forall q | At(t, c, q) ensures q == p {
      assert !At(s, c, q);
    }
    assert Only(t, c, p) && Carries(t, c, p, first, Heard(t.ch, 0));
  }

  // -- the daemon handles an answer

  function Shifted(p: Place): Place {
    match p
    case InQueue(k) => if k > 0 then InQueue(k - 1) else p
    case _ => p
  }

  lemma QueueShift(s: Net, t: Net, c: ChannelId, q: Place)
    requires s.queue != [] && t.queue == s.queue[1..] && t.mail == s.mail && t.nodes == s.nodes
    requires At(t, c, q)
    ensures var p := if q.InQueue? then InQueue(q.at + 1) else q;
      At(s, c, p) && q == Shifted(p) && forall j, text :: Carries(t, c, q, j, text) <==> Carries(s, c, p, j, text)
  {
  }

  lemma ShiftSingle(s: Net, t: Net, c: ChannelId)
    requires NetOk(s, c) && s.queue != [] && t == s.(queue := s.queue[1..]) && !At(s, c, InQueue(0))
    ensures Single(t, c)
  {
    if s.ch.active {
      var p :| Only(s, c, p) && Carries(s, c, p, s.ch.participants[s.ch.speaker], Heard(s.ch, |s.ch.history|));
      var q := Shifted(p);
      assert At(t, c, q);
      forall x | At(t, c, x) ensures x == q {
        QueueShift(s, t, c, x);
      }
      QueueShift(s, t, c, q);
      TokenMoves(s, t, c, p, q);
    } else {
      forall x | At(t, c, x) ensures false {
        QueueShift(s, t, c, x);
      }
    }
  }

  // An answer that reaches the daemon is that of the current speaker, to the
  // message that is to be answered: it is never out of turn.
  lemma AnswerInTurn(s: Net, c: ChannelId)
    requires NetOk(s, c) && At(s, c, InQueue(0))
    ensures s.ch.active && Only(s, c, InQueue(0))
    ensures Channels.MayTalk(s.ch, s.queue[0].from)
    ensures Asked(s, c, s.queue[0].from, s.queue[0].raised.ticket, Heard(s.ch, |s.ch.history|))
  {
    var p :| Only(s, c, p) && Carries(s, c, p, s.ch.participants[s.ch.speaker], Heard(s.ch, |s.ch.history|));
    assert p == InQueue(0);
  }

  // Routing an answer in turn: the history grows by it, and the next speaker
  // is asked, unless the round limit is reached.
  lemma RouteShape(ch: Channel, from: JobId, content: string)
    requires Channels.CursorOk(ch) && ch.mode.TurnBased? && Channels.MayTalk(ch, from) && !ch.closed
    ensures var (after, action) := Channels.Route(ch, from, content);
      && |after.history| == |ch.history| + 1 && after.history[..|ch.history|] == ch.history
      && after.history[|ch.history|].sender == from && after.history[|ch.history|].content == content
      && after.initial == ch.initial && after.participants == ch.participants && after.mode == ch.mode
      && (if after.active
          then !after.closed && after.speaker < |after.participants|
               && action == Channels.SendTo(after.participants[after.speaker], content)
          else after.closed && action.Close?)
  {
  }

  lemma HandleSingle(s: Net, c: ChannelId)
    requires NetOk(s, c) && At(s, c, InQueue(0))
    ensures Single(Next(s, c, Handle), c)
  {
    hide Conversed, MailOk, Issued, Channels.CursorOk, Channels.Route, Asked;
    var t, m := Next(s, c, Handle), s.queue[0];
    AnswerInTurn(s, c);
    RouteShape(s.ch, m.from, m.raised.event.content);
    var rest := s.(queue := s.queue[1..]);
    forall q ensures !At(rest, c, q) {
      if At(rest, c, q) { QueueShift(s, rest, c, q); }
    }
    if t.ch.active {
      var j := t.ch.participants[t.ch.speaker];
      var p := InMail(j, |s.mail[j]|);
      forall q | At(t, c, q) ensures q == p {
        assert !At(rest, c, q);
      }
      assert Only(t, c, p) && Carries(t, c, p, j, Heard(t.ch, |t.ch.history|));
    } else {
      forall q ensures !At(t, c, q) {
        assert !At(rest, c, q);
      }
    }
  }

  lemma ConversedNext(s: Net, t: Net, c: ChannelId, from: JobId, ticket: nat)
    requires s.ch.initial.Some? && Conversed(s, c) && t.nodes == s.nodes && t.origins == s.origins + [ticket]
    requires t.ch.initial == s.ch.initial && |t.ch.history| == |s.ch.history| + 1
    requires t.ch.history[..|s.ch.history|] == s.ch.history && t.ch.history[|s.ch.history|].sender == from
    requires Asked(s, c, from, ticket, Heard(s.ch, |s.ch.history|))
    ensures Conversed(t, c)
  {
    assert forall i :: 0 <= i < |s.ch.history| ==> t.ch.history[i] == s.ch.history[i];
    forall i | 0 <= i < |t.origins| ensures Asked(t, c, t.ch.history[i].sender, t.origins[i], Heard(t.ch, i)) {
      assert Heard(t.ch, i) == Heard(s.ch, i);
      if i < |s.origins| {
        assert Asked(s, c, s.ch.history[i].sender, s.origins[i], Heard(s.ch, i));
      }
    }
  }

  lemma HandleConversed(s: Net, c: ChannelId)
    requires NetOk(s, c) && At(s, c, InQueue(0))
    ensures Conversed(Next(s, c, Handle), c)
  {
    hide Single, Conversed, Asked, Heard, MailOk, Issued, Channels.Route;
    var m := s.queue[0];
    AnswerInTurn(s, c);
    RouteShape(s.ch, m.from, m.raised.event.content);
    ConversedNext(s, Next(s, c, Handle), c, m.from, m.raised.ticket);
  }

  // -- any step

  lemma ElsewhereKeeps(s: Net, t: Net, c: ChannelId)
    requires NetOk(s, c) && t.ch == s.ch && NodesGrow(s, t) && t.origins == s.origins
    requires t.mail.Keys == s.mail.Keys && MailOk(t.mail)
    requires forall j :: j in t.nodes ==> Issued(t.nodes[j].vars)
    requires Single(t, c)
    ensures NetOk(t, c)
  {
    hide Single, Issued, Asked, MailOk, Channels.CursorOk;
    ConversedGrows(s, t, c);
  }

  lemma HandleKeeps(s: Net, c: ChannelId)
    requires NetOk(s, c) && At(s, c, InQueue(0))
    ensures NetOk(Next(s, c, Handle), c)
    ensures |Next(s, c, Handle).ch.history| == |s.ch.history| + 1
  {
    hide Single, Conversed, Issued;
    var m := s.queue[0];
    AnswerInTurn(s, c);
    RouteShape(s.ch, m.from, m.raised.event.content);
    Channels.RouteSpec(s.ch, m.from, m.raised.event.content);
    HandleSingle(s, c);
    HandleConversed(s, c);
  }

  lemma StepKeepsNet(s: Net, c: ChannelId, e: Step)
    requires NetOk(s, c) && Allowed(s, c, e)
    ensures NetOk(Next(s, c, e), c)
  {
    hide Single, Conversed, Issued;
    var t := Next(s, c, e);
    match e
    case Activate =>
      ActivateSingle(s, c);
      ActivateKeeps(s, c);
    case Command(to, x) =>
      CommandSingle(s, c, to, x);
      ElsewhereKeeps(s, t, c);
    case Deliver(to) =>
      DeliverSingle(s, c, to);
      DeliverGrows(s, c, to);
      TurnIssued(s.nodes[to].vars, |s.nodes[to].inputs|, s.mail[to][0]);
      ElsewhereKeeps(s, t, c);
    case Output(worker, x) =>
      OutputSingle(s, c, worker, x);
      OutputGrows(s, c, worker, x);
      TurnIssued(s.nodes[worker].vars, |s.nodes[worker].inputs|, x);
      ElsewhereKeeps(s, t, c);
    case Handle =>
      if At(s, c, InQueue(0)) {
        HandleKeeps(s, c);
      } else {
        ShiftSingle(s, t, c);
        ElsewhereKeeps(s, t, c);
      }
  }

  lemma ActivateKeeps(s: Net, c: ChannelId)
    requires NetOk(s, c) && Allowed(s, c, Activate) && Single(Next(s, c, Activate), c)
    ensures NetOk(Next(s, c, Activate), c)
  {
    hide Single, Issued;
    var t := Next(s, c, Activate);
    assert s.origins == [] && t.origins == [];
  }

  // ---- Whole runs ----

  ghost function Play(s: Net, c: ChannelId, steps: seq<Step>): Net {
    if steps == [] then s else Next(Play(s, c, steps[..|steps| - 1]), c, steps[|steps| - 1])
  }

  ghost predicate Playable(s: Net, c: ChannelId, steps: seq<Step>) {
    steps != [] ==>
      Playable(s, c, steps[..|steps| - 1]) && Allowed(Play(s, c, steps[..|steps| - 1]), c, steps[|steps| - 1])
  }

  // The channel has just been created, its workers have just been started; they
  // may have been sent setup prompts and other commands.
  ghost predicate Starting(s: Net, c: ChannelId) {
    && s.ch.mode.TurnBased? && s.ch.initial.Some? && s.ch.participants != []
    && s.mail.Keys == s.nodes.Keys && (forall p :: p in s.ch.participants ==> p in s.mail)
    && !s.ch.active && !s.ch.closed && s.ch.history == [] && s.ch.speaker == 0 && s.ch.round == 0
    && MailOk(s.mail)
    && (forall j, k :: j in s.mail && 0 <= k < |s.mail[j]| && s.mail[j][k].ChannelMessage? ==> s.mail[j][k].channel != c)
    && (forall j :: j in s.nodes ==> s.nodes[j] == Node([], IDLE))
    && s.queue == [] && s.origins == []
  }

  lemma StartingIsOk(s: Net, c: ChannelId)
    requires Starting(s, c)
    ensures NetOk(s, c)
  {
    assert Nowhere(s, c);
    assert Channels.CursorOk(s.ch);
  }

  // One token: at every moment of every run, while the channel is active there
  // is exactly one request or answer of it under way - in a mailbox, with a
  // worker, or in the event queue - it is the current speaker's, and it carries
  // the message the speaker is to answer. While the channel is not active there
  // is none.
  lemma {:induction false} SingleToken(s: Net, c: ChannelId, steps: seq<Step>)
    requires Starting(s, c) && Playable(s, c, steps)
    ensures NetOk(Play(s, c, steps), c)
  {
    hide NetOk, Starting, Allowed, Next;
    if steps == [] {
      StartingIsOk(s, c);
    } else {
      SingleToken(s, c, steps[..|steps| - 1]);
      StepKeepsNet(Play(s, c, steps[..|steps| - 1]), c, steps[|steps| - 1]);
    }
  }

  // So no answer that reaches the daemon is ever turned away,
  lemma NoAnswerRejected(s: Net, c: ChannelId, steps: seq<Step>)
    requires Starting(s, c) && Playable(s, c, steps) && At(Play(s, c, steps), c, InQueue(0))
    ensures var t := Play(s, c, steps);
      && t.ch.active && t.ch.speaker < |t.ch.participants| && t.queue[0].from == t.ch.participants[t.ch.speaker]
      && |Next(t, c, Handle).ch.history| == |t.ch.history| + 1
  {
    hide Starting, Playable, Play, Single, Conversed, Next, Channels.CursorOk;
    var t := Play(s, c, steps);
    SingleToken(s, c, steps);
    AnswerInTurn(t, c);
    HandleKeeps(t, c);
  }

  // ---- What is said ----

  // The first response that came to the request taken by j's bridge there, under
  // the id it went out with, is that text.
  ghost predicate Answered(s: Net, j: JobId, ticket: nat, text: string) {
    && j in s.nodes && ticket < |s.nodes[j].inputs|
    && var inputs := s.nodes[j].inputs;
       var k := FirstAnswer(inputs, ticket, |inputs|);
       k.Some? && inputs[k.value].result == Ok(text)
  }

  // Every bridge is as its inputs say.
  ghost predicate NodesOk(s: Net) {
    forall j :: j in s.nodes ==> InLoop(true, s.nodes[j].inputs, |s.nodes[j].inputs|, s.nodes[j].vars)
  }

  ghost predicate QueueAnswered(s: Net) {
    forall k :: 0 <= k < |s.queue| && s.queue[k].raised.event.Spoken? ==>
      Answered(s, s.queue[k].from, s.queue[k].raised.ticket, s.queue[k].raised.event.content)
  }

  ghost predicate HistoryAnswered(s: Net) {
    && |s.origins| == |s.ch.history|
    && forall i :: 0 <= i < |s.origins| ==> Answered(s, s.ch.history[i].sender, s.origins[i], s.ch.history[i].content)
  }

  ghost predicate SaidOk(s: Net) {
    NodesOk(s) && QueueAnswered(s) && HistoryAnswered(s)
  }

  lemma AnsweredGrows(s: Net, t: Net, j: JobId, ticket: nat, text: string)
    requires Answered(s, j, ticket, text) && NodesGrow(s, t)
    ensures Answered(t, j, ticket, text)
  {
    AnswerRemains(s.nodes[j].inputs, t.nodes[j].inputs, ticket);
  }

  lemma FedIsOk(node: Node, x: Input)
    requires InLoop(true, node.inputs, |node.inputs|, node.vars)
    ensures var fed := Fed(node, x); InLoop(true, fed.inputs, |fed.inputs|, fed.vars)
  {
    hide InLoop, Turn;
    InLoopPrefix(true, node.inputs, node.inputs + [x], |node.inputs|, node.vars);
    TurnKeeps(true, node.inputs + [x], |node.inputs|, node.vars);
  }

  // What a bridge reports as said is the answer.
  lemma NewsIsAnswer(s: Net, worker: JobId, x: Input, r: Raised)
    requires worker in s.nodes && NodesOk(s) && r.event.Spoken?
    requires r in News(s.nodes[worker].vars, |s.nodes[worker].inputs|, x)
    ensures var fed := Fed(s.nodes[worker], x);
      Answered(s.(nodes := s.nodes[worker := fed]), worker, r.ticket, r.event.content)
  {
    hide FirstAnswer, Tracks, Turn;
    var node := s.nodes[worker];
    FedIsOk(node, x);
    var fed := Fed(node, x);
    assert ToldAll(true, fed.inputs, |fed.inputs|, fed.vars);
    assert r in fed.vars.events;
    assert Told(fed.inputs, |fed.inputs|, r);
  }

  lemma SaidKept(s: Net, t: Net)
    requires SaidOk(s) && NodesGrow(s, t) && NodesOk(t)
    requires t.origins == s.origins && t.ch.history == s.ch.history
    requires forall k :: 0 <= k < |t.queue| ==> t.queue[k] in s.queue
    ensures SaidOk(t)
  {
    hide Answered, NodesOk, NodesGrow;
    forall j, ticket, text | Answered(s, j, ticket, text) ensures Answered(t, j, ticket, text) {
      AnsweredGrows(s, t, j, ticket, text);
    }
    forall k | 0 <= k < |t.queue| && t.queue[k].raised.event.Spoken?
      ensures Answered(t, t.queue[k].from, t.queue[k].raised.ticket, t.queue[k].raised.event.content)
    {
      var i :| 0 <= i < |s.queue| && s.queue[i] == t.queue[k];
    }
  }

  lemma DeliverSaid(s: Net, c: ChannelId, to: JobId)
    requires SaidOk(s) && Allowed(s, c, Deliver(to)) && to in s.nodes
    ensures SaidOk(Next(s, c, Deliver(to)))
  {
    hide InLoop, QueueAnswered, HistoryAnswered, Turn, Exits;
    DeliverGrows(s, c, to);
    FedIsOk(s.nodes[to], s.mail[to][0]);
    SaidKept(s, Next(s, c, Deliver(to)));
  }

  lemma {:induction false} PostedAre(from: JobId, raised: seq<Raised>)
    ensures forall m :: m in PostAll(from, raised) ==> m.from == from && m.raised in raised
  {
    if raised != [] {
      PostedAre(from, raised[1..]);
    }
  }

  lemma OutputSaid(s: Net, c: ChannelId, worker: JobId, x: Input)
    requires SaidOk(s) && worker in s.nodes
    ensures SaidOk(Next(s, c, Output(worker, x)))
  {
    hide InLoop, Turn, Answered, HistoryAnswered, News, NodesGrow;
    var t := Next(s, c, Output(worker, x));
    var news := News(s.nodes[worker].vars, |s.nodes[worker].inputs|, x);
    var fed := s.(nodes := t.nodes);
    OutputGrows(s, c, worker, x);
    FedIsOk(s.nodes[worker], x);
    GrownIsGrown(s, t, fed);
    SaidKept(s, fed);
    PostedAre(worker, news);
    forall k | 0 <= k < |t.queue| && t.queue[k].raised.event.Spoken?
      ensures Answered(t, t.queue[k].from, t.queue[k].raised.ticket, t.queue[k].raised.event.content)
    {
      if k >= |s.queue| {
        assert t.queue[k] in PostAll(worker, news);
        NewsIsAnswer(s, worker, x, t.queue[k].raised);
        SameNodesAnswer(fed, t, t.queue[k].from, t.queue[k].raised.ticket, t.queue[k].raised.event.content);
      } else {
        assert s.queue[k] == t.queue[k];
        SameNodesAnswer(fed, t, t.queue[k].from, t.queue[k].raised.ticket, t.queue[k].raised.event.content);
      }
    }
    SameHistoryAnswered(fed, t);
  }

  lemma GrownIsGrown(s: Net, t: Net, u: Net)
    requires NodesGrow(s, t) && u.nodes == t.nodes
    ensures NodesGrow(s, u)
  {
  }

  lemma SameNodesAnswer(s: Net, t: Net, j: JobId, ticket: nat, text: string)
    requires t.nodes == s.nodes
    ensures Answered(s, j, ticket, text) <==> Answered(t, j, ticket, text)
  {
  }

  lemma SameHistoryAnswered(s: Net, t: Net)
    requires t.nodes == s.nodes && t.origins == s.origins && t.ch == s.ch && HistoryAnswered(s)
    ensures HistoryAnswered(t)
  {
    hide Answered;
    forall i | 0 <= i < |t.origins| ensures Answered(t, t.ch.history[i].sender, t.origins[i], t.ch.history[i].content) {
      SameNodesAnswer(s, t, s.ch.history[i].sender, s.origins[i], s.ch.history[i].content);
    }
  }

  // A routed answer is recorded as it is, or not at all.
  lemma RecordedAsSaid(ch: Channel, from: JobId, content: string)
    ensures var after := Channels.Route(ch, from, content).0;
      || after.history == ch.history
      || (|after.history| == |ch.history| + 1 && after.history[..|ch.history|] == ch.history
          && after.history[|ch.history|].sender == from && after.history[|ch.history|].content == content)
  {
  }

  lemma HandleSaid(s: Net, c: ChannelId)
    requires SaidOk(s) && s.queue != []
    ensures SaidOk(Next(s, c, Handle))
  {
    hide Answered, InLoop, Channels.Route;
    var t, m := Next(s, c, Handle), s.queue[0];
    if m.raised.event.Spoken? {
      RecordedAsSaid(s.ch, m.from, m.raised.event.content);
    }
    forall j, ticket, text ensures Answered(t, j, ticket, text) <==> Answered(s, j, ticket, text) {
      SameNodesAnswer(s, t, j, ticket, text);
    }
  }

  lemma StepKeepsSaid(s: Net, c: ChannelId, e: Step)
    requires SaidOk(s) && Allowed(s, c, e) && s.mail.Keys == s.nodes.Keys
    ensures SaidOk(Next(s, c, e)) && Next(s, c, e).mail.Keys == Next(s, c, e).nodes.Keys
  {
    hide SaidOk, News, Exits, Turn, Channels.Route;
    match e
    case Deliver(to) => DeliverSaid(s, c, to);
    case Output(worker, x) => OutputSaid(s, c, worker, x);
    case Handle => HandleSaid(s, c);
    case _ => SameSaid(s, Next(s, c, e));
  }

  lemma SameSaid(s: Net, t: Net)
    requires SaidOk(s) && t.nodes == s.nodes && t.queue == s.queue && t.origins == s.origins && t.ch.history == s.ch.history
    ensures SaidOk(t)
  {
    hide InLoop;
    SaidKept(s, t);
  }

  lemma StartingIsSaid(s: Net, c: ChannelId)
    requires Starting(s, c)
    ensures SaidOk(s) && s.mail.Keys == s.nodes.Keys
  {
    NothingTaken(true, []);
  }

  lemma {:induction false} AlwaysSaid(s: Net, c: ChannelId, steps: seq<Step>)
    requires Starting(s, c) && Playable(s, c, steps)
    ensures SaidOk(Play(s, c, steps)) && Play(s, c, steps).mail.Keys == Play(s, c, steps).nodes.Keys
  {
    hide SaidOk, Starting, Allowed, Next;
    if steps == [] {
      StartingIsSaid(s, c);
    } else {
      AlwaysSaid(s, c, steps[..|steps| - 1]);
      StepKeepsSaid(Play(s, c, steps[..|steps| - 1]), c, steps[|steps| - 1]);
    }
  }

  // Message i is by the participant whose turn it was; it answers a request of
  // this channel that carried message i - 1, or the initial message; and it says
  // what the first response to that request said.
  ghost predicate AnswersLast(s: Net, c: ChannelId, i: nat)
    requires s.ch.initial.Some? && s.ch.participants != []
    requires i < |s.ch.history| && |s.origins| == |s.ch.history|
  {
    && s.ch.history[i].sender == s.ch.participants[Channels.Seat(i, |s.ch.participants|)]
    && Asked(s, c, s.ch.history[i].sender, s.origins[i],
             if i == 0 then s.ch.initial.value else s.ch.history[i - 1].content)
    && Answered(s, s.ch.history[i].sender, s.origins[i], s.ch.history[i].content)
  }

  // Everything in the history answers what came before it,
  ghost predicate IsConversation(s: Net, c: ChannelId) {
    && s.ch.initial.Some? && s.ch.participants != [] && |s.origins| == |s.ch.history|
    && forall i :: 0 <= i < |s.ch.history| ==> AnswersLast(s, c, i)
  }

  lemma AskedInTurn(s: Net, c: ChannelId, i: nat)
    requires NetOk(s, c) && i < |s.ch.history|
    ensures s.ch.participants != [] && |s.origins| == |s.ch.history|
    ensures s.ch.history[i].sender == s.ch.participants[Channels.Seat(i, |s.ch.participants|)]
    ensures Asked(s, c, s.ch.history[i].sender, s.origins[i], Heard(s.ch, i))
  {
    hide Single, Asked, Issued, MailOk;
  }

  lemma ConversesInTurn(s: Net, c: ChannelId, i: nat)
    requires NetOk(s, c) && HistoryAnswered(s) && i < |s.ch.history|
    ensures s.ch.participants != [] && |s.origins| == |s.ch.history|
    ensures AnswersLast(s, c, i)
  {
    hide NetOk, Asked, Answered;
    AskedInTurn(s, c, i);
    assert Answered(s, s.ch.history[i].sender, s.origins[i], s.ch.history[i].content);
    assert s.ch.initial.Some? by { HasInitial(s, c); }
  }

  lemma HasInitial(s: Net, c: ChannelId)
    requires NetOk(s, c)
    ensures s.ch.initial.Some?
  {
  }

  lemma Converses(s: Net, c: ChannelId)
    requires NetOk(s, c) && SaidOk(s)
    ensures IsConversation(s, c)
  {
    hide Single, Conversed, AnswersLast, Issued, MailOk, NodesOk, QueueAnswered, Channels.CursorOk;
    forall i | 0 <= i < |s.ch.history| ensures AnswersLast(s, c, i) {
      ConversesInTurn(s, c, i);
    }
  }

  // and an answer to a setup prompt, or to anything but a message of this
  // channel, never gets in.
  lemma HistoryIsConversation(s: Net, c: ChannelId, steps: seq<Step>)
    requires Starting(s, c) && Playable(s, c, steps)
    ensures IsConversation(Play(s, c, steps), c)
  {
    hide NetOk, SaidOk, IsConversation, Starting, Playable, Play;
    SingleToken(s, c, steps);
    AlwaysSaid(s, c, steps);
    Converses(Play(s, c, steps), c);
  }

  // ---- After a restart ----

  // The daemon has just come up again, and with it new workers: the channel is
  // as it was stored, open, and waits to be activated.
  ghost predicate Restarting(s: Net, c: ChannelId) {
    && !s.ch.active && !s.ch.closed && s.ch.initial.Some? && s.ch.participants != []
    && s.ch.participants[0] in s.mail
    && (forall j, k :: j in s.mail && 0 <= k < |s.mail[j]| && s.mail[j][k].ChannelMessage? ==> s.mail[j][k].channel != c)
    && (forall j :: j in s.nodes ==> s.nodes[j] == Node([], IDLE))
    && s.queue == []
  }

  // A conversation that had begun is activated again, but nobody is sent
  // anything: there is a token if and only if nothing had been said.
  lemma ResumesIff(s: Net, c: ChannelId)
    requires Restarting(s, c)
    ensures Nowhere(Next(s, c, Activate), c) <==> s.ch.history != []
  {
    var t, first := Next(s, c, Activate), s.ch.participants[0];
    if s.ch.history == [] {
      assert At(t, c, InMail(first, |s.mail[first]|));
    } else {
      forall q ensures !At(t, c, q) {
      }
    }
  }

  ghost predicate Asleep(s: Net, c: ChannelId) {
    s.ch.history != [] && Nowhere(s, c)
  }

  // The records a step leaves are the channel's but for its being active.
  ghost predicate SameButActive(a: Channel, b: Channel) {
    b == a.(active := b.active)
  }

  lemma DeliverStaysAsleep(s: Net, c: ChannelId, to: JobId)
    requires Asleep(s, c) && Allowed(s, c, Deliver(to))
    ensures Nowhere(Next(s, c, Deliver(to)), c)
  {
    hide RequestId;
    var t := Next(s, c, Deliver(to));
    assert !At(s, c, InMail(to, 0));
    forall q ensures !At(t, c, q) {
      match q
      case InMail(j, k) => assert !At(s, c, InMail(j, if j == to then k + 1 else k));
      case InTable(j, id) => assert !At(s, c, q);
      case InQueue(k) => assert !At(s, c, q);
    }
  }

  lemma OutputStaysAsleep(s: Net, c: ChannelId, worker: JobId, x: Input)
    requires Asleep(s, c) && Allowed(s, c, Output(worker, x))
    ensures Nowhere(Next(s, c, Output(worker, x)), c)
  {
    hide RequestId, News, PostAll;
    var t := Next(s, c, Output(worker, x));
    OutputQueue(s, c, worker, x);
    forall q ensures !At(t, c, q) {
      assert !At(s, c, q);
      if Hits(s, worker, x) && q == InQueue(|s.queue|) {
        assert !At(s, c, InTable(worker, x.id));
      }
    }
  }

  lemma OtherStaysAsleep(s: Net, c: ChannelId, e: Step)
    requires Asleep(s, c) && Allowed(s, c, e) && !e.Deliver? && !e.Output?
    ensures Nowhere(Next(s, c, e), c) && SameButActive(s.ch, Next(s, c, e).ch)
  {
    var t := Next(s, c, e);
    if e.Handle? {
      assert !At(s, c, InQueue(0));
    }
    forall q ensures !At(t, c, q) {
      assert !At(s, c, if e.Handle? && q.InQueue? then InQueue(q.at + 1) else q);
    }
  }

  lemma StepStaysAsleep(s: Net, c: ChannelId, e: Step)
    requires Asleep(s, c) && Allowed(s, c, e)
    ensures Asleep(Next(s, c, e), c) && SameButActive(s.ch, Next(s, c, e).ch)
  {
    hide Nowhere;
    match e
    case Deliver(to) => DeliverStaysAsleep(s, c, to);
    case Output(worker, x) => OutputStaysAsleep(s, c, worker, x);
    case _ => OtherStaysAsleep(s, c, e);
  }

  // So a conversation that had begun before the restart never goes on: whatever
  // the workers say and the daemon sends them, nobody is ever asked again, and
  // the history and the cursor stay as they were.
  lemma {:induction false} NeverResumes(s: Net, c: ChannelId, steps: seq<Step>)
    requires Restarting(s, c) && s.ch.history != [] && Playable(s, c, steps)
    ensures var t := Play(s, c, steps); Asleep(t, c) && SameButActive(s.ch, t.ch)
  {
    hide Allowed, Next, Restarting;
    if steps == [] {
      RestartIsAsleep(s, c);
    } else {
      NeverResumes(s, c, steps[..|steps| - 1]);
      StepStaysAsleep(Play(s, c, steps[..|steps| - 1]), c, steps[|steps| - 1]);
    }
  }

  lemma RestartIsAsleep(s: Net, c: ChannelId)
    requires Restarting(s, c)
    ensures Nowhere(s, c)
  {
    forall q ensures !At(s, c, q) {
    }
  }
}
