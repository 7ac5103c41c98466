/**
  The repository change bus. A process hands an event to its own subscribers, then queues it on a
  notification channel that every process reads; a process drops the notifications it sent itself,
  recognised by origin id. Channels of the bus are created on demand and removed when idle.

  Receivers do not lag and the notification channel delivers each payload once to every process, in
  any order and at any time.
 */
module RepoBus {

  type RepoId = string
  type Origin = string
  type ChannelId = nat
  type ReceiverId = nat
  type ProcessId = nat

  /** `serial` tells apart two changes with equal contents. */
  datatype ChangeEvent = ChangeEvent(repo: RepoId, serial: nat)

  datatype Notification = Notification(event: ChangeEvent, origin: Origin)

  /** A live receiver and what was sent to it. */
  datatype Receiver = Receiver(repo: RepoId, channel: ChannelId, inbox: seq<ChangeEvent>)

  datatype Bus = Bus(
    origin: Origin,
    channels: map<RepoId, ChannelId>,
    receivers: map<ReceiverId, Receiver>,
    nextChannel: ChannelId)

  predicate Idle(bus: Bus, channel: ChannelId) {
    forall r :: r in bus.receivers ==> bus.receivers[r].channel != channel
  }

  function Subscribe(bus: Bus, repo: RepoId, id: ReceiverId): Bus {
    var open := if repo in bus.channels then bus
      else bus.(channels := bus.channels[repo := bus.nextChannel], nextChannel := bus.nextChannel + 1);
    open.(receivers := open.receivers[id := Receiver(repo, open.channels[repo], [])])
  }

  function DropReceiver(bus: Bus, id: ReceiverId): Bus {
    bus.(receivers := bus.receivers - {id})
  }

  function RemoveIfIdle(bus: Bus, repo: RepoId): Bus {
    if repo in bus.channels && Idle(bus, bus.channels[repo]) then bus.(channels := bus.channels - {repo}) else bus
  }

  function Send(bus: Bus, channel: ChannelId, event: ChangeEvent): Bus {
    bus.(receivers := map r | r in bus.receivers ::
      if bus.receivers[r].channel == channel
      then bus.receivers[r].(inbox := bus.receivers[r].inbox + [event])
      else bus.receivers[r])
  }

  function PublishEvent(bus: Bus, event: ChangeEvent): Bus {
    if event.repo !in bus.channels then bus
    else if Idle(bus, bus.channels[event.repo]) then bus.(channels := bus.channels - {event.repo})
    else Send(bus, bus.channels[event.repo], event)
  }

  /** A live receiver is attached to the channel stored for its repository, and to no other's. */
  predicate BusOk(bus: Bus) {
    && (forall r :: r in bus.receivers ==>
          && bus.receivers[r].repo in bus.channels
          && bus.receivers[r].channel == bus.channels[bus.receivers[r].repo])
    && (forall a, b :: a in bus.channels && b in bus.channels && bus.channels[a] == bus.channels[b] ==> a == b)
    && (forall a :: a in bus.channels ==> bus.channels[a] < bus.nextChannel)
  }

  lemma SubscribeKeepsBus(bus: Bus, repo: RepoId, id: ReceiverId)
    requires BusOk(bus)
    ensures BusOk(Subscribe(bus, repo, id))
  {
  }

  lemma RemovalKeepsBus(bus: Bus, repo: RepoId)
    requires BusOk(bus)
    ensures BusOk(RemoveIfIdle(bus, repo))
  {
  }

  /** The receivers of the event's repository have the event once more; everything else is as it was. */
  predicate Reached(before: map<ReceiverId, Receiver>, after: map<ReceiverId, Receiver>, event: ChangeEvent) {
    && after.Keys == before.Keys
    && forall r :: r in before ==>
         after[r] ==
         if before[r].repo == event.repo then before[r].(inbox := before[r].inbox + [event]) else before[r]
  }

  /** Somebody listens to the repository. */
  predicate Heard(receivers: map<ReceiverId, Receiver>, repo: RepoId) {
    exists r :: r in receivers && receivers[r].repo == repo
  }

  /** Publishing reaches exactly the live receivers of the event's repository, once each. */
  lemma PublishReaches(bus: Bus, event: ChangeEvent)
    requires BusOk(bus)
    ensures BusOk(PublishEvent(bus, event))
    ensures Reached(bus.receivers, PublishEvent(bus, event).receivers, event)
    ensures event.repo in PublishEvent(bus, event).channels <==> Heard(bus.receivers, event.repo)
  {
    if event.repo in bus.channels && !Idle(bus, bus.channels[event.repo]) {
      var r :| r in bus.receivers && bus.receivers[r].channel == bus.channels[event.repo];
      assert bus.receivers[r].repo == event.repo;
      SendKeepsBus(bus, bus.channels[event.repo], event);
    }
  }

  lemma SendKeepsBus(bus: Bus, channel: ChannelId, event: ChangeEvent)
    requires BusOk(bus)
    ensures BusOk(Send(bus, channel, event))
  {
  }

  // ----- One process and its receivers

  /** A process: its bus, the events it handed to the bus, and where in them each receiver joined. */
  datatype Process = Process(bus: Bus, handled: seq<ChangeEvent>, joined: map<ReceiverId, nat>)

  function Concerning(repo: RepoId, events: seq<ChangeEvent>): seq<ChangeEvent> {
    if events == [] then []
    else
      var rest := Concerning(repo, events[..|events| - 1]);
      var last := events[|events| - 1];
      if last.repo == repo then rest + [last] else rest
  }

  lemma ConcerningOneMore(repo: RepoId, events: seq<ChangeEvent>, last: ChangeEvent)
    ensures Concerning(repo, events + [last]) ==
            if last.repo == repo then Concerning(repo, events) + [last] else Concerning(repo, events)
  {
    assert (events + [last])[..|events|] == events;
  }

  predicate InboxOk(p: Process, id: ReceiverId)
    requires id in p.bus.receivers
  {
    && id in p.joined && p.joined[id] <= |p.handled|
    && p.bus.receivers[id].inbox == Concerning(p.bus.receivers[id].repo, p.handled[p.joined[id]..])
  }

  /** Each live receiver was sent exactly the later events of its repository, in order. */
  predicate ProcessOk(p: Process) {
    BusOk(p.bus) && forall id :: id in p.bus.receivers ==> InboxOk(p, id)
  }

  function Handle(p: Process, event: ChangeEvent): Process {
    p.(bus := PublishEvent(p.bus, event), handled := p.handled + [event])
  }

  lemma HandleKeepsProcess(p: Process, event: ChangeEvent)
    requires ProcessOk(p)
    ensures ProcessOk(Handle(p, event))
  {
    PublishReaches(p.bus, event);
    var t := Handle(p, event);
    forall id | id in t.bus.receivers ensures InboxOk(t, id) {
      assert InboxOk(p, id);
      var from := p.joined[id];
      assert t.handled[from..] == p.handled[from..] + [event];
      ConcerningOneMore(p.bus.receivers[id].repo, p.handled[from..], event);
    }
  }

  datatype LocalStep =
    | Join(repo: RepoId, id: ReceiverId)
    | Leave(id: ReceiverId)
    | Tidy(repo: RepoId)

  predicate CanTake(p: Process, step: LocalStep) {
    step.Join? ==> step.id !in p.bus.receivers
  }

  function Take(p: Process, step: LocalStep): Process
    requires CanTake(p, step)
  {
    match step
    case Join(repo, id) => p.(bus := Subscribe(p.bus, repo, id), joined := p.joined[id := |p.handled|])
    case Leave(id) => p.(bus := DropReceiver(p.bus, id))
    case Tidy(repo) => p.(bus := RemoveIfIdle(p.bus, repo))
  }

  lemma TakeKeepsProcess(p: Process, step: LocalStep)
    requires ProcessOk(p) && CanTake(p, step)
    ensures ProcessOk(Take(p, step))
  {
    var t := Take(p, step);
    match step {
      case Join(repo, id) => SubscribeKeepsBus(p.bus, repo, id);
      case Leave(id) =>
      case Tidy(repo) => RemovalKeepsBus(p.bus, repo);
    }
    forall id | id in t.bus.receivers ensures InboxOk(t, id) {
      if !(step.Join? && step.id == id) {
        assert InboxOk(p, id);
      }
    }
  }

  /** The last receiver to leave takes its channel along when the bus is tidied; the next one gets a new channel. */
  lemma IdleChannelIsReplaced(p: Process, id: ReceiverId, next: ReceiverId)
    requires ProcessOk(p) && id in p.bus.receivers
    requires forall r :: r in p.bus.receivers && r != id ==> p.bus.receivers[r].repo != p.bus.receivers[id].repo
    ensures var repo, left := p.bus.receivers[id].repo, Take(p, Leave(id));
            var tidied := Take(left, Tidy(repo));
            && left.bus.receivers == p.bus.receivers - {id}
            && repo !in tidied.bus.channels && tidied.bus.receivers == left.bus.receivers
            && next !in tidied.bus.receivers ==>
                 var joined := Take(tidied, Join(repo, next));
                 joined.bus.channels[repo] != p.bus.channels[repo] && joined.bus.receivers[next].inbox == []
  {
    var repo, left := p.bus.receivers[id].repo, Take(p, Leave(id));
    forall r | r in left.bus.receivers ensures left.bus.receivers[r].channel != p.bus.channels[repo] {
      assert p.bus.receivers[r].repo != repo;
    }
  }

  /**
    The bus as the source updates it under its lock; receivers drop without the lock. `Valid()` carries what a
    live receiver was sent: exactly the events of its repository that were handed to the bus since it joined.
   */
  class RepoChangeBus {
    const origin: Origin
    var channels: map<RepoId, ChannelId>
    var receivers: map<ReceiverId, Receiver>
    var nextChannel: ChannelId
    ghost var handled: seq<ChangeEvent>
    ghost var joined: map<ReceiverId, nat>

    function State(): Bus
      reads this
    {
      Bus(origin, channels, receivers, nextChannel)
    }

    ghost function History(): Process
      reads this
    {
      Process(State(), handled, joined)
    }

    ghost predicate Valid()
      reads this
    {
      ProcessOk(History())
    }

    constructor (origin: Origin)
      ensures Valid() && History() == Process(Bus(origin, map[], map[], 0), [], map[])
    {
      this.origin, channels, receivers, nextChannel := origin, map[], map[], 0;
      handled, joined := [], map[];
    }

    /** A new receiver starts empty on its repository's channel; the others keep theirs. */
    method NewReceiver(repo: RepoId, id: ReceiverId)
      requires Valid() && id !in receivers
      modifies this
      ensures Valid() && History() == Take(old(History()), Join(repo, id))
      ensures repo in channels && receivers == old(receivers)[id := Receiver(repo, channels[repo], [])]
      ensures forall other :: other in old(channels) ==> other in channels && channels[other] == old(channels)[other]
    {
      TakeKeepsProcess(History(), Join(repo, id));
      if repo !in channels {
        channels := channels[repo := nextChannel];
        nextChannel := nextChannel + 1;
      }
      receivers := receivers[id := Receiver(repo, channels[repo], [])];
      joined := joined[id := |handled|];
    }

    /** A channel goes exactly when no live receiver subscribes to its repository. */
    method RemoveChannelIfIdle(repo: RepoId)
      requires Valid()
      modifies this
      ensures Valid() && History() == Take(old(History()), Tidy(repo)) && receivers == old(receivers)
      ensures repo in channels <==> Heard(receivers, repo)
      ensures channels - {repo} == old(channels) - {repo}
    {
      TakeKeepsProcess(History(), Tidy(repo));
      if repo in channels && forall r :: r in receivers ==> receivers[r].channel != channels[repo] {
        channels := channels - {repo};
      }
    }

    /** Every live receiver of the event's repository is sent the event once, and no other is. */
    method Publish(event: ChangeEvent)
      requires Valid()
      modifies this
      ensures Valid() && History() == Handle(old(History()), event)
      ensures Reached(old(receivers), receivers, event)
      // A channel nobody listens to is dropped.
      ensures event.repo in channels <==> Heard(old(receivers), event.repo)
    {
      HandleKeepsProcess(History(), event);
      PublishReaches(State(), event);
      SendToChannel(event);
      handled := handled + [event];
    }

    /** The assignments of a publish. */
    method SendToChannel(event: ChangeEvent)
      modifies this`channels, this`receivers
      ensures State() == PublishEvent(old(State()), event)
    {
      if event.repo !in channels {
        return;
      }
      var sender := channels[event.repo];
      if forall r :: r in receivers ==> receivers[r].channel != sender {
        channels := channels - {event.repo};
      } else {
        receivers := map r | r in receivers ::
          if receivers[r].channel == sender
          then receivers[r].(inbox := receivers[r].inbox + [event])
          else receivers[r];
      }
    }

    /** A notification reaches the receivers as a publish does, unless this process sent it. */
    method Receive(note: Notification)
      requires Valid()
      modifies this
      ensures Valid() && handled == if note.origin == origin then old(handled) else old(handled) + [note.event]
      ensures note.origin == origin ==> History() == old(History())
      ensures note.origin != origin ==> Reached(old(receivers), receivers, note.event)
    {
      if note.origin != origin {
        Publish(note.event);
      }
    }
  }

  // ----- All processes and the shared notification channel

  /**
    `origins` are the fixed origin ids; `published` says which process published an event; `unsent` events were
    handed to the publisher's own bus and are not queued yet; `inFlight[p]` are the notifications process p has
    still to read.
   */
  datatype System = System(
    origins: map<ProcessId, Origin>,
    processes: map<ProcessId, Process>,
    published: map<ChangeEvent, ProcessId>,
    unsent: set<ChangeEvent>,
    inFlight: map<ProcessId, set<Notification>>)

  datatype Step =
    | Local(p: ProcessId, step: LocalStep)
    | PublishLocally(p: ProcessId, event: ChangeEvent)
    | Queue(p: ProcessId, event: ChangeEvent)
    | Deliver(p: ProcessId, note: Notification)

  predicate Enabled(s: System, step: Step) {
    && step.p in s.processes && step.p in s.inFlight
    && match step
       case Local(p, local) => CanTake(s.processes[p], local)
       case PublishLocally(p, event) => event !in s.published
       case Queue(p, event) => event in s.unsent && event in s.published && s.published[event] == p
       case Deliver(p, note) => note in s.inFlight[p]
  }

  function Apply(s: System, step: Step): System
    requires Enabled(s, step)
  {
    match step
    case Local(p, local) => s.(processes := s.processes[p := Take(s.processes[p], local)])
    case PublishLocally(p, event) =>
      s.(processes := s.processes[p := Handle(s.processes[p], event)],
         published := s.published[event := p],
         unsent := s.unsent + {event})
    case Queue(p, event) =>
      var note := Notification(event, s.processes[p].bus.origin);
      s.(unsent := s.unsent - {event}, inFlight := map q | q in s.inFlight :: s.inFlight[q] + {note})
    case Deliver(p, note) =>
      s.(processes := if note.origin != s.processes[p].bus.origin
                      then s.processes[p := Handle(s.processes[p], note.event)] else s.processes,
         inFlight := s.inFlight[p := s.inFlight[p] - {note}])
  }

  predicate Legal(s: System, steps: seq<Step>)
    decreases |steps|
  {
    steps == [] || (Enabled(s, steps[0]) && Legal(Apply(s, steps[0]), steps[1..]))
  }

  function After(s: System, steps: seq<Step>): System
    requires Legal(s, steps)
    decreases |steps|
  {
    if steps == [] then s else After(Apply(s, steps[0]), steps[1..])
  }

  predicate Initial(s: System) {
    && s.origins.Keys == s.inFlight.Keys == s.processes.Keys
    && (forall p :: p in s.processes ==>
          s.processes[p] == Process(Bus(s.origins[p], map[], map[], 0), [], map[]) && s.inFlight[p] == {})
    && s.published == map[] && s.unsent == {}
  }

  predicate DistinctOrigins(origins: map<ProcessId, Origin>) {
    forall p, q :: p in origins && q in origins && origins[p] == origins[q] ==> p == q
  }

  predicate Distinct(events: seq<ChangeEvent>) {
    forall i, j :: 0 <= i < j < |events| ==> events[i] != events[j]
  }

  predicate PublishedOk(origins: map<ProcessId, Origin>, published: map<ChangeEvent, ProcessId>,
                        unsent: set<ChangeEvent>)
  {
    (forall e :: e in published ==> published[e] in origins) && forall e :: e in unsent ==> e in published
  }

  /** The notification of a published event. */
  function NoteOf(origins: map<ProcessId, Origin>, published: map<ChangeEvent, ProcessId>, e: ChangeEvent): Notification
    requires e in published && published[e] in origins
  {
    Notification(e, origins[published[e]])
  }

  /** A published event reached process p, or its notification is on the way there, never both. */
  predicate DeliveryOk(origins: map<ProcessId, Origin>, published: map<ChangeEvent, ProcessId>,
                       unsent: set<ChangeEvent>, p: ProcessId, handled: seq<ChangeEvent>, inFlight: set<Notification>)
    requires PublishedOk(origins, published, unsent)
  {
    && Distinct(handled)
    && (forall e :: e in handled ==> e in published)
    && (forall n :: n in inFlight ==>
          n.event in published && n.event !in unsent && n == NoteOf(origins, published, n.event))
    && (forall e :: e in published ==>
          (e in handled <==>
           published[e] == p || (e !in unsent && NoteOf(origins, published, e) !in inFlight)))
  }

  predicate SystemDeliveryOk(s: System, p: ProcessId)
    requires p in s.processes && p in s.inFlight && PublishedOk(s.origins, s.published, s.unsent)
  {
    DeliveryOk(s.origins, s.published, s.unsent, p, s.processes[p].handled, s.inFlight[p])
  }

  predicate DeliveryInv(s: System) {
    && OriginsOk(s) && DistinctOrigins(s.origins) && PublishedOk(s.origins, s.published, s.unsent)
    && (forall p :: p in s.processes ==> SystemDeliveryOk(s, p))
  }

  predicate ReceiversInv(s: System) {
    forall p :: p in s.processes ==> ProcessOk(s.processes[p])
  }

  predicate OriginsOk(s: System) {
    && s.origins.Keys == s.inFlight.Keys == s.processes.Keys
    && (forall p :: p in s.processes ==> s.processes[p].bus.origin == s.origins[p])
  }

  /** No step changes an origin. */
  lemma OriginsKept(s: System, step: Step)
    requires OriginsOk(s) && Enabled(s, step)
    ensures OriginsOk(Apply(s, step)) && Apply(s, step).origins == s.origins
  {
    var t := Apply(s, step);
    forall p | p in s.processes
      ensures p in t.processes && t.processes[p].bus.origin == s.processes[p].bus.origin
    {
      match step {
        case Local(q, local) => TakeKeepsOrigin(s.processes[q], local);
        case PublishLocally(q, e) => HandleKeepsOrigin(s.processes[q], e);
        case Queue(_, _) =>
        case Deliver(q, note) => HandleKeepsOrigin(s.processes[q], note.event);
      }
    }
  }

  lemma TakeKeepsOrigin(p: Process, step: LocalStep)
    requires CanTake(p, step)
    ensures Take(p, step).bus.origin == p.bus.origin
  {
  }

  lemma HandleKeepsOrigin(p: Process, event: ChangeEvent)
    ensures Handle(p, event).bus.origin == p.bus.origin
  {
  }

  lemma PublishElsewhere(origins: map<ProcessId, Origin>, published: map<ChangeEvent, ProcessId>,
                         unsent: set<ChangeEvent>, p: ProcessId, handled: seq<ChangeEvent>,
                         inFlight: set<Notification>, e: ChangeEvent, q: ProcessId)
    requires PublishedOk(origins, published, unsent) && DeliveryOk(origins, published, unsent, p, handled, inFlight)
    requires e !in published && q in origins
    ensures PublishedOk(origins, published[e := q], unsent + {e})
    ensures DeliveryOk(origins, published[e := q], unsent + {e}, p,
                       if q == p then handled + [e] else handled, inFlight)
  {
  }

  lemma QueueOnTheWay(origins: map<ProcessId, Origin>, published: map<ChangeEvent, ProcessId>, unsent: set<ChangeEvent>,
                      p: ProcessId, handled: seq<ChangeEvent>, inFlight: set<Notification>, e: ChangeEvent)
    requires PublishedOk(origins, published, unsent) && DeliveryOk(origins, published, unsent, p, handled, inFlight)
    requires e in unsent
    ensures DeliveryOk(origins, published, unsent - {e}, p, handled, inFlight + {NoteOf(origins, published, e)})
  {
  }

  lemma DeliverOnce(origins: map<ProcessId, Origin>, published: map<ChangeEvent, ProcessId>, unsent: set<ChangeEvent>,
                    p: ProcessId, handled: seq<ChangeEvent>, inFlight: set<Notification>, note: Notification)
    requires DistinctOrigins(origins) && p in origins
    requires PublishedOk(origins, published, unsent) && DeliveryOk(origins, published, unsent, p, handled, inFlight)
    requires note in inFlight
    ensures DeliveryOk(origins, published, unsent, p,
                       if note.origin != origins[p] then handled + [note.event] else handled, inFlight - {note})
  {
    assert note.origin == origins[p] <==> published[note.event] == p;
  }

  /** What one step does to the events process p handled and those on the way to it. */
  lemma StepEffect(s: System, step: Step, p: ProcessId)
    requires Enabled(s, step) && p in s.processes && p in s.inFlight
    ensures p in Apply(s, step).processes && p in Apply(s, step).inFlight
    ensures Apply(s, step).processes[p].handled ==
            (match step
             case PublishLocally(q, e) => if q == p then s.processes[p].handled + [e] else s.processes[p].handled
             case Deliver(q, note) =>
               if q == p && note.origin != s.processes[p].bus.origin
               then s.processes[p].handled + [note.event] else s.processes[p].handled
             case _ => s.processes[p].handled)
    ensures Apply(s, step).inFlight[p] ==
            (match step
             case Queue(q, e) => s.inFlight[p] + {Notification(e, s.processes[q].bus.origin)}
             case Deliver(q, note) => if q == p then s.inFlight[p] - {note} else s.inFlight[p]
             case _ => s.inFlight[p])
  {
  }

  lemma DeliveryKept(s: System, step: Step, p: ProcessId)
    requires DeliveryInv(s) && Enabled(s, step) && p in s.processes
    ensures var t := Apply(s, step);
            && p in t.processes && p in t.inFlight
            && PublishedOk(s.origins, t.published, t.unsent)
            && DeliveryOk(s.origins, t.published, t.unsent, p, t.processes[p].handled, t.inFlight[p])
  {
    var origins, handled, inFlight := s.origins, s.processes[p].handled, s.inFlight[p];
    assert SystemDeliveryOk(s, p);
    StepEffect(s, step, p);
    match step {
      case Local(_, _) =>
      case PublishLocally(q, e) => PublishElsewhere(origins, s.published, s.unsent, p, handled, inFlight, e, q);
      case Queue(_, e) => QueueOnTheWay(origins, s.published, s.unsent, p, handled, inFlight, e);
      case Deliver(q, note) =>
        if p == q {
          DeliverOnce(origins, s.published, s.unsent, p, handled, inFlight, note);
        }
    }
  }

  lemma DeliveryInvKept(s: System, step: Step)
    requires DeliveryInv(s) && Enabled(s, step)
    ensures DeliveryInv(Apply(s, step))
  {
    OriginsKept(s, step);
    var t := Apply(s, step);
    DeliveryKept(s, step, step.p);
    forall p | p in t.processes ensures p in t.inFlight && SystemDeliveryOk(t, p) {
      DeliveryKept(s, step, p);
    }
  }

  lemma ReceiversInvKept(s: System, step: Step)
    requires ReceiversInv(s) && Enabled(s, step)
    ensures ReceiversInv(Apply(s, step))
  {
    match step {
      case Local(q, local) => TakeKeepsProcess(s.processes[q], local);
      case PublishLocally(q, event) => HandleKeepsProcess(s.processes[q], event);
      case Queue(_, _) =>
      case Deliver(q, note) => HandleKeepsProcess(s.processes[q], note.event);
    }
  }

  lemma {:induction false} DeliveryInvHolds(s: System, steps: seq<Step>)
    requires DeliveryInv(s) && Legal(s, steps)
    ensures DeliveryInv(After(s, steps))
    decreases |steps|
  {
    if steps != [] {
      DeliveryInvKept(s, steps[0]);
      DeliveryInvHolds(Apply(s, steps[0]), steps[1..]);
    }
  }

  lemma {:induction false} ReceiversInvHolds(s: System, steps: seq<Step>)
    requires ReceiversInv(s) && Legal(s, steps)
    ensures ReceiversInv(After(s, steps))
    decreases |steps|
  {
    if steps != [] {
      ReceiversInvKept(s, steps[0]);
      ReceiversInvHolds(Apply(s, steps[0]), steps[1..]);
    }
  }

  /** Nothing published is still on its way to process p. */
  predicate Drained(s: System, p: ProcessId)
    requires p in s.inFlight
  {
    s.unsent == {} && s.inFlight[p] == {}
  }

  lemma InitialIsOk(s: System)
    requires Initial(s) && DistinctOrigins(s.origins)
    ensures DeliveryInv(s) && ReceiversInv(s)
  {
  }

  lemma DeliveryMeans(s: System, p: ProcessId)
    requires DeliveryInv(s) && p in s.processes
    ensures p in s.inFlight && Distinct(s.processes[p].handled)
    ensures forall e :: e in s.processes[p].handled ==> e in s.published
    ensures Drained(s, p) ==> forall e :: e in s.published ==> e in s.processes[p].handled
  {
    assert SystemDeliveryOk(s, p);
  }

  /**
    Exactly-once fan-out, in every interleaving: a live receiver was sent exactly the events of its
    repository that its process handled since it joined, in order; no process handles an event twice or
    one nobody published; and once nothing is on the way to a process it has handled every event.
   */
  lemma FanOut(s: System, steps: seq<Step>, p: ProcessId)
    requires Initial(s) && DistinctOrigins(s.origins) && Legal(s, steps)
    requires p in After(s, steps).processes
    ensures var t := After(s, steps);
            && p in t.inFlight
            && ProcessOk(t.processes[p])
            && Distinct(t.processes[p].handled)
            && (forall e :: e in t.processes[p].handled ==> e in t.published)
            && (Drained(t, p) ==> forall e :: e in t.published ==> e in t.processes[p].handled)
  {
    InitialIsOk(s);
    DeliveryInvHolds(s, steps);
    ReceiversInvHolds(s, steps);
    DeliveryMeans(After(s, steps), p);
  }

  lemma {:induction false} ConcerningCounts(repo: RepoId, events: seq<ChangeEvent>, e: ChangeEvent)
    requires Distinct(events)
    ensures multiset(Concerning(repo, events))[e] == if e in events && e.repo == repo then 1 else 0
  {
    if events != [] {
      var front, last := events[..|events| - 1], events[|events| - 1];
      ConcerningCounts(repo, front, e);
      assert events == front + [last];
      assert last !in front;
    }
  }

  /** How one receiver goes on: its repository and joining point stay, and its process handles more events. */
  predicate Continues(p: Process, q: Process, id: ReceiverId) {
    && p.handled <= q.handled
    && (id in p.bus.receivers && id in p.joined ==>
          && id in q.bus.receivers && q.bus.receivers[id].repo == p.bus.receivers[id].repo
          && id in q.joined && q.joined[id] == p.joined[id])
  }

  lemma HandleContinues(p: Process, event: ChangeEvent, id: ReceiverId)
    requires ProcessOk(p)
    ensures Continues(p, Handle(p, event), id)
  {
    PublishReaches(p.bus, event);
  }

  lemma TakeContinues(p: Process, step: LocalStep, id: ReceiverId)
    requires CanTake(p, step) && step != Leave(id)
    ensures Continues(p, Take(p, step), id)
  {
  }

  lemma ContinuesTransitive(p: Process, q: Process, r: Process, id: ReceiverId)
    requires Continues(p, q, id) && Continues(q, r, id)
    ensures Continues(p, r, id)
  {
  }

  lemma StepContinues(s: System, step: Step, p: ProcessId, id: ReceiverId)
    requires Enabled(s, step) && p in s.processes && ProcessOk(s.processes[p]) && step != Local(p, Leave(id))
    ensures p in Apply(s, step).processes && Continues(s.processes[p], Apply(s, step).processes[p], id)
  {
    if p == step.p {
      match step {
        case Local(_, local) => TakeContinues(s.processes[p], local, id);
        case PublishLocally(_, e) => HandleContinues(s.processes[p], e, id);
        case Queue(_, _) =>
        case Deliver(_, note) => HandleContinues(s.processes[p], note.event, id);
      }
    }
  }

  lemma {:induction false} RunContinues(s: System, steps: seq<Step>, p: ProcessId, id: ReceiverId)
    requires ReceiversInv(s) && Legal(s, steps) && p in s.processes
    requires forall i :: 0 <= i < |steps| ==> steps[i] != Local(p, Leave(id))
    ensures p in After(s, steps).processes && Continues(s.processes[p], After(s, steps).processes[p], id)
    decreases |steps|
  {
    if steps != [] {
      var t := Apply(s, steps[0]);
      ReceiversInvKept(s, steps[0]);
      StepContinues(s, steps[0], p, id);
      RunContinues(t, steps[1..], p, id);
      ContinuesTransitive(s.processes[p], t.processes[p], After(t, steps[1..]).processes[p], id);
    }
  }

  /**
    Each subscriber receives each event exactly once. Whatever happened before, a receiver that is subscribed now
    and does not leave: once an event published from now on has nothing left on the way to its process, the
    receiver was sent it once if it concerns its repository, and not at all otherwise.
   */
  lemma ExactlyOnce(s: System, before: seq<Step>, later: seq<Step>, p: ProcessId, id: ReceiverId, e: ChangeEvent)
    requires Initial(s) && DistinctOrigins(s.origins)
    requires Legal(s, before) && Legal(After(s, before), later)
    requires var now := After(s, before);
             p in now.processes && id in now.processes[p].bus.receivers && e !in now.published
    requires forall i :: 0 <= i < |later| ==> later[i] != Local(p, Leave(id))
    requires var end := After(After(s, before), later); e in end.published && p in end.inFlight && Drained(end, p)
    ensures var now, end := After(s, before), After(After(s, before), later);
            && p in end.processes && id in end.processes[p].bus.receivers
            && multiset(end.processes[p].bus.receivers[id].inbox)[e] ==
               if e.repo == now.processes[p].bus.receivers[id].repo then 1 else 0
  {
    InitialIsOk(s);
    DeliveryInvHolds(s, before);
    ReceiversInvHolds(s, before);
    var now := After(s, before);
    DeliveryInvHolds(now, later);
    ReceiversInvHolds(now, later);
    var end := After(now, later);
    assert InboxOk(now.processes[p], id);
    DeliveryMeans(now, p);
    RunContinues(now, later, p, id);
    DeliveryMeans(end, p);
    SentOnce(now.processes[p], end.processes[p], id, e);
  }

  lemma SentOnce(now: Process, end: Process, id: ReceiverId, e: ChangeEvent)
    requires ProcessOk(now) && ProcessOk(end) && id in now.bus.receivers && Continues(now, end, id)
    requires InboxOk(now, id) && Distinct(end.handled) && e !in now.handled && e in end.handled
    ensures id in end.bus.receivers
    ensures multiset(end.bus.receivers[id].inbox)[e] == if e.repo == now.bus.receivers[id].repo then 1 else 0
  {
    var from := now.joined[id];
    assert InboxOk(end, id);
    var i :| 0 <= i < |end.handled| && end.handled[i] == e;
    assert i >= |now.handled|;
    assert end.handled[from..][i - from] == e;
    ConcerningCounts(end.bus.receivers[id].repo, end.handled[from..], e);
  }

  predicate EchoesOk(s: System, q: ProcessId)
    requires OriginsOk(s) && q in s.processes
  {
    && (forall e :: e in s.processes[q].handled ==>
          e in s.published && s.published[e] in s.origins
          && (s.published[e] == q || s.origins[s.published[e]] != s.origins[q]))
    && (forall n :: n in s.inFlight[q] ==>
          n.event in s.published && s.published[n.event] in s.origins
          && n.origin == s.origins[s.published[n.event]])
  }

  lemma EchoesKept(s: System, step: Step, q: ProcessId)
    requires OriginsOk(s) && Enabled(s, step) && q in s.processes && EchoesOk(s, q)
    ensures OriginsOk(Apply(s, step)) && q in Apply(s, step).processes && EchoesOk(Apply(s, step), q)
  {
    OriginsKept(s, step);
    StepEffect(s, step, q);
  }

  lemma {:induction false} EchoesHold(s: System, steps: seq<Step>, q: ProcessId)
    requires OriginsOk(s) && q in s.processes && EchoesOk(s, q) && Legal(s, steps)
    ensures OriginsOk(After(s, steps)) && q in After(s, steps).processes && EchoesOk(After(s, steps), q)
    ensures After(s, steps).origins == s.origins
    decreases |steps|
  {
    if steps != [] {
      OriginsKept(s, steps[0]);
      EchoesKept(s, steps[0], q);
      EchoesHold(Apply(s, steps[0]), steps[1..], q);
    }
  }

  /** Distinct origins are needed: what a process publishes never reaches another one with its origin id. */
  lemma SharedOriginLosesEvents(s: System, steps: seq<Step>, p: ProcessId, q: ProcessId)
    requires Initial(s) && Legal(s, steps)
    requires p in s.origins && q in s.origins && p != q && s.origins[p] == s.origins[q]
    ensures q in After(s, steps).processes
    ensures forall e :: e in After(s, steps).processes[q].handled ==>
              e in After(s, steps).published && After(s, steps).published[e] != p
  {
    EchoesHold(s, steps, q);
  }

  lemma StepFirst(s: System, step: Step, rest: seq<Step>)
    requires Enabled(s, step) && Legal(Apply(s, step), rest)
    ensures Legal(s, [step] + rest) && After(s, [step] + rest) == After(Apply(s, step), rest)
  {
    assert ([step] + rest)[1..] == rest;
  }

  /** Two processes of one origin id: what the first publishes is dropped by the second as its own. */
  lemma SharedOriginDrops(origins: map<ProcessId, Origin>, p: ProcessId, q: ProcessId)
    returns (s: System, steps: seq<Step>)
    requires p in origins && q in origins && p != q && origins[p] == origins[q]
    ensures Initial(s) && s.origins == origins && Legal(s, steps) && q in After(s, steps).inFlight
    ensures Drained(After(s, steps), q) && !HeardAll(After(s, steps), q)
  {
    var e := ChangeEvent("", 0);
    var note := Notification(e, origins[p]);
    s := System(origins, map r | r in origins :: Process(Bus(origins[r], map[], map[], 0), [], map[]),
                map[], {}, map r | r in origins :: {});
    var s1 := Apply(s, PublishLocally(p, e));
    var s2 := Apply(s1, Queue(p, e));
    var s3 := Apply(s2, Deliver(q, note));
    StepFirst(s2, Deliver(q, note), []);
    StepFirst(s1, Queue(p, e), [Deliver(q, note)] + []);
    StepFirst(s, PublishLocally(p, e), [Queue(p, e)] + ([Deliver(q, note)] + []));
    steps := [PublishLocally(p, e)] + ([Queue(p, e)] + ([Deliver(q, note)] + []));
    assert s3.processes[q].handled == [] && e in s3.published;
  }

  /** Every event that was published reached this process. */
  predicate HeardAll(s: System, p: ProcessId) {
    p in s.processes && forall e :: e in s.published ==> e in s.processes[p].handled
  }

  /** Every process hears every event, in all runs, exactly when the origin ids are distinct. */
  lemma AllHeardIffDistinctOrigins(origins: map<ProcessId, Origin>)
    ensures (forall s: System, steps: seq<Step>, p ::
               (&& Initial(s) && s.origins == origins && Legal(s, steps)
                && p in After(s, steps).inFlight && Drained(After(s, steps), p)) ==> HeardAll(After(s, steps), p))
            <==> DistinctOrigins(origins)
  {
    if DistinctOrigins(origins) {
      forall s: System, steps: seq<Step>, p |
        && Initial(s) && s.origins == origins && Legal(s, steps)
        && p in After(s, steps).inFlight && Drained(After(s, steps), p)
        ensures HeardAll(After(s, steps), p)
      {
        InitialIsOk(s);
        DeliveryInvHolds(s, steps);
        DeliveryMeans(After(s, steps), p);
      }
    } else {
      var p, q :| p in origins && q in origins && origins[p] == origins[q] && p != q;
      var s, steps := SharedOriginDrops(origins, p, q);
    }
  }
}
