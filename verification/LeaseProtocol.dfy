/**
  Any number of media workers competing for one job row through the lease supervisor.

  The row holds a generation and an expiry in whole Unix seconds; the claim, renew and settle
  statements are the guarded updates of the database. A lease token is drawn afresh for each claim
  and always checked together with the generation, so the generation alone stands for both.
  A settlement (completing the job or recording its failure) is sent by the job itself while the supervisor
  goes on renewing: it commits, and is heard, at times of its own.
  Each worker reads its own wall clock, ahead of true time by a fixed offset, and floors it to
  seconds. Timers are ideal: time does not pass the instant a working worker sleeps to. Synchronous
  code between two waits takes no time.
 */
module LeaseProtocol {
  import opened Wrappers
  import opened Lease

  const SECOND: nat := 1_000_000_000

  type Worker = nat

  /**
    `lateErrors` says whether a renewal that the worker saw fail may still reach the row later;
    `lateReplies` whether a worker may hear of its settlement later than it commits.
   */
  datatype Config = Config(leaseSeconds: nat, offset: Worker -> nat, lateErrors: bool, lateReplies: bool)
  {
    function Lease(): Duration {
      leaseSeconds * SECOND
    }

    function UnixNow(w: Worker, now: Instant): nat {
      (now + offset(w)) / SECOND
    }
  }

  datatype Row =
    | Queued(gen: nat, availableAt: nat)
    | Leased(gen: nat, expiry: nat)
    | Completed(gen: nat)
    | Cancelled(gen: nat)

  datatype Reply = Unanswered | Updated | Declined

  datatype Call = Sleeping | Renewing(requestedAt: Instant, nowUnix: nat, reply: Reply)

  /** The job's own request to complete or to record a failure; `retryAt` is when it may be tried again. */
  datatype Settlement =
    | Unasked
    | Asked(nowUnix: nat, retryAt: Option<nat>)
    | Rejected
    | Settled(at: Instant)

  datatype Phase =
    | Idle
    | Claiming(nowUnix: nat, expiry: nat)
    | Claimed(gen: nat, expiry: nat)
    | Working(gen: nat, head: Head, call: Call, settlement: Settlement)
  {
    predicate Holder() {
      Claimed? || Working?
    }

    /** Polls the job and has not settled it. */
    predicate Acting() {
      Working? && !settlement.Settled?
    }
  }

  /** A request still on its way to the row although nobody waits for it. */
  datatype Stray = LateRenewal(gen: nat, nowUnix: nat) | LateSettlement(gen: nat, nowUnix: nat, retryAt: Option<nat>)

  function StrayRenewals(phase: Phase): set<Stray> {
    if phase.Working? && phase.call.Renewing? && phase.call.reply.Unanswered?
    then {LateRenewal(phase.gen, phase.call.nowUnix)} else {}
  }

  function StraySettlements(phase: Phase): set<Stray> {
    if phase.Working? && phase.settlement.Asked?
    then {LateSettlement(phase.gen, phase.settlement.nowUnix, phase.settlement.retryAt)} else {}
  }

  datatype State = State(now: Instant, row: Row, workers: map<Worker, Phase>, strays: set<Stray>)
  {
    function PhaseOf(w: Worker): Phase {
      if w in workers then workers[w] else Idle
    }

    function Put(w: Worker, phase: Phase): State {
      this.(workers := workers[w := phase])
    }

    /** The worker stops; requests it had in flight may still arrive. */
    function Drop(w: Worker): State {
      Put(w, Idle).(strays := strays + StrayRenewals(PhaseOf(w)) + StraySettlements(PhaseOf(w)))
    }
  }

  predicate Initial(s: State) {
    s.row.Queued? && s.workers == map[] && s.strays == {}
  }

  predicate Claimable(row: Row, nowUnix: nat) {
    || (row.Queued? && row.availableAt <= nowUnix)
    || (row.Leased? && row.expiry <= nowUnix)
  }

  /** The guard shared by renewing and settling. */
  predicate Live(row: Row, gen: nat, nowUnix: nat) {
    row.Leased? && row.gen == gen && nowUnix < row.expiry
  }

  function SettledRow(gen: nat, retryAt: Option<nat>): Row {
    if retryAt.Some? then Queued(gen, retryAt.value) else Completed(gen)
  }

  datatype Step =
    | Advance(to: Instant)
    | SendClaim(w: Worker)
    | ApplyClaim(w: Worker)
    | CloseExhausted(w: Worker)
    | Start(w: Worker)
    | SendRenewal(w: Worker)
    | ApplyRenewal(w: Worker)
    | HearGranted(w: Worker)
    | HearDeclined(w: Worker)
    | HearFailed(w: Worker)
    | GiveUp(w: Worker)
    | SendSettlement(w: Worker, retryAt: Option<nat>)
    | ApplySettlement(w: Worker)
    | HearSettled(w: Worker)
    | Quit(w: Worker)
    | StrayArrives(stray: Stray)
    | Cancel
    | Requeue(at: nat)

  function WakesAt(c: Config, phase: Phase): int
    requires phase.Working?
  {
    if phase.call.Sleeping? then phase.head.nextRenewal
    else phase.head.grantedUntil - c.Lease() / 4
  }

  predicate Waiting(c: Config, s: State, w: Worker) {
    var p := s.PhaseOf(w);
    p.Working? && p.call.Renewing? && s.now < p.head.grantedUntil - c.Lease() / 4
  }

  predicate Enabled(c: Config, s: State, step: Step) {
    match step
    case Advance(to) =>
      s.now <= to && forall w :: w in s.workers && s.workers[w].Working? ==> to <= WakesAt(c, s.workers[w])
    case SendClaim(w) => s.PhaseOf(w).Idle?
    case ApplyClaim(w) => s.PhaseOf(w).Claiming? && Claimable(s.row, s.PhaseOf(w).nowUnix)
    case CloseExhausted(w) =>
      s.PhaseOf(w).Claiming? && s.row.Leased? && Claimable(s.row, s.PhaseOf(w).nowUnix)
    case Start(w) => s.PhaseOf(w).Claimed?
    case SendRenewal(w) =>
      var p := s.PhaseOf(w);
      p.Working? && p.call.Sleeping? && p.head.nextRenewal <= s.now
    case ApplyRenewal(w) =>
      var p := s.PhaseOf(w);
      p.Working? && p.call.Renewing? && p.call.reply.Unanswered?
    case HearGranted(w) => Waiting(c, s, w) && s.PhaseOf(w).call.reply.Updated?
    case HearDeclined(w) => Waiting(c, s, w) && s.PhaseOf(w).call.reply.Declined?
    case HearFailed(w) => Waiting(c, s, w)
    case GiveUp(w) => s.PhaseOf(w).Working? && s.PhaseOf(w).call.Renewing? && !Waiting(c, s, w)
    case SendSettlement(w, retryAt) =>
      && s.PhaseOf(w).Working? && s.PhaseOf(w).settlement.Unasked?
      && (retryAt.Some? ==> c.UnixNow(w, s.now) <= retryAt.value)
    case ApplySettlement(w) => s.PhaseOf(w).Working? && s.PhaseOf(w).settlement.Asked?
    case HearSettled(w) =>
      var p := s.PhaseOf(w);
      p.Working? && (p.settlement.Settled? || p.settlement.Rejected?)
    case Quit(w) => !s.PhaseOf(w).Idle?
    case StrayArrives(stray) => stray in s.strays
    case Cancel => true
    case Requeue(_) => s.row.Completed? || s.row.Queued?
  }

  function Apply(c: Config, s: State, step: Step): State
    requires Enabled(c, s, step)
  {
    match step
    case Advance(to) => s.(now := to)
    case SendClaim(w) =>
      var nowUnix := c.UnixNow(w, s.now);
      s.Put(w, Claiming(nowUnix, nowUnix + c.leaseSeconds))
    case ApplyClaim(w) =>
      var expiry := s.PhaseOf(w).expiry;
      var gen := s.row.gen + 1;
      s.Put(w, Claimed(gen, expiry)).(row := Leased(gen, expiry))
    case CloseExhausted(w) => s.(row := Completed(s.row.gen))
    case Start(w) =>
      var p := s.PhaseOf(w);
      var remaining := Max(0, p.expiry - c.UnixNow(w, s.now)) * SECOND;
      (match Begin(c.Lease(), s.now, remaining)
       case None => s.Put(w, Idle)
       case Some(head) => s.Put(w, Working(p.gen, head, Sleeping, Unasked)))
    case SendRenewal(w) =>
      s.Put(w, s.PhaseOf(w).(call := Renewing(s.now, c.UnixNow(w, s.now), Unanswered)))
    case ApplyRenewal(w) =>
      var p := s.PhaseOf(w);
      if Live(s.row, p.gen, p.call.nowUnix)
      then s.Put(w, p.(call := p.call.(reply := Updated)))
           .(row := Leased(p.gen, p.call.nowUnix + c.leaseSeconds))
      else s.Put(w, p.(call := p.call.(reply := Declined)))
    case HearGranted(w) =>
      var p := s.PhaseOf(w);
      s.Put(w, p.(head := AfterGrant(c.Lease(), p.call.requestedAt, s.now), call := Sleeping))
    case HearDeclined(w) => s.Drop(w)
    case HearFailed(w) =>
      var p := s.PhaseOf(w);
      (match AfterFailure(c.Lease(), p.head, s.now)
       case None => s.Drop(w)
       case Some(head) =>
         var next := s.Put(w, p.(head := head, call := Sleeping));
         if c.lateErrors then next.(strays := s.strays + StrayRenewals(p)) else next)
    case GiveUp(w) => s.Drop(w)
    case SendSettlement(w, retryAt) =>
      s.Put(w, s.PhaseOf(w).(settlement := Asked(c.UnixNow(w, s.now), retryAt)))
    case ApplySettlement(w) =>
      var p := s.PhaseOf(w);
      if !Live(s.row, p.gen, p.settlement.nowUnix) then s.Put(w, p.(settlement := Rejected))
      else
        var t := s.Put(w, p.(settlement := Settled(s.now))).(row := SettledRow(p.gen, p.settlement.retryAt));
        if c.lateReplies then t else t.Drop(w)
    case HearSettled(w) => s.Drop(w)
    case Quit(w) => s.Drop(w)
    case StrayArrives(stray) =>
      var t := s.(strays := s.strays - {stray});
      if !Live(s.row, stray.gen, stray.nowUnix) then t
      else if stray.LateRenewal? then t.(row := Leased(stray.gen, stray.nowUnix + c.leaseSeconds))
      else t.(row := SettledRow(stray.gen, stray.retryAt))
    case Cancel => s.(row := Cancelled(s.row.gen))
    case Requeue(at) => s.(row := Queued(s.row.gen, at))
  }

  predicate Legal(c: Config, s: State, steps: seq<Step>)
    decreases |steps|
  {
    steps == [] || (Enabled(c, s, steps[0]) && Legal(c, Apply(c, s, steps[0]), steps[1..]))
  }

  function After(c: Config, s: State, steps: seq<Step>): State
    requires Legal(c, s, steps)
    decreases |steps|
  {
    if steps == [] then s else After(c, Apply(c, s, steps[0]), steps[1..])
  }

  /** At most one worker polls the job without having settled it. */
  predicate Exclusive(s: State) {
    forall v, w :: v in s.workers && w in s.workers && s.workers[v].Acting() && s.workers[w].Acting() ==> v == w
  }

  /** At most one worker polls the job at all. */
  predicate Alone(s: State) {
    forall v, w :: v in s.workers && w in s.workers && s.workers[v].Working? && s.workers[w].Working? ==> v == w
  }

  /** The expiry stored for a polled generation has not been reached on any clock within `skew`. */
  predicate BeforeExpiry(skew: nat, s: State) {
    forall w :: w in s.workers && s.workers[w].Acting() && s.row.Leased? ==>
      s.row.gen == s.workers[w].gen && s.now + skew < s.row.expiry * SECOND
  }

  /** All wall clocks agree to within `skew`. */
  ghost predicate ClocksWithin(c: Config, skew: nat) {
    forall w: Worker :: c.offset(w) <= skew
  }

  // ----- The invariant

  /** The row still stands behind a claim that was given this generation and expiry. */
  predicate Backs(row: Row, gen: nat, expiry: nat) {
    row == Leased(gen, expiry) || row == Cancelled(gen)
  }

  predicate PhaseOk(c: Config, skew: nat, now: Instant, row: Row, w: Worker, phase: Phase) {
    match phase
    case Idle => true
    case Claiming(nowUnix, expiry) =>
      nowUnix * SECOND <= now + c.offset(w) && expiry == nowUnix + c.leaseSeconds
    case Claimed(gen, expiry) =>
      && expiry * SECOND <= now + c.offset(w) + c.Lease()
      && (Backs(row, gen, expiry) || expiry * SECOND <= now + skew)
    case Working(gen, head, call, settlement) =>
      && HeadOk(c.Lease(), head)
      && now + c.Lease() / 4 <= head.grantedUntil <= now + c.Lease()
      && (call.Renewing? ==>
            && call.requestedAt <= now
            && call.nowUnix == c.UnixNow(w, call.requestedAt)
            && head.grantedUntil <= call.requestedAt + c.Lease())
      && (if settlement.Settled? then SettledOk(c, now, row, gen, head, call, settlement.at)
          else ActingOk(c, row, w, gen, head, call))
  }

  /** While a worker has not settled, the row stands behind it beyond what it counts on. */
  predicate ActingOk(c: Config, row: Row, w: Worker, gen: nat, head: Head, call: Call) {
    && row.gen == gen && (row.Leased? || row.Cancelled?)
    && (row.Leased? ==> head.grantedUntil + c.offset(w) < (row.expiry + 1) * SECOND)
    && (call.Renewing? && call.reply.Updated? && row.Leased? ==> row.expiry == call.nowUnix + c.leaseSeconds)
  }

  /** Once it has, the row never answers to its generation again, and no later renewal prolongs its polling. */
  predicate SettledOk(c: Config, now: Instant, row: Row, gen: nat, head: Head, call: Call, at: Instant) {
    && gen <= row.gen && (row.gen == gen ==> !row.Leased?)
    && at <= now && head.grantedUntil <= at + c.Lease()
    && (call.Renewing? && call.reply.Updated? ==> call.requestedAt <= at)
  }

  predicate PhasesOk(c: Config, skew: nat, s: State) {
    forall w :: w in s.workers ==> PhaseOk(c, skew, s.now, s.row, w, s.workers[w])
  }

  /** Generations are handed out once. */
  predicate GensOk(s: State) {
    && (forall w :: w in s.workers && s.workers[w].Holder() ==> s.workers[w].gen <= s.row.gen)
    && (forall v, w :: v in s.workers && w in s.workers && v != w
                       && s.workers[v].Holder() && s.workers[w].Holder() ==>
                       s.workers[v].gen != s.workers[w].gen)
    && (forall x :: x in s.strays ==> x.gen <= s.row.gen)
    && (forall x, w :: x in s.strays && w in s.workers && s.workers[w].Holder() ==>
                       s.workers[w].gen != x.gen)
  }

  predicate Inv(c: Config, skew: nat, s: State) {
    PhasesOk(c, skew, s) && GensOk(s)
  }

  /** The margin that makes the protocol safe. */
  predicate MarginCovers(c: Config, skew: nat) {
    skew + SECOND <= c.Lease() / 4
  }

  lemma DropKeepsGens(s: State, w: Worker)
    requires GensOk(s)
    ensures GensOk(s.Drop(w))
  {
  }

  lemma PutKeepsGens(s: State, w: Worker, phase: Phase)
    requires GensOk(s)
    requires phase.Holder() ==> s.PhaseOf(w).Holder() && s.PhaseOf(w).gen == phase.gen
    ensures GensOk(s.Put(w, phase))
  {
  }

  lemma SameGens(s: State, t: State)
    requires GensOk(s)
    requires t.workers == s.workers && t.row.gen == s.row.gen && t.strays <= s.strays
    ensures GensOk(t)
  {
  }

  lemma ClaimKeepsGens(s: State, w: Worker, expiry: nat)
    requires GensOk(s)
    ensures GensOk(s.Put(w, Claimed(s.row.gen + 1, expiry)).(row := Leased(s.row.gen + 1, expiry)))
  {
  }

  lemma SettlementKeepsGens(c: Config, s: State, w: Worker)
    requires GensOk(s) && Enabled(c, s, ApplySettlement(w))
    ensures GensOk(Apply(c, s, ApplySettlement(w)))
  {
    var p := s.PhaseOf(w);
    PutKeepsGens(s, w, p.(settlement := Rejected));
    PutKeepsGens(s, w, p.(settlement := Settled(s.now)));
    if Live(s.row, p.gen, p.settlement.nowUnix) {
      var put := s.Put(w, p.(settlement := Settled(s.now)));
      var t := put.(row := SettledRow(p.gen, p.settlement.retryAt));
      SameGens(put, t);
      DropKeepsGens(t, w);
    }
  }

  lemma GensKept(c: Config, skew: nat, s: State, step: Step)
    requires !c.lateErrors
    requires Inv(c, skew, s) && Enabled(c, s, step)
    ensures GensOk(Apply(c, s, step))
  {
    var t := Apply(c, s, step);
    match step {
      case Advance(_) => SameGens(s, t);
      case SendClaim(w) => PutKeepsGens(s, w, t.PhaseOf(w));
      case ApplyClaim(w) => ClaimKeepsGens(s, w, s.PhaseOf(w).expiry);
      case CloseExhausted(_) => SameGens(s, t);
      case Start(w) => PutKeepsGens(s, w, t.PhaseOf(w));
      case SendRenewal(w) => PutKeepsGens(s, w, t.PhaseOf(w));
      case ApplyRenewal(w) => PutKeepsGens(s, w, t.PhaseOf(w));
      case HearGranted(w) => PutKeepsGens(s, w, t.PhaseOf(w));
      case HearDeclined(w) => DropKeepsGens(s, w);
      case HearFailed(w) => PutKeepsGens(s, w, t.PhaseOf(w)); DropKeepsGens(s, w);
      case GiveUp(w) => DropKeepsGens(s, w);
      case SendSettlement(w, _) => PutKeepsGens(s, w, t.PhaseOf(w));
      case ApplySettlement(w) => SettlementKeepsGens(c, s, w);
      case HearSettled(w) => DropKeepsGens(s, w);
      case Quit(w) => DropKeepsGens(s, w);
      case StrayArrives(_) => SameGens(s, t);
      case Cancel => SameGens(s, t);
      case Requeue(_) => SameGens(s, t);
    }
  }

  /** While a worker polls a job it has not settled, no clock within the skew finds its row expired. */
  lemma NobodyFindsItExpired(c: Config, skew: nat, now: Instant, row: Row, w: Worker, phase: Phase,
                             v: Worker, nowUnix: nat)
    requires MarginCovers(c, skew) && c.offset(v) <= skew
    requires PhaseOk(c, skew, now, row, w, phase) && phase.Acting()
    requires nowUnix * SECOND <= now + c.offset(v)
    ensures !Claimable(row, nowUnix)
  {
  }

  /** Changing one worker's phase leaves the others as they were. */
  lemma PutKeepsPhases(c: Config, skew: nat, s: State, w: Worker, phase: Phase)
    requires PhasesOk(c, skew, s)
    requires PhaseOk(c, skew, s.now, s.row, w, phase)
    ensures PhasesOk(c, skew, s.Put(w, phase))
  {
  }

  lemma AdvanceKeepsPhases(c: Config, skew: nat, s: State, to: Instant)
    requires PhasesOk(c, skew, s) && Enabled(c, s, Advance(to))
    ensures PhasesOk(c, skew, s.(now := to))
  {
    forall w | w in s.workers ensures PhaseOk(c, skew, to, s.row, w, s.workers[w]) {
      assert PhaseOk(c, skew, s.now, s.row, w, s.workers[w]);
    }
  }

  lemma ClaimKeepsPhases(c: Config, skew: nat, s: State, w: Worker, row: Row)
    requires MarginCovers(c, skew) && ClocksWithin(c, skew)
    requires PhasesOk(c, skew, s) && s.PhaseOf(w).Claiming? && Claimable(s.row, s.PhaseOf(w).nowUnix)
    requires row.gen > s.row.gen || (row.gen == s.row.gen && !row.Leased?)
    ensures forall u :: u in s.workers && u != w ==> PhaseOk(c, skew, s.now, row, u, s.workers[u])
  {
    forall u | u in s.workers && u != w ensures PhaseOk(c, skew, s.now, row, u, s.workers[u]) {
      assert PhaseOk(c, skew, s.now, s.row, u, s.workers[u]);
      assert PhaseOk(c, skew, s.now, s.row, w, s.workers[w]);
      if s.workers[u].Acting() {
        NobodyFindsItExpired(c, skew, s.now, s.row, u, s.workers[u], w, s.PhaseOf(w).nowUnix);
      }
    }
  }

  /** A worker starts polling only a job whose row still stands behind its claim. */
  lemma StartIsBacked(c: Config, skew: nat, s: State, w: Worker)
    requires MarginCovers(c, skew) && ClocksWithin(c, skew)
    requires PhasesOk(c, skew, s) && s.PhaseOf(w).Claimed?
    ensures PhaseOk(c, skew, s.now, s.row, w, Apply(c, s, Start(w)).PhaseOf(w))
  {
    assert PhaseOk(c, skew, s.now, s.row, w, s.workers[w]);
    var p := s.PhaseOf(w);
    var remaining := Max(0, p.expiry - c.UnixNow(w, s.now)) * SECOND;
    assert remaining <= c.Lease();
  }

  /** A row moved on by the holder of its generation is nobody else's concern. */
  lemma RowKeepsOthers(c: Config, skew: nat, s: State, gen: nat, row: Row)
    requires PhasesOk(c, skew, s) && s.row.Leased? && s.row.gen == gen && row.gen == gen
    ensures forall u :: u in s.workers && (s.workers[u].Holder() ==> s.workers[u].gen != gen) ==>
              PhaseOk(c, skew, s.now, row, u, s.workers[u])
  {
    forall u | u in s.workers && (s.workers[u].Holder() ==> s.workers[u].gen != gen)
      ensures PhaseOk(c, skew, s.now, row, u, s.workers[u])
    {
      assert PhaseOk(c, skew, s.now, s.row, u, s.workers[u]);
    }
  }

  lemma RenewalKeepsPhases(c: Config, skew: nat, s: State, w: Worker)
    requires Inv(c, skew, s) && Enabled(c, s, ApplyRenewal(w))
    ensures PhasesOk(c, skew, Apply(c, s, ApplyRenewal(w)))
  {
    var p := s.PhaseOf(w);
    assert PhaseOk(c, skew, s.now, s.row, w, p);
    if Live(s.row, p.gen, p.call.nowUnix) {
      RowKeepsOthers(c, skew, s, p.gen, Leased(p.gen, p.call.nowUnix + c.leaseSeconds));
    } else {
      PutKeepsPhases(c, skew, s, w, p.(call := p.call.(reply := Declined)));
    }
  }

  lemma GrantKeepsPhases(c: Config, skew: nat, s: State, w: Worker)
    requires PhasesOk(c, skew, s) && Enabled(c, s, HearGranted(w))
    ensures PhasesOk(c, skew, Apply(c, s, HearGranted(w)))
  {
    var p := s.PhaseOf(w);
    assert PhaseOk(c, skew, s.now, s.row, w, p);
    PutKeepsPhases(c, skew, s, w, p.(head := AfterGrant(c.Lease(), p.call.requestedAt, s.now), call := Sleeping));
  }

  lemma DropKeepsPhases(c: Config, skew: nat, s: State, w: Worker)
    requires PhasesOk(c, skew, s)
    ensures PhasesOk(c, skew, s.Drop(w))
  {
    PutKeepsPhases(c, skew, s, w, Idle);
  }

  lemma FailureKeepsPhases(c: Config, skew: nat, s: State, w: Worker)
    requires !c.lateErrors
    requires PhasesOk(c, skew, s) && Enabled(c, s, HearFailed(w))
    ensures PhasesOk(c, skew, Apply(c, s, HearFailed(w)))
  {
    var p := s.PhaseOf(w);
    assert PhaseOk(c, skew, s.now, s.row, w, p);
    var next := AfterFailure(c.Lease(), p.head, s.now);
    if next.Some? {
      PutKeepsPhases(c, skew, s, w, p.(head := next.value, call := Sleeping));
    } else {
      DropKeepsPhases(c, skew, s, w);
    }
  }

  lemma SettlementKeepsPhases(c: Config, skew: nat, s: State, w: Worker)
    requires Inv(c, skew, s) && Enabled(c, s, ApplySettlement(w))
    ensures PhasesOk(c, skew, Apply(c, s, ApplySettlement(w)))
  {
    var p := s.PhaseOf(w);
    assert PhaseOk(c, skew, s.now, s.row, w, p);
    if Live(s.row, p.gen, p.settlement.nowUnix) {
      var row := SettledRow(p.gen, p.settlement.retryAt);
      RowKeepsOthers(c, skew, s, p.gen, row);
      var t := s.Put(w, p.(settlement := Settled(s.now))).(row := row);
      assert PhasesOk(c, skew, t);
      DropKeepsPhases(c, skew, t, w);
    } else {
      PutKeepsPhases(c, skew, s, w, p.(settlement := Rejected));
    }
  }

  lemma StrayKeepsPhases(c: Config, skew: nat, s: State, stray: Stray)
    requires Inv(c, skew, s) && stray in s.strays
    ensures PhasesOk(c, skew, Apply(c, s, StrayArrives(stray)))
  {
    if Live(s.row, stray.gen, stray.nowUnix) {
      RowKeepsOthers(c, skew, s, stray.gen, Apply(c, s, StrayArrives(stray)).row);
    }
  }

  lemma RowChangeKeepsPhases(c: Config, skew: nat, s: State, row: Row)
    requires PhasesOk(c, skew, s)
    requires row == Cancelled(s.row.gen) || ((s.row.Completed? || s.row.Queued?) && row.Queued? && row.gen == s.row.gen)
    ensures PhasesOk(c, skew, s.(row := row))
  {
    forall u | u in s.workers ensures PhaseOk(c, skew, s.now, row, u, s.workers[u]) {
      assert PhaseOk(c, skew, s.now, s.row, u, s.workers[u]);
    }
  }

  lemma ClaimStepKeepsPhases(c: Config, skew: nat, s: State, step: Step)
    requires MarginCovers(c, skew) && ClocksWithin(c, skew)
    requires PhasesOk(c, skew, s) && Enabled(c, s, step) && (step.ApplyClaim? || step.CloseExhausted?)
    ensures PhasesOk(c, skew, Apply(c, s, step))
  {
    ClaimKeepsPhases(c, skew, s, step.w, Apply(c, s, step).row);
    assert PhaseOk(c, skew, s.now, s.row, step.w, s.workers[step.w]);
  }

  lemma OwnStepKeepsPhases(c: Config, skew: nat, s: State, step: Step)
    requires MarginCovers(c, skew) && ClocksWithin(c, skew)
    requires PhasesOk(c, skew, s) && Enabled(c, s, step)
    requires step.SendClaim? || step.Start? || step.SendRenewal? || step.SendSettlement?
    ensures PhasesOk(c, skew, Apply(c, s, step))
  {
    if step.Start? {
      StartIsBacked(c, skew, s, step.w);
    } else if !step.SendClaim? {
      assert PhaseOk(c, skew, s.now, s.row, step.w, s.workers[step.w]);
    }
    PutKeepsPhases(c, skew, s, step.w, Apply(c, s, step).PhaseOf(step.w));
  }

  /** Every step keeps the invariant. */
  lemma InvKept(c: Config, skew: nat, s: State, step: Step)
    requires !c.lateErrors && MarginCovers(c, skew) && ClocksWithin(c, skew)
    requires Inv(c, skew, s) && Enabled(c, s, step)
    ensures Inv(c, skew, Apply(c, s, step))
  {
    GensKept(c, skew, s, step);
    match step {
      case Advance(to) => AdvanceKeepsPhases(c, skew, s, to);
      case SendClaim(_) => OwnStepKeepsPhases(c, skew, s, step);
      case ApplyClaim(_) => ClaimStepKeepsPhases(c, skew, s, step);
      case CloseExhausted(_) => ClaimStepKeepsPhases(c, skew, s, step);
      case Start(_) => OwnStepKeepsPhases(c, skew, s, step);
      case SendRenewal(_) => OwnStepKeepsPhases(c, skew, s, step);
      case ApplyRenewal(w) => RenewalKeepsPhases(c, skew, s, w);
      case HearGranted(w) => GrantKeepsPhases(c, skew, s, w);
      case HearDeclined(w) => DropKeepsPhases(c, skew, s, w);
      case HearFailed(w) => FailureKeepsPhases(c, skew, s, w);
      case GiveUp(w) => DropKeepsPhases(c, skew, s, w);
      case SendSettlement(_, _) => OwnStepKeepsPhases(c, skew, s, step);
      case ApplySettlement(w) => SettlementKeepsPhases(c, skew, s, w);
      case HearSettled(w) => DropKeepsPhases(c, skew, s, w);
      case Quit(w) => DropKeepsPhases(c, skew, s, w);
      case StrayArrives(stray) => StrayKeepsPhases(c, skew, s, stray);
      case Cancel => RowChangeKeepsPhases(c, skew, s, Cancelled(s.row.gen));
      case Requeue(at) => RowChangeKeepsPhases(c, skew, s, Queued(s.row.gen, at));
    }
  }

  lemma {:induction false} InvHolds(c: Config, skew: nat, s: State, steps: seq<Step>)
    requires !c.lateErrors && MarginCovers(c, skew) && ClocksWithin(c, skew)
    requires Inv(c, skew, s) && Legal(c, s, steps)
    ensures Inv(c, skew, After(c, s, steps))
    decreases |steps|
  {
    if steps != [] {
      InvKept(c, skew, s, steps[0]);
      InvHolds(c, skew, Apply(c, s, steps[0]), steps[1..]);
    }
  }

  lemma InvIsSafe(c: Config, skew: nat, s: State)
    requires MarginCovers(c, skew) && ClocksWithin(c, skew)
    requires Inv(c, skew, s)
    ensures Exclusive(s) && BeforeExpiry(skew, s)
  {
    forall w | w in s.workers && s.workers[w].Acting() && s.row.Leased?
      ensures s.row.gen == s.workers[w].gen && s.now + skew < s.row.expiry * SECOND
    {
      assert PhaseOk(c, skew, s.now, s.row, w, s.workers[w]);
    }
    forall v, w | v in s.workers && w in s.workers && s.workers[v].Acting() && s.workers[w].Acting()
      ensures v == w
    {
      assert PhaseOk(c, skew, s.now, s.row, v, s.workers[v]) && PhaseOk(c, skew, s.now, s.row, w, s.workers[w]);
    }
  }

  /** Mutual exclusion over whole runs, for any number of workers and any pattern of renewals. */
  lemma MutualExclusion(c: Config, skew: nat, s: State, steps: seq<Step>)
    requires !c.lateErrors && MarginCovers(c, skew) && ClocksWithin(c, skew)
    requires Initial(s) && Legal(c, s, steps)
    ensures Exclusive(After(c, s, steps))
    ensures BeforeExpiry(skew, After(c, s, steps))
  {
    InvHolds(c, skew, s, steps);
    InvIsSafe(c, skew, After(c, s, steps));
  }

  /** A settled worker polls on for less than a lease after its commit, and never changes the row again. */
  ghost predicate SettledIsHarmless(c: Config, s: State) {
    forall w :: w in s.workers && s.workers[w].Working? && s.workers[w].settlement.Settled? ==>
      && s.now <= s.workers[w].settlement.at + c.Lease() - c.Lease() / 4
      && (forall nowUnix :: !Live(s.row, s.workers[w].gen, nowUnix))
  }

  /** What is left of a worker whose settlement committed before it heard so. */
  lemma SettledWorkerIsHarmless(c: Config, skew: nat, s: State, steps: seq<Step>)
    requires !c.lateErrors && MarginCovers(c, skew) && ClocksWithin(c, skew)
    requires Initial(s) && Legal(c, s, steps)
    ensures SettledIsHarmless(c, After(c, s, steps))
  {
    InvHolds(c, skew, s, steps);
    var t := After(c, s, steps);
    forall w | w in t.workers && t.workers[w].Working? && t.workers[w].settlement.Settled?
      ensures t.now <= t.workers[w].settlement.at + c.Lease() - c.Lease() / 4
      ensures forall nowUnix :: !Live(t.row, t.workers[w].gen, nowUnix)
    {
      assert PhaseOk(c, skew, t.now, t.row, w, t.workers[w]);
    }
  }

  predicate NoneSettled(s: State) {
    forall w :: w in s.workers && s.workers[w].Working? ==> !s.workers[w].settlement.Settled?
  }

  lemma {:induction false} PromptRepliesLeaveNoneSettled(c: Config, s: State, steps: seq<Step>)
    requires !c.lateReplies && NoneSettled(s) && Legal(c, s, steps)
    ensures NoneSettled(After(c, s, steps))
    decreases |steps|
  {
    if steps != [] {
      PromptRepliesLeaveNoneSettled(c, Apply(c, s, steps[0]), steps[1..]);
    }
  }

  // ----- How much clock skew the margin covers, exactly

  ghost predicate Reaches(c: Config, s: State, t: State) {
    exists steps :: Legal(c, s, steps) && After(c, s, steps) == t
  }

  lemma {:induction false} OneMoreStep(c: Config, s: State, steps: seq<Step>, step: Step)
    requires Legal(c, s, steps) && Enabled(c, After(c, s, steps), step)
    ensures Legal(c, s, steps + [step])
    ensures After(c, s, steps + [step]) == Apply(c, After(c, s, steps), step)
    decreases |steps|
  {
    if steps == [] {
      assert [step][1..] == [];
    } else {
      OneMoreStep(c, Apply(c, s, steps[0]), steps[1..], step);
      assert (steps + [step])[1..] == steps[1..] + [step];
    }
  }

  lemma ReachStep(c: Config, s: State, t: State, step: Step)
    requires Reaches(c, s, t) && Enabled(c, t, step)
    ensures Reaches(c, s, Apply(c, t, step))
  {
    var steps :| Legal(c, s, steps) && After(c, s, steps) == t;
    OneMoreStep(c, s, steps, step);
  }

  /** A worker that holds a claim made just now starts polling. */
  lemma StartAtOnce(c: Config, s: State, t: State, w: Worker, gen: nat) returns (u: State)
    requires Reaches(c, s, t) && 0 < c.leaseSeconds
    requires t.PhaseOf(w) == Claimed(gen, c.UnixNow(w, t.now) + c.leaseSeconds)
    ensures Reaches(c, s, u)
    ensures u == t.Put(w, Working(gen, Begin(c.Lease(), t.now, c.Lease()).value, Sleeping, Unasked))
  {
    ReachStep(c, s, t, Start(w));
    u := Apply(c, t, Start(w));
    assert c.Lease() > c.Lease() / 4;
  }

  /** An idle worker takes a claimable job and starts polling it without delay. */
  lemma ClaimAndStart(c: Config, s: State, t: State, w: Worker) returns (u: State)
    requires Reaches(c, s, t) && t.PhaseOf(w).Idle? && 0 < c.leaseSeconds
    requires Claimable(t.row, c.UnixNow(w, t.now))
    ensures Reaches(c, s, u)
    ensures var head := Begin(c.Lease(), t.now, c.Lease()).value;
            && u.workers == t.workers[w := Working(t.row.gen + 1, head, Sleeping, Unasked)]
            && u.row == Leased(t.row.gen + 1, c.UnixNow(w, t.now) + c.leaseSeconds)
            && u.now == t.now && u.strays == t.strays
  {
    ReachStep(c, s, t, SendClaim(w));
    var t1 := Apply(c, t, SendClaim(w));
    ReachStep(c, s, t1, ApplyClaim(w));
    var t2 := Apply(c, t1, ApplyClaim(w));
    u := StartAtOnce(c, s, t2, w, t.row.gen + 1);
  }

  predicate OnlyWorking(s: State, w: Worker) {
    forall v :: v in s.workers && s.workers[v].Working? ==> v == w
  }

  /** The one working worker sleeps to its next renewal, then asks for it. */
  lemma SleepAndAsk(c: Config, s: State, t: State, w: Worker) returns (u: State)
    requires Reaches(c, s, t) && OnlyWorking(t, w)
    requires t.PhaseOf(w).Working? && t.PhaseOf(w).call.Sleeping? && t.now <= t.PhaseOf(w).head.nextRenewal
    ensures Reaches(c, s, u) && OnlyWorking(u, w)
    ensures var at := t.PhaseOf(w).head.nextRenewal;
            && u.now == at && u.row == t.row && u.strays == t.strays && u.workers.Keys == t.workers.Keys
            && (forall v :: v != w ==> u.PhaseOf(v) == t.PhaseOf(v))
            && u.PhaseOf(w) == t.PhaseOf(w).(call := Renewing(at, c.UnixNow(w, at), Unanswered))
  {
    var at := t.PhaseOf(w).head.nextRenewal;
    ReachStep(c, s, t, Advance(at));
    var t1 := Apply(c, t, Advance(at));
    ReachStep(c, s, t1, SendRenewal(w));
    u := Apply(c, t1, SendRenewal(w));
  }

  /** With a wider skew two workers can poll the job at once: the second one's clock runs ahead. */
  lemma WiderSkewBreaksExclusion(c: Config, skew: nat)
    requires 0 < c.leaseSeconds && !MarginCovers(c, skew)
    requires forall w: Worker :: c.offset(w) == if w == 1 then skew else 0
    ensures exists s, t :: Initial(s) && Reaches(c, s, t) && !Exclusive(t)
  {
    var s := State(SECOND - 1, Queued(0, 0), map[], {});
    assert Legal(c, s, []) && After(c, s, []) == s;
    var t1 := ClaimAndStart(c, s, s, 0);
    assert t1.row.expiry == c.leaseSeconds;
    var t2 := SleepAndAsk(c, s, t1, 0);
    var giveUp := t2.PhaseOf(0).head.grantedUntil - c.Lease() / 4;
    ReachStep(c, s, t2, Advance(giveUp));
    var t3 := Apply(c, t2, Advance(giveUp));
    assert c.UnixNow(1, giveUp) >= c.leaseSeconds;
    var t4 := ClaimAndStart(c, s, t3, 1);
    assert t4.workers[0].Acting() && t4.workers[1].Acting();
  }

  // ----- A failed renewal that arrives late

  /** The first renewal fails so late that its retry falls just before the give-up time. */
  lemma FailLate(c: Config, s: State) returns (u: State)
    requires 0 < c.leaseSeconds && c.lateErrors && ClocksWithin(c, 0)
    requires s == State(0, Queued(0, 0), map[], {})
    ensures Reaches(c, s, u)
    ensures var lease, retryAt := c.Lease(), c.Lease() - c.Lease() / 4 - 1;
            && u.now <= retryAt && u.row == Leased(1, c.leaseSeconds)
            && u.strays == {LateRenewal(1, lease / 3 / SECOND)}
            && u.workers == map[0 := Working(1, Head(lease, retryAt), Sleeping, Unasked)]
  {
    assert Legal(c, s, []) && After(c, s, []) == s;
    var lease := c.Lease();
    var t1 := ClaimAndStart(c, s, s, 0);
    assert t1.PhaseOf(0).head == Head(lease, lease / 3);
    var t2 := SleepAndAsk(c, s, t1, 0);
    assert t2.workers == map[0 := t2.PhaseOf(0)];
    var failsAt := lease - lease / 4 - lease / 24 - 1;
    ReachStep(c, s, t2, Advance(failsAt));
    var t3 := Apply(c, t2, Advance(failsAt));
    ReachStep(c, s, t3, HearFailed(0));
    u := Apply(c, t3, HearFailed(0));
    assert u.workers == map[0 := u.PhaseOf(0)];
  }

  /** The one working worker is granted the renewal it has just asked for. */
  lemma GrantAtOnce(c: Config, s: State, t: State, w: Worker) returns (u: State)
    requires Reaches(c, s, t) && Waiting(c, t, w)
    requires t.PhaseOf(w).call == Renewing(t.now, c.UnixNow(w, t.now), Unanswered)
    requires Live(t.row, t.PhaseOf(w).gen, c.UnixNow(w, t.now))
    ensures Reaches(c, s, u)
    ensures u == t.Put(w, t.PhaseOf(w).(head := AfterGrant(c.Lease(), t.now, t.now), call := Sleeping))
                 .(row := Leased(t.row.gen, c.UnixNow(w, t.now) + c.leaseSeconds))
  {
    ReachStep(c, s, t, ApplyRenewal(w));
    var t1 := Apply(c, t, ApplyRenewal(w));
    ReachStep(c, s, t1, HearGranted(w));
    u := Apply(c, t1, HearGranted(w));
    assert u.workers == t.workers[w := u.PhaseOf(w)];
  }

  /** The retry is granted; then the failed renewal arrives and pulls the expiry back. */
  lemma GrantThenStray(c: Config, s: State, t: State) returns (u: State)
    requires 0 < c.leaseSeconds && ClocksWithin(c, 0) && Reaches(c, s, t)
    requires var lease, retryAt := c.Lease(), c.Lease() - c.Lease() / 4 - 1;
             && t.now <= retryAt && t.row == Leased(1, c.leaseSeconds)
             && t.strays == {LateRenewal(1, lease / 3 / SECOND)}
             && t.workers == map[0 := Working(1, Head(lease, retryAt), Sleeping, Unasked)]
    ensures Reaches(c, s, u)
    ensures var lease, retryAt := c.Lease(), c.Lease() - c.Lease() / 4 - 1;
            && u.now == retryAt && u.row == Leased(1, lease / 3 / SECOND + c.leaseSeconds)
            && u.workers == map[0 := Working(1, AfterGrant(lease, retryAt, retryAt), Sleeping, Unasked)]
  {
    var lease, retryAt := c.Lease(), c.Lease() - c.Lease() / 4 - 1;
    var stray := LateRenewal(1, lease / 3 / SECOND);
    var t1 := SleepAndAsk(c, s, t, 0);
    assert t1.workers == map[0 := t1.PhaseOf(0)];
    assert c.UnixNow(0, retryAt) == retryAt / SECOND < c.leaseSeconds;
    var t2 := GrantAtOnce(c, s, t1, 0);
    ReachStep(c, s, t2, StrayArrives(stray));
    u := Apply(c, t2, StrayArrives(stray));
    assert u.workers == map[0 := u.PhaseOf(0)];
  }

  /**
    Why a renewal seen to fail must not reach the row later, for every lease and with perfect clocks: asked for
    at L/3 and failed just before the last retry, it arrives after that retry was granted and pulls the expiry
    back to about L + L/3, while the worker polls for almost L + L/2.
   */
  lemma LateRenewalBreaksExclusion(c: Config)
    requires 0 < c.leaseSeconds && c.lateErrors && ClocksWithin(c, 0)
    ensures exists s, t :: Initial(s) && Reaches(c, s, t) && !Exclusive(t)
  {
    var s := State(0, Queued(0, 0), map[], {});
    var t1 := FailLate(c, s);
    var t2 := GrantThenStray(c, s, t1);
    var t3 := SleepAndAsk(c, s, t2, 0);
    var at := Max(t3.now, t3.row.expiry * SECOND);
    ReachStep(c, s, t3, Advance(at));
    var t4 := Apply(c, t3, Advance(at));
    assert c.UnixNow(1, at) >= t4.row.expiry;
    var t5 := ClaimAndStart(c, s, t4, 1);
    assert t5.workers[0].Acting() && t5.workers[1].Acting();
  }

  // ----- A settlement heard late

  /** A job settled and queued again can be polled by a second worker before the first hears of its commit. */
  lemma LateReplyOverlaps(c: Config)
    requires 0 < c.leaseSeconds && c.lateReplies
    ensures exists s, t :: Initial(s) && Reaches(c, s, t) && !Alone(t)
  {
    var s := State(0, Queued(0, 0), map[], {});
    assert Legal(c, s, []) && After(c, s, []) == s;
    var t1 := ClaimAndStart(c, s, s, 0);
    ReachStep(c, s, t1, SendSettlement(0, None));
    var t2 := Apply(c, t1, SendSettlement(0, None));
    ReachStep(c, s, t2, ApplySettlement(0));
    var t3 := Apply(c, t2, ApplySettlement(0));
    ReachStep(c, s, t3, Requeue(0));
    var t4 := Apply(c, t3, Requeue(0));
    var t5 := ClaimAndStart(c, s, t4, 1);
    assert t5.workers[0].Working? && t5.workers[1].Working?;
  }

  // ----- What becomes of a settled job

  /** This step settles the job: it commits with that time to try again, or closes a job out of attempts. */
  predicate Settles(s: State, step: Step, retryAt: Option<nat>) {
    match step
    case ApplySettlement(w) =>
      var p := s.PhaseOf(w);
      p.Working? && p.settlement.Asked? && Live(s.row, p.gen, p.settlement.nowUnix) && p.settlement.retryAt == retryAt
    case StrayArrives(stray) =>
      stray.LateSettlement? && Live(s.row, stray.gen, stray.nowUnix) && stray.retryAt == retryAt
    case CloseExhausted(_) => retryAt == None
    case _ => false
  }

  predicate ByNobodyElse(step: Step) {
    !step.Cancel? && !step.Requeue?
  }

  /** While no lease is held, only a claim, a cancellation or a user's retry touches the row. */
  lemma {:induction false} UnleasedRowStays(c: Config, s: State, steps: seq<Step>)
    requires !s.row.Leased? && Legal(c, s, steps)
    requires forall i :: 0 <= i < |steps| ==> ByNobodyElse(steps[i]) && !steps[i].ApplyClaim?
    ensures After(c, s, steps).row == s.row
    decreases |steps|
  {
    if steps != [] {
      UnleasedRowStays(c, Apply(c, s, steps[0]), steps[1..]);
    }
  }

  /**
    A failure recorded with a time to try again: whatever happens until somebody claims, cancels or retries, a
    claim succeeds exactly when the claiming worker's clock had reached that time, and gives it the next generation.
   */
  lemma RetryIsClaimedIff(c: Config, s: State, step: Step, at: nat, steps: seq<Step>, v: Worker)
    requires Enabled(c, s, step) && Settles(s, step, Some(at)) && Legal(c, Apply(c, s, step), steps)
    requires forall i :: 0 <= i < |steps| ==> ByNobodyElse(steps[i]) && !steps[i].ApplyClaim?
    requires After(c, Apply(c, s, step), steps).PhaseOf(v).Claiming?
    ensures var t := After(c, Apply(c, s, step), steps);
            && (Enabled(c, t, ApplyClaim(v)) <==> at <= t.PhaseOf(v).nowUnix)
            && (Enabled(c, t, ApplyClaim(v)) ==>
                  var claimed := Apply(c, t, ApplyClaim(v)).PhaseOf(v);
                  claimed.Claimed? && claimed.gen == s.row.gen + 1 && claimed.expiry == t.PhaseOf(v).expiry)
  {
    UnleasedRowStays(c, Apply(c, s, step), steps);
  }

  /** Every worker that polls in t polled already in s. */
  predicate NoneStarted(s: State, t: State) {
    forall v :: v in t.workers && t.workers[v].Working? ==> s.PhaseOf(v).Working?
  }

  lemma ClosedStep(c: Config, skew: nat, s: State, step: Step)
    requires MarginCovers(c, skew) && ClocksWithin(c, skew)
    requires PhasesOk(c, skew, s) && s.row.Completed? && Enabled(c, s, step) && ByNobodyElse(step)
    ensures !step.ApplyClaim? && Apply(c, s, step).row == s.row && NoneStarted(s, Apply(c, s, step))
  {
    if step.Start? {
      StartIsBacked(c, skew, s, step.w);
    }
  }

  lemma {:induction false} ClosedForGood(c: Config, skew: nat, s: State, steps: seq<Step>)
    requires !c.lateErrors && MarginCovers(c, skew) && ClocksWithin(c, skew)
    requires Inv(c, skew, s) && s.row.Completed? && Legal(c, s, steps)
    requires forall i :: 0 <= i < |steps| ==> ByNobodyElse(steps[i])
    ensures After(c, s, steps).row == s.row && NoneStarted(s, After(c, s, steps))
    ensures forall i :: 0 <= i < |steps| ==> !steps[i].ApplyClaim?
    decreases |steps|
  {
    if steps != [] {
      var t := Apply(c, s, steps[0]);
      ClosedStep(c, skew, s, steps[0]);
      InvKept(c, skew, s, steps[0]);
      ClosedForGood(c, skew, t, steps[1..]);
      forall i | 0 <= i < |steps| ensures !steps[i].ApplyClaim? {
        assert i > 0 ==> steps[i] == steps[1..][i - 1];
      }
      var end := After(c, s, steps);
      forall v | v in end.workers && end.workers[v].Working? ensures s.PhaseOf(v).Working? {
        assert t.PhaseOf(v).Working?;
      }
    }
  }

  /**
    A job completed, failed for good or out of attempts: unless it is cancelled or retried by a user, no claim
    of it ever succeeds again and no worker starts polling it.
   */
  lemma SettledForGood(c: Config, skew: nat, s: State, before: seq<Step>, step: Step, steps: seq<Step>)
    requires !c.lateErrors && MarginCovers(c, skew) && ClocksWithin(c, skew)
    requires Initial(s) && Legal(c, s, before)
    requires var now := After(c, s, before);
             Enabled(c, now, step) && Settles(now, step, None) && Legal(c, Apply(c, now, step), steps)
    requires forall i :: 0 <= i < |steps| ==> ByNobodyElse(steps[i])
    ensures NoneStarted(After(c, s, before), After(c, Apply(c, After(c, s, before), step), steps))
    ensures forall i :: 0 <= i < |steps| ==> !steps[i].ApplyClaim?
  {
    InvHolds(c, skew, s, before);
    var now := After(c, s, before);
    InvKept(c, skew, now, step);
    var t := Apply(c, now, step);
    ClosedForGood(c, skew, t, steps);
    var end := After(c, t, steps);
    forall v | v in end.workers && end.workers[v].Working? ensures now.PhaseOf(v).Working? {
      assert t.PhaseOf(v).Working?;
    }
  }

  lemma {:induction false} CancelledStays(c: Config, s: State, steps: seq<Step>)
    requires s.row.Cancelled? && Legal(c, s, steps)
    ensures After(c, s, steps).row == s.row && forall i :: 0 <= i < |steps| ==> !steps[i].ApplyClaim?
    decreases |steps|
  {
    if steps != [] {
      CancelledStays(c, Apply(c, s, steps[0]), steps[1..]);
      forall i | 0 <= i < |steps| ensures !steps[i].ApplyClaim? {
        assert i > 0 ==> steps[i] == steps[1..][i - 1];
      }
    }
  }

  /** A cancelled job is never claimed, renewed, settled or retried again, whatever anybody does. */
  lemma CancelledForGood(c: Config, s: State, steps: seq<Step>)
    requires Legal(c, Apply(c, s, Cancel), steps)
    ensures After(c, Apply(c, s, Cancel), steps).row == Cancelled(s.row.gen)
    ensures forall i :: 0 <= i < |steps| ==> !steps[i].ApplyClaim?
  {
    CancelledStays(c, Apply(c, s, Cancel), steps);
  }

  /** At any reading of a clock a lease is live or can be claimed, never both. */
  lemma LiveOrClaimable(row: Row, gen: nat, nowUnix: nat)
    ensures row.Leased? && row.gen == gen ==> (Live(row, gen, nowUnix) <==> !Claimable(row, nowUnix))
    ensures !row.Leased? || row.gen != gen ==> !Live(row, gen, nowUnix)
  {
  }

  /** A renewal is answered, with a grant exactly under a live lease; a worker that hears a refusal stops. */
  lemma RenewalIsAnswered(c: Config, s: State, w: Worker)
    requires Enabled(c, s, ApplyRenewal(w)) && Waiting(c, s, w)
    ensures var t, p := Apply(c, s, ApplyRenewal(w)), s.PhaseOf(w);
            && (Enabled(c, t, HearGranted(w)) <==> Live(s.row, p.gen, p.call.nowUnix))
            && (Enabled(c, t, HearDeclined(w)) <==> !Live(s.row, p.gen, p.call.nowUnix))
            && (Enabled(c, t, HearDeclined(w)) ==> Apply(c, t, HearDeclined(w)).PhaseOf(w).Idle?)
  {
  }

  /** A claim that finds the lease of a job's last attempt expired can close the job. */
  lemma ExhaustedIsClosed(c: Config, s: State, w: Worker)
    requires s.PhaseOf(w).Claiming? && s.row.Leased?
    ensures Enabled(c, s, CloseExhausted(w)) <==> s.row.expiry <= s.PhaseOf(w).nowUnix
    ensures Enabled(c, s, CloseExhausted(w)) ==> Apply(c, s, CloseExhausted(w)).row == Completed(s.row.gen)
  {
  }

  /** A worker told that its lease is gone, out of time or heard to have settled polls no more. */
  lemma EndingsStopPolling(c: Config, s: State, step: Step)
    requires Enabled(c, s, step)
    requires step.HearDeclined? || step.GiveUp? || step.HearSettled? || step.Quit?
    ensures Apply(c, s, step).PhaseOf(step.w).Idle? && Apply(c, s, step).row == s.row
  {
  }

  // ----- The exact conditions

  /** The runs of any workers with this lease, this skew and these kinds of lateness. */
  ghost predicate Possible(leaseSeconds: nat, skew: nat, lateErrors: bool, c: Config, s: State, t: State) {
    && c.leaseSeconds == leaseSeconds && c.lateErrors == lateErrors && ClocksWithin(c, skew)
    && Initial(s) && Reaches(c, s, t)
  }

  /**
    Exclusion over all runs holds exactly when no failed renewal arrives late and the skew plus one second fits
    in a quarter of the lease.
   */
  lemma ExclusionIff(leaseSeconds: nat, skew: nat, lateErrors: bool)
    requires 0 < leaseSeconds
    ensures (forall c, s, t :: Possible(leaseSeconds, skew, lateErrors, c, s, t) ==> Exclusive(t))
            <==> !lateErrors && skew + SECOND <= leaseSeconds * SECOND / 4
  {
    if !lateErrors && skew + SECOND <= leaseSeconds * SECOND / 4 {
      forall c, s, t | Possible(leaseSeconds, skew, lateErrors, c, s, t) ensures Exclusive(t) {
        var steps :| Legal(c, s, steps) && After(c, s, steps) == t;
        MutualExclusion(c, skew, s, steps);
      }
    } else {
      var c, s, t := Overlap(leaseSeconds, skew, lateErrors, false);
      assert Possible(leaseSeconds, skew, lateErrors, c, s, t) && !Exclusive(t);
    }
  }

  lemma Overlap(leaseSeconds: nat, skew: nat, lateErrors: bool, lateReplies: bool)
    returns (c: Config, s: State, t: State)
    requires 0 < leaseSeconds && !(!lateErrors && skew + SECOND <= leaseSeconds * SECOND / 4)
    ensures Possible(leaseSeconds, skew, lateErrors, c, s, t) && c.lateReplies == lateReplies && !Exclusive(t)
  {
    if lateErrors {
      c := Config(leaseSeconds, (w: Worker) => 0, lateErrors, lateReplies);
      LateRenewalBreaksExclusion(c);
    } else {
      c := Config(leaseSeconds, (w: Worker) => if w == 1 then skew else 0, lateErrors, lateReplies);
      WiderSkewBreaksExclusion(c, skew);
    }
    s, t :| Initial(s) && Reaches(c, s, t) && !Exclusive(t);
  }

  /** At most one worker polls at all, in every run, exactly when settlements are also heard as they commit. */
  lemma AloneIff(leaseSeconds: nat, skew: nat, lateErrors: bool, lateReplies: bool)
    requires 0 < leaseSeconds
    ensures (forall c, s, t ::
               Possible(leaseSeconds, skew, lateErrors, c, s, t) && c.lateReplies == lateReplies ==> Alone(t))
            <==> !lateReplies && !lateErrors && skew + SECOND <= leaseSeconds * SECOND / 4
  {
    if !lateErrors && skew + SECOND <= leaseSeconds * SECOND / 4 {
      if lateReplies {
        var c := Config(leaseSeconds, (w: Worker) => 0, lateErrors, lateReplies);
        LateReplyOverlaps(c);
        var s, t :| Initial(s) && Reaches(c, s, t) && !Alone(t);
        assert Possible(leaseSeconds, skew, lateErrors, c, s, t);
      } else {
        forall c, s, t | Possible(leaseSeconds, skew, lateErrors, c, s, t) && c.lateReplies == lateReplies
          ensures Alone(t)
        {
          var steps :| Legal(c, s, steps) && After(c, s, steps) == t;
          MutualExclusion(c, skew, s, steps);
          PromptRepliesLeaveNoneSettled(c, s, steps);
        }
      }
    } else {
      var c, s, t := Overlap(leaseSeconds, skew, lateErrors, lateReplies);
      assert !Alone(t);
    }
  }
}
