/**
  The lease supervisor of the media worker: it polls a job while renewing the
  lease that backs it, retries a failed renewal, and stops the job a safety
  margin before the lease it was granted runs out.

  Instants and durations are whole nanoseconds; timers are ideal, that is, a
  `sleep_until` wakes at the instant it was given.
 */
module Lease {
  import opened Wrappers

  type Instant = nat
  type Duration = nat

  const MILLISECOND: nat := 1_000_000

  datatype RenewalSchedule = RenewalSchedule(
    leaseDuration: Duration,
    heartbeat: Duration,
    retryDelay: Duration,
    safetyMargin: Duration)

  function Schedule(lease: Duration): RenewalSchedule {
    RenewalSchedule(lease, Max(lease / 3, 10 * MILLISECOND), lease / 24, lease / 4)
  }

  /** The two variables the supervisor carries from one loop iteration to the next. */
  datatype Head = Head(grantedUntil: Instant, nextRenewal: Instant)

  /** At every loop head the next renewal is due no later than the give-up time. */
  predicate HeadOk(lease: Duration, head: Head) {
    head.nextRenewal + Schedule(lease).safetyMargin <= head.grantedUntil
  }

  /** When the supervisor stops waiting for a renewal and drops the work. */
  function GiveUpAt(lease: Duration, head: Head): Instant
    requires HeadOk(lease, head)
  {
    head.grantedUntil - Schedule(lease).safetyMargin
  }

  /** Entry to the supervisor; `None` is an immediate `LeaseLost`. */
  function Begin(lease: Duration, now: Instant, remaining: Duration): (head: Option<Head>)
    ensures head.Some? ==> HeadOk(lease, head.value) && now <= head.value.nextRenewal
    ensures head.None? <==> remaining <= lease / 4
  {
    var s := Schedule(lease);
    if remaining <= s.safetyMargin then None
    else Some(Head(now + remaining, now + Min(s.heartbeat, (remaining - s.safetyMargin) / 2)))
  }

  /** The loop variables after a renewal requested at `requestedAt` was granted at `now`. */
  function AfterGrant(lease: Duration, requestedAt: Instant, now: Instant): (head: Head)
    ensures HeadOk(lease, head)
  {
    var s := Schedule(lease);
    var grantedUntil := requestedAt + lease;
    Head(grantedUntil, Min(now + s.heartbeat, grantedUntil - s.safetyMargin))
  }

  /** The loop variables after a renewal failed at `now`; `None` ends the supervision. */
  function AfterFailure(lease: Duration, head: Head, now: Instant): (next: Option<Head>)
    ensures next.Some? ==> HeadOk(lease, next.value) && next.value.grantedUntil == head.grantedUntil
  {
    var s := Schedule(lease);
    var retryAt := now + s.retryDelay;
    if s.safetyMargin <= head.grantedUntil && retryAt < head.grantedUntil - s.safetyMargin
    then Some(head.(nextRenewal := retryAt))
    else None
  }

  datatype Answer = Granted | Refused | Failed

  /** What the database does with one renewal request. */
  datatype Renewal = Stalls | Answers(latency: Duration, answer: Answer)

  datatype HeartbeatError = LeaseLost | Database

  datatype Outcome = Finished(at: Instant) | Ended(error: HeartbeatError, at: Instant)

  /** One answered renewal: when it was asked for, the give-up time then in force, the answer. */
  datatype Attempt = Attempt(
    requestedAt: Instant,
    giveUpAt: Instant,
    answeredAt: Instant,
    answer: Answer)

  /** The give-up time in force after some answered renewals. */
  function GiveUpAfter(lease: Duration, initial: int, attempts: seq<Attempt>): int {
    if attempts == [] then initial
    else
      var last := attempts[|attempts| - 1];
      if last.answer.Granted? then last.requestedAt + lease - lease / 4
      else last.giveUpAt
  }

  /** How one attempt follows another. */
  predicate Follows(lease: Duration, previous: Attempt, next: Attempt) {
    match previous.answer
    case Granted =>
      && next.giveUpAt == previous.requestedAt + lease - lease / 4
      && previous.giveUpAt <= next.giveUpAt
      && next.requestedAt == Min(previous.answeredAt + Schedule(lease).heartbeat, next.giveUpAt)
      && (30 * MILLISECOND <= lease ==>
            next.requestedAt == previous.answeredAt + Schedule(lease).heartbeat < next.giveUpAt)
    case Failed =>
      && next.giveUpAt == previous.giveUpAt
      && next.requestedAt == previous.answeredAt + Schedule(lease).retryDelay < next.giveUpAt
    case Refused => false
  }

  predicate Chained(lease: Duration, attempts: seq<Attempt>) {
    && (forall i :: 0 <= i < |attempts| ==>
          attempts[i].requestedAt <= attempts[i].answeredAt < attempts[i].giveUpAt)
    && (forall i :: 0 < i < |attempts| ==> Follows(lease, attempts[i - 1], attempts[i]))
  }

  /** Whether a grant made now leaves a whole heartbeat before the give-up time it sets. */
  predicate RoomForHeartbeat(lease: Duration, giveUpAt: int, requestedAt: int) {
    var s := Schedule(lease);
    30 * MILLISECOND <= lease ==> giveUpAt + s.heartbeat <= requestedAt + lease - s.safetyMargin
  }

  lemma RoomAtBegin(lease: Duration, now: Instant, remaining: Duration)
    requires lease / 4 < remaining <= lease
    ensures var head := Begin(lease, now, remaining).value;
            RoomForHeartbeat(lease, head.grantedUntil - lease / 4, head.nextRenewal)
  {
  }

  /** The timing invariant of the supervisor at a loop head. */
  ghost predicate Timely(lease: Duration, head: Head, now: Instant, attempts: seq<Attempt>) {
    && HeadOk(lease, head)
    && now <= head.nextRenewal
    && head.grantedUntil <= head.nextRenewal + lease
    && RoomForHeartbeat(lease, GiveUpAt(lease, head), head.nextRenewal)
    && Chained(lease, attempts)
    && (attempts != [] ==>
          Follows(lease, attempts[|attempts| - 1],
                  Attempt(head.nextRenewal, GiveUpAt(lease, head), head.nextRenewal, Failed)))
  }

  lemma AttemptExtends(lease: Duration, head: Head, now: Instant, attempts: seq<Attempt>,
                       answeredAt: Instant, answer: Answer)
    requires Timely(lease, head, now, attempts)
    requires head.nextRenewal <= answeredAt < GiveUpAt(lease, head)
    ensures Chained(lease, attempts + [Attempt(head.nextRenewal, GiveUpAt(lease, head), answeredAt, answer)])
  {
  }

  lemma GrantIsTimely(lease: Duration, head: Head, now: Instant, attempts: seq<Attempt>, answeredAt: Instant)
    requires Timely(lease, head, now, attempts)
    requires head.nextRenewal <= answeredAt < GiveUpAt(lease, head)
    ensures Timely(lease, AfterGrant(lease, head.nextRenewal, answeredAt), answeredAt,
                   attempts + [Attempt(head.nextRenewal, GiveUpAt(lease, head), answeredAt, Granted)])
  {
    AttemptExtends(lease, head, now, attempts, answeredAt, Granted);
  }

  lemma FailureIsTimely(lease: Duration, head: Head, now: Instant, attempts: seq<Attempt>, answeredAt: Instant)
    requires Timely(lease, head, now, attempts)
    requires head.nextRenewal <= answeredAt < GiveUpAt(lease, head)
    requires AfterFailure(lease, head, answeredAt).Some?
    ensures Timely(lease, AfterFailure(lease, head, answeredAt).value, answeredAt,
                   attempts + [Attempt(head.nextRenewal, GiveUpAt(lease, head), answeredAt, Failed)])
  {
    AttemptExtends(lease, head, now, attempts, answeredAt, Failed);
  }

  predicate InTime(at: Instant, giveUpAt: Instant, finish: Option<Instant>) {
    at < giveUpAt && (finish.Some? ==> at < finish.value)
  }

  datatype Waited = WorkDone | TimedOut(at: Instant) | Answered(at: Instant, answer: Answer)

  /** The two waits of one iteration: the work, then the give-up timer, then the answer, in that order. */
  function AwaitRenewal(finish: Option<Instant>, requestedAt: Instant, giveUpAt: Instant, renewal: Renewal): (w: Waited)
    ensures w.WorkDone? ==> finish.Some? && finish.value <= Max(requestedAt, giveUpAt)
    ensures w.TimedOut? ==> w.at == Max(requestedAt, giveUpAt) && (finish.Some? ==> w.at < finish.value)
    ensures w.Answered? ==>
              requestedAt <= w.at < giveUpAt && renewal.Answers? && renewal.answer == w.answer
              && (finish.Some? ==> w.at < finish.value)
    // An answer that comes in time is heard, whatever it says.
    ensures w.Answered? <==> renewal.Answers? && InTime(requestedAt + renewal.latency, giveUpAt, finish)
    ensures w.Answered? ==> w.at == requestedAt + renewal.latency
  {
    var wakesAt := Max(requestedAt, giveUpAt);
    var answeredAt := if renewal.Stalls? then wakesAt else Min(wakesAt, requestedAt + renewal.latency);
    if finish.Some? && finish.value <= answeredAt then WorkDone
    else if answeredAt == wakesAt then TimedOut(wakesAt)
    else Answered(answeredAt, renewal.answer)
  }

  datatype Turn = Again(head: Head, attempt: Attempt) | Stop(outcome: Outcome, answered: seq<Attempt>)

  /** One iteration of the supervisor's loop, entered at `now`. */
  function TakeTurn(lease: Duration, head: Head, now: Instant, finish: Option<Instant>, renewal: Renewal): Turn
    requires HeadOk(lease, head)
  {
    // Work or the renewal timer first; on a tie the second wait still polls the work first.
    var requestedAt := Max(now, head.nextRenewal);
    var giveUpAt := GiveUpAt(lease, head);
    match AwaitRenewal(finish, requestedAt, giveUpAt, renewal)
    case WorkDone => Stop(Finished(finish.value), [])
    case TimedOut(at) => Stop(Ended(Database, at), [])
    case Answered(at, answer) =>
      var attempt := Attempt(requestedAt, giveUpAt, at, answer);
      match answer
      case Granted => Again(AfterGrant(lease, requestedAt, at), attempt)
      case Refused => Stop(Ended(LeaseLost, at), [attempt])
      case Failed =>
        match AfterFailure(lease, head, at)
        case Some(next) => Again(next, attempt)
        case None => Stop(Ended(Database, at), [attempt])
  }

  lemma TurnIsTimely(lease: Duration, head: Head, now: Instant, finish: Option<Instant>, renewal: Renewal,
                     attempts: seq<Attempt>)
    requires Timely(lease, head, now, attempts)
    ensures var turn := TakeTurn(lease, head, now, finish, renewal);
            match turn
            case Again(next, attempt) =>
              now <= attempt.answeredAt && Timely(lease, next, attempt.answeredAt, attempts + [attempt])
            case Stop(outcome, answered) =>
              && Chained(lease, attempts + answered)
              && outcome.at <= GiveUpAt(lease, head)
              && (answered != [] ==> answered[0].giveUpAt == GiveUpAt(lease, head))
  {
    var turn := TakeTurn(lease, head, now, finish, renewal);
    match turn {
      case Again(_, attempt) =>
        if attempt.answer.Granted? {
          GrantIsTimely(lease, head, now, attempts, attempt.answeredAt);
        } else {
          FailureIsTimely(lease, head, now, attempts, attempt.answeredAt);
        }
      case Stop(_, answered) =>
        if answered == [] {
          assert attempts + answered == attempts;
        } else {
          AttemptExtends(lease, head, now, attempts, answered[0].answeredAt, answered[0].answer);
        }
    }
  }

  /** What a turn says whatever the first lease was. */
  lemma TurnKeepsTheWork(lease: Duration, head: Head, now: Instant, finish: Option<Instant>, renewal: Renewal)
    requires HeadOk(lease, head)
    requires finish.Some? ==> now <= finish.value
    ensures match TakeTurn(lease, head, now, finish, renewal)
            case Again(next, attempt) =>
              && HeadOk(lease, next)
              && now <= attempt.answeredAt
              && (finish.Some? ==> attempt.answeredAt < finish.value)
              && attempt.giveUpAt == GiveUpAt(lease, head)
              && renewal.Answers? && !attempt.answer.Refused?
              && GiveUpAt(lease, next) == GiveUpAfter(lease, 0, [attempt])
            case Stop(outcome, answered) =>
              && now <= outcome.at
              && (outcome.Finished? ==> finish == Some(outcome.at) && answered == [])
              && (outcome.Ended? && finish.Some? ==> outcome.at < finish.value)
              && |answered| <= 1
              && (answered != [] ==> !answered[0].answer.Granted? && answered[0].giveUpAt == GiveUpAt(lease, head))
              && (outcome.Ended? ==>
                    (outcome.error.LeaseLost? <==> answered != [] && answered[0].answer.Refused?))
  {
  }

  /**
    Why a supervision ends: the last renewal was refused; or it failed with no room for a retry before the
    give-up time; or the give-up time came.
   */
  predicate EndsForCause(lease: Duration, giveUpAt: int, outcome: Outcome, attempts: seq<Attempt>) {
    outcome.Ended? ==>
      if attempts != [] && attempts[|attempts| - 1].answer.Refused? then
        outcome == Ended(LeaseLost, attempts[|attempts| - 1].answeredAt)
      else
        && outcome.error.Database?
        && (outcome.at != giveUpAt ==>
              && attempts != [] && attempts[|attempts| - 1].answer.Failed?
              && outcome.at == attempts[|attempts| - 1].answeredAt && giveUpAt <= outcome.at + lease / 24)
  }

  lemma TurnEndsForCause(lease: Duration, head: Head, now: Instant, finish: Option<Instant>, renewal: Renewal,
                         attempts: seq<Attempt>)
    requires HeadOk(lease, head) && now <= GiveUpAt(lease, head)
    requires attempts != [] ==> !attempts[|attempts| - 1].answer.Refused?
    ensures var turn := TakeTurn(lease, head, now, finish, renewal);
            turn.Stop? ==> EndsForCause(lease, GiveUpAt(lease, head), turn.outcome, attempts + turn.answered)
  {
    var turn := TakeTurn(lease, head, now, finish, renewal);
    if turn.Stop? && turn.answered == [] {
      assert attempts + turn.answered == attempts;
    }
  }

  /**
    Every renewal is granted, the first before `room` has passed, and any two in a row take together less than
    what a grant leaves after its heartbeat.
   */
  predicate Prompt(lease: Duration, room: int, renewals: seq<Renewal>) {
    && (forall i :: 0 <= i < |renewals| ==> renewals[i].Answers? && renewals[i].answer.Granted?)
    && (renewals != [] ==> renewals[0].latency < room)
    && (forall i :: 0 < i < |renewals| ==>
          renewals[i - 1].latency + renewals[i].latency < lease - lease / 4 - lease / 3)
  }

  /** The renewals still to come are answered in time and reach beyond the end of the work. */
  predicate OnTime(lease: Duration, head: Head, now: Instant, finish: Option<Instant>, renewals: seq<Renewal>)
    requires HeadOk(lease, head)
  {
    && now <= head.nextRenewal
    && Prompt(lease, GiveUpAt(lease, head) - head.nextRenewal, renewals)
    && finish.Some? && finish.value < head.nextRenewal + |renewals| * (lease / 3)
  }

  /** How the k-th renewal ends, if any is answered. */
  function RenewalAt(renewals: seq<Renewal>, k: nat): Renewal {
    if k < |renewals| then renewals[k] else Stalls
  }

  /** A renewal on time brings the work another third of the lease; without one left, the work is done. */
  lemma TurnOnTime(lease: Duration, head: Head, now: Instant, finish: Option<Instant>, renewals: seq<Renewal>)
    requires 30 * MILLISECOND <= lease && HeadOk(lease, head) && OnTime(lease, head, now, finish, renewals)
    ensures match TakeTurn(lease, head, now, finish, RenewalAt(renewals, 0))
            case Stop(outcome, _) => outcome == Finished(finish.value)
            case Again(next, attempt) =>
              && renewals != [] && HeadOk(lease, next)
              && OnTime(lease, next, attempt.answeredAt, finish, renewals[1..])
  {
    if renewals != [] {
      var later := renewals[1..];
      assert |renewals| * (lease / 3) == |later| * (lease / 3) + lease / 3;
      assert forall i :: 0 < i < |later| ==> later[i - 1] == renewals[i] && later[i] == renewals[i + 1];
      assert later != [] ==> later[0] == renewals[1];
    }
  }

  /** How long the first renewal may take: from when it is asked for to the first give-up time. */
  function FirstRoom(lease: Duration, remaining: Duration): int {
    remaining - lease / 4 - Min(Schedule(lease).heartbeat, (remaining - lease / 4) / 2)
  }

  /** The claim under supervision: when it began, with how much lease left, and when the work would finish. */
  datatype Claim = Claim(lease: Duration, start: Instant, remaining: Duration, finish: Option<Instant>)
  {
    predicate Regular() {
      remaining <= lease
    }

    function FirstGiveUp(): int {
      start + remaining - lease / 4
    }

    /** Renewals granted in time that reach beyond the end of the work. */
    predicate Served(renewals: seq<Renewal>) {
      && 30 * MILLISECOND <= lease && Prompt(lease, FirstRoom(lease, remaining), renewals)
      && finish.Some? && finish.value < start + |renewals| * (lease / 3)
    }
  }

  /** The work is never polled after the give-up time in force, and given up for cause alone. */
  ghost predicate StaysInLease(claim: Claim, outcome: Outcome, attempts: seq<Attempt>) {
    claim.Regular() ==>
      var giveUpAt := GiveUpAfter(claim.lease, claim.FirstGiveUp(), attempts);
      && Chained(claim.lease, attempts)
      && outcome.at <= giveUpAt && EndsForCause(claim.lease, giveUpAt, outcome, attempts)
  }

  /** A finished outcome is the work's own end; the work is dropped only while it is unfinished. */
  predicate ReportsTheWork(claim: Claim, outcome: Outcome, attempts: seq<Attempt>) {
    && claim.start <= outcome.at
    && (attempts != [] ==> attempts[0].giveUpAt == claim.FirstGiveUp())
    && (outcome.Finished? ==>
          claim.finish == Some(outcome.at) && (attempts != [] ==> !attempts[|attempts| - 1].answer.Refused?))
    && (outcome.Ended? ==>
          && (claim.finish.Some? ==> outcome.at < claim.finish.value)
          && (outcome.error.LeaseLost? <==> attempts != [] && attempts[|attempts| - 1].answer.Refused?))
  }

  /** When the next renewal is asked for, after some answered ones. */
  function RequestAt(claim: Claim, attempts: seq<Attempt>): int {
    var lease := claim.lease;
    if attempts == [] then claim.start + Min(Schedule(lease).heartbeat, (claim.remaining - lease / 4) / 2)
    else
      var last := attempts[|attempts| - 1];
      if last.answer.Granted?
      then Min(last.answeredAt + Schedule(lease).heartbeat, last.requestedAt + lease - lease / 4)
      else last.answeredAt + lease / 24
  }

  predicate AnsweredAs(attempt: Attempt, renewal: Renewal) {
    renewal.Answers? && attempt.answer == renewal.answer && attempt.answeredAt == attempt.requestedAt + renewal.latency
  }

  /**
    The answered renewals are the first ones, as the database answered them; and unless the last of them ended the
    supervision, the next one was not answered before it ended.
   */
  ghost predicate HearsRenewals(claim: Claim, renewals: seq<Renewal>, outcome: Outcome, attempts: seq<Attempt>) {
    claim.Regular() ==>
      && Asked(claim, renewals, attempts)
      && (EndedByAnswer(outcome, attempts)
          || Unheard(RenewalAt(renewals, |attempts|), RequestAt(claim, attempts), outcome.at))
  }

  predicate Asked(claim: Claim, renewals: seq<Renewal>, attempts: seq<Attempt>) {
    && |attempts| <= |renewals|
    && (forall i :: 0 <= i < |attempts| ==> AnsweredAs(attempts[i], renewals[i]))
    && (attempts != [] ==> attempts[0].requestedAt == RequestAt(claim, []))
  }

  predicate EndedByAnswer(outcome: Outcome, attempts: seq<Attempt>) {
    outcome.Ended? && attempts != [] && !attempts[|attempts| - 1].answer.Granted?
    && outcome.at == attempts[|attempts| - 1].answeredAt
  }

  predicate Unheard(renewal: Renewal, requestedAt: int, at: Instant) {
    renewal.Answers? ==> at <= requestedAt + renewal.latency
  }

  ghost predicate AskedAtHead(claim: Claim, renewals: seq<Renewal>, head: Head, now: Instant, attempts: seq<Attempt>) {
    claim.Regular() ==>
      Asked(claim, renewals, attempts) && now <= head.nextRenewal && head.nextRenewal == RequestAt(claim, attempts)
  }

  lemma TurnHears(claim: Claim, renewals: seq<Renewal>, head: Head, now: Instant, attempts: seq<Attempt>)
    requires HeadOk(claim.lease, head) && AskedAtHead(claim, renewals, head, now, attempts)
    requires claim.Regular() ==> head.grantedUntil <= head.nextRenewal + claim.lease
    ensures match TakeTurn(claim.lease, head, now, claim.finish, RenewalAt(renewals, |attempts|))
            case Stop(outcome, answered) => HearsRenewals(claim, renewals, outcome, attempts + answered)
            case Again(next, attempt) =>
              AskedAtHead(claim, renewals, next, attempt.answeredAt, attempts + [attempt])
  {
    var renewal := RenewalAt(renewals, |attempts|);
    var turn := TakeTurn(claim.lease, head, now, claim.finish, renewal);
    if turn.Stop? && turn.answered == [] {
      assert attempts + turn.answered == attempts;
    } else if turn.Stop? {
      assert (attempts + turn.answered)[|attempts|] == turn.answered[0];
    }
  }

  /** What the loop keeps, for each of the promises. */
  ghost predicate LeaseAtHead(claim: Claim, head: Head, now: Instant, attempts: seq<Attempt>) {
    && HeadOk(claim.lease, head)
    && (claim.Regular() ==> Timely(claim.lease, head, now, attempts))
    && GiveUpAfter(claim.lease, claim.FirstGiveUp(), attempts) == GiveUpAt(claim.lease, head)
    && (attempts != [] ==> !attempts[|attempts| - 1].answer.Refused?)
  }

  predicate WorkAtHead(claim: Claim, head: Head, now: Instant, attempts: seq<Attempt>) {
    && HeadOk(claim.lease, head) && claim.start <= now && (claim.finish.Some? ==> now <= claim.finish.value)
    && (if attempts == [] then GiveUpAt(claim.lease, head) else attempts[0].giveUpAt) == claim.FirstGiveUp()
  }

  lemma TurnStaysInLease(claim: Claim, head: Head, now: Instant, attempts: seq<Attempt>, renewal: Renewal)
    requires LeaseAtHead(claim, head, now, attempts)
    ensures match TakeTurn(claim.lease, head, now, claim.finish, renewal)
            case Stop(outcome, answered) => StaysInLease(claim, outcome, attempts + answered)
            case Again(next, attempt) => LeaseAtHead(claim, next, attempt.answeredAt, attempts + [attempt])
  {
    var turn := TakeTurn(claim.lease, head, now, claim.finish, renewal);
    if claim.Regular() {
      TurnIsTimely(claim.lease, head, now, claim.finish, renewal, attempts);
      TurnEndsForCause(claim.lease, head, now, claim.finish, renewal, attempts);
    }
    if turn.Stop? && turn.answered == [] {
      assert attempts + turn.answered == attempts;
    }
  }

  lemma TurnReportsTheWork(claim: Claim, head: Head, now: Instant, attempts: seq<Attempt>, renewal: Renewal)
    requires WorkAtHead(claim, head, now, attempts)
    requires attempts != [] ==> !attempts[|attempts| - 1].answer.Refused?
    ensures match TakeTurn(claim.lease, head, now, claim.finish, renewal)
            case Stop(outcome, answered) => ReportsTheWork(claim, outcome, attempts + answered)
            case Again(next, attempt) => WorkAtHead(claim, next, attempt.answeredAt, attempts + [attempt])
  {
    TurnKeepsTheWork(claim.lease, head, now, claim.finish, renewal);
    var turn := TakeTurn(claim.lease, head, now, claim.finish, renewal);
    if turn.Stop? && turn.answered == [] {
      assert attempts + turn.answered == attempts;
    }
  }

  /** All that the supervision promises. */
  ghost predicate Delivers(claim: Claim, renewals: seq<Renewal>, outcome: Outcome, attempts: seq<Attempt>) {
    && StaysInLease(claim, outcome, attempts)
    && ReportsTheWork(claim, outcome, attempts)
    && HearsRenewals(claim, renewals, outcome, attempts)
    // Renewals granted in time keep the work alive beyond its first lease, to its end.
    && (claim.Served(renewals) ==> outcome == Finished(claim.finish.value))
  }

  ghost predicate AtHead(claim: Claim, renewals: seq<Renewal>, head: Head, now: Instant, attempts: seq<Attempt>) {
    && |attempts| <= |renewals|
    && LeaseAtHead(claim, head, now, attempts)
    && WorkAtHead(claim, head, now, attempts)
    && AskedAtHead(claim, renewals, head, now, attempts)
    && (claim.Served(renewals) ==> OnTime(claim.lease, head, now, claim.finish, renewals[|attempts|..]))
  }

  lemma BeginIsAtHead(claim: Claim, renewals: seq<Renewal>)
    requires claim.lease / 4 < claim.remaining && (claim.finish.Some? ==> claim.start <= claim.finish.value)
    ensures AtHead(claim, renewals, Begin(claim.lease, claim.start, claim.remaining).value, claim.start, [])
  {
    if claim.Regular() {
      RoomAtBegin(claim.lease, claim.start, claim.remaining);
    }
    assert renewals[0..] == renewals;
  }

  lemma TurnDelivers(claim: Claim, renewals: seq<Renewal>, head: Head, now: Instant, attempts: seq<Attempt>)
    requires AtHead(claim, renewals, head, now, attempts)
    ensures match TakeTurn(claim.lease, head, now, claim.finish, RenewalAt(renewals, |attempts|))
            case Stop(outcome, answered) => Delivers(claim, renewals, outcome, attempts + answered)
            case Again(next, attempt) =>
              |attempts| < |renewals| && AtHead(claim, renewals, next, attempt.answeredAt, attempts + [attempt])
  {
    var k := |attempts|;
    assert RenewalAt(renewals, k) == RenewalAt(renewals[k..], 0);
    TurnStaysInLease(claim, head, now, attempts, RenewalAt(renewals, k));
    TurnReportsTheWork(claim, head, now, attempts, RenewalAt(renewals, k));
    TurnHears(claim, renewals, head, now, attempts);
    if claim.Served(renewals) {
      TurnOnTime(claim.lease, head, now, claim.finish, renewals[k..]);
    }
    assert k < |renewals| ==> renewals[k..][1..] == renewals[k + 1..];
  }

  /**
    A refusal is heard: if the first k renewals were answered, none of them with a refusal, and the next is
    refused in time, the supervision ends there with a lost lease.
   */
  lemma RefusalIsHeard(claim: Claim, renewals: seq<Renewal>, outcome: Outcome, attempts: seq<Attempt>, k: nat)
    requires claim.Regular() && claim.lease / 4 < claim.remaining
    requires Delivers(claim, renewals, outcome, attempts)
    requires k <= |attempts| && k < |renewals| && renewals[k].Answers? && renewals[k].answer.Refused?
    requires k > 0 ==> !attempts[k - 1].answer.Refused?
    requires var at := RequestAt(claim, attempts[..k]) + renewals[k].latency;
             && at < GiveUpAfter(claim.lease, claim.FirstGiveUp(), attempts[..k])
             && (claim.finish.Some? ==> at < claim.finish.value)
    ensures outcome.Ended? && outcome.error.LeaseLost?
    ensures outcome.at == RequestAt(claim, attempts[..k]) + renewals[k].latency
  {
    assert attempts[..|attempts|] == attempts;
    if k < |attempts| {
      assert AnsweredAs(attempts[k], renewals[k]);
      assert k + 1 < |attempts| ==> Follows(claim.lease, attempts[k], attempts[k + 1]);
      assert k > 0 ==> Follows(claim.lease, attempts[k - 1], attempts[k]);
      assert k > 0 ==> attempts[..k][k - 1] == attempts[k - 1];
    }
  }

  /**
    `supervise_lease` over a job that would finish `workTakes` after `start`
    (`None`: never) and a database that treats the k-th renewal as `renewals[k]` and
    answers none after those. The answered renewals are returned beside the outcome.

    The timing promises hold for a first lease of at most the lease duration. A longer one (the
    wall clock was set back between claiming and starting) can put the give-up time of the first
    renewal before the time of its answer.
   */
  method SuperviseLease(start: Instant, workTakes: Option<Duration>, lease: Duration,
                        initialRemaining: Duration, renewals: seq<Renewal>)
    returns (outcome: Outcome, attempts: seq<Attempt>)
    ensures initialRemaining <= lease / 4 ==> outcome == Ended(LeaseLost, start) && attempts == []
    ensures lease / 4 < initialRemaining ==>
              var finish := if workTakes.Some? then Some(start + workTakes.value) else None;
              var claim := Claim(lease, start, initialRemaining, finish);
              Delivers(claim, renewals, outcome, attempts)
  {
    attempts := [];
    var begun := Begin(lease, start, initialRemaining);
    if begun.None? {
      return Ended(LeaseLost, start), [];
    }
    var head, now := begun.value, start;
    var finish := if workTakes.Some? then Some(start + workTakes.value) else None;
    ghost var claim := Claim(lease, start, initialRemaining, finish);
    BeginIsAtHead(claim, renewals);
    while true
      invariant AtHead(claim, renewals, head, now, attempts)
      decreases |renewals| - |attempts|
    {
      TurnDelivers(claim, renewals, head, now, attempts);
      var turn := TakeTurn(lease, head, now, finish, RenewalAt(renewals, |attempts|));
      match turn {
        case Stop(stopped, answered) =>
          return stopped, attempts + answered;
        case Again(next, attempt) =>
          attempts := attempts + [attempt];
          head, now := next, attempt.answeredAt;
      }
    }
  }

  /**
    Termination under outage: a run of failed renewals i..j is spaced by the retry delay and fits
    before the one give-up time it shares, so it has at most
    ceil((give-up time - first attempt) / retry delay) members.
   */
  lemma {:induction false} OutageIsBounded(lease: Duration, attempts: seq<Attempt>, i: nat, j: nat)
    requires Chained(lease, attempts)
    requires i <= j < |attempts|
    requires forall k :: i <= k <= j ==> attempts[k].answer.Failed?
    ensures attempts[j].giveUpAt == attempts[i].giveUpAt
    ensures attempts[i].requestedAt + (j - i) * (lease / 24) <= attempts[j].requestedAt
    ensures (j - i) * (lease / 24) < attempts[i].giveUpAt - attempts[i].requestedAt
    decreases j
  {
    if i < j {
      OutageIsBounded(lease, attempts, i, j - 1);
      assert Follows(lease, attempts[j - 1], attempts[j]);
      assert (j - i) * (lease / 24) == (j - 1 - i) * (lease / 24) + lease / 24;
    }
  }
}
