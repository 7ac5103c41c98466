/**
  Recovery of stale Git segment uploads: sweepers that abandon, clean up and mark deleted what publishers
  left behind or others retired, racing publishers and one another. The database changes a segment's state
  only by guarded updates. An uploader marks a segment ready only after writing its remote object, and may
  still be writing when a sweeper has already taken the segment.
 */
module SegmentRecovery {
  import opened Wrappers

  type SegmentId = string
  type SweeperId = nat

  datatype UploadState = Uploading | Ready | Published | Deleting | Deleted

  /** `present`: the remote object exists; `cleaned`: a remote cleanup of it has succeeded. */
  datatype Segment = Segment(state: UploadState, present: bool, cleaned: bool)

  datatype Upload = Upload(id: SegmentId, state: UploadState)

  datatype Counts = Counts(deleted: nat, skipped: nat, failed: nat)
  {
    function Total(): nat {
      deleted + skipped + failed
    }
  }

  // ----- One sweep, as the source runs it

  datatype Effect =
    | Abandon(id: SegmentId, done: bool)
    | CleanRemote(id: SegmentId, ok: bool)
    | CleanLocal(id: SegmentId, ok: bool)
    | MarkDeleted(id: SegmentId, done: bool)

  /** How the calls for one candidate end; `None` from the database is an error that ends the sweep. */
  datatype Answers = Answers(abandoned: Option<bool>, remote: bool, local: bool, marked: bool)

  /** What a candidate's calls may look like: the object is deleted only after the row was taken for deletion,
      and the row is marked only after the remote cleanup succeeded. */
  predicate Disciplined(upload: Upload, effects: seq<Effect>) {
    && (forall k :: 0 <= k < |effects| && effects[k].CleanRemote? ==>
          effects[k].id == upload.id
          && ((upload.state.Deleting? && k == 0) || (k == 1 && effects[0] == Abandon(upload.id, true))))
    && (forall k :: 0 <= k < |effects| && effects[k].MarkDeleted? ==>
          effects[k].id == upload.id && 2 <= k && effects[k - 2] == CleanRemote(upload.id, true))
  }

  predicate Unfinished(upload: Upload) {
    upload.state.Uploading? || upload.state.Ready?
  }

  /** The database could not say whether the upload was abandoned. */
  predicate Undecided(upload: Upload, a: Answers) {
    Unfinished(upload) && a.abandoned.None?
  }

  /** The row is taken for deletion, now or before. */
  predicate Taken(upload: Upload, a: Answers) {
    upload.state.Deleting? || (Unfinished(upload) && a.abandoned == Some(true))
  }

  /** One candidate: its effects, and how the counters move; `None` if the sweep fails. */
  function Treat(upload: Upload, a: Answers): (result: (seq<Effect>, Option<Counts>))
    ensures Disciplined(upload, result.0)
    ensures result.1.Some? ==> result.1.value.Total() == 1
  {
    var unfinished := Unfinished(upload);
    if unfinished && a.abandoned.None? then ([], None)
    else
      var first := if unfinished then [Abandon(upload.id, a.abandoned.value)] else [];
      var mayDelete := upload.state.Deleting? || (unfinished && a.abandoned.value);
      if !mayDelete then (first, Some(Counts(0, 1, 0)))
      else if !a.remote then (first + [CleanRemote(upload.id, false)], Some(Counts(0, 0, 1)))
      else
        (first + [CleanRemote(upload.id, true), CleanLocal(upload.id, a.local), MarkDeleted(upload.id, a.marked)],
         if !a.marked then None else if a.local then Some(Counts(1, 0, 0)) else Some(Counts(0, 0, 1)))
  }

  /**
    What is taken for deletion is cleaned up and marked, as far as the calls succeed, and what happened decides
    which counter moves.
   */
  lemma TreatExactly(upload: Upload, a: Answers)
    ensures var (effects, counts) := Treat(upload, a);
            && (CleanRemote(upload.id, a.remote) in effects <==> Taken(upload, a))
            && (CleanLocal(upload.id, a.local) in effects <==> Taken(upload, a) && a.remote)
            && (MarkDeleted(upload.id, a.marked) in effects <==> Taken(upload, a) && a.remote)
            && (counts.None? <==> Undecided(upload, a) || (Taken(upload, a) && a.remote && !a.marked))
            && (counts.Some? ==>
                  counts.value ==
                  if !Taken(upload, a) then Counts(0, 1, 0)
                  else if a.remote && a.local then Counts(1, 0, 0)
                  else Counts(0, 0, 1))
  {
  }

  /** How many candidates were deleted, skipped and failed. */
  function Tally(uploads: seq<Upload>, answers: seq<Answers>): Counts
    requires |answers| == |uploads|
  {
    if uploads == [] then Counts(0, 0, 0)
    else
      var n := |uploads| - 1;
      var before, upload, a := Tally(uploads[..n], answers[..n]), uploads[n], answers[n];
      if !Taken(upload, a) then before.(skipped := before.skipped + 1)
      else if a.remote && a.local then before.(deleted := before.deleted + 1)
      else before.(failed := before.failed + 1)
  }

  lemma TallyOneMore(uploads: seq<Upload>, answers: seq<Answers>, i: nat)
    requires |answers| == |uploads| && i < |uploads| && Treat(uploads[i], answers[i]).1.Some?
    ensures Tally(uploads[..i + 1], answers[..i + 1]) ==
            Plus(Tally(uploads[..i], answers[..i]), Treat(uploads[i], answers[i]).1.value)
  {
    TreatExactly(uploads[i], answers[i]);
    assert uploads[..i + 1][..i] == uploads[..i] && answers[..i + 1][..i] == answers[..i];
  }

  function Plus(c: Counts, d: Counts): Counts {
    Counts(c.deleted + d.deleted, c.skipped + d.skipped, c.failed + d.failed)
  }

  /** The body of the sweep's loop: the calls for one candidate and the counter it moves. */
  method TreatOne(upload: Upload, a: Answers) returns (calls: seq<Effect>, counted: Option<Counts>)
    ensures (calls, counted) == Treat(upload, a)
  {
    calls := [];
    var mayDelete := upload.state.Deleting?;
    if upload.state.Uploading? || upload.state.Ready? {
      if a.abandoned.None? {
        return calls, None;
      }
      calls := [Abandon(upload.id, a.abandoned.value)];
      mayDelete := a.abandoned.value;
    }
    if !mayDelete {
      return calls, Some(Counts(0, 1, 0));
    }
    calls := calls + [CleanRemote(upload.id, a.remote)];
    if !a.remote {
      return calls, Some(Counts(0, 0, 1));
    }
    calls := calls + [CleanLocal(upload.id, a.local)];
    calls := calls + [MarkDeleted(upload.id, a.marked)];
    counted := if !a.marked then None else if a.local then Some(Counts(1, 0, 0)) else Some(Counts(0, 0, 1));
    assert calls == Treat(upload, a).0;
  }

  /** `recover_stale_git_segments`; the effects of each candidate are returned beside the counters. */
  method Sweep(uploads: seq<Upload>, answers: seq<Answers>)
    returns (counts: Option<Counts>, effects: seq<seq<Effect>>)
    requires |answers| == |uploads|
    ensures counts.Some? ==> counts.value == Tally(uploads, answers) && counts.value.Total() == |uploads| == |effects|
    ensures |effects| <= |uploads|
    ensures forall i :: 0 <= i < |effects| ==> effects[i] == Treat(uploads[i], answers[i]).0
    ensures forall i :: 0 <= i < |effects| ==> Disciplined(uploads[i], effects[i])
    ensures counts.Some? <==> forall i :: 0 <= i < |uploads| ==> Treat(uploads[i], answers[i]).1.Some?
  {
    var deleted: nat, skipped: nat, failed: nat := 0, 0, 0;
    effects := [];
    for i := 0 to |uploads|
      invariant deleted + skipped + failed == i == |effects|
      invariant Counts(deleted, skipped, failed) == Tally(uploads[..i], answers[..i])
      invariant forall j :: 0 <= j < i ==> effects[j] == Treat(uploads[j], answers[j]).0
      invariant forall j :: 0 <= j < i ==> Treat(uploads[j], answers[j]).1.Some?
    {
      var calls, counted := TreatOne(uploads[i], answers[i]);
      effects := effects + [calls];
      if counted.None? {
        return None, effects;
      }
      TallyOneMore(uploads, answers, i);
      deleted := deleted + counted.value.deleted;
      skipped := skipped + counted.value.skipped;
      failed := failed + counted.value.failed;
    }
    assert uploads[..|uploads|] == uploads && answers[..|uploads|] == answers;
    counts := Some(Counts(deleted, skipped, failed));
  }

  // ----- Sweepers, publishers, retirement and repository deletion interleaved

  datatype Stage = Deciding | MayDelete | RemoteCleaned | LocalDone(failed: bool)

  datatype Sweeper =
    | Resting
    | Sweeping(uploads: seq<Upload>, index: nat, stage: Stage, counts: Counts)
    | Returned(ok: bool, candidates: nat, counts: Counts)
  {
    function Next(c: Counts): Sweeper
      requires Sweeping? && index < |uploads|
    {
      if index + 1 == |uploads| then Returned(true, |uploads|, c)
      else Sweeping(uploads, index + 1, Deciding, c)
    }
  }

  datatype System = System(segments: map<SegmentId, Segment>, sweepers: map<SweeperId, Sweeper>)

  datatype Step =
    | Begin(id: SegmentId)
    | PutObject(id: SegmentId)
    | MarkReady(id: SegmentId)
    | Publish(id: SegmentId)
    | Retire(id: SegmentId)
    | DeleteRepository(owned: set<SegmentId>)
    | Load(w: SweeperId, ids: seq<SegmentId>)
    | Decide(w: SweeperId, referenced: bool)
    | RemoteCleanup(w: SweeperId, ok: bool, gone: bool)
    | LocalCleanup(w: SweeperId, ok: bool)
    | Mark(w: SweeperId)
    | DatabaseFails(w: SweeperId)

  function SweeperOf(s: System, w: SweeperId): Sweeper {
    if w in s.sweepers then s.sweepers[w] else Resting
  }

  predicate AtStage(s: System, w: SweeperId) {
    var sw := SweeperOf(s, w);
    sw.Sweeping? && sw.index < |sw.uploads| && sw.uploads[sw.index].id in s.segments
  }

  function Current(s: System, w: SweeperId): Upload
    requires AtStage(s, w)
  {
    SweeperOf(s, w).uploads[SweeperOf(s, w).index]
  }

  predicate Enabled(s: System, step: Step) {
    match step
    case Begin(id) => id !in s.segments
    case PutObject(id) => id in s.segments
    case MarkReady(id) => id in s.segments && s.segments[id].state.Uploading? && s.segments[id].present
    case Publish(id) => id in s.segments && (s.segments[id].state.Ready? || s.segments[id].state.Published?)
    case Retire(id) => id in s.segments && (s.segments[id].state.Ready? || s.segments[id].state.Published?)
    case DeleteRepository(_) => true
    case Load(w, ids) => !SweeperOf(s, w).Sweeping? && forall i :: 0 <= i < |ids| ==> ids[i] in s.segments
    case Decide(w, _) => AtStage(s, w) && SweeperOf(s, w).stage.Deciding?
    case RemoteCleanup(w, _, _) => AtStage(s, w) && SweeperOf(s, w).stage.MayDelete?
    case LocalCleanup(w, _) => AtStage(s, w) && SweeperOf(s, w).stage.RemoteCleaned?
    case Mark(w) => AtStage(s, w) && SweeperOf(s, w).stage.LocalDone?
    case DatabaseFails(w) => AtStage(s, w)
  }

  function PutSegment(s: System, id: SegmentId, g: Segment): System {
    s.(segments := s.segments[id := g])
  }

  function PutSweeper(s: System, w: SweeperId, sw: Sweeper): System {
    s.(sweepers := s.sweepers[w := sw])
  }

  function Apply(s: System, step: Step): System
    requires Enabled(s, step)
  {
    match step
    case Begin(id) => PutSegment(s, id, Segment(Uploading, false, false))
    case PutObject(id) => PutSegment(s, id, s.segments[id].(present := true))
    case MarkReady(id) => PutSegment(s, id, s.segments[id].(state := Ready))
    case Publish(id) => PutSegment(s, id, s.segments[id].(state := Published))
    case Retire(id) => PutSegment(s, id, s.segments[id].(state := Deleting))
    case DeleteRepository(owned) =>
      s.(segments := map id | id in s.segments ::
        if id in owned && !Doomed(s.segments[id].state) then s.segments[id].(state := Deleting) else s.segments[id])
    case Load(w, ids) =>
      var uploads := seq(|ids|, i requires 0 <= i < |ids| => Upload(ids[i], s.segments[ids[i]].state));
      PutSweeper(s, w, if ids == [] then Returned(true, 0, Counts(0, 0, 0))
                       else Sweeping(uploads, 0, Deciding, Counts(0, 0, 0)))
    case Decide(w, referenced) =>
      var sw, upload := SweeperOf(s, w), Current(s, w);
      var g := s.segments[upload.id];
      var unfinished := upload.state.Uploading? || upload.state.Ready?;
      // The guard of the database's update is evaluated on the row as it is now.
      var abandons := unfinished && (g.state.Uploading? || g.state.Ready?) && !referenced;
      if abandons then PutSweeper(PutSegment(s, upload.id, g.(state := Deleting)), w, sw.(stage := MayDelete))
      else if upload.state.Deleting? then PutSweeper(s, w, sw.(stage := MayDelete))
      else PutSweeper(s, w, sw.Next(sw.counts.(skipped := sw.counts.skipped + 1)))
    case RemoteCleanup(w, ok, gone) =>
      var sw, id := SweeperOf(s, w), Current(s, w).id;
      var g := s.segments[id];
      if ok then PutSweeper(PutSegment(s, id, g.(present := false, cleaned := true)), w, sw.(stage := RemoteCleaned))
      else PutSweeper(PutSegment(s, id, g.(present := g.present && !gone)), w,
                      sw.Next(sw.counts.(failed := sw.counts.failed + 1)))
    case LocalCleanup(w, ok) =>
      var sw := SweeperOf(s, w);
      PutSweeper(s, w, sw.(stage := LocalDone(!ok),
                           counts := if ok then sw.counts else sw.counts.(failed := sw.counts.failed + 1)))
    case Mark(w) =>
      var sw, id := SweeperOf(s, w), Current(s, w).id;
      var g := s.segments[id];
      if !g.state.Deleting? then PutSweeper(s, w, Returned(false, |sw.uploads|, sw.counts))
      else PutSweeper(PutSegment(s, id, g.(state := Deleted)), w,
                      sw.Next(if sw.stage.failed then sw.counts
                              else sw.counts.(deleted := sw.counts.deleted + 1)))
    case DatabaseFails(w) =>
      var sw := SweeperOf(s, w);
      PutSweeper(s, w, Returned(false, |sw.uploads|, sw.counts))
  }

  predicate Legal(s: System, steps: seq<Step>)
    decreases |steps|
  {
    steps == [] || (Enabled(s, steps[0]) && Legal(Apply(s, steps[0]), steps[1..]))
  }

  function After(s: System, steps: seq<Step>): System
    requires Legal(s, steps)
    decreases |steps|
  {
    if steps == [] then s else After(Apply(s, steps[0]), steps[1..])
  }

  predicate Initial(s: System) {
    s.segments == map[] && s.sweepers == map[]
  }

  predicate Doomed(state: UploadState) {
    state.Deleting? || state.Deleted?
  }

  predicate SegmentOk(g: Segment) {
    && (g.state.Ready? || g.state.Published? ==> g.present)
    && (g.state.Deleted? ==> g.cleaned)
  }

  predicate SweeperOk(segments: map<SegmentId, Segment>, sw: Sweeper) {
    match sw
    case Resting => true
    case Returned(ok, candidates, counts) => ok ==> counts.Total() == candidates
    case Sweeping(uploads, index, stage, counts) =>
      && index < |uploads|
      && (forall i :: 0 <= i < |uploads| ==> uploads[i].id in segments)
      && (forall i :: 0 <= i < |uploads| && Doomed(uploads[i].state) ==> Doomed(segments[uploads[i].id].state))
      && (!stage.Deciding? ==> Doomed(segments[uploads[index].id].state))
      && (stage.RemoteCleaned? || stage.LocalDone? ==> segments[uploads[index].id].cleaned)
      && counts.Total() == index + if stage == LocalDone(true) then 1 else 0
  }

  predicate Inv(s: System) {
    && (forall id :: id in s.segments ==> SegmentOk(s.segments[id]))
    && (forall w :: w in s.sweepers ==> SweeperOk(s.segments, s.sweepers[w]))
  }

  /** Segments only move towards deletion, and a cleanup is not forgotten. */
  predicate Forward(segments: map<SegmentId, Segment>, segments': map<SegmentId, Segment>) {
    && segments.Keys <= segments'.Keys
    && (forall id :: id in segments ==>
          && (Doomed(segments[id].state) ==> Doomed(segments'[id].state))
          && (segments[id].cleaned ==> segments'[id].cleaned))
  }

  lemma SweepersKept(s: System, segments': map<SegmentId, Segment>)
    requires Inv(s) && Forward(s.segments, segments')
    ensures forall w :: w in s.sweepers ==> SweeperOk(segments', s.sweepers[w])
  {
    forall w | w in s.sweepers ensures SweeperOk(segments', s.sweepers[w]) {
      assert SweeperOk(s.segments, s.sweepers[w]);
    }
  }

  /** Every step keeps the segments sound and moves them forward. */
  lemma SegmentsKept(s: System, step: Step)
    requires Inv(s) && Enabled(s, step)
    ensures Forward(s.segments, Apply(s, step).segments)
    ensures forall id :: id in Apply(s, step).segments ==> SegmentOk(Apply(s, step).segments[id])
  {
    if AtStage(s, ActorOf(step)) && !(step.Load? || ByOthers(step)) {
      assert SweeperOk(s.segments, SweeperOf(s, ActorOf(step)));
    }
  }

  predicate ByOthers(step: Step) {
    step.Begin? || step.PutObject? || step.MarkReady? || step.Publish? || step.Retire? || step.DeleteRepository?
  }

  function ActorOf(step: Step): SweeperId {
    if ByOthers(step) then 0 else step.w
  }

  /** Going on to the next candidate with one more counted. */
  lemma NextIsOk(segments: map<SegmentId, Segment>, sw: Sweeper, counts: Counts)
    requires sw.Sweeping? && SweeperOk(segments, sw) && counts.Total() == sw.index + 1
    ensures SweeperOk(segments, sw.Next(counts))
  {
  }

  lemma DecideKept(s: System, step: Step)
    requires Inv(s) && Enabled(s, step) && step.Decide?
    ensures SweeperOk(Apply(s, step).segments, SweeperOf(Apply(s, step), step.w))
  {
    var t, sw := Apply(s, step), SweeperOf(s, step.w);
    SegmentsKept(s, step);
    SweepersKept(s, t.segments);
    if !(SweeperOf(t, step.w).Sweeping? && SweeperOf(t, step.w).stage.MayDelete?) {
      NextIsOk(t.segments, sw, sw.counts.(skipped := sw.counts.skipped + 1));
    }
  }

  lemma CleanupKept(s: System, step: Step)
    requires Inv(s) && Enabled(s, step) && (step.RemoteCleanup? || step.LocalCleanup?)
    ensures SweeperOk(Apply(s, step).segments, SweeperOf(Apply(s, step), step.w))
  {
    var t, sw := Apply(s, step), SweeperOf(s, step.w);
    SegmentsKept(s, step);
    SweepersKept(s, t.segments);
    if step.RemoteCleanup? && !step.ok {
      NextIsOk(t.segments, sw, sw.counts.(failed := sw.counts.failed + 1));
    }
  }

  lemma MarkKept(s: System, step: Step)
    requires Inv(s) && Enabled(s, step) && step.Mark?
    ensures SweeperOk(Apply(s, step).segments, SweeperOf(Apply(s, step), step.w))
  {
    var t, sw := Apply(s, step), SweeperOf(s, step.w);
    SegmentsKept(s, step);
    SweepersKept(s, t.segments);
    if s.segments[Current(s, step.w).id].state.Deleting? {
      NextIsOk(t.segments, sw, if sw.stage.failed then sw.counts else sw.counts.(deleted := sw.counts.deleted + 1));
    }
  }

  lemma ActorKept(s: System, step: Step)
    requires Inv(s) && Enabled(s, step) && !ByOthers(step)
    ensures step.w in Apply(s, step).sweepers
    ensures SweeperOk(Apply(s, step).segments, Apply(s, step).sweepers[step.w])
  {
    match step {
      case Load(_, _) =>
      case Decide(_, _) => DecideKept(s, step);
      case RemoteCleanup(_, _, _) => CleanupKept(s, step);
      case LocalCleanup(_, _) => CleanupKept(s, step);
      case Mark(_) => MarkKept(s, step);
      case DatabaseFails(_) =>
    }
  }

  lemma InvKept(s: System, step: Step)
    requires Inv(s) && Enabled(s, step)
    ensures Inv(Apply(s, step))
  {
    SegmentsKept(s, step);
    SweepersKept(s, Apply(s, step).segments);
    if !ByOthers(step) {
      ActorKept(s, step);
    }
  }

  lemma {:induction false} InvHolds(s: System, steps: seq<Step>)
    requires Inv(s) && Legal(s, steps)
    ensures Inv(After(s, steps))
    decreases |steps|
  {
    if steps != [] {
      InvKept(s, steps[0]);
      InvHolds(Apply(s, steps[0]), steps[1..]);
    }
  }

  lemma StepThen(s: System, step: Step, steps: seq<Step>)
    requires Enabled(s, step) && Legal(Apply(s, step), steps)
    ensures Legal(s, [step] + steps) && After(s, [step] + steps) == After(Apply(s, step), steps)
  {
    assert ([step] + steps)[1..] == steps;
  }

  /** The row may be taken for deletion, or was. */
  predicate MayTake(s: System, upload: Upload)
    requires upload.id in s.segments
  {
    || upload.state.Deleting?
    || (Unfinished(upload) && (s.segments[upload.id].state.Uploading? || s.segments[upload.id].state.Ready?))
  }

  /** The row is taken for deletion and its object deleted. */
  lemma TakeAndClean(s: System, w: SweeperId) returns (t: System)
    requires Inv(s) && AtStage(s, w) && SweeperOf(s, w).stage.Deciding? && MayTake(s, Current(s, w))
    requires Current(s, w).state.Deleting? ==> s.segments[Current(s, w).id].state.Deleting?
    ensures var sw, steps := SweeperOf(s, w), [Decide(w, false)] + ([RemoteCleanup(w, true, true)] + []);
            && Legal(s, steps) && After(s, steps) == t
            && t.segments == s.segments[Current(s, w).id := Segment(Deleting, false, true)]
            && t.sweepers == s.sweepers[w := sw.(stage := RemoteCleaned)]
  {
    var s1 := Apply(s, Decide(w, false));
    t := Apply(s1, RemoteCleanup(w, true, true));
    StepThen(s1, RemoteCleanup(w, true, true), []);
    StepThen(s, Decide(w, false), [RemoteCleanup(w, true, true)] + []);
    assert t.segments == s.segments[Current(s, w).id := t.segments[Current(s, w).id]];
    assert t.sweepers == s.sweepers[w := t.sweepers[w]];
  }

  /** The local copy is deleted and the row marked. */
  lemma CleanAndMark(s: System, w: SweeperId) returns (t: System)
    requires AtStage(s, w) && SweeperOf(s, w).stage.RemoteCleaned? && s.segments[Current(s, w).id].state.Deleting?
    ensures var id, sw, steps := Current(s, w).id, SweeperOf(s, w), [LocalCleanup(w, true)] + ([Mark(w)] + []);
            && Legal(s, steps) && After(s, steps) == t
            && t.segments == s.segments[id := s.segments[id].(state := Deleted)]
            && SweeperOf(t, w) == sw.Next(sw.counts.(deleted := sw.counts.deleted + 1))
  {
    var s1 := Apply(s, LocalCleanup(w, true));
    t := Apply(s1, Mark(w));
    StepThen(s1, Mark(w), []);
    StepThen(s, LocalCleanup(w, true), [Mark(w)] + []);
  }

  /**
    Left alone, a sweeper whose calls succeed removes a stale candidate that nothing refers to: its object is gone,
    its row is marked, and it is counted as deleted.
   */
  lemma StaleCandidateIsRemoved(s: System, w: SweeperId) returns (before: seq<Step>, steps: seq<Step>)
    requires Inv(s) && AtStage(s, w) && SweeperOf(s, w).stage.Deciding? && MayTake(s, Current(s, w))
    requires Current(s, w).state.Deleting? ==> s.segments[Current(s, w).id].state.Deleting?
    ensures before == [Decide(w, false), RemoteCleanup(w, true, true)] && steps == [LocalCleanup(w, true), Mark(w)]
    ensures Legal(s, before) && Legal(After(s, before), steps)
    ensures var t, sw := After(After(s, before), steps), SweeperOf(s, w);
            && t.segments == s.segments[Current(s, w).id := Segment(Deleted, false, true)]
            && SweeperOf(t, w) == sw.Next(sw.counts.(deleted := sw.counts.deleted + 1))
  {
    before := [Decide(w, false)] + ([RemoteCleanup(w, true, true)] + []);
    steps := [LocalCleanup(w, true)] + ([Mark(w)] + []);
    var id := Current(s, w).id;
    var t := TakeAndClean(s, w);
    assert Current(t, w).id == id;
    var end := CleanAndMark(t, w);
    assert end.segments == s.segments[id := Segment(Deleted, false, true)];
  }

  /** What is still referred to, or was published, is skipped: nothing is deleted. */
  lemma OthersAreSkipped(s: System, w: SweeperId, referenced: bool)
    requires Inv(s) && AtStage(s, w) && SweeperOf(s, w).stage.Deciding? && !Current(s, w).state.Deleting?
    requires referenced || !MayTake(s, Current(s, w))
    ensures var t, sw := Apply(s, Decide(w, referenced)), SweeperOf(s, w);
            t.segments == s.segments && SweeperOf(t, w) == sw.Next(sw.counts.(skipped := sw.counts.skipped + 1))
  {
  }

  /** Left alone, an upload whose object is written is published. */
  lemma UploadIsPublished(s: System, id: SegmentId) returns (steps: seq<Step>)
    requires id !in s.segments
    ensures steps == [Begin(id), PutObject(id), MarkReady(id), Publish(id)]
    ensures Legal(s, steps) && After(s, steps).segments == s.segments[id := Segment(Published, true, false)]
  {
    var s1 := Apply(s, Begin(id));
    var s2 := Apply(s1, PutObject(id));
    var s3 := Apply(s2, MarkReady(id));
    StepThen(s3, Publish(id), []);
    StepThen(s2, MarkReady(id), [Publish(id)] + []);
    StepThen(s1, PutObject(id), [MarkReady(id)] + ([Publish(id)] + []));
    StepThen(s, Begin(id), [PutObject(id)] + ([MarkReady(id)] + ([Publish(id)] + [])));
    steps := [Begin(id)] + ([PutObject(id)] + ([MarkReady(id)] + ([Publish(id)] + [])));
  }

  /** This step takes the segment for deletion. */
  predicate TakesForDeletion(step: Step, id: SegmentId) {
    step == Retire(id) || (step.DeleteRepository? && id in step.owned)
  }

  lemma {:induction false} DoomedForGood(s: System, steps: seq<Step>, id: SegmentId)
    requires Inv(s) && Legal(s, steps) && id in s.segments && Doomed(s.segments[id].state)
    ensures id in After(s, steps).segments && Doomed(After(s, steps).segments[id].state)
    decreases |steps|
  {
    if steps != [] {
      SegmentsKept(s, steps[0]);
      InvKept(s, steps[0]);
      DoomedForGood(Apply(s, steps[0]), steps[1..], id);
    }
  }

  /** A segment that is retired, or whose repository is deleted, is never uploaded, ready or published again. */
  lemma RetiredForGood(s: System, step: Step, steps: seq<Step>, id: SegmentId)
    requires Inv(s) && Enabled(s, step) && TakesForDeletion(step, id) && id in s.segments
    requires Legal(Apply(s, step), steps)
    ensures id in After(Apply(s, step), steps).segments && Doomed(After(Apply(s, step), steps).segments[id].state)
  {
    InvKept(s, step);
    DoomedForGood(Apply(s, step), steps, id);
  }

  /**
    In every interleaving of sweepers, publishers, retirements and repository deletions: a published segment has
    its remote object, a segment is marked deleted only after a remote cleanup of it succeeded, and a sweep that
    returns normally accounts for every candidate.
   */
  lemma RecoveryIsSafe(s: System, steps: seq<Step>)
    requires Initial(s) && Legal(s, steps)
    ensures var t := After(s, steps);
            && (forall id :: id in t.segments && t.segments[id].state.Published? ==> t.segments[id].present)
            && (forall id :: id in t.segments && t.segments[id].state.Deleted? ==> t.segments[id].cleaned)
            && (forall w :: w in t.sweepers && t.sweepers[w].Returned? && t.sweepers[w].ok ==>
                  t.sweepers[w].counts.Total() == t.sweepers[w].candidates)
  {
    InvHolds(s, steps);
    var t := After(s, steps);
    forall id | id in t.segments ensures SegmentOk(t.segments[id]) {}
    forall w | w in t.sweepers ensures SweeperOk(t.segments, t.sweepers[w]) {}
  }
}
