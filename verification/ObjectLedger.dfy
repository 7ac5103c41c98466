/**
  The object ledger of a media job: a derivative's part is stored only under a key reserved for this
  attempt in the database, is adopted when the job completes, and is discarded only when the
  completion is known not to have been applied.

  A claimed job talks to the database and the object store through `Host`. Every wait consumes one
  event of a script. An event says what other parties did to this attempt's objects in the meantime,
  and how the wait ends: accepted, refused, failed, or cut short because the supervisor dropped the
  job; a failed or cut-short request may have been carried out. A job whose script is used up is
  dropped at its next wait, so the scripts cover every cancellation point.
 */
module ObjectLedger {
  import opened Wrappers
  import StagedKeys

  datatype AttemptId = AttemptId(attachmentId: string, leaseToken: string, leaseGeneration: nat)

  /** The nonce stands for the random suffix of a staged key, drawn afresh for each part. */
  datatype Key = Key(attempt: AttemptId, objectName: string, partNumber: nat, nonce: nat)

  /** What a key's path spells: the attachment, the object, and the lease as the attempt. */
  function WriteAttemptOf(attempt: AttemptId, objectName: string): StagedKeys.WriteAttempt {
    StagedKeys.WriteAttempt(attempt.attachmentId, objectName,
                            StagedKeys.LeaseAttempt(attempt.leaseToken, attempt.leaseGeneration))
  }

  /** Whether `WriteAttempt::new` accepts the names. */
  predicate CanName(attempt: AttemptId, objectName: string) {
    StagedKeys.IsAttempt(WriteAttemptOf(attempt, objectName))
  }

  predicate Named(k: Key) {
    CanName(k.attempt, k.objectName)
  }

  /** The path of a key in the object store, given the random suffix drawn for it. */
  function Path(k: Key, suffix: Key -> string): string {
    StagedKeys.StagedKey(WriteAttemptOf(k.attempt, k.objectName), k.partNumber, suffix(k))
  }

  lemma PathNamesTheAttempt(k: Key, k': Key, suffix: Key -> string)
    requires Named(k) && Named(k') && Path(k, suffix) == Path(k', suffix)
    ensures k.attempt == k'.attempt && k.objectName == k'.objectName
  {
    var a, a' := k.attempt, k'.attempt;
    StagedKeys.KeyNamesTheAttempt(
      a.attachmentId, k.objectName, a.leaseToken, a.leaseGeneration, k.partNumber, suffix(k),
      a'.attachmentId, k'.objectName, a'.leaseToken, a'.leaseGeneration, k'.partNumber, suffix(k'));
  }

  datatype Reservation = Pending | Orphaned | Adopted

  datatype Media = Media(ledger: map<Key, Reservation>, store: map<Key, Bytes>, sent: map<Key, Bytes>)

  /** Every stored object, and every object a late write may still store, has a ledger entry. */
  predicate Tracked(m: Media) {
    m.store.Keys <= m.ledger.Keys && m.sent.Keys <= m.ledger.Keys
  }

  /** No adopted object is ever missing. */
  predicate AdoptedKept(m: Media) {
    forall k :: k in m.ledger && m.ledger[k].Adopted? ==> k in m.store
  }

  /** What may happen to the ledger and the store while a job of this attempt runs. */
  ghost predicate Evolves(attempt: AttemptId, m: Media, m': Media) {
    && (forall k :: k in m.ledger ==> k in m'.ledger)
    && (forall k :: k in m.ledger && !m.ledger[k].Pending? ==> m'.ledger[k] == m.ledger[k])
    && (forall k :: k in m'.ledger && k.attempt != attempt ==> k in m.ledger && m'.ledger[k] == m.ledger[k])
    && (forall k: Key :: k.attempt != attempt ==>
          (k in m'.store <==> k in m.store) && (k in m.store ==> m'.store[k] == m.store[k]))
  }

  /** Nothing is newly adopted, and what is held stays held unless it is orphaned. */
  ghost predicate Progresses(attempt: AttemptId, m: Media, m': Media) {
    && Evolves(attempt, m, m')
    && (forall k :: k in m'.ledger && m'.ledger[k].Adopted? ==> k in m.ledger && m.ledger[k].Adopted?)
    && (forall k :: k in m.sent ==> k in m'.sent && m'.sent[k] == m.sent[k])
    && (forall k :: Solid(attempt, m, k) ==> Solid(attempt, m', k))
  }

  lemma ProgressesTransitive(attempt: AttemptId, m: Media, m': Media, m'': Media)
    requires Progresses(attempt, m, m') && Progresses(attempt, m', m'')
    ensures Progresses(attempt, m, m'')
  {
  }

  lemma EvolvesTransitive(attempt: AttemptId, m: Media, m': Media, m'': Media)
    requires Evolves(attempt, m, m') && Evolves(attempt, m', m'')
    ensures Evolves(attempt, m, m'')
  {
  }

  predicate AllNamed(m: Media) {
    forall k :: k in m.ledger ==> Named(k)
  }

  predicate NamesOk(attempt: AttemptId, names: set<string>) {
    forall name :: name in names ==> CanName(attempt, name)
  }

  /** The object at this path holds these bytes. */
  ghost predicate Holding(m: Media, suffix: Key -> string, path: string, bytes: Bytes) {
    exists k :: k in m.store && Path(k, suffix) == path && m.store[k] == bytes
  }

  /** Seen from the object store: whatever suffixes are drawn, no path of another attempt changes. */
  lemma OtherPathsUntouched(attempt: AttemptId, m: Media, m': Media, suffix: Key -> string, other: Key, bytes: Bytes)
    requires Evolves(attempt, m, m') && Tracked(m) && Tracked(m') && AllNamed(m) && AllNamed(m')
    requires Named(other) && other.attempt != attempt
    ensures Holding(m, suffix, Path(other, suffix), bytes) <==> Holding(m', suffix, Path(other, suffix), bytes)
  {
    forall k | (k in m.store || k in m'.store) && Path(k, suffix) == Path(other, suffix) ensures k.attempt != attempt {
      PathNamesTheAttempt(k, other, suffix);
    }
  }

  /** What was sent under this key is stored, as long as nobody orphaned the key. */
  predicate Solid(attempt: AttemptId, m: Media, k: Key) {
    && k in m.ledger && k.attempt == attempt && k in m.sent
    && (m.ledger[k].Pending? ==> k in m.store && m.store[k] == m.sent[k])
  }

  function WithReservation(m: Media, k: Key): Media {
    m.(ledger := m.ledger[k := Pending])
  }

  function WithWrite(m: Media, k: Key, bytes: Bytes, stored: bool): Media {
    m.(sent := m.sent[k := bytes], store := if stored then m.store[k := bytes] else m.store)
  }

  lemma ReservationProgresses(attempt: AttemptId, m: Media, k: Key)
    requires k.attempt == attempt && Tracked(m) && AdoptedKept(m)
    requires k in m.ledger ==> m.ledger[k].Pending?
    ensures var m' := WithReservation(m, k); Progresses(attempt, m, m') && Tracked(m') && AdoptedKept(m')
  {
  }

  lemma WriteProgresses(attempt: AttemptId, m: Media, k: Key, bytes: Bytes, stored: bool)
    requires k.attempt == attempt && Tracked(m) && AdoptedKept(m)
    requires k in m.ledger && k !in m.sent
    ensures var m' := WithWrite(m, k, bytes, stored);
            && Progresses(attempt, m, m') && Tracked(m') && AdoptedKept(m')
            && (stored ==> Solid(attempt, m', k))
  {
  }

  /** `invalid` marks a failure that says the input was invalid. */
  datatype Ending = Accept | Refuse | Fail(applied: bool, invalid: bool) | Cut(applied: bool)

  datatype Event = Event(orphan: bool, purge: set<Key>, late: set<Key>, ending: Ending)

  /** Others orphan this attempt's reservations, delete orphaned objects, and late writes land. */
  function Meanwhile(attempt: AttemptId, m: Media, e: Event): Media {
    var ledger := map k | k in m.ledger ::
      if e.orphan && k.attempt == attempt && m.ledger[k].Pending? then Orphaned else m.ledger[k];
    var landed := map k | k in e.late && k in m.sent && k.attempt == attempt :: m.sent[k];
    var purged := set k | k in e.purge && k in ledger && k.attempt == attempt && ledger[k].Orphaned?;
    m.(ledger := ledger, store := (m.store + landed) - purged)
  }

  lemma MeanwhileProgresses(attempt: AttemptId, m: Media, e: Event)
    requires Tracked(m) && AdoptedKept(m)
    ensures var m' := Meanwhile(attempt, m, e);
            Progresses(attempt, m, m') && Tracked(m') && AdoptedKept(m')
  {
    var m' := Meanwhile(attempt, m, e);
    assert m'.sent == m.sent && m'.ledger.Keys == m.ledger.Keys;
    forall k | Solid(attempt, m, k) ensures Solid(attempt, m', k) {
    }
  }

  /** A late write of this attempt lands, unless its key is orphaned and purged. */
  lemma LateWriteLands(attempt: AttemptId, m: Media, e: Event, k: Key)
    requires k in m.sent && k in e.late && k.attempt == attempt && (k in e.purge ==> k !in m.ledger || !e.orphan)
    requires k in m.ledger ==> !m.ledger[k].Orphaned?
    ensures var m' := Meanwhile(attempt, m, e); k in m'.store && m'.store[k] == m.sent[k]
  {
  }

  datatype Reply = Applied | LeaseLost | Invalid | Error | Dropped

  /** What may have gone wrong: the job was cut short, its lease was lost, a request failed or was refused. */
  datatype Trouble = Cutoff | Lost | Fault

  /** The line to the database and the store: whether the lease is live, the events to come, the troubles met. */
  datatype Wire = Wire(live: bool, script: seq<Event>, met: set<Trouble>)

  function EndingOf(w: Wire): Ending {
    if w.script == [] then Cut(false) else w.script[0].ending
  }

  predicate Orphaning(w: Wire) {
    w.script != [] && w.script[0].orphan
  }

  function TroublesOf(w: Wire): set<Trouble> {
    (match EndingOf(w)
     case Accept => {}
     case Refuse => {Lost}
     case Fail(_, _) => {Fault}
     case Cut(_) => {Cutoff})
    + if Orphaning(w) then {Lost} else {}
  }

  /** The line after one wait. */
  function Step(w: Wire): Wire {
    Wire(w.live && !Orphaning(w), if w.script == [] then [] else w.script[1..], w.met + TroublesOf(w))
  }

  /** The database's answer to a request made under the lease. */
  function Answer(w: Wire): Reply {
    match EndingOf(w)
    case Accept => if Step(w).live then Applied else LeaseLost
    case Refuse => LeaseLost
    case Fail(_, _) => Error
    case Cut(_) => Dropped
  }

  /** The object store's answer. */
  function StoreAnswer(w: Wire): Reply {
    match EndingOf(w)
    case Accept => Applied
    case Refuse => Error
    case Fail(_, _) => Error
    case Cut(_) => Dropped
  }

  /** The lease is live, and nothing will be refused, fail, be cut short or orphaned. */
  predicate Calm(w: Wire) {
    w.live && forall i :: 0 <= i < |w.script| ==> w.script[i].ending.Accept? && !w.script[i].orphan
  }

  lemma CalmStep(w: Wire)
    requires Calm(w) && w.script != []
    ensures EndingOf(w).Accept? && Answer(w).Applied? && StoreAnswer(w).Applied? && Calm(Step(w))
  {
  }

  lemma CalmStays(w: Wire)
    requires Calm(w)
    ensures Calm(Step(w)) && (Recorded(w) == FailureRecorded || Recorded(w) == JobDropped)
  {
  }

  /** The line went on for n waits, all of them accepted; a calm one stays calm. */
  predicate Passed(w: Wire, n: nat, w': Wire) {
    |w'.script| + n == |w.script| && w.met <= w'.met && (Calm(w) ==> Calm(w'))
  }

  lemma PassedOne(w: Wire)
    requires EndingOf(w).Accept?
    ensures Passed(w, 1, Step(w))
  {
    if Calm(w) {
      CalmStep(w);
    }
  }

  datatype Part = Part(number: nat, key: Key, size: nat)

  /** How putting a part ends: reserve its key, then write it. */
  datatype Put = PutStored | PutRefused | PutFailed | PutUnknown | PutDropped

  function PutAnswer(w: Wire): Put {
    match Answer(w)
    case LeaseLost => PutRefused
    case Invalid => PutUnknown
    case Error => PutUnknown
    case Dropped => PutDropped
    case Applied =>
      match StoreAnswer(Step(w))
      case Applied => PutStored
      case Dropped => PutDropped
      case _ => PutFailed
  }

  /** What the answers to putting a part mean for the line and for what the upload reports. */
  lemma PutIsExplained(w: Wire)
    requires !w.live ==> Lost in w.met
    ensures UploadExplained(if Answer(w).Applied? then Step(Step(w)).met else Step(w).met, UploadOf(PutAnswer(w)))
  {
    match PutAnswer(w) {
      case PutStored =>
      case PutRefused =>
      case PutFailed => assert StoreAnswer(Step(w)).Error?;
      case PutUnknown => assert Answer(w).Error?;
      case PutDropped =>
    }
  }

  lemma PutIsCalm(w: Wire)
    ensures PutAnswer(w).PutStored? ==> Passed(w, 2, Step(Step(w)))
    ensures Calm(w) && 2 <= |w.script| ==> PutAnswer(w).PutStored?
    ensures w.met <= Step(w).met <= Step(Step(w)).met
  {
    if PutAnswer(w).PutStored? {
      PassedOne(w);
      PassedOne(Step(w));
    }
    if Calm(w) && 2 <= |w.script| {
      CalmStep(w);
      CalmStep(Step(w));
    }
  }

  function WithoutObject(m: Media, k: Key): Media {
    m.(store := m.store - {k})
  }

  lemma DeletionEvolves(attempt: AttemptId, m: Media, m': Media, k: Key)
    requires Progresses(attempt, m, m') && NoneAdopted(attempt, m) && k.attempt == attempt
    requires Tracked(m') && AdoptedKept(m')
    ensures var m'' := WithoutObject(m', k);
            && Evolves(attempt, m, m'') && NoneAdopted(attempt, m') && NoneAdopted(attempt, m'')
            && Tracked(m'') && AdoptedKept(m'')
  {
  }

  predicate Held(attempt: AttemptId, m: Media, k: Key, bytes: Bytes) {
    Solid(attempt, m, k) && m.sent[k] == bytes
  }

  /** The i-th chunk of a file, and how many chunks it has. */
  function Chunk(file: Bytes, i: nat): Bytes {
    var start := Min(|file|, i * MAX_CHUNK_BYTES);
    file[start..Min(|file|, start + MAX_CHUNK_BYTES)]
  }

  function ChunkCount(file: Bytes): nat {
    (|file| + MAX_CHUNK_BYTES - 1) / MAX_CHUNK_BYTES
  }

  /** The first parts of an object, numbered from one, hold the first chunks of the file. */
  ghost predicate Holds(attempt: AttemptId, m: Media, parts: seq<Part>, file: Bytes) {
    forall i :: 0 <= i < |parts| ==>
      && parts[i].number == i + 1 && parts[i].size == |Chunk(file, i)|
      && Held(attempt, m, parts[i].key, Chunk(file, i))
  }

  lemma HoldsKept(attempt: AttemptId, m: Media, m': Media, parts: seq<Part>, file: Bytes)
    requires Progresses(attempt, m, m') && Holds(attempt, m, parts, file)
    ensures Holds(attempt, m', parts, file)
  {
  }

  lemma HoldsOneMore(attempt: AttemptId, m: Media, parts: seq<Part>, file: Bytes, part: Part)
    requires Holds(attempt, m, parts, file) && part.number == |parts| + 1 && part.size == |Chunk(file, |parts|)|
    requires Held(attempt, m, part.key, Chunk(file, |parts|))
    ensures Holds(attempt, m, parts + [part], file)
  {
    var more := parts + [part];
    forall i | 0 <= i < |more|
      ensures more[i].number == i + 1 && more[i].size == |Chunk(file, i)|
      ensures Held(attempt, m, more[i].key, Chunk(file, i))
    {
      if i < |parts| {
        assert more[i] == parts[i];
      }
    }
  }

  function Joined(parts: nat -> Bytes, n: nat): Bytes {
    if n == 0 then [] else Joined(parts, n - 1) + parts(n - 1)
  }

  /** No chunk is empty, and all but the last are full. */
  lemma ChunkSizes(file: Bytes, n: nat)
    ensures n < ChunkCount(file) <==> n * MAX_CHUNK_BYTES < |file|
    ensures n < ChunkCount(file) ==> 0 < |Chunk(file, n)| <= MAX_CHUNK_BYTES
    ensures n + 1 < ChunkCount(file) ==> |Chunk(file, n)| == MAX_CHUNK_BYTES
  {
  }

  /** A chunk ends within the file, and the first empty one is at its end. */
  lemma ChunkAt(file: Bytes, n: nat)
    requires n <= ChunkCount(file)
    ensures Chunk(file, n) == [] <==> n == ChunkCount(file)
    ensures n < ChunkCount(file) ==> n * MAX_CHUNK_BYTES + |Chunk(file, n)| <= |file|
  {
    ChunkSizes(file, n);
  }

  lemma {:induction false} JoinedPrefix(file: Bytes, n: nat)
    ensures Joined(i => Chunk(file, i), n) == file[..Min(|file|, n * MAX_CHUNK_BYTES)]
  {
    if n != 0 {
      JoinedPrefix(file, n - 1);
      var start := Min(|file|, (n - 1) * MAX_CHUNK_BYTES);
      var end := Min(|file|, n * MAX_CHUNK_BYTES);
      assert Chunk(file, n - 1) == file[start..end];
      assert file[..start] + file[start..end] == file[..end];
    }
  }

  /** The chunks, in order, are the file. */
  lemma ChunksMakeTheFile(file: Bytes)
    ensures Joined(i => Chunk(file, i), ChunkCount(file)) == file
  {
    ChunkSizes(file, ChunkCount(file));
    JoinedPrefix(file, ChunkCount(file));
    assert file[..|file|] == file;
  }

  datatype Upload = Uploaded(parts: seq<Part>) | UploadFailed(error: UploadError) | UploadDropped

  /** `Unplanned` is a storage error too: the names are refused, or no random suffix could be drawn. */
  datatype UploadError = Storage | Unplanned | Internal | UploadLeaseLost | Database

  datatype JobOutcome = Completed | FailureRecorded | JobLeaseLost | JobError | JobDropped

  /** A failed upload names what went wrong. */
  predicate UploadExplained(met: set<Trouble>, upload: Upload) {
    match upload
    case Uploaded(_) => true
    case UploadDropped => Cutoff in met
    case UploadFailed(Storage) => Fault in met || Lost in met
    case UploadFailed(Internal) => Fault in met || Lost in met
    case UploadFailed(UploadLeaseLost) => Lost in met
    case UploadFailed(Database) => Fault in met
    case UploadFailed(Unplanned) => false
  }

  /** What a part that is not stored makes of the upload. */
  function UploadOf(put: Put): Upload {
    match put
    case PutStored => Uploaded([])
    case PutRefused => UploadFailed(UploadLeaseLost)
    case PutFailed => UploadFailed(Storage)
    case PutUnknown => UploadFailed(Database)
    case PutDropped => UploadDropped
  }

  /** Failures of the work itself, not of the lease or the database. */
  predicate FailsWork(upload: Upload) {
    upload.UploadFailed? && (upload.error.Storage? || upload.error.Internal? || upload.error.Unplanned?)
  }

  predicate WorkExplained(met: set<Trouble>, work: Work) {
    match work
    case Prepared(_) => true
    case WorkFailure(_) => Fault in met || Lost in met
    case WorkLeaseLost => Lost in met
    case WorkDatabase => Fault in met
    case WorkDropped => Cutoff in met
  }

  /** So does a job that ends early. */
  predicate OutcomeExplained(met: set<Trouble>, outcome: JobOutcome) {
    match outcome
    case Completed => true
    case FailureRecorded => true
    case JobLeaseLost => Lost in met
    case JobError => Fault in met
    case JobDropped => Cutoff in met
  }

  /** What `record_processing_failure` reports. */
  function Recorded(w: Wire): JobOutcome {
    match Answer(w)
    case Applied => FailureRecorded
    case LeaseLost => JobLeaseLost
    case Invalid => JobError
    case Error => JobError
    case Dropped => JobDropped
  }

  /** What `mark_processing_source_validated` answers. */
  function Marked(w: Wire): Reply {
    if EndingOf(w).Fail? && EndingOf(w).invalid then Invalid else Answer(w)
  }

  /** The sizes and the number of parts fit their columns. */
  predicate SizesFit(file: Bytes) {
    |file| <= U64_MAX && ChunkCount(file) <= U32_MAX
  }

  /** The waits of one upload: opening the file, three for each chunk, and the read that finds the end. */
  function UploadWaits(file: Bytes): nat {
    2 + 3 * ChunkCount(file)
  }

  function WaitsOf(files: seq<Derivative>): nat {
    if files == [] then 0 else WaitsOf(files[..|files| - 1]) + UploadWaits(files[|files| - 1].bytes)
  }

  lemma {:induction false} WaitsGrow(files: seq<Derivative>, i: nat)
    requires i < |files|
    ensures WaitsOf(files[..i + 1]) == WaitsOf(files[..i]) + UploadWaits(files[i].bytes) <= WaitsOf(files)
    decreases |files| - i
  {
    assert files[..i + 1][..i] == files[..i];
    if i + 1 == |files| {
      assert files[..i + 1] == files;
    } else {
      WaitsGrow(files, i + 1);
    }
  }

  /** The file can be named and sealed. */
  predicate Sealable(attempt: AttemptId, file: Derivative) {
    CanName(attempt, file.objectName) && file.mediaTypeOk
  }

  predicate AllSealable(attempt: AttemptId, files: seq<Derivative>) {
    forall i :: 0 <= i < |files| ==> Sealable(attempt, files[i])
  }

  lemma SealableOneMore(attempt: AttemptId, files: seq<Derivative>, i: nat)
    requires i < |files| && AllSealable(attempt, files[..i]) && Sealable(attempt, files[i])
    ensures AllSealable(attempt, files[..i + 1])
  {
    var more := files[..i + 1];
    forall j | 0 <= j < |more| ensures Sealable(attempt, more[j]) {
      if j < i {
        assert more[j] == files[..i][j];
      }
    }
  }

  /** Besides, it fits. */
  predicate Fine(attempt: AttemptId, file: Derivative) {
    Sealable(attempt, file) && SizesFit(file.bytes)
  }

  /**
    This attempt's entries carry numbers already drawn and accepted names; a lost lease leaves none of them pending,
    a live one none orphaned.
   */
  predicate LedgerOk(attempt: AttemptId, ledger: map<Key, Reservation>, nonce: nat, names: set<string>, live: bool) {
    forall k :: k in ledger && k.attempt == attempt ==>
      && k.nonce < nonce && k.objectName in names
      && if live then !ledger[k].Orphaned? else !ledger[k].Pending?
  }

  lemma MeanwhileKeepsLedger(attempt: AttemptId, m: Media, e: Event, nonce: nat, names: set<string>, live: bool)
    requires LedgerOk(attempt, m.ledger, nonce, names, live)
    ensures LedgerOk(attempt, Meanwhile(attempt, m, e).ledger, nonce, names, live && !e.orphan)
    ensures !e.orphan ==> Meanwhile(attempt, m, e).ledger == m.ledger
  {
  }

  lemma ReservationKeepsLedger(attempt: AttemptId, m: Media, k: Key, nonce: nat, names: set<string>)
    requires LedgerOk(attempt, m.ledger, nonce, names, true) && k.nonce < nonce && k.objectName in names
    ensures LedgerOk(attempt, WithReservation(m, k).ledger, nonce, names, true)
  {
  }

  lemma AdoptKeepsLedger(attempt: AttemptId, m: Media, keys: set<Key>, nonce: nat, names: set<string>)
    requires LedgerOk(attempt, m.ledger, nonce, names, true)
    ensures LedgerOk(attempt, Adopt(m, keys).ledger, nonce, names, true)
  {
  }

  lemma LedgerGrows(attempt: AttemptId, ledger: map<Key, Reservation>, nonce: nat, names: set<string>, live: bool,
                    nonce': nat, names': set<string>)
    requires LedgerOk(attempt, ledger, nonce, names, live) && nonce <= nonce' && names <= names'
    ensures LedgerOk(attempt, ledger, nonce', names', live)
  {
  }

  predicate NoneAdopted(attempt: AttemptId, m: Media) {
    forall k :: k in m.ledger && k.attempt == attempt ==> !m.ledger[k].Adopted?
  }

  predicate AllOrphaned(attempt: AttemptId, m: Media) {
    forall k :: k in m.ledger && k.attempt == attempt ==> m.ledger[k].Orphaned?
  }

  /** The keys a job asked the store to delete, and those of them whose deletion failed. */
  datatype Discards = Discards(asked: set<Key>, failed: set<Key>)
  {
    predicate Within(later: Discards) {
      asked <= later.asked && failed <= later.failed
    }
  }

  /** Every part was tried, or one that failed ended the attempt. */
  predicate Discarded(d: Discards, parts: seq<Part>) {
    || (forall j :: 0 <= j < |parts| ==> parts[j].key in d.asked)
    || (exists j :: 0 <= j < |parts| && parts[j].key in d.failed)
  }

  lemma FailureDiscards(d: Discards, parts: seq<Part>, j: nat)
    ensures j < |parts| && parts[j].key in d.failed ==> Discarded(d, parts)
  {
  }

  predicate Discarding(d: Discards, objects: seq<seq<Part>>) {
    forall i :: 0 <= i < |objects| ==> Discarded(d, objects[i])
  }

  lemma DiscardingKept(d: Discards, d': Discards, objects: seq<seq<Part>>)
    requires Discarding(d, objects) && d.Within(d')
    ensures Discarding(d', objects)
  {
    forall i | 0 <= i < |objects| ensures Discarded(d', objects[i]) {
      assert Discarded(d, objects[i]);
    }
  }

  lemma DiscardingOneMore(d: Discards, objects: seq<seq<Part>>, i: nat)
    requires i < |objects| && Discarding(d, objects[..i]) && Discarded(d, objects[i])
    ensures Discarding(d, objects[..i + 1])
  {
    var more := objects[..i + 1];
    forall j | 0 <= j < |more| ensures Discarded(d, more[j]) {
      assert j < i ==> more[j] == objects[..i][j];
    }
  }

  datatype Derivative = Derivative(objectName: string, bytes: Bytes, mediaTypeOk: bool)

  datatype Work =
    | Prepared(objects: seq<seq<Part>>)
    | WorkFailure(validated: bool)
    | WorkLeaseLost
    | WorkDatabase
    | WorkDropped

  function WorkAfter(upload: Upload): (work: Work)
    requires upload.UploadFailed?
    ensures !work.Prepared? && !work.WorkDropped?
    ensures work.WorkLeaseLost? <==> upload.error.UploadLeaseLost?
    ensures work.WorkDatabase? <==> upload.error.Database?
    ensures work.WorkFailure? ==> work.validated
  {
    match upload.error
    case Storage => WorkFailure(true)
    case Unplanned => WorkFailure(true)
    case Internal => WorkFailure(true)
    case UploadLeaseLost => WorkLeaseLost
    case Database => WorkDatabase
  }

  /** The first objects hold the first derivatives. */
  ghost predicate AllHeld(attempt: AttemptId, m: Media, objects: seq<seq<Part>>, files: seq<Derivative>) {
    && |objects| <= |files|
    && (forall i :: 0 <= i < |objects| ==>
          |objects[i]| == ChunkCount(files[i].bytes) && Holds(attempt, m, objects[i], files[i].bytes))
  }

  lemma AllHeldKept(attempt: AttemptId, m: Media, m': Media, objects: seq<seq<Part>>, files: seq<Derivative>)
    requires Progresses(attempt, m, m') && AllHeld(attempt, m, objects, files)
    ensures AllHeld(attempt, m', objects, files)
  {
    forall i | 0 <= i < |objects| ensures Holds(attempt, m', objects[i], files[i].bytes) {
      HoldsKept(attempt, m, m', objects[i], files[i].bytes);
    }
  }

  lemma AllHeldOneMore(attempt: AttemptId, m: Media, objects: seq<seq<Part>>, files: seq<Derivative>, parts: seq<Part>)
    requires AllHeld(attempt, m, objects, files) && |objects| < |files|
    requires var file := files[|objects|].bytes; |parts| == ChunkCount(file) && Holds(attempt, m, parts, file)
    ensures AllHeld(attempt, m, objects + [parts], files)
  {
    var more := objects + [parts];
    forall i | 0 <= i < |more|
      ensures |more[i]| == ChunkCount(files[i].bytes) && Holds(attempt, m, more[i], files[i].bytes)
    {
      if i < |objects| {
        assert more[i] == objects[i];
      }
    }
  }

  function Keys(objects: seq<seq<Part>>): set<Key> {
    set i, j | 0 <= i < |objects| && 0 <= j < |objects[i]| :: objects[i][j].key
  }

  lemma KeysAreHeld(attempt: AttemptId, m: Media, objects: seq<seq<Part>>, files: seq<Derivative>)
    requires AllHeld(attempt, m, objects, files)
    ensures forall k :: k in Keys(objects) ==> Solid(attempt, m, k)
  {
    forall k | k in Keys(objects) ensures Solid(attempt, m, k) {
      var i, j :| 0 <= i < |objects| && 0 <= j < |objects[i]| && objects[i][j].key == k;
      assert Held(attempt, m, objects[i][j].key, Chunk(files[i].bytes, j));
    }
  }

  /** Under a live lease, what is held and not adopted is pending. */
  lemma AllPending(attempt: AttemptId, m: Media, objects: seq<seq<Part>>, nonce: nat, names: set<string>)
    requires NoneAdopted(attempt, m) && forall k :: k in Keys(objects) ==> Solid(attempt, m, k)
    ensures LedgerOk(attempt, m.ledger, nonce, names, true) ==>
              forall k :: k in Keys(objects) ==> k in m.ledger && m.ledger[k].Pending?
  {
  }

  lemma KeysAreOwn(attempt: AttemptId, m: Media, objects: seq<seq<Part>>, files: seq<Derivative>)
    requires AllHeld(attempt, m, objects, files)
    ensures forall i, j :: 0 <= i < |objects| && 0 <= j < |objects[i]| ==> objects[i][j].key.attempt == attempt
  {
    forall i, j | 0 <= i < |objects| && 0 <= j < |objects[i]| ensures objects[i][j].key.attempt == attempt {
      assert Held(attempt, m, objects[i][j].key, Chunk(files[i].bytes, j));
    }
  }

  predicate AllFine(attempt: AttemptId, files: seq<Derivative>) {
    forall i :: 0 <= i < |files| ==> Fine(attempt, files[i])
  }

  function Adopt(m: Media, keys: set<Key>): Media {
    m.(ledger := map k | k in m.ledger :: if k in keys then Adopted else m.ledger[k])
  }

  lemma AdoptIsSafe(attempt: AttemptId, m: Media, keys: set<Key>)
    requires Tracked(m) && AdoptedKept(m)
    requires forall k :: k in keys ==> Solid(attempt, m, k) && m.ledger[k].Pending?
    ensures var m' := Adopt(m, keys); Tracked(m') && AdoptedKept(m') && Evolves(attempt, m, m')
  {
  }

  /** Part i of the object is adopted and stores chunk i of the file. */
  ghost predicate Published(m: Media, parts: seq<Part>, file: Bytes) {
    && |parts| == ChunkCount(file)
    && (forall i :: 0 <= i < |parts| ==>
          && parts[i].number == i + 1 && parts[i].size == |Chunk(file, i)|
          && parts[i].key in m.ledger && m.ledger[parts[i].key].Adopted?
          && parts[i].key in m.store && m.store[parts[i].key] == Chunk(file, i))
  }

  ghost predicate AllPublished(m: Media, objects: seq<seq<Part>>, files: seq<Derivative>)
    requires |objects| == |files|
  {
    forall i :: 0 <= i < |objects| ==> Published(m, objects[i], files[i].bytes)
  }

  lemma AdoptPublishes(attempt: AttemptId, m: Media, objects: seq<seq<Part>>, files: seq<Derivative>)
    requires |objects| == |files| && AllHeld(attempt, m, objects, files)
    requires forall k :: k in Keys(objects) ==> k in m.ledger && m.ledger[k].Pending?
    ensures AllPublished(Adopt(m, Keys(objects)), objects, files)
  {
    forall i | 0 <= i < |objects| ensures Published(Adopt(m, Keys(objects)), objects[i], files[i].bytes) {
      forall j | 0 <= j < |objects[i]|
        ensures objects[i][j].key in Keys(objects) && Held(attempt, m, objects[i][j].key, Chunk(files[i].bytes, j))
      {
      }
    }
  }

  /** The bytes the store holds for an object's parts, in order. */
  function Content(m: Media, parts: seq<Part>): Bytes {
    if parts == [] then []
    else
      var last := parts[|parts| - 1];
      Content(m, parts[..|parts| - 1]) + if last.key in m.store then m.store[last.key] else []
  }

  lemma {:induction false} ContentIsJoined(m: Media, parts: seq<Part>, file: Bytes, n: nat)
    requires Published(m, parts, file) && n <= |parts|
    ensures Content(m, parts[..n]) == Joined(i => Chunk(file, i), n)
  {
    if n > 0 {
      ContentIsJoined(m, parts, file, n - 1);
      assert parts[..n][..n - 1] == parts[..n - 1];
    }
  }

  /** A published object's stored parts concatenate to the file it was made from. */
  lemma PublishedIsTheFile(m: Media, parts: seq<Part>, file: Bytes)
    requires Published(m, parts, file)
    ensures Content(m, parts) == file
  {
    ContentIsJoined(m, parts, file, |parts|);
    assert parts[..|parts|] == parts;
    ChunksMakeTheFile(file);
  }

  lemma AllPublishedAreTheFiles(m: Media, objects: seq<seq<Part>>, files: seq<Derivative>)
    requires |objects| == |files| && AllPublished(m, objects, files)
    ensures forall i :: 0 <= i < |objects| ==> Content(m, objects[i]) == files[i].bytes
  {
    forall i | 0 <= i < |objects| ensures Content(m, objects[i]) == files[i].bytes {
      PublishedIsTheFile(m, objects[i], files[i].bytes);
    }
  }

  /** Every key newly in the ledger is that of one of these parts. */
  predicate Entered(m: Media, m': Media, parts: seq<Part>) {
    forall k :: k in m'.ledger && k !in m.ledger ==> exists i :: 0 <= i < |parts| && parts[i].key == k
  }

  predicate AllEntered(m: Media, m': Media, objects: seq<seq<Part>>) {
    forall k :: k in m'.ledger && k !in m.ledger ==> k in Keys(objects)
  }

  lemma EnteredOneMore(m: Media, m': Media, m'': Media, parts: seq<Part>, part: Part)
    requires Entered(m, m', parts) && m''.ledger.Keys <= m'.ledger.Keys + {part.key}
    ensures Entered(m, m'', parts + [part])
  {
    forall k | k in m''.ledger && k !in m.ledger
      ensures exists i :: 0 <= i < |parts + [part]| && (parts + [part])[i].key == k
    {
      if k in m'.ledger {
        var i :| 0 <= i < |parts| && parts[i].key == k;
        assert (parts + [part])[i].key == k;
      } else {
        assert (parts + [part])[|parts|].key == k;
      }
    }
  }

  lemma EnteredOneObject(m: Media, m': Media, m'': Media, objects: seq<seq<Part>>, parts: seq<Part>)
    requires AllEntered(m, m', objects) && Entered(m', m'', parts)
    ensures AllEntered(m, m'', objects + [parts])
  {
    var more := objects + [parts];
    forall k | k in m''.ledger && k !in m.ledger ensures k in Keys(more) {
      if k in m'.ledger {
        var i, j :| 0 <= i < |objects| && 0 <= j < |objects[i]| && objects[i][j].key == k;
        assert more[i][j].key == k;
      } else {
        var j :| 0 <= j < |parts| && parts[j].key == k;
        assert more[|objects|][j].key == k;
      }
    }
  }

  predicate NonePending(attempt: AttemptId, m: Media) {
    forall k :: k in m.ledger && k.attempt == attempt ==> !m.ledger[k].Pending?
  }

  /** A completed job leaves no reservation behind: each is one of the published parts. */
  lemma PublishedLeavesNonePending(attempt: AttemptId, m: Media, m': Media, m'': Media,
                                   objects: seq<seq<Part>>, files: seq<Derivative>)
    requires Evolves(attempt, m, m'') && AllEntered(m, m', objects) && m''.ledger.Keys == m'.ledger.Keys
    requires |objects| == |files| && AllPublished(m'', objects, files)
    ensures NonePending(attempt, m) ==> NonePending(attempt, m'')
  {
    forall k | NonePending(attempt, m) && k in m''.ledger && k.attempt == attempt ensures !m''.ledger[k].Pending? {
      if k !in m.ledger {
        assert k in m''.ledger.Keys;
        var i, j :| 0 <= i < |objects| && 0 <= j < |objects[i]| && objects[i][j].key == k;
        assert Published(m'', objects[i], files[i].bytes);
      }
    }
  }

  lemma AdoptAll(attempt: AttemptId, m: Media, m': Media, objects: seq<seq<Part>>, files: seq<Derivative>,
                 nonce: nat, names: set<string>)
    requires Evolves(attempt, m, m') && Tracked(m') && AdoptedKept(m')
    requires LedgerOk(attempt, m'.ledger, nonce, names, true)
    requires |objects| == |files| && AllHeld(attempt, m', objects, files)
    requires forall k :: k in Keys(objects) ==> Solid(attempt, m', k) && m'.ledger[k].Pending?
    ensures var m'' := Adopt(m', Keys(objects));
            && Evolves(attempt, m, m'') && Tracked(m'') && AdoptedKept(m'')
            && LedgerOk(attempt, m''.ledger, nonce, names, true)
            && AllPublished(m'', objects, files) && m''.ledger.Keys == m'.ledger.Keys
  {
    AdoptIsSafe(attempt, m', Keys(objects));
    AdoptKeepsLedger(attempt, m', Keys(objects), nonce, names);
    AdoptPublishes(attempt, m', objects, files);
    EvolvesTransitive(attempt, m, m', Adopt(m', Keys(objects)));
  }

  class Host {
    const attempt: AttemptId
    /** Whether a random suffix can be drawn for the n-th part. */
    const drawn: nat -> bool
    var media: Media
    var wire: Wire
    var nonce: nat
    var discards: Discards
    /** The object names this job may put into its keys. */
    ghost var names: set<string>

    constructor (attempt: AttemptId, media: Media, script: seq<Event>, drawn: nat -> bool)
      requires forall k :: k in media.ledger ==> k.attempt != attempt
      requires Tracked(media) && AdoptedKept(media)
      ensures this.attempt == attempt && this.drawn == drawn && this.media == media
      ensures wire == Wire(true, script, {}) && discards == Discards({}, {}) && names == {}
      ensures Valid() && NoneAdopted(attempt, media) && NonePending(attempt, media)
    {
      this.attempt, this.drawn, this.media := attempt, drawn, media;
      wire, nonce, discards, names := Wire(true, script, {}), 0, Discards({}, {}), {};
    }

    ghost predicate Valid()
      reads this
    {
      && Tracked(media) && AdoptedKept(media)
      && LedgerOk(attempt, media.ledger, nonce, names, wire.live)
      && (!wire.live ==> Lost in wire.met)
    }

    ghost predicate AllDrawn() {
      forall n :: drawn(n)
    }

    /** One wait: others act, then the wait ends. */
    method Await() returns (ending: Ending)
      requires Valid()
      modifies this`media, this`wire
      ensures Valid() && Progresses(attempt, old(media), media)
      ensures ending == EndingOf(old(wire)) && wire == Step(old(wire))
      ensures media.ledger.Keys == old(media.ledger).Keys && media.sent == old(media.sent)
      ensures wire.live ==> media.ledger == old(media.ledger)
    {
      ending := EndingOf(wire);
      if wire.script == [] {
        wire := Step(wire);
        return;
      }
      var e := wire.script[0];
      MeanwhileProgresses(attempt, media, e);
      MeanwhileKeepsLedger(attempt, media, e, nonce, names, wire.live);
      media, wire := Meanwhile(attempt, media, e), Step(wire);
    }

    /** `reserve_processing_object_key`: enters the key in the ledger if the lease is live. */
    method Reserve(k: Key) returns (reply: Reply)
      requires Valid() && NoneAdopted(attempt, media)
      requires k.attempt == attempt && k.nonce < nonce && k.objectName in names
      modifies this`media, this`wire
      ensures Valid() && Progresses(attempt, old(media), media)
      ensures reply == Answer(old(wire)) && wire == Step(old(wire))
      ensures reply.Applied? ==> k in media.ledger && media.ledger[k].Pending?
      ensures k in media.ledger && k !in old(media.ledger) ==> wire.live && media.ledger[k].Pending?
      ensures old(media.ledger).Keys <= media.ledger.Keys <= old(media.ledger).Keys + {k}
      ensures media.sent == old(media.sent)
    {
      var ending := Await();
      var done := wire.live && (ending.Accept? || ((ending.Fail? || ending.Cut?) && ending.applied));
      var conflict := k in media.ledger && !media.ledger[k].Pending?;
      if done && !conflict {
        ReservationProgresses(attempt, media, k);
        ReservationKeepsLedger(attempt, media, k, nonce, names);
        ProgressesTransitive(attempt, old(media), media, WithReservation(media, k));
        media := WithReservation(media, k);
      }
      match ending {
        case Accept => return if !wire.live then LeaseLost else if conflict then Error else Applied;
        case Refuse => return LeaseLost;
        case Fail(_, _) => return Error;
        case Cut(_) => return Dropped;
      }
    }

    /** `write_part`: a failed or cut-short write may land now or later. */
    method WritePart(k: Key, bytes: Bytes) returns (reply: Reply)
      requires Valid() && k.attempt == attempt
      requires k in media.ledger && !media.ledger[k].Adopted? && k !in media.sent
      modifies this`media, this`wire
      ensures Valid() && Progresses(attempt, old(media), media)
      ensures reply == StoreAnswer(old(wire)) && wire == Step(old(wire))
      ensures media.ledger.Keys == old(media.ledger).Keys
      ensures media.sent == old(media.sent)[k := bytes]
      ensures reply.Applied? ==> Held(attempt, media, k, bytes)
    {
      var ending := Await();
      var stored := ending.Accept? || ((ending.Fail? || ending.Cut?) && ending.applied);
      WriteProgresses(attempt, media, k, bytes, stored);
      ProgressesTransitive(attempt, old(media), media, WithWrite(media, k, bytes, stored));
      media := WithWrite(media, k, bytes, stored);
      reply := if ending.Accept? then Applied else if ending.Cut? then Dropped else Error;
    }

    /** `delete_object_key`. */
    method DeleteKey(k: Key) returns (reply: Reply)
      requires Valid() && k.attempt == attempt && NoneAdopted(attempt, media)
      modifies this`media, this`wire, this`discards
      ensures Valid() && Evolves(attempt, old(media), media) && NoneAdopted(attempt, media)
      ensures reply == StoreAnswer(old(wire)) && wire == Step(old(wire))
      ensures discards ==
              Discards(old(discards).asked + {k},
                       if reply.Applied? then old(discards).failed else old(discards).failed + {k})
      ensures reply.Applied? ==> k !in media.store
    {
      var ending := Await();
      DeletionEvolves(attempt, old(media), media, k);
      if ending.Accept? || ((ending.Fail? || ending.Cut?) && ending.applied) {
        media := WithoutObject(media, k);
      }
      reply := if ending.Accept? then Applied else if ending.Cut? then Dropped else Error;
      discards := Discards(discards.asked + {k}, if reply.Applied? then discards.failed else discards.failed + {k});
    }

    /** `delete_parts`: a failure is logged and the next part is tried. */
    method DeleteParts(parts: seq<Part>) returns (reply: Reply)
      requires Valid() && NoneAdopted(attempt, media)
      requires forall i :: 0 <= i < |parts| ==> parts[i].key.attempt == attempt
      modifies this`media, this`wire, this`discards
      ensures Valid() && Evolves(attempt, old(media), media) && NoneAdopted(attempt, media)
      ensures old(wire).met <= wire.met && |wire.script| <= |old(wire).script|
      ensures old(discards).Within(discards)
      ensures if reply.Dropped? then Cutoff in wire.met else reply.Applied?
      ensures reply.Applied? ==> forall i :: 0 <= i < |parts| ==> parts[i].key in discards.asked
    {
      reply := Applied;
      for i := 0 to |parts|
        invariant Valid() && Evolves(attempt, old(media), media) && NoneAdopted(attempt, media)
        invariant old(wire).met <= wire.met && |wire.script| <= |old(wire).script|
        invariant old(discards).Within(discards) && forall j :: 0 <= j < i ==> parts[j].key in discards.asked
      {
        reply := DeleteKey(parts[i].key);
        if reply.Dropped? {
          return;
        }
      }
      reply := Applied;
    }

    /**
      `delete_objects`: every object is tried. Each was sealed by the validation its deletion repeats.
     */
    method DeleteObjects(objects: seq<seq<Part>>) returns (reply: Reply)
      requires Valid() && NoneAdopted(attempt, media)
      requires forall i, j :: 0 <= i < |objects| && 0 <= j < |objects[i]| ==> objects[i][j].key.attempt == attempt
      modifies this`media, this`wire, this`discards
      ensures Valid() && Evolves(attempt, old(media), media) && NoneAdopted(attempt, media)
      ensures old(wire).met <= wire.met && (Calm(old(wire)) ==> Calm(wire))
      ensures if reply.Dropped? then Cutoff in wire.met else reply.Applied?
      ensures reply.Applied? ==> Discarding(discards, objects)
    {
      for i := 0 to |objects|
        invariant Valid() && Evolves(attempt, old(media), media) && NoneAdopted(attempt, media)
        invariant Discarding(discards, objects[..i])
        invariant old(wire).met <= wire.met && (Calm(old(wire)) ==> Calm(wire))
      {
        ghost var before, between := discards, media;
        reply := DeleteObject(objects[i]);
        EvolvesTransitive(attempt, old(media), between, media);
        if reply.Dropped? {
          return;
        }
        DiscardingKept(before, discards, objects[..i]);
        DiscardingOneMore(discards, objects, i);
      }
      assert objects[..|objects|] == objects;
      reply := Applied;
    }

    /** `delete_object`: the first failure ends the attempt. */
    method DeleteObject(parts: seq<Part>) returns (reply: Reply)
      requires Valid() && NoneAdopted(attempt, media)
      requires forall j :: 0 <= j < |parts| ==> parts[j].key.attempt == attempt
      modifies this`media, this`wire, this`discards
      ensures Valid() && Evolves(attempt, old(media), media) && NoneAdopted(attempt, media)
      ensures old(wire).met <= wire.met && old(discards).Within(discards) && (Calm(old(wire)) ==> Calm(wire))
      ensures if reply.Dropped? then Cutoff in wire.met else Discarded(discards, parts)
      ensures reply.Applied? ==> forall j :: 0 <= j < |parts| ==> parts[j].key in discards.asked
      ensures reply.Applied? ==> discards.failed == old(discards).failed
    {
      for j := 0 to |parts|
        invariant Valid() && Evolves(attempt, old(media), media) && NoneAdopted(attempt, media)
        invariant old(wire).met <= wire.met && (Calm(old(wire)) ==> Calm(wire))
        invariant old(discards).Within(discards) && discards.failed == old(discards).failed
        invariant forall l :: 0 <= l < j ==> parts[l].key in discards.asked
      {
        ghost var before := media;
        if Calm(wire) {
          CalmStays(wire);
        }
        reply := DeleteKey(parts[j].key);
        EvolvesTransitive(attempt, old(media), before, media);
        if !reply.Applied? {
          FailureDiscards(discards, parts, j);
          return;
        }
      }
      reply := Applied;
    }

    /** Reserves a key, then writes the part. */
    method PutPart(k: Key, bytes: Bytes) returns (put: Put)
      requires Valid() && NoneAdopted(attempt, media)
      requires k.attempt == attempt && k.nonce < nonce && k.objectName in names
      requires k !in media.ledger
      modifies this`media, this`wire
      ensures Valid() && Progresses(attempt, old(media), media)
      ensures put == PutAnswer(old(wire)) && old(wire).met <= wire.met
      ensures UploadExplained(wire.met, UploadOf(put))
      ensures media.ledger.Keys <= old(media.ledger).Keys + {k}
      ensures put.PutStored? ==> Held(attempt, media, k, bytes) && Passed(old(wire), 2, wire)
      ensures Calm(old(wire)) && 2 <= |old(wire).script| ==> put.PutStored?
    {
      PutIsCalm(wire);
      PutIsExplained(wire);
      var reserved := Reserve(k);
      match reserved {
        case Dropped => return PutDropped;
        case Error => return PutUnknown;
        case LeaseLost => return PutRefused;
        case Applied =>
      }
      ghost var between := media;
      var written := WritePart(k, bytes);
      ProgressesTransitive(attempt, old(media), between, media);
      put := if written.Dropped? then PutDropped else if written.Error? then PutFailed else PutStored;
    }

    /** One chunk of `upload_derivative`: plan the part, put it; discard on failure. */
    method StagePart(objectName: string, number: nat, bytes: Bytes, staged: seq<Part>)
      returns (result: Result<Part, Upload>)
      requires Valid() && NoneAdopted(attempt, media)
      requires objectName in names
      requires forall i :: 0 <= i < |staged| ==> staged[i].key.attempt == attempt
      modifies this`media, this`wire, this`nonce, this`discards
      ensures Valid() && Evolves(attempt, old(media), media) && NoneAdopted(attempt, media)
      ensures old(wire).met <= wire.met
      // Exactly what decides the result: the plan, then the reservation, then the write.
      ensures match result
              case Ok(_) => drawn(old(nonce)) && PutAnswer(old(wire)).PutStored?
              case Err(error) =>
                || (&& error == UploadDropped && Cutoff in wire.met
                    && drawn(old(nonce)) && !PutAnswer(old(wire)).PutStored?)
                || error == if drawn(old(nonce)) then UploadOf(PutAnswer(old(wire))) else UploadFailed(Unplanned)
      ensures Calm(old(wire)) && 2 <= |old(wire).script| && drawn(old(nonce)) ==> result.Ok?
      ensures result.Err? ==> !result.error.Uploaded?
      ensures result.Err? ==> UploadExplained(wire.met, result.error) || result.error == UploadFailed(Unplanned)
      // A part that was refused or not stored takes the parts before it along; one not even planned does not.
      ensures result == Err(UploadFailed(Storage)) || result == Err(UploadFailed(UploadLeaseLost)) ==>
                forall i :: 0 <= i < |staged| ==> staged[i].key in discards.asked
      ensures result.Ok? ==>
                && Progresses(attempt, old(media), media)
                && result.value.number == number && result.value.size == |bytes|
                && Held(attempt, media, result.value.key, bytes)
                && Passed(old(wire), 2, wire)
                && media.ledger.Keys <= old(media.ledger).Keys + {result.value.key}
    {
      if !drawn(nonce) {
        return Err(UploadFailed(Unplanned));
      }
      var key := Key(attempt, objectName, number, nonce);
      var part := Part(number, key, |bytes|);
      LedgerGrows(attempt, media.ledger, nonce, names, wire.live, nonce + 1, names);
      assert key !in media.ledger;
      nonce := nonce + 1;
      var put := PutPart(key, bytes);
      if put.PutStored? {
        return Ok(part);
      }
      if put.PutDropped? || put.PutUnknown? {
        return Err(UploadOf(put));
      }
      ghost var before := media;
      var discarded := DeleteParts(staged + [part]);
      assert forall i :: 0 <= i < |staged| ==> (staged + [part])[i] == staged[i];
      EvolvesTransitive(attempt, old(media), before, media);
      return Err(if discarded.Dropped? then UploadDropped else UploadOf(put));
    }

    /** Reads the n-th chunk, which must fit the part's columns; it is empty at the end of the file. */
    method ReadChunk(file: Bytes, n: nat) returns (result: Result<Bytes, Upload>)
      requires Valid() && n <= ChunkCount(file)
      modifies this`media, this`wire
      ensures Valid() && Progresses(attempt, old(media), media) && media.ledger.Keys == old(media.ledger).Keys
      ensures old(wire).met <= wire.met
      ensures result.Ok? ==>
                && result.value == Chunk(file, n) && (result.value == [] <==> n == ChunkCount(file))
                && (result.value != [] ==> n * MAX_CHUNK_BYTES + |result.value| <= U64_MAX && n + 1 <= U32_MAX)
                && Passed(old(wire), 1, wire)
      ensures Calm(old(wire)) && old(wire).script != [] && (SizesFit(file) || n == ChunkCount(file)) ==> result.Ok?
      ensures result.Err? ==>
                || UploadExplained(wire.met, result.error)
                || (result.error == UploadFailed(Internal) && !SizesFit(file))
      ensures result.Err? ==> !result.error.Uploaded?
    {
      if Calm(wire) && wire.script != [] {
        CalmStep(wire);
      }
      ChunkAt(file, n);
      var read := Await();
      if read.Cut? {
        return Err(UploadDropped);
      } else if !read.Accept? {
        return Err(UploadFailed(Internal));
      }
      PassedOne(old(wire));
      var bytes := Chunk(file, n);
      if bytes != [] && (n * MAX_CHUNK_BYTES + |bytes| > U64_MAX || n + 1 > U32_MAX) {
        return Err(UploadFailed(Internal));
      }
      return Ok(bytes);
    }

    /** One iteration of `upload_derivative`: read a chunk and stage it; `None` at the end of the file. */
    method StageNext(objectName: string, file: Bytes, staged: seq<Part>)
      returns (result: Result<Option<Part>, Upload>)
      requires Valid() && NoneAdopted(attempt, media)
      requires objectName in names
      requires |staged| <= ChunkCount(file) && Holds(attempt, media, staged, file)
      modifies this`media, this`wire, this`nonce, this`discards
      ensures Valid() && Evolves(attempt, old(media), media) && NoneAdopted(attempt, media)
      ensures old(wire).met <= wire.met
      ensures result.Err? ==> !result.error.Uploaded?
      ensures result.Ok? ==> Progresses(attempt, old(media), media)
      ensures result == Ok(None) ==>
                && |staged| == ChunkCount(file) && Holds(attempt, media, staged, file)
                && media.ledger.Keys == old(media.ledger).Keys && Passed(old(wire), 1, wire)
      ensures result.Ok? && result.value.Some? ==>
                && |staged| < ChunkCount(file) && Holds(attempt, media, staged + [result.value.value], file)
                && media.ledger.Keys <= old(media.ledger).Keys + {result.value.value.key} && Passed(old(wire), 3, wire)
      ensures Calm(old(wire)) && 3 <= |old(wire).script| && SizesFit(file) && drawn(old(nonce)) ==> result.Ok?
      ensures Calm(old(wire)) && old(wire).script != [] && |staged| == ChunkCount(file) ==> result.Ok?
      ensures result.Err? ==>
                || UploadExplained(wire.met, result.error)
                || (FailsWork(result.error) && !(SizesFit(file) && drawn(old(nonce))))
    {
      var read := ReadChunk(file, |staged|);
      if read.Err? {
        return Err(read.error);
      }
      HoldsKept(attempt, old(media), media, staged, file);
      if read.value == [] {
        return Ok(None);
      }
      ghost var before := media;
      var part := StagePart(objectName, |staged| + 1, read.value, staged);
      EvolvesTransitive(attempt, old(media), before, media);
      if part.Err? {
        return Err(part.error);
      }
      ProgressesTransitive(attempt, old(media), before, media);
      HoldsKept(attempt, before, media, staged, file);
      HoldsOneMore(attempt, media, staged, file, part.value);
      return Ok(Some(part.value));
    }

    /** The loop of `upload_derivative`. */
    method StageAll(file: Derivative) returns (result: Result<seq<Part>, Upload>)
      requires Valid() && NoneAdopted(attempt, media) && file.objectName in names
      modifies this`media, this`wire, this`nonce, this`discards
      ensures Valid() && Evolves(attempt, old(media), media) && NoneAdopted(attempt, media)
      ensures old(wire).met <= wire.met
      ensures result.Ok? ==>
                && Progresses(attempt, old(media), media)
                && |result.value| == ChunkCount(file.bytes) && Holds(attempt, media, result.value, file.bytes)
                && Entered(old(media), media, result.value)
                && Passed(old(wire), 1 + 3 * ChunkCount(file.bytes), wire)
      ensures (&& Calm(old(wire)) && 1 + 3 * ChunkCount(file.bytes) <= |old(wire).script|
               && SizesFit(file.bytes) && AllDrawn()) ==> result.Ok?
      ensures result.Err? ==>
                && !result.error.Uploaded?
                && (|| UploadExplained(wire.met, result.error)
                    || (FailsWork(result.error) && !(SizesFit(file.bytes) && AllDrawn())))
    {
      var staged: seq<Part> := [];
      while true
        invariant Valid() && NoneAdopted(attempt, media)
        invariant Progresses(attempt, old(media), media)
        invariant |staged| <= ChunkCount(file.bytes) && Holds(attempt, media, staged, file.bytes)
        invariant Entered(old(media), media, staged)
        invariant Passed(old(wire), 3 * |staged|, wire)
        decreases ChunkCount(file.bytes) - |staged|
      {
        ghost var before := media;
        var next := StageNext(file.objectName, file.bytes, staged);
        EvolvesTransitive(attempt, old(media), before, media);
        if next.Err? {
          return Err(next.error);
        }
        ProgressesTransitive(attempt, old(media), before, media);
        if next.value.None? {
          return Ok(staged);
        }
        EnteredOneMore(old(media), before, media, staged, next.value.value);
        staged := staged + [next.value.value];
      }
    }

    /** `upload_derivative` once its attempt is named: open the file, stage its chunks, seal the object. */
    method UploadNamed(file: Derivative) returns (upload: Upload)
      requires Valid() && NoneAdopted(attempt, media) && file.objectName in names
      modifies this`media, this`wire, this`nonce, this`discards
      ensures Valid() && Evolves(attempt, old(media), media) && NoneAdopted(attempt, media)
      ensures old(wire).met <= wire.met
      ensures upload.Uploaded? ==>
                && Progresses(attempt, old(media), media)
                && |upload.parts| == ChunkCount(file.bytes) && Holds(attempt, media, upload.parts, file.bytes)
                && Entered(old(media), media, upload.parts)
                && file.mediaTypeOk && Passed(old(wire), UploadWaits(file.bytes), wire)
      ensures (&& Calm(old(wire)) && UploadWaits(file.bytes) <= |old(wire).script|
               && file.mediaTypeOk && SizesFit(file.bytes) && AllDrawn()) ==> upload.Uploaded?
      ensures || UploadExplained(wire.met, upload)
              || (FailsWork(upload) && !(file.mediaTypeOk && SizesFit(file.bytes) && AllDrawn()))
    {
      if Calm(wire) && wire.script != [] {
        CalmStep(wire);
      }
      var opening := Await();
      if opening.Cut? {
        return UploadDropped;
      } else if !opening.Accept? {
        return UploadFailed(Internal);
      }
      PassedOne(old(wire));
      ghost var before := media;
      var staged := StageAll(file);
      EvolvesTransitive(attempt, old(media), before, media);
      if staged.Err? {
        return staged.error;
      }
      ProgressesTransitive(attempt, old(media), before, media);
      before := media;
      upload := SealParts(file, staged.value);
      EvolvesTransitive(attempt, old(media), before, media);
    }

    /** `upload_derivative`. */
    method UploadDerivative(file: Derivative) returns (upload: Upload)
      requires Valid() && NoneAdopted(attempt, media)
      modifies this`media, this`wire, this`nonce, this`discards, this`names
      ensures NamesOk(attempt, old(names)) ==> NamesOk(attempt, names)
      ensures Valid() && Evolves(attempt, old(media), media) && NoneAdopted(attempt, media)
      ensures old(wire).met <= wire.met
      ensures upload.Uploaded? ==>
                && Progresses(attempt, old(media), media)
                && |upload.parts| == ChunkCount(file.bytes) && Holds(attempt, media, upload.parts, file.bytes)
                && Entered(old(media), media, upload.parts)
                && Sealable(attempt, file) && Passed(old(wire), UploadWaits(file.bytes), wire)
      ensures Calm(old(wire)) && UploadWaits(file.bytes) <= |old(wire).script| && Fine(attempt, file) && AllDrawn() ==>
                upload.Uploaded?
      ensures || UploadExplained(wire.met, upload)
              || (FailsWork(upload) && !(Fine(attempt, file) && AllDrawn()))
    {
      if !CanName(attempt, file.objectName) {
        return UploadFailed(Unplanned);
      }
      LedgerGrows(attempt, media.ledger, nonce, names, wire.live, nonce, names + {file.objectName});
      names := names + {file.objectName};
      upload := UploadNamed(file);
    }

    /** The end of `upload_derivative`: an object that cannot be sealed is discarded. */
    method SealParts(file: Derivative, staged: seq<Part>) returns (upload: Upload)
      requires Valid() && NoneAdopted(attempt, media)
      requires forall i :: 0 <= i < |staged| ==> staged[i].key.attempt == attempt
      modifies this`media, this`wire, this`discards
      ensures Valid() && Evolves(attempt, old(media), media) && NoneAdopted(attempt, media)
      ensures old(wire).met <= wire.met
      ensures if file.mediaTypeOk then upload == Uploaded(staged) && media == old(media) && wire == old(wire)
              else upload == UploadFailed(Storage) || (upload == UploadDropped && Cutoff in wire.met)
      ensures upload.UploadFailed? ==> forall i :: 0 <= i < |staged| ==> staged[i].key in discards.asked
    {
      if !file.mediaTypeOk {
        var discarded := DeleteParts(staged);
        return if discarded.Dropped? then UploadDropped else UploadFailed(Storage);
      }
      upload := Uploaded(staged);
    }

    /** One iteration of `process_claim`: upload the next derivative; on failure discard those before it. */
    method UploadNext(file: Derivative, objects: seq<seq<Part>>) returns (result: Result<seq<Part>, Work>)
      requires Valid() && NoneAdopted(attempt, media)
      requires forall i, j :: 0 <= i < |objects| && 0 <= j < |objects[i]| ==> objects[i][j].key.attempt == attempt
      modifies this`media, this`wire, this`nonce, this`discards, this`names
      ensures NamesOk(attempt, old(names)) ==> NamesOk(attempt, names)
      ensures Valid() && Evolves(attempt, old(media), media) && NoneAdopted(attempt, media)
      ensures old(wire).met <= wire.met
      ensures result.Ok? ==>
                && Progresses(attempt, old(media), media)
                && |result.value| == ChunkCount(file.bytes) && Holds(attempt, media, result.value, file.bytes)
                && Entered(old(media), media, result.value)
                && Sealable(attempt, file)
                && Passed(old(wire), UploadWaits(file.bytes), wire)
      ensures result.Err? ==> !result.error.Prepared?
      // Every object before it is discarded.
      ensures result.Err? && !result.error.WorkDropped? ==> Discarding(discards, objects)
      ensures Calm(old(wire)) && UploadWaits(file.bytes) <= |old(wire).script| && Fine(attempt, file) && AllDrawn() ==>
                result.Ok?
      ensures result.Err? ==>
                || WorkExplained(wire.met, result.error)
                || (result.error == WorkFailure(true) && !(Fine(attempt, file) && AllDrawn()))
    {
      var upload := UploadDerivative(file);
      if upload.Uploaded? {
        return Ok(upload.parts);
      }
      if upload.UploadDropped? {
        return Err(WorkDropped);
      }
      ghost var before := media;
      var discarded := DeleteObjects(objects);
      EvolvesTransitive(attempt, old(media), before, media);
      return Err(if discarded.Dropped? then WorkDropped else WorkAfter(upload));
    }

    /** `process_claim`: fetch the source, run the codec, upload every derivative; discard on failure. */
    method ProcessClaim(files: seq<Derivative>) returns (work: Work)
      requires Valid() && NoneAdopted(attempt, media)
      modifies this`media, this`wire, this`nonce, this`discards, this`names
      ensures NamesOk(attempt, old(names)) ==> NamesOk(attempt, names)
      ensures Valid() && Evolves(attempt, old(media), media) && NoneAdopted(attempt, media)
      ensures old(wire).met <= wire.met
      ensures work.Prepared? ==>
                && |work.objects| == |files| && AllHeld(attempt, media, work.objects, files)
                && AllEntered(old(media), media, work.objects)
                && Passed(old(wire), 2 + WaitsOf(files), wire)
                && AllSealable(attempt, files)
      ensures Calm(old(wire)) && 2 + WaitsOf(files) <= |old(wire).script| && AllFine(attempt, files) && AllDrawn() ==>
                work.Prepared?
      ensures WorkExplained(wire.met, work) || (work == WorkFailure(true) && !(AllFine(attempt, files) && AllDrawn()))
    {
      work := ReadSource();
      if !work.Prepared? {
        return;
      }
      var objects: seq<seq<Part>> := [];
      for i := 0 to |files|
        invariant Valid() && Evolves(attempt, old(media), media) && NoneAdopted(attempt, media)
        invariant NamesOk(attempt, old(names)) ==> NamesOk(attempt, names)
        invariant |objects| == i && AllHeld(attempt, media, objects, files)
        invariant AllEntered(old(media), media, objects)
        invariant Passed(old(wire), 2 + WaitsOf(files[..i]), wire)
        invariant AllSealable(attempt, files[..i])
      {
        ghost var before := media;
        WaitsGrow(files, i);
        KeysAreOwn(attempt, media, objects, files);
        var next := UploadNext(files[i], objects);
        EvolvesTransitive(attempt, old(media), before, media);
        if next.Err? {
          return next.error;
        }
        SealableOneMore(attempt, files, i);
        AllHeldKept(attempt, before, media, objects, files);
        AllHeldOneMore(attempt, media, objects, files, next.value);
        EnteredOneObject(old(media), before, media, objects, next.value);
        objects := objects + [next.value];
      }
      assert files[..|files|] == files;
      work := Prepared(objects);
    }

    /** The waits of `process_claim` before the first upload: the manifest, then download and codec. */
    method ReadSource() returns (work: Work)
      requires Valid() && NoneAdopted(attempt, media)
      modifies this`media, this`wire
      ensures Valid() && Evolves(attempt, old(media), media) && NoneAdopted(attempt, media)
      ensures old(wire).met <= wire.met && WorkExplained(wire.met, work)
      ensures work.Prepared? ==>
                && work.objects == [] && media.ledger.Keys == old(media.ledger).Keys
                && Passed(old(wire), 2, wire)
      ensures work ==
              match EndingOf(old(wire))
              case Cut(_) => WorkDropped
              case Fail(_, _) => WorkDatabase
              case Refuse => WorkLeaseLost
              case Accept =>
                (match EndingOf(Step(old(wire)))
                 case Accept => Prepared([])
                 case Refuse => WorkFailure(true)
                 case Fail(_, _) => WorkFailure(false)
                 case Cut(_) => WorkDropped)
    {
      var manifest := Await();
      match manifest {
        case Cut(_) => return WorkDropped;
        case Fail(_, _) => return WorkDatabase;
        case Refuse => return WorkLeaseLost;
        case Accept =>
      }
      ghost var before := media;
      var codec := Await();
      EvolvesTransitive(attempt, old(media), before, media);
      if codec.Accept? {
        PassedOne(old(wire));
        PassedOne(Step(old(wire)));
      }
      work := if codec.Cut? then WorkDropped else if codec.Accept? then Prepared([]) else WorkFailure(codec.Refuse?);
    }

    /** `complete_processing_job`: adopts every manifest key, all of them still pending, or none. */
    method CompleteJob(objects: seq<seq<Part>>, ghost files: seq<Derivative>) returns (reply: Reply)
      requires Valid() && NoneAdopted(attempt, media)
      requires |objects| == |files| && AllHeld(attempt, media, objects, files)
      modifies this`media, this`wire
      ensures Valid() && Evolves(attempt, old(media), media)
      ensures reply == Answer(old(wire)) && wire == Step(old(wire))
      ensures reply.Applied? ==> AllPublished(media, objects, files) && media.ledger.Keys == old(media.ledger).Keys
      ensures reply.LeaseLost? ==> NoneAdopted(attempt, media)
    {
      var ending := Await();
      AllHeldKept(attempt, old(media), media, objects, files);
      var keys := Keys(objects);
      KeysAreHeld(attempt, media, objects, files);
      AllPending(attempt, media, objects, nonce, names);
      var ready := wire.live && forall k :: k in keys ==> media.ledger[k].Pending?;
      if ready && (ending.Accept? || ((ending.Fail? || ending.Cut?) && ending.applied)) {
        AdoptAll(attempt, old(media), media, objects, files, nonce, names);
        media := Adopt(media, keys);
      }
      match ending {
        case Accept => return if !wire.live then LeaseLost else if !ready then Error else Applied;
        case Refuse => return LeaseLost;
        case Fail(_, _) => return Error;
        case Cut(_) => return Dropped;
      }
    }

    /** `mark_processing_source_validated`, which changes no object. */
    method MarkValidated() returns (reply: Reply)
      requires Valid()
      modifies this`media, this`wire
      ensures Valid() && Progresses(attempt, old(media), media) && media.ledger.Keys == old(media.ledger).Keys
      ensures reply == Marked(old(wire)) && wire == Step(old(wire))
    {
      var ending := Await();
      match ending {
        case Accept => return if wire.live then Applied else LeaseLost;
        case Refuse => return LeaseLost;
        case Fail(_, invalid) => return if invalid then Invalid else Error;
        case Cut(_) => return Dropped;
      }
    }

    /** `record_processing_failure`: the row leaves this lease and its pending reservations are orphaned. */
    method RecordFailure() returns (outcome: JobOutcome)
      requires Valid() && NoneAdopted(attempt, media)
      modifies this`media, this`wire
      ensures Valid() && Evolves(attempt, old(media), media) && NoneAdopted(attempt, media)
      ensures outcome == Recorded(old(wire)) && OutcomeExplained(wire.met, outcome) && old(wire).met <= wire.met
      ensures outcome.FailureRecorded? ==> AllOrphaned(attempt, media)
    {
      var ending := Await();
      outcome := match ending
        case Accept => if wire.live then FailureRecorded else JobLeaseLost
        case Refuse => JobLeaseLost
        case Fail(_, _) => JobError
        case Cut(_) => JobDropped;
      if ending.Accept? || ((ending.Fail? || ending.Cut?) && ending.applied) {
        var e := Event(true, {}, {}, Accept);
        MeanwhileProgresses(attempt, media, e);
        MeanwhileKeepsLedger(attempt, media, e, nonce, names, wire.live);
        EvolvesTransitive(attempt, old(media), media, Meanwhile(attempt, media, e));
        media, wire := Meanwhile(attempt, media, e), wire.(live := false, met := wire.met + {Lost});
      }
    }

    /** Discards the objects, then reports `outcome` or, on an invalid source, records the failure. */
    method Discard(objects: seq<seq<Part>>, outcome: JobOutcome, record: bool) returns (result: JobOutcome)
      requires Valid() && NoneAdopted(attempt, media)
      requires (outcome.JobLeaseLost? || outcome.JobError?) && OutcomeExplained(wire.met, outcome)
      requires forall i, j :: 0 <= i < |objects| && 0 <= j < |objects[i]| ==> objects[i][j].key.attempt == attempt
      modifies this`media, this`wire, this`discards
      ensures Valid() && Evolves(attempt, old(media), media) && NoneAdopted(attempt, media)
      ensures OutcomeExplained(wire.met, result) && old(wire).met <= wire.met && !result.Completed?
      ensures !record ==> result == outcome || result == JobDropped
      ensures record && Calm(old(wire)) ==> result == FailureRecorded || result == JobDropped
      ensures result.FailureRecorded? ==> record && AllOrphaned(attempt, media)
      ensures !result.JobDropped? ==> Discarding(discards, objects)
    {
      var discarded := DeleteObjects(objects);
      if discarded.Dropped? {
        return JobDropped;
      }
      result := outcome;
      if record {
        ghost var before := media;
        if Calm(wire) {
          CalmStays(wire);
        }
        result := RecordFailure();
        EvolvesTransitive(attempt, old(media), before, media);
      }
    }

    /**
      `settle_claim` once every derivative is uploaded. The answers to marking the source and to completing the
      job decide the outcome; a job cut short while it discards its objects is dropped.
     */
    method Publish(objects: seq<seq<Part>>, ghost files: seq<Derivative>) returns (outcome: JobOutcome)
      requires Valid() && NoneAdopted(attempt, media)
      requires |objects| == |files| && AllHeld(attempt, media, objects, files)
      modifies this`media, this`wire, this`discards
      ensures Valid() && Evolves(attempt, old(media), media)
      ensures OutcomeExplained(wire.met, outcome) && old(wire).met <= wire.met
      ensures match Marked(old(wire))
              case Dropped => outcome == JobDropped
              case LeaseLost => outcome == JobLeaseLost || outcome == JobDropped
              case Error => outcome == JobError || outcome == JobDropped
              case Invalid =>
                && !outcome.Completed?
                && (Calm(Step(old(wire))) ==> outcome == FailureRecorded || outcome == JobDropped)
              case Applied =>
                (match Answer(Step(old(wire)))
                 case Applied => outcome == Completed
                 case LeaseLost => outcome == JobLeaseLost || outcome == JobDropped
                 case Invalid => true
                 case Error => outcome == JobError
                 case Dropped => outcome == JobDropped)
      ensures outcome.Completed? ==> AllPublished(media, objects, files) && media.ledger.Keys == old(media.ledger).Keys
      ensures outcome.FailureRecorded? || outcome.JobLeaseLost? ==>
                NoneAdopted(attempt, media) && Discarding(discards, objects)
      ensures outcome.FailureRecorded? ==>
                Marked(old(wire)).Invalid? && Fault in wire.met && AllOrphaned(attempt, media)
    {
      var marked := MarkValidated();
      AllHeldKept(attempt, old(media), media, objects, files);
      KeysAreOwn(attempt, media, objects, files);
      ghost var before := media;
      match marked {
        case Dropped => return JobDropped;
        case LeaseLost => outcome := Discard(objects, JobLeaseLost, false);
        case Error => outcome := Discard(objects, JobError, false);
        case Invalid => outcome := Discard(objects, JobError, true);
        case Applied =>
          var completed := CompleteJob(objects, files);
          match completed {
            case Applied => outcome := Completed;
            case Error => outcome := JobError;
            case Dropped => outcome := JobDropped;
            case LeaseLost =>
              ghost var between := media;
              outcome := Discard(objects, JobLeaseLost, false);
              EvolvesTransitive(attempt, before, between, media);
          }
      }
      EvolvesTransitive(attempt, old(media), before, media);
    }

    /** `settle_claim` when the work failed: a validated source is marked first, then the failure is recorded. */
    method SettleFailure(validated: bool) returns (outcome: JobOutcome)
      requires Valid() && NoneAdopted(attempt, media)
      modifies this`media, this`wire
      ensures Valid() && Evolves(attempt, old(media), media) && NoneAdopted(attempt, media)
      ensures OutcomeExplained(wire.met, outcome) && old(wire).met <= wire.met
      ensures outcome ==
              if !validated then Recorded(old(wire))
              else
                match Marked(old(wire))
                case Dropped => JobDropped
                case LeaseLost => JobLeaseLost
                case Error => JobError
                case Invalid => Recorded(Step(old(wire)))
                case Applied => Recorded(Step(old(wire)))
      ensures outcome.FailureRecorded? ==> AllOrphaned(attempt, media)
    {
      var marked := Applied;
      if validated {
        marked := MarkValidated();
      }
      ghost var between := media;
      if marked.Dropped? {
        return JobDropped;
      } else if marked.LeaseLost? {
        return JobLeaseLost;
      } else if marked.Error? {
        return JobError;
      }
      outcome := RecordFailure();
      EvolvesTransitive(attempt, old(media), between, media);
    }

    /**
      `settle_claim`. Whatever the database and the store answer and wherever the job is cut short:
      only this attempt's objects are touched, every stored object has a ledger entry, and no adopted
      object is missing; a completed job has published exactly its derivatives, and a job whose failure is
      recorded leaves every reservation to the orphan cleanup. A job that meets no trouble completes, and
      one that ends early names the trouble it met.
     */
    method SettleClaim(files: seq<Derivative>) returns (outcome: JobOutcome, objects: seq<seq<Part>>)
      requires Valid() && NoneAdopted(attempt, media) && NamesOk(attempt, names)
      modifies this`media, this`wire, this`nonce, this`discards, this`names
      ensures Tracked(media) && AdoptedKept(media) && Evolves(attempt, old(media), media)
      ensures AllNamed(old(media)) ==> AllNamed(media)
      ensures Calm(old(wire)) && 4 + WaitsOf(files) <= |old(wire).script| && AllFine(attempt, files) && AllDrawn() ==>
                outcome.Completed?
      ensures OutcomeExplained(wire.met, outcome)
      ensures outcome.Completed? ==>
                && |objects| == |files| && AllPublished(media, objects, files)
                && (forall i :: 0 <= i < |objects| ==> Content(media, objects[i]) == files[i].bytes)
                && AllSealable(attempt, files)
      ensures outcome.Completed? && NonePending(attempt, old(media)) ==> NonePending(attempt, media)
      ensures outcome.FailureRecorded? || outcome.JobLeaseLost? ==> NoneAdopted(attempt, media)
      ensures outcome.FailureRecorded? ==>
                && AllOrphaned(attempt, media)
                && (Fault in wire.met || Lost in wire.met || !AllFine(attempt, files) || !AllDrawn())
    {
      objects := [];
      var work := ProcessClaim(files);
      ghost var before := media;
      match work {
        case Prepared(prepared) =>
          objects := prepared;
          if Calm(wire) && 2 <= |wire.script| {
            CalmStep(wire);
            CalmStep(Step(wire));
          }
          outcome := Publish(prepared, files);
          if outcome.Completed? {
            EvolvesTransitive(attempt, old(media), before, media);
            AllPublishedAreTheFiles(media, objects, files);
            PublishedLeavesNonePending(attempt, old(media), before, media, objects, files);
          }
        case WorkFailure(validated) => outcome := SettleFailure(validated);
        case WorkLeaseLost => outcome := JobLeaseLost;
        case WorkDatabase => outcome := JobError;
        case WorkDropped => outcome := JobDropped;
      }
      EvolvesTransitive(attempt, old(media), before, media);
    }
  }

  /** Which outcome the answer to the last request of a cleanup means. */
  function CleanUpOutcome(answers: seq<Ending>, i: nat, applied: JobOutcome): JobOutcome {
    if i >= |answers| then JobDropped
    else
      match answers[i]
      case Accept => applied
      case Refuse => JobLeaseLost
      case Fail(_, _) => JobError
      case Cut(_) => JobDropped
  }

  /** How many deletions in a row are accepted. */
  function Deleted(keys: seq<Key>, answers: seq<Ending>): (n: nat)
    ensures n <= |keys| && n <= |answers|
    ensures forall i :: 0 <= i < n ==> answers[i].Accept?
    ensures n < |keys| && n < |answers| ==> !answers[n].Accept?
  {
    if keys == [] || answers == [] || !answers[0].Accept? then 0 else 1 + Deleted(keys[1..], answers[1..])
  }

  lemma {:induction false} DeletedIs(keys: seq<Key>, answers: seq<Ending>, n: nat)
    requires n <= |keys| && n <= |answers| && forall i :: 0 <= i < n ==> answers[i].Accept?
    requires n == |keys| || n == |answers| || !answers[n].Accept?
    ensures Deleted(keys, answers) == n
  {
    if n > 0 {
      DeletedIs(keys[1..], answers[1..], n - 1);
    }
  }

  /**
    `clean_up_lease` without the supervisor: delete every key of the lease, stop at the first failure and record
    it, and complete the cleanup row only after the last deletion. `answers` are the endings of the waits.
   */
  method CleanUp(keys: seq<Key>, store: set<Key>, answers: seq<Ending>)
    returns (outcome: JobOutcome, left: set<Key>)
    ensures store - (set k | k in keys) <= left <= store
    ensures outcome.Completed? ==> left == store - (set k | k in keys)
    ensures forall i :: 0 <= i < Deleted(keys, answers) ==> keys[i] !in left
    // Exactly the outcome: all deleted and the row completed, or the first failure recorded.
    ensures outcome ==
            var n := Deleted(keys, answers);
            if n == |keys| then CleanUpOutcome(answers, n, Completed)
            else if n == |answers| || answers[n].Cut? then JobDropped
            else CleanUpOutcome(answers, n + 1, FailureRecorded)
  {
    left := store;
    for i := 0 to |keys|
      invariant left <= store && store - (set k | k in keys) <= left
      invariant forall j :: 0 <= j < i ==> keys[j] !in left
      invariant i <= |answers| && forall j :: 0 <= j < i ==> answers[j].Accept?
    {
      if i == |answers| {
        DeletedIs(keys, answers, i);
        return JobDropped, left;
      }
      var ending := answers[i];
      if ending.Accept? || ((ending.Fail? || ending.Cut?) && ending.applied) {
        left := left - {keys[i]};
      }
      if !ending.Accept? {
        DeletedIs(keys, answers, i);
        return if ending.Cut? then JobDropped else CleanUpOutcome(answers, i + 1, FailureRecorded), left;
      }
    }
    DeletedIs(keys, answers, |keys|);
    outcome := CleanUpOutcome(answers, |keys|, Completed);
  }
}
