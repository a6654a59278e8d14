/**
 Concurrent `admit` calls over one idempotency registry, one quota store and one
 runner.  Every call to a collaborator is one atomic step; a caller may stop after
 any of them.
 */
module AdmissionProtocol {
  import opened Wrappers
  import opened Admission

  datatype Key = Key(tenantId: string, key: string)

  /** One call of `admit`: its slot and the fingerprint of its body. */
  datatype Request = Request(at: Key, fingerprint: string)

  datatype ReservationState = Active | Released | Expired | Settled | Rejected

  datatype Reservation = Reservation(id: string, state: ReservationState, version: nat, jobId: Option<string>)

  /** What a successful call returned. */
  datatype Result = Result(request: Request, jobId: string, reservationId: string, replayed: bool)

  /** Slots and reservations by (tenant, key), jobs with the (tenant, key) that
      created them, and the results returned so far. */
  datatype Data = Data(slots: map<Key, Slot>, rows: map<Key, Reservation>, jobs: map<string, Key>, results: seq<Result>)

  datatype Pc =
    | Idle
    | Claiming(r: Request)
    | Replaying(r: Request, slot: Slot)
    | StaleFailing(r: Request)
    | Evaluating(r: Request)
    | Denying(r: Request)
    | Reserving(r: Request)
    | QuotaFailing(r: Request)
    | Creating(r: Request, row: Reservation)
    | Releasing(r: Request, row: Reservation)
    | CreationFailing(r: Request)
    | Attaching(r: Request, row: Reservation, job: string)
    | Finishing(r: Request, row: Reservation, job: string)

  /** What the collaborators contribute to one step. */
  datatype Choice = Choice(ok: bool, record: bool, name: string, now: int)

  datatype Out = Out(d: Data, pc: Pc)

  function SlotAt(d: Data, k: Key): Option<Slot> {
    if k in d.slots then Some(d.slots[k]) else None
  }

  function WriteSlot(d: Data, k: Key, op: SlotOp): Data {
    match ApplyOp(SlotAt(d, k), op)
    case Some(slot) => d.(slots := d.slots[k := slot])
    case None => d
  }

  /** Record a failure and stop; an error while recording is ignored. */
  function FailAndStop(d: Data, k: Key, code: string, retriable: bool, c: Choice): Out {
    Out(if c.ok then WriteSlot(d, k, OpFail(Failure(code, c.name), retriable, c.now)) else d, Idle)
  }

  /** The quota store: an existing row of the request key is returned as it is;
      otherwise a new one, or a refusal that may leave a rejected row. */
  function Reserve(d: Data, r: Request, c: Choice): Out {
    if r.at in d.rows then Out(d, Creating(r, d.rows[r.at]))
    else if c.ok then
      var row := Reservation(c.name, Active, 1, None);
      Out(d.(rows := d.rows[r.at := row]), Creating(r, row))
    else
      Out(if c.record then d.(rows := d.rows[r.at := Reservation(c.name, Rejected, 1, None)]) else d, QuotaFailing(r))
  }

  /** Fenced release; idempotent on rows that are released or settled. */
  function Release(d: Data, k: Key, version: nat): Data {
    if k in d.rows && d.rows[k].state == Active && d.rows[k].version == version
    then d.(rows := d.rows[k := d.rows[k].(state := Released, version := version + 1)]) else d
  }

  function Attach(d: Data, k: Key, job: string): Data {
    if k in d.rows && d.rows[k].jobId.None? then d.(rows := d.rows[k := d.rows[k].(jobId := Some(job))]) else d
  }

  /** One step of `admit`.  `releases` says that the quota store's release does not
      itself throw. */
  function AdmitStep(releases: bool, d: Data, pc: Pc, c: Choice): Out {
    match pc
    case Idle => Out(d, Idle)
    case Claiming(r) =>
      var slot := SlotAt(d, r.at);
      (match Answer(slot, r.fingerprint, c.now)
       case New => Out(WriteSlot(d, r.at, OpClaim(r.at.tenantId, r.at.key, r.fingerprint, c.now)), Evaluating(r))
       case Replay => if slot.Some? then Out(d, Replaying(r, slot.value)) else Out(d, Idle)
       case InFlight => Out(d, Idle)
       case Conflict => Out(d, Idle))
    case Replaying(r, slot) =>
      if slot.jobId.None? then FailAndStop(d, r.at, "INCONSISTENT_SLOT", true, c)
      else if slot.jobId.value in d.jobs then
        if d.jobs[slot.jobId.value].tenantId != r.at.tenantId then Out(d, Idle)
        else
          var reservationId := if slot.reservationId.Some? then slot.reservationId.value else "";
          Out(d.(results := d.results + [Result(r, slot.jobId.value, reservationId, true)]), Idle)
      else Out(d, StaleFailing(r))
    case StaleFailing(r) => Out(FailAndStop(d, r.at, "STALE_JOB", true, c).d, Evaluating(r))
    case Evaluating(r) => Out(d, if c.ok then Reserving(r) else Denying(r))
    case Denying(r) => FailAndStop(d, r.at, "POLICY_DENIED", false, c)
    case Reserving(r) => Reserve(d, r, c)
    case QuotaFailing(r) => FailAndStop(d, r.at, "QUOTA_REJECTED", true, c)
    case Creating(r, row) =>
      if !c.ok then Out(d, Releasing(r, row))
      else if c.name in d.jobs then Out(d, pc)
      else Out(d.(jobs := d.jobs[c.name := r.at]), Attaching(r, row, c.name))
    case Releasing(r, row) => Out(if releases || c.ok then Release(d, r.at, row.version) else d, CreationFailing(r))
    case CreationFailing(r) => FailAndStop(d, r.at, "JOB_CREATION_FAILED", true, c)
    case Attaching(r, row, job) => Out(Attach(d, r.at, job), Finishing(r, row, job))
    case Finishing(r, row, job) =>
      Out(WriteSlot(d, r.at, OpComplete(job, row.id, c.now)).(results := d.results + [Result(r, job, row.id, false)]), Idle)
  }

  datatype System = System(data: Data, callers: map<nat, Pc>)

  datatype Action =
    | Call(w: nat, r: Request)
    | Go(w: nat, c: Choice)
    | Crash(w: nat)          // the caller stops, or an unguarded call throws
    | Reap(k: Key)           // the quota store's reaper
    | Settle(k: Key)         // a job ended and its reservation was settled

  const START := System(Data(map[], map[], map[], []), map[])

  function PcOf(s: System, w: nat): Pc {
    if w in s.callers then s.callers[w] else Idle
  }

  function Ended(d: Data, k: Key, state: ReservationState): Data {
    if k in d.rows && d.rows[k].state == Active
    then d.(rows := d.rows[k := d.rows[k].(state := state, version := d.rows[k].version + 1)]) else d
  }

  function Place(s: System, w: nat, out: Out): System {
    System(out.d, s.callers[w := out.pc])
  }

  function Next(releases: bool, s: System, a: Action): System {
    match a
    case Call(w, r) => if PcOf(s, w).Idle? && r.at.key != "" then Place(s, w, Out(s.data, Claiming(r))) else s
    case Go(w, c) => Place(s, w, AdmitStep(releases, s.data, PcOf(s, w), c))
    case Crash(w) => Place(s, w, Out(s.data, Idle))
    case Reap(k) => s.(data := Ended(s.data, k, Expired))
    case Settle(k) => s.(data := Ended(s.data, k, Settled))
  }

  ghost function Execute(releases: bool, acts: seq<Action>): System {
    if acts == [] then START else Next(releases, Execute(releases, acts[..|acts| - 1]), acts[|acts| - 1])
  }

  // ------------------------------------------------------------------
  // What is true of the durable state
  // ------------------------------------------------------------------

  ghost predicate HasJob(d: Data, k: Key) {
    exists j :: j in d.jobs && d.jobs[j] == k
  }

  ghost predicate OneJobEach(d: Data) {
    forall i, j :: i in d.jobs && j in d.jobs && d.jobs[i] == d.jobs[j] ==> i == j
  }

  /** A completed slot names the job its key created and the key's reservation; no
      slot expires. */
  ghost predicate SlotOk(d: Data, k: Key) {
    k in d.slots ==>
      && d.slots[k].expiresAt.None?
      && (d.slots[k].state == Completed ==>
            && d.slots[k].jobId.Some? && d.slots[k].jobId.value in d.jobs && d.jobs[d.slots[k].jobId.value] == k
            && k in d.rows && d.slots[k].reservationId == Some(d.rows[k].id))
  }

  /** A job's slot is completed, or pending with no way back. */
  ghost predicate JobOk(d: Data, j: string) {
    j in d.jobs ==>
      d.jobs[j] in d.slots && (d.slots[d.jobs[j]].state == Pending || d.slots[d.jobs[j]].state == Completed)
  }

  ghost predicate RowOk(d: Data, k: Key) {
    k in d.rows && d.rows[k].state == Active ==> d.rows[k].version == 1
  }

  /** A returned result is what the slot says, and still says. */
  ghost predicate ResultOk(d: Data, x: Result) {
    && x.request.at in d.slots
    && var slot := d.slots[x.request.at];
       && slot.state == Completed && slot.fingerprint == x.request.fingerprint
       && slot.jobId == Some(x.jobId) && slot.reservationId == Some(x.reservationId)
  }

  ghost predicate Core(d: Data) {
    && OneJobEach(d)
    && (forall k :: SlotOk(d, k)) && (forall j :: JobOk(d, j)) && (forall k :: RowOk(d, k))
    && (forall i :: 0 <= i < |d.results| ==> ResultOk(d, d.results[i]))
  }

  // ------------------------------------------------------------------
  // Owners
  // ------------------------------------------------------------------

  /** The caller won the slot and has not created a job yet. */
  predicate BeforeJob(pc: Pc) {
    pc.Evaluating? || pc.Denying? || pc.Reserving? || pc.QuotaFailing? || pc.Creating? || pc.Releasing? || pc.CreationFailing?
  }

  predicate AfterJob(pc: Pc) {
    pc.Attaching? || pc.Finishing?
  }

  predicate Owns(pc: Pc, k: Key) {
    (BeforeJob(pc) || AfterJob(pc)) && pc.r.at == k
  }

  /** The reservation the caller holds is the key's; one that ended stays ended. */
  ghost predicate HoldsRow(d: Data, k: Key, row: Reservation) {
    && k in d.rows && d.rows[k].id == row.id
    && (row.state == Active ==> row.version == 1)
    && (d.rows[k].state == Active ==> row.state == Active)
  }

  ghost predicate OwnsSlot(d: Data, r: Request) {
    r.at in d.slots && d.slots[r.at].state == Pending && d.slots[r.at].fingerprint == r.fingerprint
  }

  ghost predicate PcOk(releases: bool, d: Data, pc: Pc) {
    && (BeforeJob(pc) ==> OwnsSlot(d, pc.r) && !HasJob(d, pc.r.at))
    && (AfterJob(pc) ==> OwnsSlot(d, pc.r) && pc.job in d.jobs && d.jobs[pc.job] == pc.r.at)
    && (pc.Creating? || pc.Releasing? || AfterJob(pc) ==> HoldsRow(d, pc.r.at, pc.row))
    && (pc.CreationFailing? && releases ==> EndedRow(d, pc.r.at))
    && (pc.Replaying? ==>
          && pc.r.at in d.slots && d.slots[pc.r.at] == pc.slot
          && pc.slot.state == Completed && pc.slot.fingerprint == pc.r.fingerprint)
    && !pc.StaleFailing?
  }

  ghost predicate EndedRow(d: Data, k: Key) {
    k in d.rows && d.rows[k].state != Active
  }

  ghost predicate Exclusive(callers: map<nat, Pc>) {
    forall v, w, k :: v in callers && w in callers && Owns(callers[v], k) && Owns(callers[w], k) ==> v == w
  }

  ghost predicate Inv(releases: bool, s: System) {
    && Core(s.data) && Exclusive(s.callers)
    && forall w :: w in s.callers ==> PcOk(releases, s.data, s.callers[w])
  }

  // ------------------------------------------------------------------
  // What one step does to the rest
  // ------------------------------------------------------------------

  /** Only the slot and the jobs of one key may move; nothing settled is undone. */
  ghost predicate Grows(d: Data, e: Data) {
    && (forall k :: k in d.slots ==> k in e.slots && (d.slots[k].state == Completed ==> e.slots[k] == d.slots[k]))
    && (forall j :: j in d.jobs ==> j in e.jobs && e.jobs[j] == d.jobs[j])
    && (forall k :: k in d.rows ==>
          k in e.rows && e.rows[k].id == d.rows[k].id && (e.rows[k].state == Active ==> d.rows[k].state == Active))
    && |d.results| <= |e.results| && e.results[..|d.results|] == d.results
  }

  /** For the key k the step changed neither the slot nor the set of jobs. */
  ghost predicate Spares(d: Data, e: Data, k: Key) {
    SlotAt(e, k) == SlotAt(d, k) && forall j :: j in e.jobs && e.jobs[j] == k ==> j in d.jobs && d.jobs[j] == k
  }

  /** A caller stays sound when others move, as long as they spare the key it owns. */
  lemma PcStays(releases: bool, d: Data, e: Data, pc: Pc)
    requires PcOk(releases, d, pc) && Grows(d, e)
    requires BeforeJob(pc) || AfterJob(pc) ==> Spares(d, e, pc.r.at)
    ensures PcOk(releases, e, pc)
  {
  }

  lemma GrowsTwice(d: Data, e: Data, f: Data)
    requires Grows(d, e) && Grows(e, f)
    ensures Grows(d, f)
  {
    assert f.results[..|d.results|] == f.results[..|e.results|][..|d.results|];
  }

  // ------------------------------------------------------------------
  // Every step is sound
  // ------------------------------------------------------------------

  /** The step may change the slot and jobs of k: the caller owns k, or wins it now. */
  ghost predicate MayTouch(d: Data, pc: Pc, k: Key) {
    Owns(pc, k) || (pc.Claiming? && pc.r.at == k && !(k in d.slots && d.slots[k].state == Pending))
  }

  ghost predicate StepSound(releases: bool, d: Data, pc: Pc, out: Out) {
    && Core(out.d) && PcOk(releases, out.d, out.pc) && Grows(d, out.d)
    && (forall k :: MayTouch(d, pc, k) || Spares(d, out.d, k))
    && (forall k :: Owns(out.pc, k) ==> MayTouch(d, pc, k))
  }

  lemma StayPut(releases: bool, d: Data, pc: Pc, next: Pc)
    requires Core(d) && PcOk(releases, d, next) && (forall k :: Owns(next, k) ==> MayTouch(d, pc, k))
    ensures StepSound(releases, d, pc, Out(d, next))
  {
    hide Core, PcOk;
  }

  /** A new state of the slot of k, which is not completed and has no job. */
  lemma SlotWrite(d: Data, k: Key, slot: Slot)
    requires Core(d) && !HasJob(d, k) && slot.state != Completed && slot.expiresAt.None?
    ensures var e := d.(slots := d.slots[k := slot]);
            && Core(e) && Grows(d, e) && (forall x :: x != k ==> Spares(d, e, x)) && !HasJob(e, k)
  {
    var e := d.(slots := d.slots[k := slot]);
    assert SlotOk(d, k);
    assert forall x :: SlotOk(d, x) ==> SlotOk(e, x);
    assert forall j :: JobOk(d, j) ==> JobOk(e, j);
    assert forall x :: RowOk(d, x) ==> RowOk(e, x);
    forall i | 0 <= i < |e.results|
      ensures ResultOk(e, e.results[i])
    {
      assert ResultOk(d, d.results[i]);
      assert SlotOk(d, d.results[i].request.at);
    }
  }

  lemma ClaimSound(releases: bool, d: Data, pc: Pc, c: Choice)
    requires Core(d) && PcOk(releases, d, pc) && pc.Claiming?
    ensures StepSound(releases, d, pc, AdmitStep(releases, d, pc, c))
  {
    hide OneJobEach, JobOk, RowOk, ResultOk;
    var r := pc.r;
    var slot := SlotAt(d, r.at);
    assert SlotOk(d, r.at);
    if Answer(slot, r.fingerprint, c.now) == New {
      NoJobToClaim(d, r.at);
      SlotWrite(d, r.at, NewSlot(r.at.tenantId, r.at.key, r.fingerprint, c.now));
    } else {
      StayPut(releases, d, pc, AdmitStep(releases, d, pc, c).pc);
    }
  }

  lemma NoJobToClaim(d: Data, k: Key)
    requires Core(d) && !(k in d.slots && (d.slots[k].state == Pending || d.slots[k].state == Completed))
    ensures !HasJob(d, k)
  {
    forall j | j in d.jobs
      ensures d.jobs[j] != k
    {
      assert JobOk(d, j);
    }
  }

  /** Recording a failure of a slot the caller owns. */
  lemma FailSound(releases: bool, d: Data, pc: Pc, code: string, retriable: bool, c: Choice)
    requires Core(d) && PcOk(releases, d, pc) && BeforeJob(pc)
    ensures StepSound(releases, d, pc, FailAndStop(d, pc.r.at, code, retriable, c))
  {
    hide OneJobEach, JobOk, RowOk, ResultOk;
    var k := pc.r.at;
    assert SlotOk(d, k);
    SlotWrite(d, k, FailedSlot(d.slots[k], Failure(code, c.name), retriable, c.now));
    StayPut(releases, d, pc, Idle);
  }

  /** A row of k that keeps its id and does not come back to life. */
  lemma RowWrite(d: Data, k: Key, row: Reservation)
    requires Core(d) && (row.state == Active ==> row.version == 1)
    requires k in d.rows ==> row.id == d.rows[k].id && (row.state == Active ==> d.rows[k].state == Active)
    ensures var e := d.(rows := d.rows[k := row]); Core(e) && Grows(d, e) && forall x :: Spares(d, e, x)
  {
    var e := d.(rows := d.rows[k := row]);
    assert forall x :: SlotOk(d, x) ==> SlotOk(e, x);
    assert forall j :: JobOk(d, j) ==> JobOk(e, j);
    assert forall x :: RowOk(d, x) ==> RowOk(e, x);
    assert forall i :: 0 <= i < |e.results| ==> ResultOk(d, d.results[i]);
  }

  lemma ReserveSound(releases: bool, d: Data, pc: Pc, c: Choice)
    requires Core(d) && PcOk(releases, d, pc) && pc.Reserving?
    ensures StepSound(releases, d, pc, AdmitStep(releases, d, pc, c))
  {
    hide OneJobEach, JobOk, SlotOk, ResultOk;
    var k := pc.r.at;
    if k in d.rows {
      assert RowOk(d, k);
    } else {
      RowWrite(d, k, Reservation(c.name, if c.ok then Active else Rejected, 1, None));
    }
  }

  lemma ReleaseSound(releases: bool, d: Data, pc: Pc, c: Choice)
    requires Core(d) && PcOk(releases, d, pc) && pc.Releasing?
    ensures StepSound(releases, d, pc, AdmitStep(releases, d, pc, c))
  {
    hide OneJobEach, JobOk, SlotOk, ResultOk;
    var k := pc.r.at;
    assert RowOk(d, k);
    RowWrite(d, k, d.rows[k].(state := Released, version := pc.row.version + 1));
  }

  lemma AttachSound(releases: bool, d: Data, pc: Pc, c: Choice)
    requires Core(d) && PcOk(releases, d, pc) && pc.Attaching?
    ensures StepSound(releases, d, pc, AdmitStep(releases, d, pc, c))
  {
    hide OneJobEach, JobOk, SlotOk, ResultOk;
    var k := pc.r.at;
    assert RowOk(d, k);
    RowWrite(d, k, d.rows[k].(jobId := Some(pc.job)));
  }

  /** The first job of k, whose slot is pending. */
  lemma JobWrite(d: Data, k: Key, job: string)
    requires Core(d) && job !in d.jobs && !HasJob(d, k) && k in d.slots && d.slots[k].state == Pending
    ensures var e := d.(jobs := d.jobs[job := k]);
            Core(e) && Grows(d, e) && forall x :: x != k ==> Spares(d, e, x)
  {
    var e := d.(jobs := d.jobs[job := k]);
    assert forall x :: SlotOk(d, x) ==> SlotOk(e, x);
    assert forall x :: RowOk(d, x) ==> RowOk(e, x);
    assert forall j :: JobOk(d, j) ==> JobOk(e, j);
    assert forall i :: 0 <= i < |e.results| ==> ResultOk(d, d.results[i]);
  }

  lemma CreateSound(releases: bool, d: Data, pc: Pc, c: Choice)
    requires Core(d) && PcOk(releases, d, pc) && pc.Creating?
    ensures StepSound(releases, d, pc, AdmitStep(releases, d, pc, c))
  {
    hide Core;
    if c.ok && c.name !in d.jobs {
      JobWrite(d, pc.r.at, c.name);
    } else {
      StayPut(releases, d, pc, AdmitStep(releases, d, pc, c).pc);
    }
  }

  lemma ReplaySound(releases: bool, d: Data, pc: Pc, c: Choice)
    requires Core(d) && PcOk(releases, d, pc) && pc.Replaying?
    ensures StepSound(releases, d, pc, AdmitStep(releases, d, pc, c))
  {
    var e := AdmitStep(releases, d, pc, c).d;
    assert SlotOk(d, pc.r.at);
    assert forall x :: SlotOk(d, x) ==> SlotOk(e, x);
    assert forall x :: RowOk(d, x) ==> RowOk(e, x);
    assert forall j :: JobOk(d, j) ==> JobOk(e, j);
    forall i | 0 <= i < |d.results|
      ensures ResultOk(e, d.results[i])
    {
      assert ResultOk(d, d.results[i]);
    }
  }

  lemma FinishSound(releases: bool, d: Data, pc: Pc, c: Choice)
    requires Core(d) && PcOk(releases, d, pc) && pc.Finishing?
    ensures StepSound(releases, d, pc, AdmitStep(releases, d, pc, c))
  {
    hide Core;
    CompleteWrite(d, pc.r, pc.row, pc.job, c.now);
  }

  /** Completing the slot of a job and returning its result. */
  lemma CompleteWrite(d: Data, r: Request, row: Reservation, job: string, now: int)
    requires Core(d) && OwnsSlot(d, r) && job in d.jobs && d.jobs[job] == r.at && HoldsRow(d, r.at, row)
    ensures var e := WriteSlot(d, r.at, OpComplete(job, row.id, now)).(results := d.results + [Result(r, job, row.id, false)]);
            Core(e) && Grows(d, e) && forall x :: x != r.at ==> Spares(d, e, x)
  {
    var e := WriteSlot(d, r.at, OpComplete(job, row.id, now)).(results := d.results + [Result(r, job, row.id, false)]);
    assert SlotOk(d, r.at);
    assert forall x :: SlotOk(d, x) ==> SlotOk(e, x);
    assert forall x :: RowOk(d, x) ==> RowOk(e, x);
    assert forall j :: JobOk(d, j) ==> JobOk(e, j);
    forall i | 0 <= i < |d.results|
      ensures ResultOk(e, d.results[i])
    {
      assert ResultOk(d, d.results[i]);
    }
  }

  lemma AdmitSound(releases: bool, d: Data, pc: Pc, c: Choice)
    requires Core(d) && PcOk(releases, d, pc)
    ensures StepSound(releases, d, pc, AdmitStep(releases, d, pc, c))
  {
    hide Core, StepSound, FailAndStop;
    match pc {
      case Claiming(_) => ClaimSound(releases, d, pc, c);
      case Replaying(_, _) => ReplaySound(releases, d, pc, c);
      case Denying(_) => FailSound(releases, d, pc, "POLICY_DENIED", false, c);
      case Reserving(_) => ReserveSound(releases, d, pc, c);
      case QuotaFailing(_) => FailSound(releases, d, pc, "QUOTA_REJECTED", true, c);
      case Creating(_, _) => CreateSound(releases, d, pc, c);
      case Releasing(_, _) => ReleaseSound(releases, d, pc, c);
      case CreationFailing(_) => FailSound(releases, d, pc, "JOB_CREATION_FAILED", true, c);
      case Attaching(_, _, _) => AttachSound(releases, d, pc, c);
      case Finishing(_, _, _) => FinishSound(releases, d, pc, c);
      case _ => StayPut(releases, d, pc, AdmitStep(releases, d, pc, c).pc);
    }
  }

  lemma EndSound(d: Data, k: Key, state: ReservationState)
    requires Core(d) && state != Active
    ensures var e := Ended(d, k, state); Core(e) && Grows(d, e) && forall x :: Spares(d, e, x)
  {
    hide OneJobEach, JobOk, SlotOk, ResultOk;
    if k in d.rows && d.rows[k].state == Active {
      RowWrite(d, k, d.rows[k].(state := state, version := d.rows[k].version + 1));
    }
  }

  // ------------------------------------------------------------------
  // Every reachable state is sound
  // ------------------------------------------------------------------

  lemma PlaceSound(releases: bool, s: System, w: nat, out: Out)
    requires Inv(releases, s) && StepSound(releases, s.data, PcOf(s, w), out)
    ensures Inv(releases, Place(s, w, out)) && Grows(s.data, out.d)
  {
    hide Core, Grows, Spares, HasJob, HoldsRow;
    forall v, k | v in s.callers && v != w && Owns(s.callers[v], k)
      ensures !MayTouch(s.data, PcOf(s, w), k)
    {
      assert PcOk(releases, s.data, s.callers[v]);
    }
    forall v | v in s.callers && v != w
      ensures PcOk(releases, out.d, s.callers[v])
    {
      PcStays(releases, s.data, out.d, s.callers[v]);
    }
  }

  lemma WorldSound(releases: bool, s: System, e: Data)
    requires Inv(releases, s) && Core(e) && Grows(s.data, e) && forall x :: Spares(s.data, e, x)
    ensures Inv(releases, s.(data := e))
  {
    hide Core, Grows, Spares, PcOk;
    forall v | v in s.callers
      ensures PcOk(releases, e, s.callers[v])
    {
      PcStays(releases, s.data, e, s.callers[v]);
    }
  }

  lemma IdleOk(releases: bool, d: Data, r: Request)
    ensures PcOk(releases, d, Idle) && PcOk(releases, d, Claiming(r))
  {
  }

  lemma NextSound(releases: bool, s: System, a: Action)
    requires Inv(releases, s)
    ensures Inv(releases, Next(releases, s, a)) && Grows(s.data, Next(releases, s, a).data)
  {
    hide Core, Grows, PcOk, Exclusive, AdmitStep, Ended, Spares;
    match a {
      case Call(w, r) =>
        IdleOk(releases, s.data, r);
        StayPut(releases, s.data, PcOf(s, w), Claiming(r));
        PlaceSound(releases, s, w, Out(s.data, Claiming(r)));
      case Go(w, c) =>
        IdleOk(releases, s.data, Request(Key("", ""), ""));
        AdmitSound(releases, s.data, PcOf(s, w), c);
        PlaceSound(releases, s, w, AdmitStep(releases, s.data, PcOf(s, w), c));
      case Crash(w) =>
        IdleOk(releases, s.data, Request(Key("", ""), ""));
        StayPut(releases, s.data, PcOf(s, w), Idle);
        PlaceSound(releases, s, w, Out(s.data, Idle));
      case Reap(k) =>
        EndSound(s.data, k, Expired);
        WorldSound(releases, s, Ended(s.data, k, Expired));
      case Settle(k) =>
        EndSound(s.data, k, Settled);
        WorldSound(releases, s, Ended(s.data, k, Settled));
    }
  }

  lemma StartSound(releases: bool)
    ensures Inv(releases, START)
  {
  }

  lemma {:induction false} AlwaysSound(releases: bool, acts: seq<Action>)
    ensures Inv(releases, Execute(releases, acts))
  {
    hide Inv, Next;
    if acts == [] {
      StartSound(releases);
    } else {
      AlwaysSound(releases, acts[..|acts| - 1]);
      NextSound(releases, Execute(releases, acts[..|acts| - 1]), acts[|acts| - 1]);
    }
  }

  lemma GrowsItself(d: Data)
    ensures Grows(d, d)
  {
  }

  lemma {:induction false} PastStays(releases: bool, acts: seq<Action>, n: nat)
    requires n <= |acts|
    ensures Grows(Execute(releases, acts[..n]).data, Execute(releases, acts).data)
  {
    hide Inv, Next, Grows;
    if n == |acts| {
      assert acts[..n] == acts;
      GrowsItself(Execute(releases, acts).data);
    } else {
      var init := acts[..|acts| - 1];
      PastStays(releases, init, n);
      assert init[..n] == acts[..n];
      AlwaysSound(releases, init);
      NextSound(releases, Execute(releases, init), acts[|acts| - 1]);
      GrowsTwice(Execute(releases, acts[..n]).data, Execute(releases, init).data, Execute(releases, acts).data);
    }
  }

  // ------------------------------------------------------------------
  // The laws
  // ------------------------------------------------------------------

  /** Under any interleaving and crash, a (tenant, key) creates at most one job, now
      or later. */
  lemma AtMostOneJob(releases: bool, acts: seq<Action>, n: nat, i: string, j: string)
    requires n <= |acts| && i in Execute(releases, acts[..n]).data.jobs && j in Execute(releases, acts).data.jobs
    requires Execute(releases, acts[..n]).data.jobs[i] == Execute(releases, acts).data.jobs[j]
    ensures i == j
  {
    hide Execute;
    AlwaysSound(releases, acts);
    PastStays(releases, acts, n);
  }

  /** Every success of a (tenant, key), first or replayed, early or late, returns the
      same job and reservation for the same body, and that job is the key's only one. */
  lemma SuccessesAgree(releases: bool, acts: seq<Action>, i: nat, j: nat)
    requires i < |Execute(releases, acts).data.results| && j < |Execute(releases, acts).data.results|
    ensures var d := Execute(releases, acts).data;
            var x, y := d.results[i], d.results[j];
            && x.jobId in d.jobs && d.jobs[x.jobId] == x.request.at
            && x.request.at in d.rows && d.rows[x.request.at].id == x.reservationId
            && (x.request.at == y.request.at ==>
                  x.jobId == y.jobId && x.reservationId == y.reservationId && x.request.fingerprint == y.request.fingerprint)
  {
    hide Execute;
    AlwaysSound(releases, acts);
    var d := Execute(releases, acts).data;
    assert ResultOk(d, d.results[i]) && ResultOk(d, d.results[j]);
    assert SlotOk(d, d.results[i].request.at);
  }

  /** When release works, a caller about to report a failed job creation leaves a
      reservation that has ended, and it stays ended. */
  lemma FailedCreationReleases(acts: seq<Action>, n: nat, w: nat)
    requires n <= |acts| && PcOf(Execute(true, acts[..n]), w).CreationFailing?
    ensures var k := PcOf(Execute(true, acts[..n]), w).r.at;
            k in Execute(true, acts).data.rows && Execute(true, acts).data.rows[k].state != Active
  {
    hide Execute, Core;
    AlwaysSound(true, acts[..n]);
    PastStays(true, acts, n);
  }

  /** What that costs: the retry gets the ended reservation back, so a success after a
      failed creation holds no capacity. */
  lemma RetryHoldsNoCapacity(acts: seq<Action>, n: nat, w: nat, i: nat)
    requires n <= |acts| && PcOf(Execute(true, acts[..n]), w).CreationFailing?
    requires i < |Execute(true, acts).data.results|
    requires Execute(true, acts).data.results[i].request.at == PcOf(Execute(true, acts[..n]), w).r.at
    ensures var d := Execute(true, acts).data;
            var x := d.results[i];
            && x.request.at in d.rows && d.rows[x.request.at].id == x.reservationId
            && d.rows[x.request.at].state != Active
  {
    hide Execute;
    FailedCreationReleases(acts, n, w);
    SuccessesAgree(true, acts, i, i);
  }

  // ------------------------------------------------------------------
  // No reservation is leaked
  // ------------------------------------------------------------------

  predicate Holds(pc: Pc, k: Key) {
    (pc.Creating? || pc.Releasing?) && pc.r.at == k
  }

  /** The active reservation of k belongs to a job, or to a call still under way. */
  ghost predicate Accounted(s: System, k: Key) {
    k in s.data.rows && s.data.rows[k].state == Active ==>
      HasJob(s.data, k) || exists w :: w in s.callers && Holds(s.callers[w], k)
  }

  /** Where an active row comes from and where its holder goes. */
  lemma HolderMoves(d: Data, pc: Pc, c: Choice, k: Key)
    requires PcOk(true, d, pc) && Core(d)
    ensures var out := AdmitStep(true, d, pc, c);
            k in out.d.rows && out.d.rows[k].state == Active ==>
              || Holds(out.pc, k) || HasJob(out.d, k)
              || (k in d.rows && d.rows[k].state == Active && !Holds(pc, k))
  {
    hide SlotOk, JobOk, OneJobEach, ResultOk, FailAndStop, Answer, ApplyOp;
    assert RowOk(d, k);
    var out := AdmitStep(true, d, pc, c);
    FailKeepsRows(d, pc, c);
    if pc.Creating? && out.pc.Attaching? {
      assert out.d.jobs[out.pc.job] == pc.r.at;
    }
  }

  lemma FailKeepsRows(d: Data, pc: Pc, c: Choice)
    ensures forall k, code, retriable :: FailAndStop(d, k, code, retriable, c).d.rows == d.rows
  {
    hide ApplyOp;
  }

  lemma HasJobStays(d: Data, e: Data, k: Key)
    requires Grows(d, e) && HasJob(d, k)
    ensures HasJob(e, k)
  {
  }

  lemma StepAccounts(s: System, a: Action, k: Key)
    requires Inv(true, s) && Accounted(s, k) && (a.Crash? ==> !Holds(PcOf(s, a.w), k))
    ensures Accounted(Next(true, s, a), k)
  {
    hide Core, Grows, Exclusive, AdmitStep, HasJob, PcOk;
    var t := Next(true, s, a);
    NextSound(true, s, a);
    if HasJob(s.data, k) {
      HasJobStays(s.data, t.data, k);
    } else if a.Go? {
      IdleOk(true, s.data, Request(k, ""));
      HolderMoves(s.data, PcOf(s, a.w), a.c, k);
      assert a.w in t.callers && t.callers[a.w] == AdmitStep(true, s.data, PcOf(s, a.w), a.c).pc;
      OthersHold(s, t, a.w, k);
    } else if a.Call? || a.Crash? {
      OthersHold(s, t, a.w, k);
    }
  }

  /** A holder that is not w is still one after a step of w. */
  lemma OthersHold(s: System, t: System, w: nat, k: Key)
    requires forall v :: v in s.callers && v != w ==> v in t.callers && t.callers[v] == s.callers[v]
    ensures (exists v :: v in s.callers && Holds(s.callers[v], k)) ==>
              Holds(PcOf(s, w), k) || exists v :: v in t.callers && Holds(t.callers[v], k)
  {
  }

  /** When release works, only a call that stops while it holds the reservation of k
      can leak it: otherwise an active reservation belongs to a job or to an admission
      still under way, whoever else crashes. */
  lemma {:induction false} NoReservationIsLeaked(acts: seq<Action>, k: Key)
    requires forall i :: 0 <= i < |acts| && acts[i].Crash? ==> !Holds(PcOf(Execute(true, acts[..i]), acts[i].w), k)
    ensures Accounted(Execute(true, acts), k)
  {
    hide Inv, Next, Accounted;
    if acts == [] {
      StartAccounts(k);
    } else {
      var init := acts[..|acts| - 1];
      assert forall i :: 0 <= i < |init| ==> init[..i] == acts[..i];
      NoReservationIsLeaked(init, k);
      AlwaysSound(true, init);
      StepAccounts(Execute(true, init), acts[|acts| - 1], k);
    }
  }

  lemma StartAccounts(k: Key)
    ensures Accounted(START, k)
  {
  }
}
