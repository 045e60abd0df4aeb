/**
 The life of one outbound transfer: scan worker passes, approval decisions and relay callbacks,
 the move to the green release buffer, timeouts, dead letters, rescans, expiry and purge.

 Threads interleave freely between any two transactions, file operations and checks, and a crash
 may drop all of them at any point. Other transfers share only the policy, the runtime acceptance
 and the callback table, which change at any time.
 */
module Outbound {
  import opened Basics

  datatype State =
    | PendingScan | Scanning | Quarantined | Classified | PendingApproval
    | Approved | ApprovalRejected | ReleasedToGreen | Expired

  predicate Allowed(from: State, to: State) {
    match from
    case PendingScan => to.Scanning? || to.Expired?
    case Scanning => to.Quarantined? || to.Classified?
    case Quarantined => to.PendingScan? || to.Expired?
    case Classified => to.PendingApproval? || to.Quarantined?
    case PendingApproval => to.Approved? || to.ApprovalRejected? || to.Expired?
    case Approved => to.ReleasedToGreen? || to.Expired?
    case ApprovalRejected => to.Expired?
    case ReleasedToGreen => to.Expired?
    case Expired => false
  }

  type Name = string
  type Category = string
  type EventId = string

  datatype Provider = LocalApproval | WeCom

  /** Who decided: a local approver, or a relay user together with the callback event. */
  datatype Actor = Approver(name: Name) | Relay(name: Name, event: EventId)

  datatype Place = Isolation | Green | Purged

  datatype Row = Row(
    state: State, size: nat, digest: Digest, typeConflict: bool, provider: Provider,
    place: Place,                    // what storage_path names
    classification: Option<Category>, approvalId: Option<string>, actor: Option<Actor>)

  datatype File = File(bytes: Bytes, sealed: bool)

  datatype Status = Clean | Infected | Failed

  /**
   What a thread has established so far: the integrity check before the scanners, their verdicts, the
   integrity check after them, an allowed classification; the integrity check of an approval; the
   runtime and policy checks of a release.
   */
  datatype Pass = Pass(
    first: bool, statuses: Option<seq<Status>>, second: bool, allowed: bool, verified: bool, permitted: bool)

  const NO_PASS: Pass := Pass(false, None, false, false, false, false)

  /** State-change events of the audit log; the pass is the one of the thread that wrote the event. */
  datatype Entry =
    | Registered
    | Changed(from: State, to: State, actor: Option<Actor>, pass: Pass)

  datatype Policy = Policy(enabled: bool, provider: Provider, allowed: set<Category>)

  datatype Outcome = Processing | Processed | Errored

  datatype CallbackRow = CallbackRow(payloadHash: Digest, outcome: Outcome)

  datatype World = World(
    row: Row,
    iso: Option<File>,            // outbound/isolation/<id>/payload
    greenDir: bool,               // outbound/released-green/<id>
    green: Option<File>,          // its payload
    log: seq<Entry>,
    callbacks: map<EventId, CallbackRow>,
    policy: Policy,
    runtime: bool,                // production runtime accepted
    dropped: bool)                // history: a failed release has removed the payload another one had moved

  datatype Op =
    | Scan
    | Decide(approve: bool, name: Name)
    | Callback(event: EventId, payloadHash: Digest, approvalId: string, decision: bool, relayUser: Name)
    | Release | Timeout | DeadLetter | Expire | Rescan | Purge

  /** A state transition: the target, the columns set with it, and where the thread goes on. */
  datatype Move = Move(to: State, category: Option<Category>, approvalId: Option<string>, actor: Option<Actor>,
                       next: After, fail: After)

  datatype After = ToFirstCheck | ToSubmit | ToFailing | ToDeadSecond | ToRelease | ToEnd(ok: bool)

  datatype Pc =
    | Start
    | Reading(m: Move) | Swapping(from: State, m: Move)                  // transition: read, compare-and-swap
    | FirstCheck | RunScanners | SecondCheck | Classify | Submit | Failing
    | DeadSecond
    | Deciding | VerifyForApproval
    | ReleaseRead | MakeDir | TargetExists | SourceGone | VerifyTarget | MoveFile
    | FailedMove | DropDir | SavePath | DropSource | Seal
    | PurgeFile | PurgeRow
    | Recording | Dispatch                                              // callback
    | Ending(ok: bool)
    | Gone

  /** The local variables of a thread. */
  datatype Local = Local(pc: Pc, pass: Pass, path: Place)

  /**
   What the environment decides for one step: whether it raises instead, whether the approval request has expired,
   and what scanners, classifier and approval provider answer.
   */
  datatype Choice = Choice(ok: bool, expired: bool, statuses: seq<Status>, category: Option<Category>,
                           approvalId: string)

  function Resume(a: After): Pc {
    match a
    case ToFirstCheck => FirstCheck
    case ToSubmit => Submit
    case ToFailing => Failing
    case ToDeadSecond => DeadSecond
    case ToRelease => ReleaseRead
    case ToEnd(ok) => Ending(ok)
  }

  function To(state: State, next: After, fail: After): Move {
    Move(state, None, None, None, next, fail)
  }

  predicate Matches(sha: Hash, row: Row, file: Option<File>) {
    file.Some? && |file.value.bytes| == row.size && sha(file.value.bytes) == row.digest
  }

  /** Full integrity of the payload a path names. */
  predicate Intact(sha: Hash, w: World, place: Place) {
    match place
    case Isolation => Matches(sha, w.row, w.iso)
    case Green => Matches(sha, w.row, w.green)
    case Purged => false
  }

  predicate AllClean(statuses: seq<Status>) {
    forall i :: 0 <= i < |statuses| ==> statuses[i].Clean?
  }

  predicate Permits(policy: Policy, row: Row) {
    && policy.enabled && policy.provider == row.provider
    && row.classification.Some? && row.classification.value in policy.allowed
  }

  function DecidingActor(op: Op): Option<Actor> {
    match op
    case Decide(_, name) => Some(Approver(name))
    case Callback(event, _, _, _, user) => Some(Relay(user, event))
    case _ => None
  }

  predicate Approves(op: Op) {
    (op.Decide? && op.approve) || (op.Callback? && op.decision)
  }

  /** One guarded update and its audit event, in one transaction. */
  function Swap(w: World, from: State, m: Move, pass: Pass): World
    requires w.row.state == from
  {
    w.(row := w.row.(state := m.to,
                     classification := if m.category.Some? then m.category else w.row.classification,
                     approvalId := if m.approvalId.Some? then m.approvalId else w.row.approvalId,
                     actor := if m.actor.Some? then m.actor else w.row.actor),
       log := w.log + [Changed(from, m.to, m.actor, pass)])
  }

  function Quarantine(l: Local): Local {
    l.(pc := Reading(To(Quarantined, ToEnd(false), ToFailing)))
  }

  function StartOf(w: World, op: Op, l: Local): Local {
    match op
    case Scan => l.(pc := Reading(To(Scanning, ToFirstCheck, ToEnd(false))))
    case Decide(_, _) => l.(pc := if w.row.provider.LocalApproval? then Deciding else Gone)
    case Callback(event, hash, approvalId, _, _) =>
      if event in w.callbacks && w.callbacks[event].payloadHash != hash then l.(pc := Gone)
      else if w.row.approvalId != Some(approvalId) || !w.row.provider.WeCom? then l.(pc := Gone)
      else if event in w.callbacks && w.callbacks[event].outcome.Processed? then l.(pc := Gone)
      else l.(pc := if event in w.callbacks then Dispatch else Recording)
    case Release => l.(pc := ReleaseRead)
    case Timeout =>
      l.(pc := if w.row.state.Scanning? || w.row.state.Classified?
               then Reading(To(Quarantined, ToEnd(true), ToEnd(false))) else Gone)
    case DeadLetter =>
      l.(pc := if w.row.state.PendingScan? then Reading(To(Scanning, ToDeadSecond, ToEnd(false))) else DeadSecond)
    case Expire => l.(pc := Reading(To(Expired, ToEnd(true), ToEnd(false))))
    case Rescan =>
      l.(pc := if w.row.state.Quarantined? then Reading(To(PendingScan, ToEnd(true), ToEnd(false))) else Gone)
    case Purge =>
      if w.row.state.Expired? && !w.row.place.Purged? then l.(pc := PurgeFile, path := w.row.place)
      else l.(pc := Gone)
  }

  /** One step of the scan pipeline. */
  function ScanStep(sha: Hash, w: World, l: Local, c: Choice): Local {
    match l.pc
    case FirstCheck =>
      var l := l.(path := w.row.place);
      if !w.runtime || !Intact(sha, w, l.path) then Quarantine(l)
      else l.(pass := NO_PASS.(first := true), pc := RunScanners)
    case RunScanners =>
      if !AllClean(c.statuses) || w.row.typeConflict then Quarantine(l)
      else l.(pass := l.pass.(statuses := Some(c.statuses)), pc := SecondCheck)
    case SecondCheck =>
      if !Intact(sha, w, l.path) then Quarantine(l)
      else l.(pass := l.pass.(second := true), pc := Classify)
    case Classify =>
      if !w.policy.enabled || c.category.None? || c.category.value !in w.policy.allowed then
        l.(pc := Reading(To(Quarantined, ToEnd(false), ToFailing).(category := c.category)))
      else l.(pass := l.pass.(allowed := true),
              pc := Reading(To(Classified, ToSubmit, ToFailing).(category := c.category)))
    case Submit =>
      l.(pc := Reading(To(PendingApproval, ToEnd(true), ToFailing).(approvalId := Some(c.approvalId))))
    case Failing =>
      l.(pc := if w.row.state.Scanning? || w.row.state.Classified?
               then Reading(To(Quarantined, ToEnd(false), ToEnd(false))) else Ending(false))
    case _ => l
  }

  /** One step of an approval decision. */
  function DecisionStep(sha: Hash, w: World, op: Op, l: Local, c: Choice): Local {
    match l.pc
    case Deciding =>
      var l := l.(path := w.row.place);
      if !w.row.state.PendingApproval? || !Permits(w.policy, w.row) then l.(pc := Ending(false))
      else if c.expired then l.(pc := Reading(To(Expired, ToEnd(false), ToEnd(false))))
      else if !Approves(op) then
        l.(pc := Reading(To(ApprovalRejected, ToEnd(true), ToEnd(false)).(actor := DecidingActor(op))))
      else l.(pc := VerifyForApproval)
    case VerifyForApproval =>
      if Intact(sha, w, l.path) then
        l.(pass := l.pass.(verified := true),
           pc := Reading(To(Approved, ToRelease, ToEnd(false)).(actor := DecidingActor(op))))
      else l.(pc := Reading(To(Expired, ToEnd(false), ToEnd(false)).(actor := DecidingActor(op))))
    case _ => l
  }

  /** One step of the promotion to the green release buffer. */
  function ReleaseStep(sha: Hash, w: World, l: Local): (World, Local) {
    match l.pc
    case ReleaseRead =>
      if !w.runtime then (w, l.(pc := Ending(false)))
      else if w.row.state.ReleasedToGreen? then (w, l.(pc := Ending(true)))
      else if !w.row.state.Approved? then (w, l.(pc := Ending(false)))
      else if !Permits(w.policy, w.row) then (w, l.(pc := Reading(To(Expired, ToEnd(false), ToEnd(false)))))
      else (w, l.(pc := MakeDir, path := w.row.place, pass := l.pass.(permitted := true)))
    case MakeDir => (w.(greenDir := true), l.(pc := if l.path.Green? then Seal else TargetExists))
    case TargetExists => (w, l.(pc := if w.green.Some? then SourceGone else MoveFile))
    case SourceGone => (w, l.(pc := if w.iso.Some? then FailedMove else VerifyTarget))
    case VerifyTarget => (w, l.(pc := if Intact(sha, w, Green) then SavePath else FailedMove))
    case MoveFile =>
      if w.iso.None? || !w.greenDir then (w, l.(pc := FailedMove))
      else (w.(green := w.iso, iso := None), l.(pc := SavePath))
    case FailedMove => (w, l.(pc := if w.green.None? then DropDir else Ending(false)))
    case DropDir =>
      (w.(green := None, greenDir := false, dropped := w.dropped || w.green.Some?), l.(pc := Ending(false)))
    case SavePath =>
      (if w.row.state.Approved? then w.(row := w.row.(place := Green)) else w, l.(pc := DropSource))
    case DropSource => (w.(iso := None), l.(pc := Seal))
    case Seal =>
      if w.green.None? then (w, l.(pc := Ending(false)))
      else (w.(green := Some(w.green.value.(sealed := true))),
            l.(pc := Reading(To(ReleasedToGreen, ToEnd(true), ToEnd(false)))))
    case _ => (w, l)
  }

  function SetOutcome(w: World, event: EventId, outcome: Outcome): World {
    if event in w.callbacks
    then w.(callbacks := w.callbacks[event := w.callbacks[event].(outcome := outcome)]) else w
  }

  function CallbackStep(w: World, op: Op, l: Local): (World, Local)
    requires op.Callback?
  {
    match l.pc
    case Recording =>
      if op.event in w.callbacks then
        (w, l.(pc := if w.callbacks[op.event].payloadHash == op.payloadHash then Dispatch else Gone))
      else
        (w.(callbacks := w.callbacks[op.event := CallbackRow(op.payloadHash, Processing)]), l.(pc := Dispatch))
    case Dispatch =>
      if w.row.state.Approved? && op.decision then (w, l.(pc := ReleaseRead))
      else if (w.row.state.ReleasedToGreen? && op.decision) || (w.row.state.ApprovalRejected? && !op.decision) then
        (w, l.(pc := Ending(w.row.actor == DecidingActor(op))))
      else (w, l.(pc := Deciding))
    case _ => (w, l)
  }

  predicate InScan(pc: Pc) {
    pc.FirstCheck? || pc.RunScanners? || pc.SecondCheck? || pc.Classify? || pc.Submit? || pc.Failing?
  }

  predicate InRelease(pc: Pc) {
    || pc.ReleaseRead? || pc.MakeDir? || pc.TargetExists? || pc.SourceGone? || pc.VerifyTarget? || pc.MoveFile?
    || pc.FailedMove? || pc.DropDir? || pc.SavePath? || pc.DropSource? || pc.Seal?
  }

  function DeciderStep(sha: Hash, w: World, op: Op, l: Local, c: Choice): (World, Local) {
    if l.pc.Deciding? || l.pc.VerifyForApproval? then (w, DecisionStep(sha, w, op, l, c))
    else if op.Callback? then CallbackStep(w, op, l)
    else (w, l)
  }

  predicate InDecision(pc: Pc) {
    pc.Deciding? || pc.VerifyForApproval? || pc.Recording? || pc.Dispatch?
  }

  /** The steps every operation shares: start, transition, purge, end. */
  function CommonStep(w: World, op: Op, l: Local): (World, Local) {
    match l.pc
    case Start => (w, StartOf(w, op, l))
    case Reading(m) =>
      (w, l.(pc := if Allowed(w.row.state, m.to) then Swapping(w.row.state, m) else Resume(m.fail)))
    case Swapping(from, m) =>
      if w.row.state == from then (Swap(w, from, m, l.pass), l.(pc := Resume(m.next)))
      else (w, l.(pc := Resume(m.fail)))
    case DeadSecond =>
      (w, l.(pc := if w.row.state.Scanning? || w.row.state.Classified?
                   then Reading(To(Quarantined, ToEnd(true), ToEnd(false))) else Gone))
    case PurgeFile =>
      (if l.path.Green? then w.(green := None, greenDir := false)
       else if l.path.Isolation? then w.(iso := None) else w,
       l.(pc := PurgeRow))
    case PurgeRow => (w.(row := w.row.(place := Purged)), l.(pc := Gone))
    case Ending(ok) =>
      (if op.Callback? then SetOutcome(w, op.event, if ok then Processed else Errored) else w, l.(pc := Gone))
    case _ => (w, l)
  }

  /** Every statement and file operation may raise, but for the removals that ignore errors. */
  predicate Raises(l: Local, c: Choice) {
    !c.ok && !l.pc.DropDir? && !l.pc.DropSource? && !l.pc.Gone?
  }

  /**
   Where an exception leads: a scan pass fails closed, an exception around the rename is handled by the release,
   a callback records it, and everything else ends.
   */
  function Raised(op: Op, l: Local): Local {
    l.(pc := match l.pc
             case Reading(m) => Resume(m.fail)
             case Swapping(_, m) => Resume(m.fail)
             case FirstCheck => Failing
             case RunScanners => Failing
             case SecondCheck => Failing
             case Classify => Failing
             case Submit => Failing
             case Failing => Ending(false)
             case Deciding => Ending(false)
             case VerifyForApproval => Ending(false)
             case Dispatch => Ending(false)
             case ReleaseRead => Ending(false)
             case MakeDir => Ending(false)
             case TargetExists => FailedMove
             case SourceGone => FailedMove
             case VerifyTarget => FailedMove
             case MoveFile => FailedMove
             case FailedMove => Ending(false)
             case SavePath => Ending(false)
             case Seal => Ending(false)
             case Ending(ok) => if ok && op.Callback? then Ending(false) else Gone
             case _ => Gone)
  }

  /** One step of a thread. */
  function Act(sha: Hash, w: World, op: Op, l: Local, c: Choice): (World, Local) {
    if Raises(l, c) then (w, Raised(op, l)) else Proceed(sha, w, op, l, c)
  }

  function Proceed(sha: Hash, w: World, op: Op, l: Local, c: Choice): (World, Local) {
    if InScan(l.pc) then (w, ScanStep(sha, w, l, c))
    else if InRelease(l.pc) then ReleaseStep(sha, w, l)
    else if InDecision(l.pc) then DeciderStep(sha, w, op, l, c)
    else CommonStep(w, op, l)
  }

  // ------------------------------------------------------------------------------------------
  // The system and its runs
  // ------------------------------------------------------------------------------------------

  type ThreadId = nat

  datatype Thread = Thread(op: Op, local: Local)

  /** `submitted` and `tampered` remember the uploaded bytes and whether anybody outside SFSS rewrote a payload. */
  datatype System = System(w: World, threads: map<ThreadId, Thread>, submitted: Bytes, tampered: bool)

  datatype Event =
    | Spawn(t: ThreadId, op: Op)
    | Step(t: ThreadId, c: Choice)
    | Crash
    | Tamper(place: Place, bytes: Bytes)
    | SetPolicy(policy: Policy)
    | SetRuntime(accepted: bool)
    | ForeignCallback(event: EventId, payloadHash: Digest)

  function Next(sha: Hash, s: System, e: Event): System {
    match e
    case Spawn(t, op) =>
      if t in s.threads then s
      else s.(threads := s.threads[t := Thread(op, Local(Start, NO_PASS, Isolation))])
    case Step(t, c) =>
      if t !in s.threads then s
      else
        var (w, l) := Act(sha, s.w, s.threads[t].op, s.threads[t].local, c);
        s.(w := w, threads := s.threads[t := s.threads[t].(local := l)])
    case Crash => s.(threads := map[])
    case Tamper(place, bytes) =>
      if place.Isolation? && s.w.iso.Some? then
        s.(w := s.w.(iso := Some(s.w.iso.value.(bytes := bytes))), tampered := true)
      else if place.Green? && s.w.green.Some? then
        s.(w := s.w.(green := Some(s.w.green.value.(bytes := bytes))), tampered := true)
      else s
    case SetPolicy(policy) => s.(w := s.w.(policy := policy))
    case SetRuntime(accepted) => s.(w := s.w.(runtime := accepted))
    case ForeignCallback(event, hash) =>
      if event in s.w.callbacks then s
      else s.(w := s.w.(callbacks := s.w.callbacks[event := CallbackRow(hash, Processing)]))
  }

  function Run(sha: Hash, s: System, events: seq<Event>): System
    decreases |events|, 0
  {
    if events == [] then s else RunFrom(sha, Next(sha, s, events[0]), events[1..])
  }

  /** Going on from where an event has led. */
  function RunFrom(sha: Hash, s: System, events: seq<Event>): System
    decreases |events|, 1
  {
    Run(sha, s, events)
  }

  /** A transfer as registration commits it, with its payload in the isolation directory. */
  function Submitted(sha: Hash, bytes: Bytes, typeConflict: bool, provider: Provider, policy: Policy): System {
    System(World(Row(PendingScan, |bytes|, sha(bytes), typeConflict, provider, Isolation, None, None, None),
                 Some(File(bytes, false)), false, None, [Registered], map[], policy, true, false),
           map[], bytes, false)
  }

  /** The state the log alone yields, if each event continues from the previous one along an allowed transition. */
  function Replay(log: seq<Entry>): Option<State>
    decreases |log|
  {
    if log == [] then None
    else
      var last := log[|log| - 1];
      if |log| == 1 then (if last.Registered? then Some(PendingScan) else None)
      else if last.Changed? && Replay(log[..|log| - 1]) == Some(last.from) && Allowed(last.from, last.to)
      then Some(last.to) else None
  }

  // ------------------------------------------------------------------------------------------
  // The invariant
  // ------------------------------------------------------------------------------------------

  ghost predicate CleanPass(pass: Pass) {
    pass.first && pass.statuses.Some? && AllClean(pass.statuses.value) && pass.second && pass.allowed
  }

  /** The evidence behind an event. */
  ghost predicate Justified(typeConflict: bool, to: State, pass: Pass) {
    && (to.Classified? ==> CleanPass(pass) && !typeConflict)
    && (to.Approved? ==> pass.verified)
    && (to.ReleasedToGreen? ==> pass.permitted)
  }

  ghost predicate EvidenceOk(typeConflict: bool, log: seq<Entry>) {
    forall i :: 0 <= i < |log| && log[i].Changed? ==> Justified(typeConflict, log[i].to, log[i].pass)
  }

  predicate BeforeDecision(state: State) {
    state.PendingScan? || state.Scanning? || state.Quarantined? || state.Classified? || state.PendingApproval?
  }

  /** Approved, or past it. Once here, a transfer never leaves. */
  predicate Decided(state: State) {
    state.Approved? || state.ReleasedToGreen? || state.Expired?
  }

  predicate Decision(e: Entry) {
    e.Changed? && (e.to.Approved? || e.to.ApprovalRejected?)
  }

  /** At most one decision, and its actor stays in the row until the transfer expires. */
  ghost predicate DecisionOk(state: State, actor: Option<Actor>, log: seq<Entry>) {
    && (BeforeDecision(state) ==> forall i :: 0 <= i < |log| ==> !Decision(log[i]))
    && (forall i, j :: 0 <= i < |log| && 0 <= j < |log| && Decision(log[i]) && Decision(log[j]) ==> i == j)
    && (state.Approved? || state.ReleasedToGreen? ==>
          exists i :: 0 <= i < |log| && log[i].Changed? && log[i].to.Approved? && log[i].actor == actor)
    && (state.ApprovalRejected? ==>
          exists i :: 0 <= i < |log| && log[i].Changed? && log[i].to.ApprovalRejected? && log[i].actor == actor)
  }

  /** The last actor the log names. */
  function LastActor(log: seq<Entry>): Option<Actor>
    decreases |log|
  {
    if log == [] then None
    else
      var last := log[|log| - 1];
      if last.Changed? && last.actor.Some? then last.actor else LastActor(log[..|log| - 1])
  }

  ghost predicate LogOk(state: State, actor: Option<Actor>, typeConflict: bool, log: seq<Entry>) {
    Replay(log) == Some(state) && EvidenceOk(typeConflict, log) && DecisionOk(state, actor, log)
    && actor == LastActor(log)
  }

  /** Where the payload is: in one place at most, and in none once a failed release has removed it. */
  ghost predicate FilesOk(w: World) {
    && !(w.iso.Some? && w.green.Some?) && (w.row.place.Purged? ==> w.row.state.Expired?)
    && (w.dropped ==> Decided(w.row.state) && w.iso.None? && w.green.None?)
    && (!w.dropped ==>
          match w.row.state
          case Approved => (w.iso.Some? || w.green.Some?) && (w.row.place.Green? ==> w.green.Some?)
          case ReleasedToGreen => w.row.place.Green? && w.green.Some?
          case Expired => true
          case _ => w.row.place.Isolation? && w.iso.Some?)
  }

  ghost predicate WorldOk(w: World) {
    && LogOk(w.row.state, w.row.actor, w.row.typeConflict, w.log)
    && FilesOk(w)
    && (w.iso.Some? ==> !w.iso.value.sealed)
  }

  predicate Live(w: World) {
    !w.row.state.Expired? && !w.dropped
  }

  /** Promised of the payload while a release is past the file move. */
  ghost predicate Delivered(w: World) {
    Decided(w.row.state) && (Live(w) ==> w.green.Some?)
  }

  ghost predicate Saved(w: World) {
    Decided(w.row.state) && (Live(w) ==> w.green.Some? && w.row.place.Green?)
  }

  ghost predicate MoveOk(w: World, l: Local, m: Move) {
    && Justified(w.row.typeConflict, m.to, l.pass)
    && (m.to.ReleasedToGreen? ==> Saved(w) && m.actor.None?)
    && (m.to.Approved? || m.to.ApprovalRejected? ==> m.actor.Some?)
    && (m.next.ToRelease? ==> m.to.Approved?)
  }

  ghost predicate LocalOk(w: World, op: Op, l: Local) {
    && (InRelease(l.pc) && l.pc != ReleaseRead ==> l.pass.permitted)
    && match l.pc
    case Deciding => op.Decide? || op.Callback?
    case VerifyForApproval => op.Decide? || op.Callback?
    case Recording => op.Callback?
    case Dispatch => op.Callback?
    case Reading(m) => MoveOk(w, l, m)
    case Swapping(from, m) => MoveOk(w, l, m) && Allowed(from, m.to)
    case RunScanners => l.pass.first
    case SecondCheck =>
      l.pass.first && l.pass.statuses.Some? && AllClean(l.pass.statuses.value) && !w.row.typeConflict
    case Classify => CleanPass(l.pass.(allowed := true)) && !w.row.typeConflict
    case MakeDir => Decided(w.row.state) && (l.path.Green? ==> Saved(w))
    case TargetExists => Decided(w.row.state)
    case SourceGone => Delivered(w)
    case VerifyTarget => Delivered(w)
    case MoveFile => Decided(w.row.state)
    case FailedMove => Decided(w.row.state)
    case DropDir => Decided(w.row.state)
    case SavePath => Delivered(w)
    case DropSource => Saved(w)
    case Seal => Saved(w)
    case PurgeFile => w.row.state.Expired?
    case PurgeRow => w.row.state.Expired?
    case _ => true
  }

  /** Wherever the payload is, it is the submitted one, byte for byte. */
  ghost predicate BytesOk(w: World, submitted: Bytes) {
    && (w.iso.Some? ==> w.iso.value.bytes == submitted)
    && (w.green.Some? ==> w.green.value.bytes == submitted)
  }

  ghost predicate Inv(sha: Hash, s: System) {
    && WorldOk(s.w)
    && (forall t :: t in s.threads ==> LocalOk(s.w, s.threads[t].op, s.threads[t].local))
    && s.w.row.size == |s.submitted| && s.w.row.digest == sha(s.submitted)
    && (!s.tampered ==> BytesOk(s.w, s.submitted))
  }

  // --- one step -----------------------------------------------------------------------------

  lemma {:induction false} ExtendLog(state: State, actor: Option<Actor>, typeConflict: bool, log: seq<Entry>, e: Entry,
                  actor': Option<Actor>)
    requires LogOk(state, actor, typeConflict, log)
    requires e.Changed? && e.from == state && Allowed(state, e.to)
    requires Justified(typeConflict, e.to, e.pass)
    requires Decision(e) ==> e.actor.Some?
    requires e.to.ReleasedToGreen? ==> e.actor.None?
    requires actor' == if e.actor.Some? then e.actor else actor
    ensures LogOk(e.to, actor', typeConflict, log + [e])
  {
    var log' := log + [e];
    assert log'[..|log'| - 1] == log;
    assert log'[|log|] == e;
    assert forall i :: 0 <= i < |log| ==> log'[i] == log[i];
    if e.to.ReleasedToGreen? {
      var i :| 0 <= i < |log| && log[i].Changed? && log[i].to.Approved? && log[i].actor == actor;
      assert log'[i] == log[i];
    }
  }

  lemma SwapKeeps(w: World, l: Local, m: Move)
    requires WorldOk(w) && Allowed(w.row.state, m.to) && MoveOk(w, l, m)
    ensures WorldOk(Swap(w, w.row.state, m, l.pass))
  {
    var w' := Swap(w, w.row.state, m, l.pass);
    ExtendLog(w.row.state, w.row.actor, w.row.typeConflict, w.log,
              Changed(w.row.state, m.to, m.actor, l.pass), w'.row.actor);
  }

  /** The facts other threads rely on survive a step. */
  ghost predicate Stable(w: World, w': World) {
    && w'.row.typeConflict == w.row.typeConflict
    && (Decided(w.row.state) ==> Decided(w'.row.state))
    && (w.row.state.Expired? ==> w'.row.state.Expired?)
    && (w.dropped ==> w'.dropped)
    && (Decided(w.row.state) && Live(w') ==>
          && (w.green.Some? ==> w'.green.Some?)
          && (w.row.place.Green? ==> w'.row.place.Green?))
  }

  lemma LocalFrames(w: World, w': World, op: Op, l: Local)
    requires LocalOk(w, op, l) && Stable(w, w')
    ensures LocalOk(w', op, l)
  {
  }

  lemma ReleaseStepFiles(sha: Hash, w: World, op: Op, l: Local)
    requires FilesOk(w) && LocalOk(w, op, l)
    ensures var w' := ReleaseStep(sha, w, l).0;
            && w' == w.(row := w.row.(place := w'.row.place), iso := w'.iso, green := w'.green, greenDir := w'.greenDir,
                        dropped := w'.dropped)
            && FilesOk(w') && Stable(w, w') && (w'.iso.Some? ==> w'.iso == w.iso)
  {
    if l.pc.SavePath? || l.pc.DropSource? || l.pc.Seal? {
      LateReleaseFiles(sha, w, op, l);
    } else if l.pc.MoveFile? || l.pc.DropDir? {
      MoveFiles(sha, w, op, l);
    } else {
      EarlyReleaseFiles(sha, w, l);
    }
  }

  lemma EarlyReleaseFiles(sha: Hash, w: World, l: Local)
    requires FilesOk(w)
    requires !l.pc.SavePath? && !l.pc.DropSource? && !l.pc.Seal? && !l.pc.MoveFile? && !l.pc.DropDir?
    ensures var w' := ReleaseStep(sha, w, l).0; w' == w.(greenDir := w'.greenDir) && FilesOk(w') && Stable(w, w')
  {
  }

  lemma LateReleaseFiles(sha: Hash, w: World, op: Op, l: Local)
    requires FilesOk(w) && LocalOk(w, op, l) && (l.pc.SavePath? || l.pc.DropSource? || l.pc.Seal?)
    ensures var w' := ReleaseStep(sha, w, l).0; FilesOk(w') && Stable(w, w') && (w'.iso.Some? ==> w'.iso == w.iso)
  {
  }

  lemma MoveFiles(sha: Hash, w: World, op: Op, l: Local)
    requires FilesOk(w) && LocalOk(w, op, l) && (l.pc.MoveFile? || l.pc.DropDir?)
    ensures var w' := ReleaseStep(sha, w, l).0; FilesOk(w') && Stable(w, w') && (w'.iso.Some? ==> w'.iso == w.iso)
  {
  }

  lemma EarlyReleaseLocal(sha: Hash, w: World, op: Op, l: Local)
    requires FilesOk(w) && LocalOk(w, op, l)
    requires l.pc.ReleaseRead? || l.pc.MakeDir? || l.pc.TargetExists? || l.pc.SourceGone? || l.pc.VerifyTarget?
    ensures var (w', l') := ReleaseStep(sha, w, l); LocalOk(w', op, l')
  {
  }

  lemma MoveLocal(sha: Hash, w: World, op: Op, l: Local)
    requires FilesOk(w) && LocalOk(w, op, l) && (l.pc.MoveFile? || l.pc.FailedMove? || l.pc.DropDir?)
    ensures var (w', l') := ReleaseStep(sha, w, l); LocalOk(w', op, l')
  {
  }

  lemma LateReleaseLocal(sha: Hash, w: World, op: Op, l: Local)
    requires FilesOk(w) && LocalOk(w, op, l) && (l.pc.SavePath? || l.pc.DropSource? || l.pc.Seal?)
    ensures var (w', l') := ReleaseStep(sha, w, l); LocalOk(w', op, l')
  {
  }

  lemma ReleaseStepLocal(sha: Hash, w: World, op: Op, l: Local)
    requires FilesOk(w) && LocalOk(w, op, l) && InRelease(l.pc)
    ensures var (w', l') := ReleaseStep(sha, w, l); LocalOk(w', op, l')
  {
    if l.pc.MoveFile? || l.pc.FailedMove? || l.pc.DropDir? {
      MoveLocal(sha, w, op, l);
    } else if l.pc.SavePath? || l.pc.DropSource? || l.pc.Seal? {
      LateReleaseLocal(sha, w, op, l);
    } else {
      EarlyReleaseLocal(sha, w, op, l);
    }
  }

  lemma ScanStepKeeps(sha: Hash, w: World, op: Op, l: Local, c: Choice)
    requires LocalOk(w, op, l) && InScan(l.pc)
    ensures LocalOk(w, op, ScanStep(sha, w, l, c))
  {
  }

  lemma DeciderStepKeeps(sha: Hash, w: World, op: Op, l: Local, c: Choice)
    requires LocalOk(w, op, l) && InDecision(l.pc)
    ensures var (w', l') := DeciderStep(sha, w, op, l, c);
            w' == w.(callbacks := w'.callbacks) && LocalOk(w', op, l')
  {
  }

  lemma SwappingKeeps(w: World, op: Op, l: Local)
    requires WorldOk(w) && LocalOk(w, op, l) && l.pc.Swapping?
    ensures var (w', l') := CommonStep(w, op, l);
            WorldOk(w') && Stable(w, w') && LocalOk(w', op, l')
  {
    if w.row.state == l.pc.from {
      SwapKeeps(w, l, l.pc.m);
    }
    ResumeOk(w, op, l, l.pc.m.fail);
    ResumeOk(CommonStep(w, op, l).0, op, l, l.pc.m.next);
  }

  lemma ResumeOk(w: World, op: Op, l: Local, a: After)
    ensures LocalOk(w, op, l.(pc := Resume(a)))
  {
  }

  lemma StartKeeps(w: World, op: Op, l: Local)
    ensures LocalOk(w, op, StartOf(w, op, l)) || l.pc != Start
  {
  }

  lemma PurgeKeeps(w: World, op: Op, l: Local)
    requires WorldOk(w) && LocalOk(w, op, l) && (l.pc.PurgeFile? || l.pc.PurgeRow?)
    ensures var (w', l') := CommonStep(w, op, l); Keeps(op, w, w', l')
  {
  }

  lemma OutcomeKeeps(w: World, event: EventId, outcome: Outcome)
    requires WorldOk(w)
    ensures WorldOk(SetOutcome(w, event, outcome)) && Stable(w, SetOutcome(w, event, outcome))
  {
  }

  lemma EndingKeeps(w: World, op: Op, l: Local)
    requires WorldOk(w) && l.pc.Ending?
    ensures var (w', l') := CommonStep(w, op, l); Keeps(op, w, w', l')
  {
    EndingIs(w, op, l);
    if op.Callback? {
      OutcomeKeeps(w, op.event, if l.pc.ok then Processed else Errored);
    } else {
      QuietKeeps(op, w, l.(pc := Gone));
    }
  }

  lemma EndingIs(w: World, op: Op, l: Local)
    requires l.pc.Ending?
    ensures CommonStep(w, op, l) ==
            (if op.Callback? then SetOutcome(w, op.event, if l.pc.ok then Processed else Errored) else w,
             l.(pc := Gone))
  {
  }

  lemma DeadSecondKeeps(w: World, op: Op, l: Local)
    requires l.pc.DeadSecond?
    ensures var (w', l') := CommonStep(w, op, l); w' == w && LocalOk(w, op, l')
  {
  }

  lemma ReadingKeeps(w: World, op: Op, l: Local)
    requires LocalOk(w, op, l) && l.pc.Reading?
    ensures var (w', l') := CommonStep(w, op, l); w' == w && LocalOk(w', op, l')
  {
    ResumeOk(w, op, l, l.pc.m.fail);
  }

  lemma CommonStepKeeps(w: World, op: Op, l: Local)
    requires WorldOk(w) && LocalOk(w, op, l) && !InScan(l.pc) && !InRelease(l.pc) && !InDecision(l.pc)
    ensures var (w', l') := CommonStep(w, op, l); Keeps(op, w, w', l')
  {
    if l.pc.Swapping? {
      SwappingKeeps(w, op, l);
    } else if l.pc.Start? {
      StartKeeps(w, op, l);
    } else if l.pc.Reading? {
      ReadingKeeps(w, op, l);
    } else if l.pc.DeadSecond? {
      DeadSecondKeeps(w, op, l);
    } else if l.pc.Ending? {
      EndingKeeps(w, op, l);
    } else if !l.pc.Gone? {
      PurgeKeeps(w, op, l);
    }
  }

  lemma RaisedOk(w: World, op: Op, l: Local)
    requires LocalOk(w, op, l)
    ensures LocalOk(w, op, Raised(op, l))
  {
  }

  ghost predicate Keeps(op: Op, w: World, w': World, l': Local) {
    WorldOk(w') && LocalOk(w', op, l') && Stable(w, w')
  }

  lemma ReleaseStepKeeps(sha: Hash, w: World, op: Op, l: Local)
    requires WorldOk(w) && LocalOk(w, op, l) && InRelease(l.pc)
    ensures var (w', l') := ReleaseStep(sha, w, l); Keeps(op, w, w', l')
  {
    ReleaseStepFiles(sha, w, op, l);
    ReleaseStepLocal(sha, w, op, l);
  }

  lemma QuietKeeps(op: Op, w: World, l': Local)
    requires WorldOk(w) && LocalOk(w, op, l')
    ensures Keeps(op, w, w, l')
  {
  }

  lemma DeciderKeeps(sha: Hash, w: World, op: Op, l: Local, c: Choice)
    requires WorldOk(w) && LocalOk(w, op, l) && InDecision(l.pc)
    ensures var (w', l') := DeciderStep(sha, w, op, l, c); Keeps(op, w, w', l')
  {
    DeciderStepKeeps(sha, w, op, l, c);
  }

  lemma ProceedKeeps(sha: Hash, w: World, op: Op, l: Local, c: Choice)
    requires WorldOk(w) && LocalOk(w, op, l)
    ensures var (w', l') := Proceed(sha, w, op, l, c); Keeps(op, w, w', l')
  {
    if InScan(l.pc) {
      ScanStepKeeps(sha, w, op, l, c);
      QuietKeeps(op, w, ScanStep(sha, w, l, c));
    } else if InRelease(l.pc) {
      ReleaseStepKeeps(sha, w, op, l);
    } else if InDecision(l.pc) {
      DeciderKeeps(sha, w, op, l, c);
    } else {
      CommonStepKeeps(w, op, l);
    }
  }

  lemma ActKeeps(sha: Hash, w: World, op: Op, l: Local, c: Choice)
    requires WorldOk(w) && LocalOk(w, op, l)
    ensures var (w', l') := Act(sha, w, op, l, c); Keeps(op, w, w', l')
  {
    if Raises(l, c) {
      RaisedOk(w, op, l);
      QuietKeeps(op, w, Raised(op, l));
    } else {
      ProceedKeeps(sha, w, op, l, c);
    }
  }

  /** Every payload file in w' has bytes that were in a payload file of w. */
  ghost predicate MovesBytes(w: World, w': World) {
    && w'.row.size == w.row.size && w'.row.digest == w.row.digest
    && (w'.iso.Some? ==> w'.iso == w.iso)
    && (w'.green.Some? ==>
          (w.green.Some? && w'.green.value.bytes == w.green.value.bytes) || w'.green == w.iso)
  }

  lemma ReleaseMovesBytes(sha: Hash, w: World, l: Local)
    ensures MovesBytes(w, ReleaseStep(sha, w, l).0)
  {
  }

  lemma SameMovesBytes(w: World, w': World)
    requires w'.row.size == w.row.size && w'.row.digest == w.row.digest
    requires w'.iso == w.iso && (w'.green == w.green || w'.green.None?)
    ensures MovesBytes(w, w')
  {
  }

  lemma PurgeMovesBytes(w: World, op: Op, l: Local)
    requires l.pc.PurgeFile? || l.pc.PurgeRow?
    ensures MovesBytes(w, CommonStep(w, op, l).0)
  {
  }

  lemma CommonMovesBytes(w: World, op: Op, l: Local)
    ensures MovesBytes(w, CommonStep(w, op, l).0)
  {
    if l.pc.PurgeFile? || l.pc.PurgeRow? {
      PurgeMovesBytes(w, op, l);
    } else {
      SameMovesBytes(w, CommonStep(w, op, l).0);
    }
  }

  lemma DeciderMovesBytes(sha: Hash, w: World, op: Op, l: Local, c: Choice)
    ensures MovesBytes(w, DeciderStep(sha, w, op, l, c).0)
  {
  }

  lemma ActMovesBytes(sha: Hash, w: World, op: Op, l: Local, c: Choice)
    ensures MovesBytes(w, Act(sha, w, op, l, c).0)
  {
    ReleaseMovesBytes(sha, w, l);
    CommonMovesBytes(w, op, l);
    DeciderMovesBytes(sha, w, op, l, c);
  }

  lemma StepKeepsInv(sha: Hash, s: System, t: ThreadId, c: Choice)
    requires Inv(sha, s) && t in s.threads
    ensures Inv(sha, Next(sha, s, Step(t, c)))
  {
    var s' := Next(sha, s, Step(t, c));
    var op, l := s.threads[t].op, s.threads[t].local;
    ActKeeps(sha, s.w, op, l, c);
    forall u | u in s'.threads
      ensures LocalOk(s'.w, s'.threads[u].op, s'.threads[u].local)
    {
      if u != t {
        LocalFrames(s.w, s'.w, s.threads[u].op, s.threads[u].local);
      }
    }
    ActMovesBytes(sha, s.w, op, l, c);
  }

  lemma NextKeepsInv(sha: Hash, s: System, e: Event)
    requires Inv(sha, s)
    ensures Inv(sha, Next(sha, s, e))
  {
    if e.Step? {
      if e.t in s.threads {
        StepKeepsInv(sha, s, e.t, e.c);
      }
    } else {
      var s' := Next(sha, s, e);
      forall u | u in s'.threads
        ensures LocalOk(s'.w, s'.threads[u].op, s'.threads[u].local)
      {
        if u in s.threads {
          LocalFrames(s.w, s'.w, s.threads[u].op, s.threads[u].local);
        }
      }
    }
  }

  // ------------------------------------------------------------------------------------------
  // What holds over every run
  // ------------------------------------------------------------------------------------------

  lemma SubmittedOk(sha: Hash, bytes: Bytes, typeConflict: bool, provider: Provider, policy: Policy)
    ensures Inv(sha, Submitted(sha, bytes, typeConflict, provider, policy))
  {
  }

  lemma {:induction false} RunKeepsInv(sha: Hash, s: System, events: seq<Event>)
    requires Inv(sha, s)
    ensures Inv(sha, Run(sha, s, events))
    decreases |events|
  {
    if events != [] {
      NextKeepsInv(sha, s, events[0]);
      RunKeepsInv(sha, Next(sha, s, events[0]), events[1..]);
    }
  }

  /** Replaying the audit log alone reproduces the state column, in every reachable store. */
  lemma {:induction false} ReplayAgrees(sha: Hash, bytes: Bytes, typeConflict: bool, provider: Provider, policy: Policy,
                     events: seq<Event>)
    ensures var w := Run(sha, Submitted(sha, bytes, typeConflict, provider, policy), events).w;
            Replay(w.log) == Some(w.row.state)
  {
    SubmittedOk(sha, bytes, typeConflict, provider, policy);
    RunKeepsInv(sha, Submitted(sha, bytes, typeConflict, provider, policy), events);
  }

  /**
   Fail-closed release. A released transfer's log ends with one scan pass in which both integrity
   checks held, every scanner said clean and the classification was allowed, then a submission, one
   verified approval and one release under an accepted runtime and a permitting policy.
   */
  lemma FailClosed(sha: Hash, s: System)
    requires Inv(sha, s) && s.w.row.state.ReleasedToGreen?
    ensures var log, n := s.w.log, |s.w.log|;
            && n >= 6
            && (forall i :: n - 5 <= i < n ==> log[i].Changed?)
            && log[n - 1].to.ReleasedToGreen? && log[n - 1].pass.permitted
            && log[n - 2].to.Approved? && log[n - 2].pass.verified && log[n - 2].actor == s.w.row.actor
            && log[n - 3].to.PendingApproval?
            && log[n - 4].to.Classified? && CleanPass(log[n - 4].pass) && !s.w.row.typeConflict
            && log[n - 5].to.Scanning?
            && (forall i :: 0 <= i < n && Decision(log[i]) ==> i == n - 2)
  {
    ReleaseTrail(s.w.log);
    assert Decision(s.w.log[|s.w.log| - 2]);
  }

  /** The only way to the released state, read backwards from the log. */
  lemma {:induction false} ReleaseTrail(log: seq<Entry>)
    requires Replay(log) == Some(ReleasedToGreen)
    ensures var n := |log|;
            && n >= 6 && (forall i :: n - 5 <= i < n ==> log[i].Changed?)
            && log[n - 1].to.ReleasedToGreen? && log[n - 2].to.Approved? && log[n - 3].to.PendingApproval?
            && log[n - 4].to.Classified? && log[n - 5].to.Scanning?
  {
    var n := |log|;
    assert log[..n] == log;
    ReplayBack(log, n, ReleasedToGreen);
    ReplayBack(log, n - 1, Approved);
    ReplayBack(log, n - 2, PendingApproval);
    ReplayBack(log, n - 3, Classified);
    ReplayBack(log, n - 4, Scanning);
  }

  lemma {:induction false} ReplayBack(log: seq<Entry>, k: nat, state: State)
    requires k <= |log| && Replay(log[..k]) == Some(state) && !state.PendingScan?
    ensures k >= 2 && log[k - 1].Changed? && log[k - 1].to == state && Allowed(log[k - 1].from, state)
    ensures Replay(log[..k - 1]) == Some(log[k - 1].from)
  {
    ReplayLast(log[..k], state);
    assert log[..k][..k - 1] == log[..k - 1];
  }

  /** The only way into any state but the first one is the last event. */
  lemma {:induction false} ReplayLast(log: seq<Entry>, state: State)
    requires Replay(log) == Some(state) && !state.PendingScan?
    ensures |log| >= 2
    ensures var last := log[|log| - 1];
            && last.Changed? && last.to == state && Allowed(last.from, state)
            && Replay(log[..|log| - 1]) == Some(last.from)
  {
  }

  /**
   Unless a failed release has removed it: while a transfer is approved exactly one directory holds the payload,
   and once released it is the green one. If one has, there is no payload any more.
   */
  lemma PayloadInOnePlace(sha: Hash, s: System)
    requires Inv(sha, s)
    ensures !s.w.dropped && s.w.row.state.Approved? ==> (s.w.iso.Some? != s.w.green.Some?)
    ensures !s.w.dropped && s.w.row.state.ReleasedToGreen? ==>
              s.w.row.place.Green? && s.w.green.Some? && s.w.iso.None?
    ensures !Decided(s.w.row.state) ==> s.w.row.place.Isolation? && s.w.iso.Some? && s.w.green.None?
    ensures s.w.dropped ==> s.w.iso.None? && s.w.green.None?
    ensures !s.tampered && s.w.green.Some? ==> s.w.green.value.bytes == s.submitted
  {
  }

  lemma {:induction false} LogGrows(sha: Hash, s: System, events: seq<Event>)
    ensures s.w.log <= Run(sha, s, events).w.log
    decreases |events|
  {
    if events != [] {
      var e := events[0];
      if e.Step? && e.t in s.threads {
        ActGrowsLog(sha, s.w, s.threads[e.t].op, s.threads[e.t].local, e.c);
      }
      LogGrows(sha, Next(sha, s, e), events[1..]);
    }
  }

  lemma CommonGrowsLog(w: World, op: Op, l: Local)
    ensures w.log <= CommonStep(w, op, l).0.log
  {
  }

  lemma ReleaseKeepsLog(sha: Hash, w: World, l: Local)
    ensures ReleaseStep(sha, w, l).0.log == w.log
  {
  }

  lemma ActGrowsLog(sha: Hash, w: World, op: Op, l: Local, c: Choice)
    ensures w.log <= Act(sha, w, op, l, c).0.log
  {
    CommonGrowsLog(w, op, l);
    ReleaseKeepsLog(sha, w, l);
  }

  /**
   The first decision that takes effect is the only one. Whatever callbacks, approvers, retries,
   crashes and restarts follow, it stays the transfer's one decision, the state stays on its side,
   and until expiry the row names its actor.
   */
  lemma {:induction false} DecisionFixed(sha: Hash, s: System, events: seq<Event>, i: nat)
    requires Inv(sha, s) && i < |s.w.log| && Decision(s.w.log[i])
    ensures var w' := Run(sha, s, events).w;
            && i < |w'.log| && w'.log[i] == s.w.log[i]
            && (forall j :: 0 <= j < |w'.log| && Decision(w'.log[j]) ==> j == i)
            && (s.w.log[i].to.Approved? ==> Decided(w'.row.state))
            && (s.w.log[i].to.ApprovalRejected? ==> w'.row.state.ApprovalRejected? || w'.row.state.Expired?)
            && (!w'.row.state.Expired? ==> w'.row.actor == s.w.log[i].actor)
  {
    RunKeepsInv(sha, s, events);
    LogGrows(sha, s, events);
    var w' := Run(sha, s, events).w;
    assert w'.log[i] == s.w.log[i];
    if w'.row.state.Approved? || w'.row.state.ReleasedToGreen? {
      var j :| 0 <= j < |w'.log| && w'.log[j].Changed? && w'.log[j].to.Approved? && w'.log[j].actor == w'.row.actor;
      assert Decision(w'.log[j]);
    } else if w'.row.state.ApprovalRejected? {
      var j :| 0 <= j < |w'.log| && w'.log[j].Changed? && w'.log[j].to.ApprovalRejected?
               && w'.log[j].actor == w'.row.actor;
      assert Decision(w'.log[j]);
    }
  }

  /**
   The `approval_actor` column is the last actor the log names. So it names the decider exactly as
   long as no event after the decision carries another actor.
   */
  lemma {:induction false} ActorColumn(sha: Hash, s: System, events: seq<Event>)
    requires Inv(sha, s)
    ensures var w' := Run(sha, s, events).w; w'.row.actor == LastActor(w'.log)
  {
    RunKeepsInv(sha, s, events);
  }

  /** Three steps of an approver whose integrity check fails, in whatever state the transfer is by then. */
  lemma FailedApprovalExpires(sha: Hash, w: World, op: Op, l: Local, c: Choice)
    requires l.pc.VerifyForApproval? && !Intact(sha, w, l.path) && Allowed(w.row.state, Expired)
    requires DecidingActor(op).Some? && c.ok
    ensures var (w1, l1) := Act(sha, w, op, l, c);
            var (w2, l2) := Act(sha, w1, op, l1, c);
            var (w3, _) := Act(sha, w2, op, l2, c);
            w3.row.state.Expired? && w3.row.actor == DecidingActor(op)
  {
    var m := To(Expired, ToEnd(false), ToEnd(false)).(actor := DecidingActor(op));
    assert Act(sha, w, op, l, c) == (w, l.(pc := Reading(m)));
    assert Act(sha, w, op, l.(pc := Reading(m)), c) == (w, l.(pc := Swapping(w.row.state, m)));
  }

  // ------------------------------------------------------------------------------------------
  // One operation run on its own, cut by a crash
  // ------------------------------------------------------------------------------------------

  /** `script` holds the environment's choice for each step; the process dies when it ends. */
  function Alone(sha: Hash, w: World, op: Op, l: Local, script: seq<Choice>, i: nat): (World, Local)
    decreases |script| - i, 0
  {
    if i >= |script| || l.pc.Gone? then (w, l) else AloneFrom(sha, op, Act(sha, w, op, l, script[i]), script, i + 1)
  }

  /** Going on from where a step has led. */
  function AloneFrom(sha: Hash, op: Op, step: (World, Local), script: seq<Choice>, i: nat): (World, Local)
    decreases |script| - i, 1
  {
    Alone(sha, step.0, op, step.1, script, i)
  }

  lemma SwappingIs(sha: Hash, w: World, op: Op, l: Local, c: Choice)
    requires l.pc.Swapping?
    ensures Act(sha, w, op, l, c) ==
            if c.ok && w.row.state == l.pc.from then (Swap(w, l.pc.from, l.pc.m, l.pass), l.(pc := Resume(l.pc.m.next)))
            else (w, l.(pc := Resume(l.pc.m.fail)))
  {
  }

  lemma {:induction false} Onward(sha: Hash, w: World, op: Op, l: Local, script: seq<Choice>, i: nat)
    requires i < |script| && !l.pc.Gone?
    ensures var (w', l') := Act(sha, w, op, l, script[i]);
            Alone(sha, w, op, l, script, i) == Alone(sha, w', op, l', script, i + 1)
  {
  }

  function Steps(t: ThreadId, script: seq<Choice>, i: nat): seq<Event>
    decreases |script| - i
  {
    if i >= |script| then [] else [Step(t, script[i])] + Steps(t, script, i + 1)
  }

  /** Running alone is one of the runs of the system: it moves this thread and the world, and no other thread. */
  lemma {:induction false} AloneIsRun(sha: Hash, s: System, t: ThreadId, script: seq<Choice>, i: nat)
    requires t in s.threads
    ensures var (w, l) := Alone(sha, s.w, s.threads[t].op, s.threads[t].local, script, i);
            Run(sha, s, Steps(t, script, i)) == s.(w := w, threads := s.threads[t := Thread(s.threads[t].op, l)])
    decreases |script| - i
  {
    if i < |script| {
      assert Steps(t, script, i)[1..] == Steps(t, script, i + 1);
      if s.threads[t].local.pc.Gone? {
        assert Next(sha, s, Step(t, script[i])) == s;
      }
      AloneIsRun(sha, Next(sha, s, Step(t, script[i])), t, script, i + 1);
    } else {
      assert s.threads[t := s.threads[t]] == s.threads;
    }
  }

  lemma {:induction false} RunAppend(sha: Hash, s: System, first: seq<Event>, second: seq<Event>)
    ensures Run(sha, s, first + second) == Run(sha, Run(sha, s, first), second)
    decreases |first|
  {
    if first == [] {
      assert first + second == second;
    } else {
      assert (first + second)[1..] == first[1..] + second;
      RunAppend(sha, Next(sha, s, first[0]), first[1..], second);
    }
  }

  /** A thread is spawned and runs alone. */
  lemma {:induction false} SpawnedAlone(sha: Hash, s: System, t: ThreadId, op: Op, script: seq<Choice>)
    requires t !in s.threads
    ensures var (w, l) := Alone(sha, s.w, op, Local(Start, NO_PASS, Isolation), script, 0);
            Run(sha, s, [Spawn(t, op)] + Steps(t, script, 0)) == s.(w := w, threads := s.threads[t := Thread(op, l)])
  {
    var events := [Spawn(t, op)] + Steps(t, script, 0);
    var s1 := Next(sha, s, Spawn(t, op));
    var (w, l) := Alone(sha, s.w, op, Local(Start, NO_PASS, Isolation), script, 0);
    assert events[1..] == Steps(t, script, 0);
    AloneIsRun(sha, s1, t, script, 0);
    assert s1.threads[t := Thread(op, l)] == s.threads[t := Thread(op, l)];
  }

  /** An operation that runs alone keeps the row, the log and the files in order, and only extends the log. */
  lemma {:induction false} AloneKeeps(sha: Hash, w: World, op: Op, l: Local, script: seq<Choice>, i: nat)
    requires WorldOk(w) && LocalOk(w, op, l)
    ensures var w' := Alone(sha, w, op, l, script, i).0; WorldOk(w') && w.log <= w'.log
    decreases |script| - i
  {
    if i < |script| && !l.pc.Gone? {
      var (w1, l1) := Act(sha, w, op, l, script[i]);
      ActKeeps(sha, w, op, l, script[i]);
      ActGrowsLog(sha, w, op, l, script[i]);
      AloneKeeps(sha, w1, op, l1, script, i + 1);
    }
  }

  /** It moves the submitted bytes as they are. */
  lemma {:induction false} AloneMovesBytes(sha: Hash, w: World, op: Op, l: Local, script: seq<Choice>, i: nat,
                                           submitted: Bytes)
    ensures var w' := Alone(sha, w, op, l, script, i).0;
            && w'.row.size == w.row.size && w'.row.digest == w.row.digest
            && (BytesOk(w, submitted) ==> BytesOk(w', submitted))
    decreases |script| - i
  {
    if i < |script| && !l.pc.Gone? {
      var (w1, l1) := Act(sha, w, op, l, script[i]);
      ActMovesBytes(sha, w, op, l, script[i]);
      AloneMovesBytes(sha, w1, op, l1, script, i + 1, submitted);
    }
  }

  /** On its own a release removes no payload: it has just seen that there is none in the directory. */
  lemma {:induction false} AloneDropsNothing(sha: Hash, w: World, op: Op, l: Local, script: seq<Choice>, i: nat)
    requires l.pc.DropDir? ==> w.green.None?
    ensures Alone(sha, w, op, l, script, i).0.dropped == w.dropped
    decreases |script| - i
  {
    if i < |script| && !l.pc.Gone? {
      var (w1, l1) := Act(sha, w, op, l, script[i]);
      ActDropsNothing(sha, w, op, l, script[i]);
      AloneDropsNothing(sha, w1, op, l1, script, i + 1);
    }
  }

  lemma ActDropsNothing(sha: Hash, w: World, op: Op, l: Local, c: Choice)
    requires l.pc.DropDir? ==> w.green.None?
    ensures var (w', l') := Act(sha, w, op, l, c); w'.dropped == w.dropped && (l'.pc.DropDir? ==> w'.green.None?)
  {
    if Raises(l, c) {
      RaisedDropsNothing(op, l);
    } else if InRelease(l.pc) {
      ReleaseDropsNothing(sha, w, l);
    } else if !InScan(l.pc) && !InDecision(l.pc) {
      CommonDropsNothing(w, op, l);
    }
  }

  lemma RaisedDropsNothing(op: Op, l: Local)
    requires !l.pc.DropDir?
    ensures !Raised(op, l).pc.DropDir?
  {
  }

  lemma ReleaseDropsNothing(sha: Hash, w: World, l: Local)
    requires InRelease(l.pc) && (l.pc.DropDir? ==> w.green.None?)
    ensures var (w', l') := ReleaseStep(sha, w, l); w'.dropped == w.dropped && (l'.pc.DropDir? ==> w'.green.None?)
  {
  }

  lemma CommonDropsNothing(w: World, op: Op, l: Local)
    requires !InRelease(l.pc)
    ensures var (w', l') := CommonStep(w, op, l); w'.dropped == w.dropped && !l'.pc.DropDir?
  {
  }

  /** Nothing raises. */
  predicate Calm(script: seq<Choice>) {
    forall i :: 0 <= i < |script| ==> script[i].ok
  }

  /** One step of a run that nothing disturbs. */
  lemma {:induction false} Forward(sha: Hash, w: World, op: Op, l: Local, script: seq<Choice>, i: nat, w': World,
                                   l': Local)
    requires i < |script| && !l.pc.Gone? && script[i].ok && Proceed(sha, w, op, l, script[i]) == (w', l')
    ensures Alone(sha, w, op, l, script, i) == Alone(sha, w', op, l', script, i + 1)
  {
  }

  /** A transition whose compare-and-swap cannot fail. */
  lemma {:induction false} TransitionAlone(sha: Hash, w: World, op: Op, l: Local, m: Move, script: seq<Choice>, i: nat)
    requires l.pc == Reading(m) && Allowed(w.row.state, m.to) && i + 2 <= |script| && Calm(script)
    ensures Alone(sha, w, op, l, script, i) ==
            Alone(sha, Swap(w, w.row.state, m, l.pass), op, l.(pc := Resume(m.next)), script, i + 2)
  {
    var from := w.row.state;
    Forward(sha, w, op, l, script, i, w, l.(pc := Swapping(from, m)));
    Forward(sha, w, op, l.(pc := Swapping(from, m)), script, i + 1,
            Swap(w, from, m, l.pass), l.(pc := Resume(m.next)));
  }

  const RELEASING: Local := Local(ReleaseRead, NO_PASS, Isolation)

  /** The payload renamed, and the new path recorded. */
  function Moved(w: World): World {
    w.(greenDir := true, green := w.iso, iso := None)
  }

  function Recorded(w: World): World {
    Moved(w).(row := w.row.(place := Green))
  }

  /** The last steps of a release, after n of them: seal, read, compare-and-swap. */
  function LastSteps(w: World, pass: Pass, n: nat): World
    requires w.green.Some? && w.row.state.Approved?
  {
    var sealed := w.(green := Some(w.green.value.(sealed := true)));
    if n == 0 then w else if n <= 2 then sealed
    else Swap(sealed, Approved, To(ReleasedToGreen, ToEnd(true), ToEnd(false)), pass)
  }

  /** The release of a payload that is still in isolation, after k of its steps. */
  function AfterSteps(w: World, k: nat): World
    requires w.iso.Some? && w.row.state.Approved?
  {
    if k <= 1 then w
    else if k <= 3 then w.(greenDir := true)
    else if k == 4 then Moved(w)
    else if k == 5 then Recorded(w)
    else LastSteps(Recorded(w), NO_PASS.(permitted := true), k - 6)
  }

  lemma {:induction false} ReleaseFromIsolation(sha: Hash, w: World, script: seq<Choice>)
    requires WorldOk(w) && w.row.state.Approved? && w.row.place.Isolation? && w.iso.Some?
    requires w.runtime && Permits(w.policy, w.row) && Calm(script)
    ensures Alone(sha, w, Release, RELEASING, script, 0).0 == AfterSteps(w, |script|)
    ensures |script| >= 10 ==> Alone(sha, w, Release, RELEASING, script, 0).1.pc.Gone?
  {
    if |script| >= 1 {
      BeginAlone(sha, w, script);
      if |script| >= 2 {
        var l := RELEASING.(pass := NO_PASS.(permitted := true));
        MakeDirAlone(sha, w, l, script, 1);
        if |script| >= 3 {
          FirstMoveAlone(sha, w.(greenDir := true), l, script);
          DirectoryIsAlike(w, |script|);
        }
      }
    }
  }

  lemma DirectoryIsAlike(w: World, k: nat)
    requires w.iso.Some? && w.row.state.Approved? && k >= 2
    ensures AfterSteps(w.(greenDir := true), k) == AfterSteps(w, k)
  {
  }

  lemma {:induction false} FirstMoveAlone(sha: Hash, w: World, l: Local, script: seq<Choice>)
    requires w.row.state.Approved? && w.iso.Some? && w.green.None? && w.greenDir && |script| >= 3 && Calm(script)
    requires l.pass == NO_PASS.(permitted := true)
    ensures var (w', l') := Alone(sha, w, Release, l.(pc := TargetExists), script, 2);
            w' == AfterSteps(w, |script|) && (|script| >= 10 ==> l'.pc.Gone?)
  {
    Forward(sha, w, Release, l.(pc := TargetExists), script, 2, w, l.(pc := MoveFile));
    if |script| >= 4 {
      MoveFileAlone(sha, w, l, script, 3);
      assert w.(green := w.iso, iso := None) == Moved(w);
      MovedAlone(sha, w, l, script);
    } else {
      assert w.(greenDir := true) == w;
    }
  }

  lemma {:induction false} MovedAlone(sha: Hash, w: World, l: Local, script: seq<Choice>)
    requires w.row.state.Approved? && w.iso.Some? && |script| >= 4 && Calm(script)
    requires l.pass == NO_PASS.(permitted := true)
    ensures var (w', l') := Alone(sha, Moved(w), Release, l.(pc := SavePath), script, 4);
            w' == AfterSteps(w, |script|) && (|script| >= 10 ==> l'.pc.Gone?)
  {
    if |script| >= 5 {
      SavePathAlone(sha, Moved(w), l, script, 4);
      RecordedAlone(sha, w, l, script);
    }
  }

  lemma {:induction false} RecordedAlone(sha: Hash, w: World, l: Local, script: seq<Choice>)
    requires w.row.state.Approved? && w.iso.Some? && |script| >= 5 && Calm(script)
    requires l.pass == NO_PASS.(permitted := true)
    ensures var (w', l') := Alone(sha, Recorded(w), Release, l.(pc := DropSource), script, 5);
            w' == AfterSteps(w, |script|) && (|script| >= 10 ==> l'.pc.Gone?)
  {
    if |script| >= 6 {
      DropSourceAlone(sha, Recorded(w), l, script, 5);
      SealAlone(sha, Recorded(w), l, script, 6);
    }
  }

  lemma {:induction false} BeginAlone(sha: Hash, w: World, script: seq<Choice>)
    requires w.row.state.Approved? && w.runtime && Permits(w.policy, w.row) && |script| >= 1 && Calm(script)
    ensures Alone(sha, w, Release, RELEASING, script, 0) ==
            Alone(sha, w, Release, Local(MakeDir, NO_PASS.(permitted := true), w.row.place), script, 1)
  {
    Forward(sha, w, Release, RELEASING, script, 0, w, Local(MakeDir, NO_PASS.(permitted := true), w.row.place));
  }

  lemma {:induction false} MakeDirAlone(sha: Hash, w: World, l: Local, script: seq<Choice>, i: nat)
    requires i < |script| && Calm(script)
    ensures Alone(sha, w, Release, l.(pc := MakeDir), script, i) ==
            Alone(sha, w.(greenDir := true), Release, l.(pc := if l.path.Green? then Seal else TargetExists), script,
                  i + 1)
  {
    Forward(sha, w, Release, l.(pc := MakeDir), script, i, w.(greenDir := true),
            l.(pc := if l.path.Green? then Seal else TargetExists));
  }

  lemma {:induction false} MoveFileAlone(sha: Hash, w: World, l: Local, script: seq<Choice>, i: nat)
    requires w.iso.Some? && w.greenDir && i < |script| && Calm(script)
    ensures Alone(sha, w, Release, l.(pc := MoveFile), script, i)
         == Alone(sha, w.(green := w.iso, iso := None), Release, l.(pc := SavePath), script, i + 1)
  {
    Forward(sha, w, Release, l.(pc := MoveFile), script, i, w.(green := w.iso, iso := None), l.(pc := SavePath));
  }

  lemma {:induction false} SavePathAlone(sha: Hash, w: World, l: Local, script: seq<Choice>, i: nat)
    requires w.row.state.Approved? && i < |script| && Calm(script)
    ensures Alone(sha, w, Release, l.(pc := SavePath), script, i)
         == Alone(sha, w.(row := w.row.(place := Green)), Release, l.(pc := DropSource), script, i + 1)
  {
    Forward(sha, w, Release, l.(pc := SavePath), script, i, w.(row := w.row.(place := Green)), l.(pc := DropSource));
  }

  lemma {:induction false} DropSourceAlone(sha: Hash, w: World, l: Local, script: seq<Choice>, i: nat)
    requires w.iso.None? && i < |script| && Calm(script)
    ensures Alone(sha, w, Release, l.(pc := DropSource), script, i)
         == Alone(sha, w, Release, l.(pc := Seal), script, i + 1)
  {
    assert w.(iso := None) == w;
    Forward(sha, w, Release, l.(pc := DropSource), script, i, w, l.(pc := Seal));
  }

  /** The last four steps: seal, read, compare-and-swap, end. */
  lemma {:induction false} SealAlone(sha: Hash, w: World, l: Local, script: seq<Choice>, i: nat)
    requires w.row.state.Approved? && w.green.Some? && i <= |script| && Calm(script)
    ensures var (w', l') := Alone(sha, w, Release, l.(pc := Seal), script, i);
            w' == LastSteps(w, l.pass, |script| - i) && (|script| >= i + 4 ==> l'.pc.Gone?)
  {
    var m := To(ReleasedToGreen, ToEnd(true), ToEnd(false));
    var sealed := w.(green := Some(w.green.value.(sealed := true)));
    if |script| > i {
      Forward(sha, w, Release, l.(pc := Seal), script, i, sealed, l.(pc := Reading(m)));
      if |script| == i + 2 {
        Forward(sha, sealed, Release, l.(pc := Reading(m)), script, i + 1, sealed, l.(pc := Swapping(Approved, m)));
      } else if |script| > i + 2 {
        TransitionAlone(sha, sealed, Release, l.(pc := Reading(m)), m, script, i + 1);
        EndAlone(sha, Swap(sealed, Approved, m, l.pass), l, true, script, i + 3);
      }
    }
  }

  lemma {:induction false} EndAlone(sha: Hash, w: World, l: Local, ok: bool, script: seq<Choice>, i: nat)
    requires i <= |script| && Calm(script)
    ensures var (w', l') := Alone(sha, w, Release, l.(pc := Ending(ok)), script, i);
            w' == w && (i < |script| ==> l'.pc.Gone?)
  {
    if i < |script| {
      Forward(sha, w, Release, l.(pc := Ending(ok)), script, i, w, l.(pc := Gone));
    }
  }

  /** Where a release arrives: released with the bytes it found. */
  ghost predicate Arrived(bytes: Bytes, w': World, l': Local) {
    && l'.pc.Gone? && w'.row.state.ReleasedToGreen? && w'.row.place.Green?
    && w'.green.Some? && w'.green.value.bytes == bytes && w'.iso.None?
  }

  lemma {:induction false} FirstReleaseArrives(sha: Hash, w: World, script: seq<Choice>)
    requires WorldOk(w) && w.row.state.Approved? && w.iso.Some?
    requires w.runtime && Permits(w.policy, w.row) && |script| >= 11 && Calm(script)
    ensures var (w', l') := Alone(sha, w, Release, RELEASING, script, 0); Arrived(w.iso.value.bytes, w', l')
  {
    assert !w.dropped && w.row.place.Isolation?;
    ReleaseFromIsolation(sha, w, script);
  }

  /** The release when the payload is already in the green directory: from the row, or from the file alone. */
  lemma {:induction false} ReleaseFromGreen(sha: Hash, w: World, script: seq<Choice>)
    requires WorldOk(w) && w.row.state.Approved? && w.green.Some? && (w.row.place.Green? || Intact(sha, w, Green))
    requires w.runtime && Permits(w.policy, w.row) && |script| >= 11 && Calm(script)
    ensures var (w', l') := Alone(sha, w, Release, RELEASING, script, 0); Arrived(w.green.value.bytes, w', l')
  {
    var l := RELEASING.(pass := NO_PASS.(permitted := true), path := w.row.place);
    var w1 := w.(greenDir := true);
    BeginAlone(sha, w, script);
    MakeDirAlone(sha, w, l, script, 1);
    assert w.iso.None? && !w.row.place.Purged?;
    if w.row.place.Green? {
      SealArrives(sha, w1, l, script, 2);
    } else {
      AdoptAlone(sha, w1, l, script, 2);
    }
  }

  lemma {:induction false} SealArrives(sha: Hash, w: World, l: Local, script: seq<Choice>, i: nat)
    requires w.row.state.Approved? && w.row.place.Green? && w.green.Some? && w.iso.None?
    requires |script| >= i + 4 && Calm(script)
    ensures var (w', l') := Alone(sha, w, Release, l.(pc := Seal), script, i); Arrived(w.green.value.bytes, w', l')
  {
    SealAlone(sha, w, l, script, i);
  }

  /** Recovery of a payload that was moved before the crash, its row still naming the isolation path. */
  lemma {:induction false} AdoptAlone(sha: Hash, w: World, l: Local, script: seq<Choice>, i: nat)
    requires w.row.state.Approved? && w.green.Some? && w.iso.None? && Intact(sha, w, Green) && |script| >= i + 9
    requires Calm(script)
    ensures var (w', l') := Alone(sha, w, Release, l.(pc := TargetExists), script, i);
            Arrived(w.green.value.bytes, w', l')
  {
    Forward(sha, w, Release, l.(pc := TargetExists), script, i, w, l.(pc := SourceGone));
    Forward(sha, w, Release, l.(pc := SourceGone), script, i + 1, w, l.(pc := VerifyTarget));
    Forward(sha, w, Release, l.(pc := VerifyTarget), script, i + 2, w, l.(pc := SavePath));
    SaveAlone(sha, w, l, script, i + 3);
  }

  lemma {:induction false} SaveAlone(sha: Hash, w: World, l: Local, script: seq<Choice>, i: nat)
    requires w.row.state.Approved? && w.green.Some? && w.iso.None? && |script| >= i + 6 && Calm(script)
    ensures var (w', l') := Alone(sha, w, Release, l.(pc := SavePath), script, i); Arrived(w.green.value.bytes, w', l')
  {
    var w2 := w.(row := w.row.(place := Green));
    SavePathAlone(sha, w, l, script, i);
    DropSourceAlone(sha, w2, l, script, i + 1);
    SealArrives(sha, w2, l, script, i + 2);
  }

  /**
   Release is crash-safe and idempotent. From any reachable approved transfer, wherever earlier attempts died or
   raised, an undisturbed attempt ends released with the green path in the row and the submitted bytes in the
   green file, and another attempt then changes nothing; unless a failed release has removed the payload.
   */
  lemma {:induction false} ReleaseRecovers(sha: Hash, s: System, script: seq<Choice>)
    requires Inv(sha, s) && !s.tampered && s.w.row.state.Approved?
    requires s.w.runtime && Permits(s.w.policy, s.w.row) && |script| >= 11 && Calm(script)
    ensures var w' := Alone(sha, s.w, Release, RELEASING, script, 0).0;
            if s.w.dropped then w'.row.state.Approved?
            else
              && w'.row.state.ReleasedToGreen? && w'.row.place.Green? && w'.iso.None?
              && w'.green.Some? && w'.green.value.bytes == s.submitted
              && Alone(sha, w', Release, RELEASING, script, 0).0 == w'
  {
    if s.w.dropped {
      DroppedAlone(sha, s.w, script);
      return;
    } else if s.w.green.Some? {
      ReleaseFromGreen(sha, s.w, script);
    } else {
      FirstReleaseArrives(sha, s.w, script);
    }
    var w' := Alone(sha, s.w, Release, RELEASING, script, 0).0;
    ReleasedAgain(sha, w', script);
  }

  /** Without a payload an undisturbed release fails. */
  lemma {:induction false} DroppedAlone(sha: Hash, w: World, script: seq<Choice>)
    requires w.row.state.Approved? && w.iso.None? && w.green.None? && w.runtime && Permits(w.policy, w.row)
    requires |script| >= 11 && Calm(script)
    ensures Alone(sha, w, Release, RELEASING, script, 0).0.row == w.row
  {
    var l := Local(MakeDir, NO_PASS.(permitted := true), w.row.place);
    var w1 := w.(greenDir := true);
    BeginAlone(sha, w, script);
    MakeDirAlone(sha, w, l, script, 1);
    if l.path.Green? {
      Forward(sha, w1, Release, l.(pc := Seal), script, 2, w1, l.(pc := Ending(false)));
      EndAlone(sha, w1, l, false, script, 3);
    } else {
      MissingAlone(sha, w1, l, script);
    }
  }

  lemma {:induction false} MissingAlone(sha: Hash, w: World, l: Local, script: seq<Choice>)
    requires w.iso.None? && w.green.None? && |script| >= 11 && Calm(script)
    ensures Alone(sha, w, Release, l.(pc := TargetExists), script, 2).0.row == w.row
  {
    Forward(sha, w, Release, l.(pc := TargetExists), script, 2, w, l.(pc := MoveFile));
    Forward(sha, w, Release, l.(pc := MoveFile), script, 3, w, l.(pc := FailedMove));
    CleansAlone(sha, w, l, script);
  }

  lemma {:induction false} CleansAlone(sha: Hash, w: World, l: Local, script: seq<Choice>)
    requires w.green.None? && |script| >= 11 && Calm(script)
    ensures Alone(sha, w, Release, l.(pc := FailedMove), script, 4).0.row == w.row
  {
    var w1 := w.(green := None, greenDir := false, dropped := w.dropped);
    Forward(sha, w, Release, l.(pc := FailedMove), script, 4, w, l.(pc := DropDir));
    Forward(sha, w, Release, l.(pc := DropDir), script, 5, w1, l.(pc := Ending(false)));
    EndAlone(sha, w1, l, false, script, 6);
  }

  lemma {:induction false} RefuseAlone(sha: Hash, w: World, l: Local, script: seq<Choice>, i: nat)
    requires w.row.state.Approved? && w.green.Some? && w.iso.None? && !Intact(sha, w, Green) && |script| >= i + 5
    requires Calm(script)
    ensures Alone(sha, w, Release, l.(pc := TargetExists), script, i).0 == w
  {
    Forward(sha, w, Release, l.(pc := TargetExists), script, i, w, l.(pc := SourceGone));
    Forward(sha, w, Release, l.(pc := SourceGone), script, i + 1, w, l.(pc := VerifyTarget));
    Forward(sha, w, Release, l.(pc := VerifyTarget), script, i + 2, w, l.(pc := FailedMove));
    Forward(sha, w, Release, l.(pc := FailedMove), script, i + 3, w, l.(pc := Ending(false)));
    EndAlone(sha, w, l, false, script, i + 4);
  }

  /**
   What the release hashes again, whoever has rewritten the payload since the approval: only a payload
   that an earlier attempt moved without recording it. In every other case the bytes go out as they are.
   */
  lemma {:induction false} PromotionIntegrity(sha: Hash, s: System, script: seq<Choice>)
    requires Inv(sha, s) && s.w.row.state.Approved? && !s.w.dropped
    requires s.w.runtime && Permits(s.w.policy, s.w.row) && |script| >= 11 && Calm(script)
    ensures var w, w' := s.w, Alone(sha, s.w, Release, RELEASING, script, 0).0;
            && (w'.row.state.ReleasedToGreen? <==>
                  !(&& w.row.place.Isolation? && w.green.Some?
                    && (|w.green.value.bytes| != w.row.size || sha(w.green.value.bytes) != w.row.digest)))
            && (w'.row.state.ReleasedToGreen? ==>
                  && w'.green.Some?
                  && w'.green.value.bytes == (if w.iso.Some? then w.iso else w.green).value.bytes)
            && (!w'.row.state.ReleasedToGreen? ==> w' == w.(greenDir := true))
  {
    if s.w.iso.Some? {
      FirstReleaseArrives(sha, s.w, script);
    } else if s.w.row.place.Green? || Intact(sha, s.w, Green) {
      ReleaseFromGreen(sha, s.w, script);
    } else {
      DamagedIsRefused(sha, s.w, script);
    }
  }

  lemma {:induction false} DamagedIsRefused(sha: Hash, w: World, script: seq<Choice>)
    requires w.row.state.Approved? && w.row.place.Isolation? && w.iso.None? && w.green.Some? && !Intact(sha, w, Green)
    requires w.runtime && Permits(w.policy, w.row) && |script| >= 11 && Calm(script)
    ensures Alone(sha, w, Release, RELEASING, script, 0).0 == w.(greenDir := true)
  {
    var l := Local(MakeDir, NO_PASS.(permitted := true), w.row.place);
    BeginAlone(sha, w, script);
    MakeDirAlone(sha, w, l, script, 1);
    RefuseAlone(sha, w.(greenDir := true), l, script, 2);
  }

  lemma {:induction false} ReleasedAgain(sha: Hash, w: World, script: seq<Choice>)
    requires w.row.state.ReleasedToGreen?
    ensures Alone(sha, w, Release, RELEASING, script, 0).0 == w
  {
    if |script| >= 1 {
      var ok := w.runtime && script[0].ok;
      var l := RELEASING.(pc := Ending(ok));
      assert Alone(sha, w, Release, RELEASING, script, 0) == Alone(sha, w, Release, l, script, 1);
      if |script| >= 2 {
        assert Alone(sha, w, Release, l, script, 1) == Alone(sha, w, Release, l.(pc := Gone), script, 2);
      }
    }
  }

  // ------------------------------------------------------------------------------------------
  // The startup storage check
  // ------------------------------------------------------------------------------------------

  /** The check made before recovery: the recorded path holds the recorded bytes, in production with the right mode. */
  predicate HardenAccepts(sha: Hash, w: World, production: bool) {
    match w.row.place
    case Purged => true
    case Isolation => Matches(sha, w.row, w.iso) && (production ==> !w.iso.value.sealed)
    case Green => Matches(sha, w.row, w.green) && (production ==> w.green.value.sealed)
  }

  /**
   The crash window of a first release. After a crash behind step k the service starts again exactly
   when the file was not yet moved or the new path was already committed, and in production also
   sealed. In the window the retry that would repair the transfer is never reached.
   */
  lemma {:induction false} ReleaseCrashWindow(sha: Hash, s: System, script: seq<Choice>, production: bool)
    requires Inv(sha, s) && !s.tampered && s.w.row.state.Approved? && s.w.row.place.Isolation? && s.w.iso.Some?
    requires s.w.runtime && Permits(s.w.policy, s.w.row) && Calm(script)
    ensures var w' := Alone(sha, s.w, Release, RELEASING, script, 0).0;
            HardenAccepts(sha, w', production) <==>
            |script| <= 3 || (if production then |script| >= 7 else |script| >= 5)
  {
    ReleaseFromIsolation(sha, s.w, script);
    if |script| <= 3 {
      assert AfterSteps(s.w, |script|).iso == s.w.iso;
    } else if |script| == 4 {
      assert AfterSteps(s.w, |script|) == Moved(s.w);
    } else {
      RecordedAccepted(sha, s.w, |script|, production);
    }
  }

  lemma RecordedAccepted(sha: Hash, w: World, k: nat, production: bool)
    requires w.row.state.Approved? && w.iso.Some? && !w.iso.value.sealed && Matches(sha, w.row, w.iso) && k >= 5
    ensures HardenAccepts(sha, AfterSteps(w, k), production) <==> !production || k >= 7
  {
  }
}
