/** Change-set and operation records, and the checks that read one record alone. */
module Records {
  import opened Lifecycle
  import opened Text
  import Json

  datatype WaiverKind = LabMode | OperatorFile | OperatorTool

  datatype Waiver = Waiver(kind: WaiverKind, reason: string, expiresAt: Option<nat>, ticket: Option<string>)

  datatype Approval = Approval(
    approver: Option<string>, approvedAt: nat, digest: string, digestVersion: nat, waived: Option<Waiver>)

  datatype Preview = Preview(artifact: string, digest: string, jobId: Option<string>)

  /** The parts of a change set that no check below compares field by field. */
  datatype Plan = Plan(
    fingerprint: string, actions: seq<Json.Json>, policySignature: string, targets: seq<string>,
    operationId: Option<string>)

  datatype ChangeSet = ChangeSet(
    id: string, owner: string, device: string, plan: Plan, digest: string,
    state: ChangeSetState, approver: Option<string>, approval: Option<Approval>, expiresAt: nat,
    preview: Option<Preview>, taskId: Option<string>, applyWithoutHandle: bool)

  datatype Operation = Operation(
    id: string, owner: string, device: string, endpoint: string, changeSetId: Option<string>, current: string,
    state: OperationState, jobId: Option<string>, details: Option<string>, lockHeld: bool,
    policySignature: string, attribution: Option<string>, rollbackDeadline: Option<nat>)

  /** The coordinator's in-memory state, and equally one snapshot of its file. */
  datatype Store = Store(operations: map<string, Operation>, changeSets: map<string, ChangeSet>)

  /** Limits, and the digest function a preview artifact is bound with. */
  datatype Config = Config(
    maxOperations: nat, maxChangeSets: nat, maxTargets: nat, maxPreview: nat, previewDigest: string -> string)

  datatype Refusal =
    | BadTargets | BadPreview | NotPlanned | BornApproved | AlreadyExists | StoreFull | PendingExists
    | BadId | Unknown | WrongDevice | NotApproved | Moved | IdentityFixed | ClaimOnly | ApprovalFixed
    | NotRunning | PreviewBound | SelfApproval | ForbiddenTransition | MarkerCleared | DeviceBusy | PersistFailed
    | NotHuman | DigestMismatch | WindowClosed | BarInPrincipal | NotOwner | LabModeOff | WaiverPast | NotCancellable

  datatype Reply = Done | Refused(why: Refusal)

  predicate ValidTargets(r: ChangeSet, maximum: nat) {
    r.plan.targets == [] ||
    (|r.plan.targets| <= maximum
     && (forall i :: 0 <= i < |r.plan.targets| ==> r.plan.targets[i] != "")
     && (forall i :: 0 < i < |r.plan.targets| ==> Less(r.plan.targets[i - 1], r.plan.targets[i]))
     && r.device in r.plan.targets)
  }

  /** A stored preview is well formed and its digest is that of its own text. */
  predicate PreviewConsistent(cfg: Config, r: ChangeSet) {
    r.preview.None? ||
    (ValidDigest(r.preview.value.digest)
     && cfg.previewDigest(r.preview.value.artifact) == r.preview.value.digest)
  }

  predicate ValidPreview(cfg: Config, r: ChangeSet) {
    r.preview.None? || (|r.preview.value.artifact| <= cfg.maxPreview && PreviewConsistent(cfg, r))
  }

  function PreviewDigestOf(r: ChangeSet): Option<string> {
    match r.preview
    case None => None
    case Some(p) => Some(p.digest)
  }

  /** A two-person approval, as opposed to a waiver. */
  predicate Genuine(r: ChangeSet) {
    r.approval.Some? && r.approval.value.approver.Some?
  }

  /** A genuine approval whose digest covers the preview. */
  predicate BindsPreview(r: ChangeSet) {
    Genuine(r) && r.approval.value.digestVersion >= 5
  }

  predicate SelfApproved(r: ChangeSet) {
    r.approver == Some(r.owner) || (r.approval.Some? && r.approval.value.approver == Some(r.owner))
  }

  /** Whether a time-boxed waiver that approved the record has run out. */
  predicate WaiverLapsed(r: ChangeSet, now: nat) {
    r.approval.Some? && r.approval.value.waived.Some?
    && r.approval.value.waived.value.expiresAt.Some?
    && now >= r.approval.value.waived.value.expiresAt.value
  }

  /** An empty task handle names no vendor operation, so it is dropped. */
  function NormaliseTask(r: ChangeSet): (n: ChangeSet)
    ensures n.taskId != Some("")
    ensures n == if r.taskId == Some("") then r.(taskId := None) else r
  {
    if r.taskId == Some("") then r.(taskId := None) else r
  }

  /** The handleless marker only means something while an apply is in flight. */
  function NormaliseMarker(r: ChangeSet): (n: ChangeSet)
    ensures n.applyWithoutHandle ==> n.state.Applying?
    ensures n == r.(applyWithoutHandle := r.applyWithoutHandle && r.state.Applying?)
  {
    if r.state.Applying? then r else r.(applyWithoutHandle := false)
  }

  function Normalise(r: ChangeSet): ChangeSet {
    NormaliseMarker(NormaliseTask(r))
  }
}
