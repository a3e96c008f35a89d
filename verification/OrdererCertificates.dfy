/** When an orderer node's certificates are renewed. Times are in seconds; every clock reading, the
    outcome of every remote call and the expiry of every issued certificate is a parameter. */
module OrdererCertificates {
  import opened Collections

  const UPDATE_MARGIN := 300
  const AFTER_RENEWAL := 60
  const AFTER_UPGRADE := 3600
  const AFTER_NOTHING := 10

  /** `updateCertificateTime` is the requested time; auto-renewal is the controller's own setting. */
  datatype Policy = Policy(updateCertificateTime: Option<int>, autoRenew: bool, delta: int)

  datatype Phase = Pending | Running | UpdatingCertificates | Failed | Unknown

  /** A renewal may fail before the chart is upgraded, or after, when the certificate is new already. */
  datatype Renewal =
    | Renewed(notAfter: int)
    | FailedBefore
    | FailedAfter(notAfter: int)

  /** One reconcile's clock readings (`start` when it decides, `done` after a renewal) and outcomes. */
  datatype Turn = Turn(
    start: int, done: int, renewal: Renewal, pendingUpgrade: bool, upgradeOk: bool,
    phase: Option<Phase>, otherStatusChanged: bool, statusStored: bool, failureStored: bool)

  datatype Outcome = Requeue(after: int) | NoRequeue | Error

  // ----- The decision and one reconcile, as functions -----

  /** A renewal is due: the requested time lies after the last update, or there was none, or the
      certificate runs out within the margin. */
  predicate Due(last: Option<int>, notAfter: int, policy: Policy, now: int) {
    || (policy.updateCertificateTime.Some? && (last.None? || policy.updateCertificateTime.value > last.value))
    || (policy.autoRenew && notAfter < now + policy.delta)
  }

  datatype Node = Node(last: Option<int>, notAfter: int)

  function After(n: Node, policy: Policy, t: Turn): Node {
    if !Due(n.last, n.notAfter, policy, t.start) then n
    else
      match t.renewal
      case FailedBefore => n
      case FailedAfter(notAfter) => n.(notAfter := notAfter)
      case Renewed(notAfter) =>
        if t.phase.Some? && t.statusStored then Node(Some(t.done + UPDATE_MARGIN), notAfter)
        else n.(notAfter := notAfter)
  }

  /** The phase cannot be read, after a renewal or upgrade that went well. */
  predicate StateUnknown(t: Turn, renews: bool) {
    t.phase.None? && (if renews then t.renewal.Renewed? else t.pendingUpgrade || t.upgradeOk)
  }

  /** The renewal, the upgrade or the status update fails. */
  predicate Fails(t: Turn, renews: bool, last: Option<int>) {
    || (renews && !t.renewal.Renewed?)
    || (!renews && !t.pendingUpgrade && !t.upgradeOk)
    || (t.phase.Some? && !t.statusStored && (t.otherStatusChanged || (renews && last != Some(t.done + 300))))
  }

  /** When to look again, in seconds. */
  function WaitAfter(phase: Phase, renews: bool, pendingUpgrade: bool): int {
    match phase
    case Pending => 10
    case Failed => 10
    case Unknown => 2
    case _ => if renews then 60 else if pendingUpgrade then 10 else 3600
  }

  // ----- The controller -----

  class OrdererNode {
    var lastCertificateUpdate: Option<int>
    var notAfter: int

    ghost function Contents(): Node
      reads this
    {
      Node(lastCertificateUpdate, notAfter)
    }

    constructor (notAfter: int)
      ensures Contents() == Node(None, notAfter)
    {
      lastCertificateUpdate := None;
      this.notAfter := notAfter;
    }

    method Reconcile(policy: Policy, t: Turn) returns (renews: bool, r: Outcome)
      modifies this
      ensures renews == Due(old(lastCertificateUpdate), old(notAfter), policy, t.start)
      ensures policy.updateCertificateTime.Some? && old(lastCertificateUpdate).None? ==> renews
      ensures (policy.updateCertificateTime.Some? && old(lastCertificateUpdate).Some?
               && old(lastCertificateUpdate).value < policy.updateCertificateTime.value) ==> renews
      ensures policy.autoRenew && old(notAfter) - t.start < policy.delta ==> renews
      ensures renews ==>
        || (policy.autoRenew && old(notAfter) - t.start < policy.delta)
        || (policy.updateCertificateTime.Some?
            && (old(lastCertificateUpdate).None? || old(lastCertificateUpdate).value < policy.updateCertificateTime.value))
      ensures lastCertificateUpdate ==
        (if renews && t.renewal.Renewed? && t.phase.Some? && t.statusStored then Some(t.done + 300)
         else old(lastCertificateUpdate))
      ensures notAfter == (if renews && !t.renewal.FailedBefore? then t.renewal.notAfter else old(notAfter))
      ensures Contents() == After(old(Contents()), policy, t)
      ensures r == (if Fails(t, renews, old(lastCertificateUpdate)) then if t.failureStored then NoRequeue else Error
                    else if StateUnknown(t, renews) then Error
                    else Requeue(WaitAfter(t.phase.value, renews, t.pendingUpgrade)))
    {
      var lastTimeCertsRenewed := lastCertificateUpdate;
      var requested := policy.updateCertificateTime;
      var certificatesNeedToBeRenewed := false;
      if lastCertificateUpdate.Some? && requested.Some? && requested.value > lastCertificateUpdate.value {
        certificatesNeedToBeRenewed := true;
      }
      if lastTimeCertsRenewed.None? && requested.Some? {
        certificatesNeedToBeRenewed := true;
      }
      if policy.autoRenew && notAfter < t.start + policy.delta {
        certificatesNeedToBeRenewed := true;
      }
      renews := certificatesNeedToBeRenewed;
      var requeueAfter := AFTER_NOTHING;
      if certificatesNeedToBeRenewed {
        if !t.renewal.FailedBefore? { notAfter := t.renewal.notAfter; }
        if !t.renewal.Renewed? { return renews, if t.failureStored then NoRequeue else Error; }
        lastTimeCertsRenewed := Some(t.done + UPDATE_MARGIN);
        requeueAfter := AFTER_RENEWAL;
      } else if !t.pendingUpgrade {
        if !t.upgradeOk { return renews, if t.failureStored then NoRequeue else Error; }
        requeueAfter := AFTER_UPGRADE;
      }
      if t.phase.None? { return renews, Error; }
      if lastTimeCertsRenewed != lastCertificateUpdate || t.otherStatusChanged {
        if !t.statusStored { return renews, if t.failureStored then NoRequeue else Error; }
        lastCertificateUpdate := lastTimeCertsRenewed;
      }
      match t.phase.value {
        case Pending => r := Requeue(10);
        case Running => r := Requeue(requeueAfter);
        case UpdatingCertificates => r := Requeue(requeueAfter);
        case Failed => r := Requeue(10);
        case Unknown => r := Requeue(2);
      }
    }
  }

  // ----- Runs -----

  function Run(n: Node, policy: Policy, turns: seq<Turn>): Node {
    if turns == [] then n
    else After(Run(n, policy, turns[..|turns| - 1]), policy, turns[|turns| - 1])
  }

  predicate RenewsAt(n: Node, policy: Policy, turns: seq<Turn>, i: nat)
    requires i < |turns|
  {
    var before := Run(n, policy, turns[..i]);
    Due(before.last, before.notAfter, policy, turns[i].start)
  }

  /** The renewal succeeded and its time was written to the status. */
  predicate Recorded(t: Turn) {
    t.renewal.Renewed? && t.phase.Some? && t.statusStored
  }

  // ----- A requested time, without auto-renewal -----

  ghost predicate Settled(n: Node, u: int) {
    n.last.Some? && n.last.value >= u
  }

  lemma {:induction false} SettledStays(n: Node, policy: Policy, turns: seq<Turn>, i: nat, j: nat)
    requires !policy.autoRenew && policy.updateCertificateTime.Some?
    requires i <= j <= |turns| && Settled(Run(n, policy, turns[..i]), policy.updateCertificateTime.value)
    ensures Settled(Run(n, policy, turns[..j]), policy.updateCertificateTime.value)
    decreases j
  {
    if i < j {
      SettledStays(n, policy, turns, i, j - 1);
      assert turns[..j][..j - 1] == turns[..j - 1];
    }
  }

  /** Without auto-renewal no reconcile renews after one that renewed, recorded, at a time whose
      margin reaches the requested time. */
  lemma {:induction false} NoRenewalAfterMargin(n: Node, policy: Policy, turns: seq<Turn>, i: nat, j: nat)
    requires !policy.autoRenew && policy.updateCertificateTime.Some?
    requires i < j < |turns| && RenewsAt(n, policy, turns, i) && Recorded(turns[i])
    requires turns[i].done + UPDATE_MARGIN >= policy.updateCertificateTime.value
    ensures !RenewsAt(n, policy, turns, j)
  {
    assert turns[..i + 1][..i] == turns[..i];
    SettledStays(n, policy, turns, i + 1, j);
  }

  /** What decides is the record: the reconcile after one that renewed renews again exactly when the
      renewal was not recorded, or was recorded too early. */
  lemma {:induction false} RenewsAgainIff(n: Node, policy: Policy, turns: seq<Turn>, i: nat)
    requires !policy.autoRenew && policy.updateCertificateTime.Some?
    requires i + 1 < |turns| && RenewsAt(n, policy, turns, i)
    ensures RenewsAt(n, policy, turns, i + 1) <==>
            !Recorded(turns[i]) || turns[i].done + UPDATE_MARGIN < policy.updateCertificateTime.value
  {
    assert turns[..i + 1][..i] == turns[..i];
  }

  function Renewals(n: Node, policy: Policy, turns: seq<Turn>): nat {
    if turns == [] then 0
    else
      var front, t := turns[..|turns| - 1], turns[|turns| - 1];
      var before := Run(n, policy, front);
      Renewals(n, policy, front) + (if Due(before.last, before.notAfter, policy, t.start) then 1 else 0)
  }

  /** Reconciles that may be followed by another renewal: those too early for the margin, and those
      whose renewal was not recorded. */
  function Inconclusive(n: Node, policy: Policy, turns: seq<Turn>, u: int): nat {
    if turns == [] then 0
    else
      var front, t := turns[..|turns| - 1], turns[|turns| - 1];
      var before := Run(n, policy, front);
      var due := Due(before.last, before.notAfter, policy, t.start);
      Inconclusive(n, policy, front, u) + (if t.done + UPDATE_MARGIN < u || (due && !Recorded(t)) then 1 else 0)
  }

  /** So the renewals are at most one plus the inconclusive reconciles. */
  lemma {:induction false} RenewalsBounded(n: Node, policy: Policy, turns: seq<Turn>)
    requires !policy.autoRenew && policy.updateCertificateTime.Some?
    ensures var u := policy.updateCertificateTime.value;
      && Renewals(n, policy, turns) <= Inconclusive(n, policy, turns, u) + 1
      && (!Settled(Run(n, policy, turns), u) ==> Renewals(n, policy, turns) <= Inconclusive(n, policy, turns, u))
  {
    if turns != [] { RenewalsBounded(n, policy, turns[..|turns| - 1]); }
  }

  /** Without auto-renewal and without a requested time nothing is ever renewed. */
  lemma {:induction false} NothingRequested(n: Node, policy: Policy, turns: seq<Turn>)
    requires !policy.autoRenew && policy.updateCertificateTime.None?
    ensures Run(n, policy, turns) == n && Renewals(n, policy, turns) == 0
  {
    if turns != [] { NothingRequested(n, policy, turns[..|turns| - 1]); }
  }

  // ----- Auto-renewal -----

  /** Renewals succeed and issue certificates that last at least the margin, and each reconcile is
      over within `gap` of the start of the one before. */
  ghost predicate Punctual(policy: Policy, turns: seq<Turn>, gap: int) {
    && (forall i :: 0 <= i < |turns| ==>
          turns[i].start <= turns[i].done && turns[i].renewal.Renewed?
          && turns[i].renewal.notAfter >= turns[i].done + policy.delta)
    && (forall i :: 0 <= i < |turns| - 1 ==> turns[i + 1].done <= turns[i].start + gap)
  }

  /** After a reconcile the certificate lasts the margin from its start. */
  lemma {:induction false} LastsFromStart(n: Node, policy: Policy, turns: seq<Turn>, gap: int)
    requires policy.autoRenew && turns != [] && Punctual(policy, turns, gap)
    ensures Run(n, policy, turns).notAfter >= turns[|turns| - 1].start + policy.delta
  {
  }

  /** With auto-renewal, from the first reconcile on the certificate in use always has at least the
      margin less the gap left: at every time up to the end of the next reconcile. */
  lemma {:induction false} AlwaysLeft(n: Node, policy: Policy, turns: seq<Turn>, gap: int, i: nat, time: int)
    requires policy.autoRenew && Punctual(policy, turns, gap)
    requires i + 1 < |turns| && time <= turns[i + 1].done
    ensures Run(n, policy, turns[..i + 1]).notAfter - time >= policy.delta - gap
  {
    assert turns[..i + 1][i] == turns[i];
    LastsFromStart(n, policy, turns[..i + 1], gap);
    assert turns[i + 1].done <= turns[i].start + gap;
  }
}
