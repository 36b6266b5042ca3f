/** The order-status screen: a status from a fixed ordered list, the four
    progress steps it completes and the parts of the screen it shows. */
module OrderStatus {
  import opened Common

  /** `'none' | 'confirmed' | 'preparing' | 'ready' | 'served'`, in that order. */
  datatype Status = NoOrder | Confirmed | Preparing | Ready | Served

  /** The position of a status in the order none < confirmed < preparing <
      ready < served. */
  function Rank(s: Status): nat {
    match s
    case NoOrder => 0
    case Confirmed => 1
    case Preparing => 2
    case Ready => 3
    case Served => 4
  }

  /** One progress step: its key, its label (`name`) and the statuses for which the
      screen marks it completed. */
  datatype Step = Step(key: Status, name: string, completedWhen: seq<Status>)

  const Steps: seq<Step> := [
    Step(Confirmed, "Confirmed", [Confirmed, Preparing, Ready, Served]),
    Step(Preparing, "Preparing", [Preparing, Ready, Served]),
    Step(Ready, "Ready", [Ready, Served]),
    Step(Served, "Served", [Served])
  ]

  /** Step `k` is completed under `status` (the `includes` test). */
  predicate Completed(k: nat, status: Status)
    requires k < |Steps|
  {
    status in Steps[k].completedWhen
  }

  /** The four completed flags, in step order. */
  function CompletedFlags(status: Status): (flags: seq<bool>)
    ensures |flags| == |Steps|
  {
    seq(|Steps|, k requires 0 <= k < |Steps| => Completed(k, status))
  }

  /** What the header card shows for a status. */
  datatype Icon = ClockIcon | CheckCircleIcon | ChefHatIcon | UtensilsIcon

  datatype Config = Config(icon: Icon, color: string, bgColor: string)

  /** `statusConfig[status]`, without the translated title and description. */
  function StatusConfig(status: Status): Config {
    match status
    case NoOrder => Config(ClockIcon, "muted", "bg-muted")
    case Confirmed => Config(CheckCircleIcon, "primary", "bg-primary")
    case Preparing => Config(ChefHatIcon, "order-preparing", "bg-order-preparing")
    case Ready => Config(UtensilsIcon, "order-ready", "bg-order-ready")
    case Served => Config(CheckCircleIcon, "order-ready", "bg-order-ready")
  }

  /** The order-number badge is shown. */
  predicate ShowsOrderNumber(status: Status) {
    status != NoOrder
  }

  /** The progress card is shown. */
  predicate ShowsProgress(status: Status) {
    status != NoOrder
  }

  /** The estimated-time line is shown. */
  predicate ShowsEstimatedTime(status: Status) {
    status == Confirmed || status == Preparing
  }

  /** The "while you wait" card is shown. */
  predicate ShowsWaitingCard(status: Status) {
    status == Confirmed || status == Preparing
  }

  /** The `estimatedTime` property, 20 minutes when the caller gives none. */
  function EstimatedTime(given: Option<int>): int {
    given.GetOr(20)
  }

  // ---------------------------------------------------------------------------

  /** Step `k` is completed exactly when the status has reached that step's
      own status in the order; each step's key sits at position k + 1. */
  lemma CompletedIffReached(k: nat, status: Status)
    requires k < |Steps|
    ensures Rank(Steps[k].key) == k + 1
    ensures Completed(k, status) <==> Rank(status) >= Rank(Steps[k].key)
  {
    assert k in {0, 1, 2, 3};
  }

  /** With no order nothing is completed; once served everything is. */
  lemma NoneAndServed()
    ensures forall k :: 0 <= k < |Steps| ==> !CompletedFlags(NoOrder)[k]
    ensures forall k :: 0 <= k < |Steps| ==> CompletedFlags(Served)[k]
  {
    forall k | 0 <= k < |Steps| ensures !Completed(k, NoOrder) && Completed(k, Served) {
      CompletedIffReached(k, NoOrder);
      CompletedIffReached(k, Served);
    }
  }

  /** The completed steps form a prefix: a completed step has all earlier
      steps completed. */
  lemma CompletedIsMonotone(status: Status, j: nat, k: nat)
    requires j <= k < |Steps|
    requires CompletedFlags(status)[k]
    ensures CompletedFlags(status)[j]
  {
    CompletedIffReached(j, status);
    CompletedIffReached(k, status);
  }

  /** Later statuses complete more steps. */
  lemma LaterStatusCompletesMore(s1: Status, s2: Status, k: nat)
    requires Rank(s1) <= Rank(s2) && k < |Steps|
    requires Completed(k, s1)
    ensures Completed(k, s2)
  {
    CompletedIffReached(k, s1);
    CompletedIffReached(k, s2);
  }

  /** The badge and the progress card appear exactly when the first step is
      completed; the estimated time and the waiting card exactly when the
      first step is completed and the "Ready" step is not. */
  lemma VisibilityFollowsSteps(status: Status)
    ensures ShowsOrderNumber(status) <==> CompletedFlags(status)[0]
    ensures ShowsProgress(status) <==> CompletedFlags(status)[0]
    ensures ShowsEstimatedTime(status) <==> CompletedFlags(status)[0] && !CompletedFlags(status)[2]
    ensures ShowsWaitingCard(status) <==> ShowsEstimatedTime(status)
  {
    CompletedIffReached(0, status);
    CompletedIffReached(2, status);
  }

  /** Each status has its own header look, and the background class always
      belongs to the text color. */
  lemma ConfigIsConsistent(s1: Status, s2: Status)
    ensures StatusConfig(s1).bgColor == "bg-" + StatusConfig(s1).color
    ensures StatusConfig(s1) == StatusConfig(s2) ==> s1 == s2
  {
  }

  /** Without a given time the screen says 20 minutes; a given time is shown as is. */
  lemma EstimatedTimeDefault(t: int)
    ensures EstimatedTime(None) == 20
    ensures EstimatedTime(Some(t)) == t
  {
  }

  /** Reading the steps for a preparing order: "Confirmed" is done, "Ready" is not. */
  lemma PreparingScenario()
    ensures CompletedFlags(Preparing) == [true, true, false, false]
  {
    CompletedIffReached(0, Preparing);
    CompletedIffReached(1, Preparing);
    CompletedIffReached(2, Preparing);
    CompletedIffReached(3, Preparing);
  }
}
