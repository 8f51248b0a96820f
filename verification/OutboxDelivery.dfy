// The waiting loops of one delivery task as code: what wakes them is a script, and here is which wake decides, and
// with which claim the task goes on.

module OutboxDelivery {
  import opened Common
  import opened Runs
  import opened OutboxClaims

  // What a renewal came to; after a refused one the task looks whether the bundle is delivered.
  datatype Renewal = Renewed(expires: int) | Refused(delivered: bool)

  // A wake of a waiting task. Granted is the semaphore, Sent the end of all sends, Polled the state poll with
  // whether the bundle is delivered and any recipient is still connected.
  datatype Wake =
    | RenewalDue(renewal: Renewal)
    | Granted
    | Sent(anyOk: bool)
    | Polled(delivered: bool, connected: bool)
    | DeadlinePassed

  datatype Verdict =
    | StillWaiting
    | Proceed(claim: Claim)
    | DeliveredToAll
    | RetryWith(claim: Claim)
    | Abort

  /** The claim after some wakes: the expiry of the latest renewal that was granted. */
  function Current(claim: Claim, wakes: seq<Wake>): Claim {
    if wakes == [] then claim
    else
      var last := wakes[|wakes| - 1];
      var before := Current(claim, wakes[..|wakes| - 1]);
      if last.RenewalDue? && last.renewal.Renewed? then before.(expires := last.renewal.expires) else before
  }

  lemma CurrentAfter(claim: Claim, wakes: seq<Wake>, i: nat)
    requires i < |wakes|
    ensures Current(claim, wakes[..i + 1])
         == if wakes[i].RenewalDue? && wakes[i].renewal.Renewed?
            then Current(claim, wakes[..i]).(expires := wakes[i].renewal.expires) else Current(claim, wakes[..i])
  {
    assert wakes[..i + 1][..i] == wakes[..i];
  }

  lemma {:induction false} CurrentTogether(claim: Claim, a: seq<Wake>, b: seq<Wake>)
    ensures Current(Current(claim, a), b) == Current(claim, a + b)
    decreases |b|
  {
    if b == [] {
      assert a + b == a;
    } else {
      assert (a + b)[..|a + b| - 1] == a + b[..|b| - 1];
      CurrentTogether(claim, a, b[..|b| - 1]);
    }
  }

  predicate IsGrant(wake: Wake) { wake.RenewalDue? && wake.renewal.Renewed? }

  /** The claim carries the expiry of the last renewal that was granted; if none was, it is the one at the start. */
  lemma {:induction false} CurrentIsTheLatest(claim: Claim, wakes: seq<Wake>, i: nat)
    requires i <= |wakes| && (i > 0 ==> IsGrant(wakes[i - 1])) && forall j | i <= j < |wakes| :: !IsGrant(wakes[j])
    ensures Current(claim, wakes) == if i > 0 then claim.(expires := wakes[i - 1].renewal.expires) else claim
    decreases |wakes|
  {
    if wakes != [] {
      var before := wakes[..|wakes| - 1];
      if i < |wakes| { CurrentIsTheLatest(claim, before, i); } else { CurrentKeepsTheRest(claim, before); }
    }
  }

  lemma {:induction false} CurrentKeepsTheRest(claim: Claim, wakes: seq<Wake>)
    ensures Current(claim, wakes).bundle == claim.bundle && Current(claim, wakes).owner == claim.owner
    decreases |wakes|
  {
    if wakes != [] { CurrentKeepsTheRest(claim, wakes[..|wakes| - 1]); }
  }

  // The claim that a verdict carries.
  predicate Carries(verdict: Verdict, claim: Claim) {
    verdict.Proceed? || verdict.RetryWith? ==> verdict.claim == claim
  }

  predicate IsFenced(wake: Wake) { wake == RenewalDue(Refused(false)) }

  predicate ShowsDelivered(wake: Wake) {
    (wake.Polled? && wake.delivered) || (wake.RenewalDue? && wake.renewal == Refused(true))
  }

  // The ends of waiting for the acknowledgement without one: the deadline, or recipients that are gone.
  predicate GivesUp(wake: Wake) { wake.DeadlinePassed? || wake == Polled(false, false) }

  predicate DecidesSlot(wake: Wake) { wake.Granted? || (wake.RenewalDue? && wake.renewal.Refused?) }

  predicate DecidesSends(wake: Wake) { wake.Sent? || IsFenced(wake) }

  predicate DecidesAck(wake: Wake) { GivesUp(wake) || ShowsDelivered(wake) || IsFenced(wake) }

  /** The loop before the permit, and the same loop before the memory reservation: the first grant or refused renewal
      decides. */
  method AwaitSlot(claimed: Claim, wakes: seq<Wake>) returns (verdict: Verdict, count: nat)
    ensures count <= |wakes| && (forall i | 0 <= i < count :: !DecidesSlot(wakes[i]))
    ensures verdict.StillWaiting? <==> count == |wakes|
    ensures verdict.Proceed? <==> count < |wakes| && wakes[count].Granted?
    ensures verdict.Abort? <==> count < |wakes| && wakes[count].RenewalDue? && wakes[count].renewal.Refused?
    ensures Carries(verdict, Current(claimed, wakes[..count])) && !verdict.RetryWith? && !verdict.DeliveredToAll?
  {
    var claim := claimed;
    count := 0;
    while count < |wakes|
      invariant 0 <= count <= |wakes| && claim == Current(claimed, wakes[..count])
      invariant forall i | 0 <= i < count :: !DecidesSlot(wakes[i])
    {
      CurrentAfter(claimed, wakes, count);
      match wakes[count] {
        case Granted => return Proceed(claim), count;
        case RenewalDue(Renewed(expires)) => claim := claim.(expires := expires);
        case RenewalDue(Refused(_)) => return Abort, count;
        case _ =>
      }
      count := count + 1;
    }
    return StillWaiting, count;
  }

  /** The sending loop: the end of the sends or a refused renewal of a bundle that is not delivered decides. */
  method AwaitSends(claimed: Claim, wakes: seq<Wake>) returns (verdict: Verdict, count: nat)
    ensures count <= |wakes| && (forall i | 0 <= i < count :: !DecidesSends(wakes[i]))
    ensures verdict.StillWaiting? <==> count == |wakes|
    ensures verdict.Proceed? <==> count < |wakes| && wakes[count] == Sent(true)
    ensures verdict.RetryWith? <==> count < |wakes| && wakes[count] == Sent(false)
    ensures verdict.Abort? <==> count < |wakes| && IsFenced(wakes[count])
    ensures Carries(verdict, Current(claimed, wakes[..count])) && !verdict.DeliveredToAll?
  {
    var claim := claimed;
    count := 0;
    while count < |wakes|
      invariant 0 <= count <= |wakes| && claim == Current(claimed, wakes[..count])
      invariant forall i | 0 <= i < count :: !DecidesSends(wakes[i])
    {
      CurrentAfter(claimed, wakes, count);
      match wakes[count] {
        case Sent(anyOk) => return if anyOk then Proceed(claim) else RetryWith(claim), count;
        case RenewalDue(Renewed(expires)) => claim := claim.(expires := expires);
        case RenewalDue(Refused(delivered)) => if !delivered { return Abort, count; }
        case _ =>
      }
      count := count + 1;
    }
    return StillWaiting, count;
  }

  /** The loop for the acknowledgement: the deadline, a poll or a refused renewal decides, whichever comes first. */
  method WaitForAck(claimed: Claim, wakes: seq<Wake>) returns (verdict: Verdict, count: nat)
    ensures count <= |wakes| && (forall i | 0 <= i < count :: !DecidesAck(wakes[i]))
    ensures verdict.StillWaiting? <==> count == |wakes|
    ensures verdict.RetryWith? <==> count < |wakes| && GivesUp(wakes[count])
    ensures verdict.DeliveredToAll? <==> count < |wakes| && ShowsDelivered(wakes[count])
    ensures verdict.Abort? <==> count < |wakes| && IsFenced(wakes[count])
    ensures Carries(verdict, Current(claimed, wakes[..count])) && !verdict.Proceed?
  {
    var claim := claimed;
    count := 0;
    while count < |wakes|
      invariant 0 <= count <= |wakes| && claim == Current(claimed, wakes[..count])
      invariant forall i | 0 <= i < count :: !DecidesAck(wakes[i])
    {
      CurrentAfter(claimed, wakes, count);
      match wakes[count] {
        case DeadlinePassed => return RetryWith(claim), count;
        case Polled(delivered, connected) =>
          if delivered { return DeliveredToAll, count; }
          if !connected { return RetryWith(claim), count; }
        case RenewalDue(Renewed(expires)) => claim := claim.(expires := expires);
        case RenewalDue(Refused(delivered)) => return if delivered then DeliveredToAll else Abort, count;
        case _ =>
      }
      count := count + 1;
    }
    return StillWaiting, count;
  }

  // Some send of the transmission has succeeded.
  ghost predicate SendsSucceeded(before: seq<Wake>) {
    exists i | 0 <= i < |before| :: before[i] == Sent(true)
  }

  // The wakes that make a task retry: failed sends first, afterwards the deadline or lost recipients.
  ghost predicate RetryCause(before: seq<Wake>, wake: Wake) {
    if SendsSucceeded(before) then GivesUp(wake) else wake == Sent(false)
  }

  ghost predicate DeliveryCause(before: seq<Wake>, wake: Wake) {
    SendsSucceeded(before) && ShowsDelivered(wake)
  }

  ghost predicate Decides(before: seq<Wake>, wake: Wake) {
    RetryCause(before, wake) || DeliveryCause(before, wake) || IsFenced(wake)
  }

  // No wake before this one decides; whatever is known about the wakes as a whole is known about each prefix.
  ghost predicate Undecided(wakes: seq<Wake>, count: nat) {
    count <= |wakes| && forall i | 0 <= i < count :: !Decides(wakes[..i], wakes[i])
  }

  lemma SendingIsUndecided(wakes: seq<Wake>, sent: nat)
    requires sent <= |wakes| && forall i | 0 <= i < sent :: !DecidesSends(wakes[i])
    ensures Undecided(wakes, sent) && !SendsSucceeded(wakes[..sent])
  {
    forall i | 0 <= i < sent ensures !Decides(wakes[..i], wakes[i]) {
      assert !SendsSucceeded(wakes[..i]);
    }
  }

  lemma AwaitingIsUndecided(wakes: seq<Wake>, sent: nat, rest: seq<Wake>, more: nat)
    requires sent < |wakes| && wakes[sent] == Sent(true) && Undecided(wakes, sent) && sent + 1 + more <= |wakes|
    requires !SendsSucceeded(wakes[..sent])
    requires rest == wakes[sent + 1..] && forall i | 0 <= i < more :: !DecidesAck(rest[i])
    ensures Undecided(wakes, sent + 1 + more) && SendsSucceeded(wakes[..sent + 1 + more])
  {
    forall i | 0 <= i < sent + 1 + more ensures !Decides(wakes[..i], wakes[i]) {
      if i > sent {
        assert wakes[..i][sent] == Sent(true) && wakes[i] == rest[i - sent - 1];
      }
    }
    assert wakes[..sent + 1 + more][sent] == Sent(true);
  }

  /** From the first send to the verdict. Without recipients the task retries at once; otherwise the first wake that
      decides fixes the verdict, and the task waits exactly as long as none does. It retries exactly when all sends
      failed or, after a success, the deadline passed or the recipients are gone; it is done exactly when a wake after
      a successful send shows the bundle delivered; and it aborts exactly when a renewal is refused on a bundle that
      is not delivered. A retry carries the latest renewed claim. */
  method Transmit(claimed: Claim, recipients: nat, wakes: seq<Wake>) returns (verdict: Verdict, count: nat)
    ensures recipients == 0 ==> verdict == RetryWith(claimed) && count == 0
    ensures recipients > 0 ==>
              && Undecided(wakes, count)
              && (verdict.StillWaiting? <==> count == |wakes|)
              && (verdict.RetryWith? <==> count < |wakes| && RetryCause(wakes[..count], wakes[count]))
              && (verdict.DeliveredToAll? <==> count < |wakes| && DeliveryCause(wakes[..count], wakes[count]))
              && (verdict.Abort? <==> count < |wakes| && IsFenced(wakes[count]))
              && Carries(verdict, Current(claimed, wakes[..count])) && !verdict.Proceed?
  {
    if recipients == 0 {
      return RetryWith(claimed), 0;
    }
    verdict, count := AwaitSends(claimed, wakes);
    SendingIsUndecided(wakes, count);
    if !verdict.Proceed? { return; }
    var sent := count;
    var more;
    verdict, more := WaitForAck(verdict.claim, wakes[sent + 1..]);
    count := sent + 1 + more;
    ghost var rest := wakes[sent + 1..];
    AwaitingIsUndecided(wakes, sent, rest, more);
    CurrentAfter(claimed, wakes, sent);
    CurrentTogether(claimed, wakes[..sent + 1], rest[..more]);
    assert wakes[..count] == wakes[..sent + 1] + rest[..more];
    if more < |rest| { assert wakes[count] == rest[more]; }
  }

  // ---------------------------------------------------------------- the code and the transition system

  predicate SeesDelivered(s: State, t: TaskId) {
    t in s.tasks && IsDelivered(s, s.tasks[t].claim.bundle)
  }

  // What a step is to the waiting task: a wake, or nothing yet. A sender whose renewal is refused looks in its next step.
  function WakeOf(s: State, a: Action, t: TaskId): seq<Wake> {
    match a
    case Renew(u, _) =>
      if u != t || t !in s.tasks || s.tasks[t].now.None? then []
      else if HoldsAt(s.bundles, s.tasks[t].claim, s.tasks[t].now.value)
      then [RenewalDue(Renewed(s.tasks[t].now.value + 30_000))]
      else if s.tasks[t].phase.Sending? then []
      else [RenewalDue(Refused(SeesDelivered(s, t)))]
    case FinishSends(u, anyOk) => if u == t then [Sent(anyOk)] else []
    case Observe(u) =>
      if u != t || t !in s.tasks then []
      else if s.tasks[t].phase.SendingFenced? then [RenewalDue(Refused(SeesDelivered(s, t)))]
      else [Polled(true, true)]
    case GiveUpWaiting(u) => if u == t then [DeadlinePassed] else []
    case _ => []
  }

  ghost function WakesOf(s: State, actions: seq<Action>, t: TaskId): seq<Wake>
    requires Execute(Stepper(), s, actions).Some?
    decreases |actions|
  {
    if actions == [] then []
    else WakeOf(s, actions[0], t) + WakesOf(Stepper()(s, actions[0]).value, actions[1..], t)
  }

  // The task is there after every step.
  ghost predicate Stays(s: State, actions: seq<Action>, t: TaskId)
    requires Execute(Stepper(), s, actions).Some?
    ensures Stays(s, actions, t) ==> t in Execute(Stepper(), s, actions).value.tasks
    decreases |actions|
  {
    t in s.tasks && (actions != [] ==> Stays(Stepper()(s, actions[0]).value, actions[1..], t))
  }

  // The last of the wakes makes the task retry, and none before it decides.
  ghost predicate EndsInRetry(wakes: seq<Wake>) {
    && |wakes| > 0 && Undecided(wakes, |wakes| - 1)
    && RetryCause(wakes[..|wakes| - 1], wakes[|wakes| - 1])
  }

  ghost predicate Follows(s: State, t: TaskId, claimed: Claim, wakes: seq<Wake>) {
    t in s.tasks && s.tasks[t].claim == Current(claimed, wakes) &&
    match s.tasks[t].phase
    case Sending => Undecided(wakes, |wakes|) && !SendsSucceeded(wakes)
    case SendingFenced => Undecided(wakes, |wakes|) && !SendsSucceeded(wakes)
    case AwaitingAck => Undecided(wakes, |wakes|) && SendsSucceeded(wakes)
    case Retrying => EndsInRetry(wakes)
    case _ => false
  }

  lemma OneMoreWake(claimed: Claim, wakes: seq<Wake>, wake: Wake)
    requires Undecided(wakes, |wakes|)
    ensures Current(claimed, wakes + [wake])
         == if IsGrant(wake) then Current(claimed, wakes).(expires := wake.renewal.expires) else Current(claimed, wakes)
    ensures Undecided(wakes + [wake], |wakes|)
    ensures !Decides(wakes, wake) ==> Undecided(wakes + [wake], |wakes| + 1)
    ensures SendsSucceeded(wakes + [wake]) <==> SendsSucceeded(wakes) || wake == Sent(true)
    ensures RetryCause(wakes, wake) ==> EndsInRetry(wakes + [wake])
  {
    var more := wakes + [wake];
    assert more[..|wakes|] == wakes && more[|wakes|] == wake;
    assert forall i | 0 <= i < |wakes| :: more[..i] == wakes[..i] && more[i] == wakes[i];
    if SendsSucceeded(wakes) {
      var i :| 0 <= i < |wakes| && wakes[i] == Sent(true);
      assert more[i] == Sent(true);
    }
  }

  predicate Transmitting(phase: Phase) {
    phase.Sending? || phase.SendingFenced? || phase.AwaitingAck? || phase.Retrying?
  }

  // Without a wake a transmitting task stays where it is, or has just been refused a renewal.
  lemma NoWakeNoChange(s: State, a: Action, t: TaskId)
    requires t in s.tasks && Transmitting(s.tasks[t].phase) && WakeOf(s, a, t) == []
    requires Next(s, a).Some? && t in Next(s, a).value.tasks
    ensures var task' := Next(s, a).value.tasks[t];
      && task'.claim == s.tasks[t].claim
      && (task'.phase == s.tasks[t].phase || (s.tasks[t].phase.Sending? && task'.phase.SendingFenced?))
  {
    match a
    case ClaimReady(w, picks) => assert t !in picks.Values;
    case _ =>
  }

  // What a task makes of its wake.
  lemma WakeMovesOn(s: State, a: Action, t: TaskId, wake: Wake)
    requires t in s.tasks && Transmitting(s.tasks[t].phase) && WakeOf(s, a, t) == [wake]
    requires Next(s, a).Some? && t in Next(s, a).value.tasks
    ensures var (phase, task') := (s.tasks[t].phase, Next(s, a).value.tasks[t]);
      && task'.claim == (if IsGrant(wake) then s.tasks[t].claim.(expires := wake.renewal.expires) else s.tasks[t].claim)
      && match phase
         case Sending => if wake.Sent? then task'.phase == (if wake.anyOk then AwaitingAck else Retrying)
                         else IsGrant(wake) && task'.phase == Sending
         case SendingFenced => wake == RenewalDue(Refused(true)) && task'.phase == Sending
         case AwaitingAck => if wake.DeadlinePassed? then task'.phase == Retrying
                             else IsGrant(wake) && task'.phase == AwaitingAck
         case _ => false
  {
    match a
    case Renew(_, _) =>
    case FinishSends(_, _) =>
    case Observe(_) =>
    case _ =>
  }

  lemma StepFollows(s: State, a: Action, t: TaskId, claimed: Claim, wakes: seq<Wake>)
    requires Next(s, a).Some? && Follows(s, t, claimed, wakes) && t in Next(s, a).value.tasks
    ensures Follows(Next(s, a).value, t, claimed, wakes + WakeOf(s, a, t))
  {
    if WakeOf(s, a, t) == [] {
      NoWakeNoChange(s, a, t);
      assert wakes + [] == wakes;
    } else {
      var wake := WakeOf(s, a, t)[0];
      WakeMovesOn(s, a, t, wake);
      OneMoreWake(claimed, wakes, wake);
    }
  }

  lemma Together<T>(a: seq<T>, b: seq<T>, c: seq<T>)
    ensures a + b + c == a + (b + c)
  {}

  lemma {:induction false} RunFollows(s: State, actions: seq<Action>, t: TaskId, claimed: Claim, wakes: seq<Wake>)
    requires Execute(Stepper(), s, actions).Some? && Stays(s, actions, t) && Follows(s, t, claimed, wakes)
    ensures Follows(Execute(Stepper(), s, actions).value, t, claimed, wakes + WakesOf(s, actions, t))
    decreases |actions|
  {
    if actions == [] {
      assert wakes + [] == wakes;
    } else {
      var s' := Stepper()(s, actions[0]).value;
      Together(wakes, WakeOf(s, actions[0], t), WakesOf(s', actions[1..], t));
      StepFollows(s, actions[0], t, claimed, wakes);
      RunFollows(s', actions[1..], t, claimed, wakes + WakeOf(s, actions[0], t));
    }
  }

  /** In every run a delivering task goes as the code above decides on the wakes it has had: it is on its way to a retry
      exactly when there were no recipients or its last wake is the first that decides and makes it retry, it still
      sends or waits exactly when none decides, and its claim is the one the code carries. */
  lemma TasksFollowTheCode(s: State, t: TaskId, anyone: bool, actions: seq<Action>)
    requires t in s.tasks && s.tasks[t].phase.Recipients?
    requires var sending := Next(s, Snapshot(t, anyone)).value;
      Execute(Stepper(), sending, actions).Some? && Stays(sending, actions, t)
    ensures var sending := Next(s, Snapshot(t, anyone)).value;
      var (task, wakes) := (Execute(Stepper(), sending, actions).value.tasks[t], WakesOf(sending, actions, t));
      && (task.phase.Retrying? <==> !anyone || EndsInRetry(wakes))
      && (task.phase.Sending? || task.phase.SendingFenced? || task.phase.AwaitingAck? <==>
            anyone && Undecided(wakes, |wakes|))
      && (anyone ==> task.claim == Current(s.tasks[t].claim, wakes))
      && (!anyone ==> task.claim == s.tasks[t].claim)
  {
    var sending := Next(s, Snapshot(t, anyone)).value;
    if anyone {
      RunFollows(sending, actions, t, s.tasks[t].claim, []);
      var wakes := WakesOf(sending, actions, t);
      assert [] + wakes == wakes;
      if EndsInRetry(wakes) { assert Decides(wakes[..|wakes| - 1], wakes[|wakes| - 1]); }
    } else {
      RetryingStays(sending, actions, t);
    }
  }

  lemma {:induction false} RetryingStays(s: State, actions: seq<Action>, t: TaskId)
    requires Execute(Stepper(), s, actions).Some? && Stays(s, actions, t) && s.tasks[t].phase.Retrying?
    ensures var s' := Execute(Stepper(), s, actions).value;
      t in s'.tasks && s'.tasks[t].phase.Retrying? && s'.tasks[t].claim == s.tasks[t].claim
    decreases |actions|
  {
    if actions != [] { RetryingStays(Next(s, actions[0]).value, actions[1..], t); }
  }

  /** And it leaves only when it is dropped or shut down, with its retry, or on a wake that shows the bundle delivered
      or the claim lost. */
  lemma LeavingIsDecided(s: State, a: Action, t: TaskId, claimed: Claim, wakes: seq<Wake>)
    requires Next(s, a).Some? && Follows(s, t, claimed, wakes) && t !in Next(s, a).value.tasks
    ensures
      || a == Drop(t) || a == Shutdown(s.tasks[t].claim.owner)
      || (a == Retry(t) && EndsInRetry(wakes))
      || (Undecided(wakes, |wakes|) && |WakeOf(s, a, t)| == 1
          && (DeliveryCause(wakes, WakeOf(s, a, t)[0]) || IsFenced(WakeOf(s, a, t)[0])))
  {}
}
