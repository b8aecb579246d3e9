/** Safety of the billing protocol over whole runs. */
module BillingProofs {
  import opened Base
  import opened Hook
  import opened Billing
  import opened BillingRuns

  // ---------------------------------------------------------------- one approval, one charge

  /** The approval a charge spends, if the entry is a charge: a pull, or a plan change that costs. */
  function Spent(e: Entry): Option<Approval> {
    match e
    case Pulled(_, _, a, _, _, _, _, _, _, _) => Some(a)
    case Changed(_, _, consumed) => consumed
    case _ => None
  }

  function MovedBy(e: Entry): int {
    match e
    case Pulled(_, _, _, _, _, _, _, _, _, moved) => moved
    case Changed(_, delta, _) => Max(0, delta)
    case _ => 0
  }

  /** An entry after which the stored approval is not what it was. */
  predicate Overwrites(e: Entry) {
    e.Accepted? || Spent(e).Some? || (e.Requested? && e.offset.slot.flow != BillingRecord)
  }

  /** The callback that wrote the approval now stored, unless that has been spent or blanked since. */
  function Source(log: seq<Entry>): (r: Option<nat>)
    ensures r.Some? ==> r.value < |log| && log[r.value].Accepted?
                        && forall k :: r.value < k < |log| ==> !Overwrites(log[k])
  {
    if log == [] then None
    else
      var n := |log| - 1;
      if log[n].Accepted? then Some(n)
      else if Overwrites(log[n]) then None
      else Source(log[..n])
  }

  /** An approval that is stored and granted was written by a callback of this run. */
  predicate Provenance(w: World, log: seq<Entry>) {
    w.approval.Some? && w.approval.value.approved ==>
      Source(log).Some? && log[Source(log).value].approval == w.approval.value
  }

  lemma {:induction false} StepProvenance(w: World, log: seq<Entry>, now: i64, e: Entry, after: World)
    requires Provenance(w, log) && Moves(w, now, e, after)
    ensures Provenance(after, log + [e])
  {
    hide TermsHash, Bound, OpenReport, InPeriod, SameNonces, SameParties, Busy;
    assert (log + [e])[..|log|] == log;
  }

  lemma {:induction false} RunProvenance(w: World, acts: seq<Act>)
    requires Sane(w) && w.approval == None
    ensures Provenance(Run(w, acts), Log(w, acts))
  {
    hide Moves, Provenance, After, EntryOf, Sane;
    if acts == [] {
      FreshProvenance(w);
    } else {
      var n := |acts| - 1;
      RunProvenance(w, acts[..n]);
      LogMoves(w, acts, n);
      assert acts[..n + 1] == acts;
      StepProvenance(Run(w, acts[..n]), Log(w, acts[..n]), acts[n].env.now, Log(w, acts)[n], Run(w, acts));
    }
  }

  lemma FreshProvenance(w: World)
    requires w.approval == None
    ensures Provenance(w, [])
  {
  }

  lemma {:induction false} ClockMonotone(acts: seq<Act>, i: nat, j: nat)
    requires Clocked(acts) && i <= j < |acts|
    ensures acts[i].env.now <= acts[j].env.now
    decreases j - i
  {
    if i < j {
      ClockMonotone(acts, i, j - 1);
    }
  }

  /** Every pull and every prorated charge spends an approval that a callback of this run wrote, that nothing has
      touched since, for the period stored when it is spent, within its lifetime and its amount. */
  lemma {:induction false} EveryChargeSpendsACallback(w: World, acts: seq<Act>, j: nat)
    requires Sane(w) && w.approval == None && Clocked(acts) && j < |acts| && Spent(Log(w, acts)[j]).Some?
    ensures var log := Log(w, acts);
            var source, a := Source(log[..j]), Spent(log[j]).value;
            && source.Some? && log[source.value].Accepted? && log[source.value].approval == a
            && (forall k :: source.value < k < j ==> !Overwrites(log[k]))
            && a.approved && a.mandate == w.key
            && InPeriod(Run(w, acts[..j]).mandate, a.periodStart, a.periodEnd)
            && a.createdAt == acts[source.value].env.now <= acts[j].env.now <= a.createdAt + APPROVAL_TTL
            && 0 <= MovedBy(log[j]) <= a.amount
            && match acts[source.value].kind
               case OnValidation(_, verdict) => verdict
               case OnUsage(_, _, charge) => a.amount == charge
               case _ => false
  {
    hide After, EntryOf, Sane, Log, Moves;
    var log := Log(w, acts);
    LogMoves(w, acts, j);
    RunProvenance(w, acts[..j]);
    RunSane(w, acts[..j]);
    ChargeIsLive(Run(w, acts[..j]), acts[j].env.now, log[j], Run(w, acts[..j + 1]));
    var source := Source(log[..j]).value;
    LogMoves(w, acts, source);
    AcceptedAt(Run(w, acts[..source]), acts[source].env.now, log[source], Run(w, acts[..source + 1]));
    ClockMonotone(acts, source, j);
    AcceptedAnswers(w, acts, source);
  }

  /** An approval is granted only by a verdict that says so or by a price. */
  lemma {:induction false} AcceptedAnswers(w: World, acts: seq<Act>, i: nat)
    requires Sane(w) && i < |acts| && Log(w, acts)[i].Accepted?
    ensures match acts[i].kind
            case OnValidation(_, verdict) => Log(w, acts)[i].approval.approved == verdict
            case OnUsage(_, _, charge) => Log(w, acts)[i].approval.amount == charge
            case _ => false
  {
    hide Do, Moves, Sane, Run, Log;
    LogPrefix(w, acts, i);
    RunSane(w, acts[..i]);
    EveryStepMoves(Run(w, acts[..i]), acts[i]);
  }

  lemma ChargeIsLive(w: World, now: i64, e: Entry, after: World)
    requires Moves(w, now, e, after) && Spent(e).Some?
    ensures Spendable(w, Spent(e).value, now) && 0 <= MovedBy(e) <= Spent(e).value.amount
  {
    hide Spendable, OpenReport, SameNonces, SameParties;
  }

  lemma AcceptedAt(w: World, now: i64, e: Entry, after: World)
    requires Moves(w, now, e, after) && e.Accepted?
    ensures e.approval.createdAt == now && e.approval.validUntil == now + APPROVAL_TTL
    ensures e.approval.periodEnd == w.mandate.nextDue && e.approval.mandate == w.key
  {
    hide Bound, OpenReport;
  }

  /** No callback pays twice: two charges are paid for by two callbacks, the later one after the first charge. */
  lemma {:induction false} ChargesSpendDistinctCallbacks(w: World, acts: seq<Act>, j: nat, k: nat)
    requires Sane(w) && w.approval == None && Clocked(acts) && j < k < |acts|
    requires Spent(Log(w, acts)[j]).Some? && Spent(Log(w, acts)[k]).Some?
    ensures Source(Log(w, acts)[..j]).Some? && Source(Log(w, acts)[..k]).Some?
    ensures Source(Log(w, acts)[..j]).value < j < Source(Log(w, acts)[..k]).value < k
  {
    hide After, EntryOf, Sane, Log;
    EveryChargeSpendsACallback(w, acts, j);
    EveryChargeSpendsACallback(w, acts, k);
    assert Overwrites(Log(w, acts)[j]);
  }

  /** A negative verdict pays nothing: after it no charge is accepted until another answer is. */
  lemma {:induction false} NegativeVerdictBlocks(w: World, acts: seq<Act>, i: nat, j: nat)
    requires Sane(w) && w.approval == None && Clocked(acts) && i < j < |acts|
    requires Log(w, acts)[i].Accepted? && acts[i].kind.OnValidation? && !acts[i].kind.result
    requires forall k :: i < k < j ==> !Log(w, acts)[k].Accepted?
    ensures Spent(Log(w, acts)[j]).None?
  {
    hide After, EntryOf, Sane, Log;
    assert Overwrites(Log(w, acts)[i]);
    if Spent(Log(w, acts)[j]).Some? {
      EveryChargeSpendsACallback(w, acts, j);
    }
  }

  // ---------------------------------------------------------------- requests and callbacks

  function AcceptedOffset(e: Entry): Option<Offset> {
    match e
    case Accepted(o, _) => Some(o)
    case Recorded(o, _, _) => Some(o)
    case _ => None
  }

  predicate RequestsIn(e: Entry, slot: Slot) {
    e.Requested? && e.offset.slot == slot
  }

  predicate Answers(e: Entry, slot: Slot) {
    AcceptedOffset(e).Some? && AcceptedOffset(e).value.slot == slot
  }

  function LastRequest(log: seq<Entry>, slot: Slot): (r: Option<nat>)
    ensures r.Some? ==> r.value < |log| && RequestsIn(log[r.value], slot)
                        && forall k :: r.value < k < |log| ==> !RequestsIn(log[k], slot)
    ensures r.None? ==> forall k :: 0 <= k < |log| ==> !RequestsIn(log[k], slot)
  {
    if log == [] then None
    else if RequestsIn(log[|log| - 1], slot) then Some(|log| - 1)
    else LastRequest(log[..|log| - 1], slot)
  }

  /** The callback that has answered the last request of the slot, if there is one. */
  function Answer(log: seq<Entry>, slot: Slot): (r: Option<nat>)
    ensures r.Some? ==> r.value < |log| && Answers(log[r.value], slot)
                        && forall k :: r.value < k < |log| ==> !RequestsIn(log[k], slot)
  {
    if log == [] then None
    else if Answers(log[|log| - 1], slot) then Some(|log| - 1)
    else if RequestsIn(log[|log| - 1], slot) then None
    else Answer(log[..|log| - 1], slot)
  }

  function Counter(m: Mandate, flow: Flow): u64 {
    if flow == BillingRecord then m.billingNonce else m.validationNonce
  }

  /** A stored request is the last one made in its slot, and it is pending until it is answered. */
  predicate Kept(w: World, log: seq<Entry>, slot: Slot)
    requires slot in w.requests
  {
    var r := w.requests[slot];
    && r.createdAt > 0 && r.nonce <= Counter(w.mandate, slot.flow)
    && LastRequest(log, slot).Some?
    && log[LastRequest(log, slot).value].offset == r.offset == Offset(w.key, slot, r.nonce)
    && (r.pending <==> Answer(log, slot).None?)
  }

  /** An accepted offset can never be accepted again. */
  predicate Used(w: World, o: Offset) {
    && o.slot in w.requests
    && (w.requests[o.slot].nonce > o.nonce || (w.requests[o.slot].nonce == o.nonce && !w.requests[o.slot].pending))
  }

  predicate Requests(w: World, log: seq<Entry>) {
    && (forall slot :: slot in w.requests ==> Kept(w, log, slot))
    && (forall i :: 0 <= i < |log| && log[i].Requested? ==>
          log[i].offset.nonce <= Counter(w.mandate, log[i].offset.slot.flow) && log[i].offset.slot in w.requests)
    && (forall i :: 0 <= i < |log| && AcceptedOffset(log[i]).Some? ==> Used(w, AcceptedOffset(log[i]).value))
  }

  /** What a transition does to the request accounts. */
  ghost predicate RequestEffect(w: World, now: i64, e: Entry, after: World) {
    && after.key == w.key
    && if e.Requested? then
         var o := e.offset;
         && o.mandate == w.key && o.nonce == Counter(w.mandate, o.slot.flow) + 1 && !Busy(w.requests, o.slot)
         && after.requests == w.requests[o.slot := Request(w.key, o.slot, o, o.nonce, true, now, 0)]
         && Counter(after.mandate, o.slot.flow) == o.nonce
         && (forall f :: (f == BillingRecord <==> o.slot.flow != BillingRecord) ==>
               Counter(after.mandate, f) == Counter(w.mandate, f))
       else
         && after.mandate.validationNonce == w.mandate.validationNonce
         && after.mandate.billingNonce == w.mandate.billingNonce
         && match AcceptedOffset(e)
            case None => after.requests == w.requests
            case Some(o) => exists slot ::
              Bound(w, slot, o) && after.requests == Closed(w.requests, slot, now)
  }

  lemma MovesRequestEffect(w: World, now: i64, e: Entry, after: World)
    requires Moves(w, now, e, after)
    ensures RequestEffect(w, now, e, after)
  {
    hide TermsHash, Bound, OpenReport, InPeriod, Busy, Spendable;
    match e
    case Requested(_, _) =>
    case Accepted(o, a) => assert Bound(w, ApprovalSlotOf(w.mandate, a), o);
    case Recorded(o, pull, _) => assert Bound(w, Slot(BillingRecord, pull), o);
    case Submitted(_, _) =>
    case Pulled(_, _, _, _, _, _, _, _, _, _) =>
    case Changed(_, _, _) =>
    case Scheduled(_) =>
    case Unscheduled =>
    case Ended =>
    case Unchanged =>
    case Refused =>
  }

  lemma {:induction false} StepRequests(w: World, log: seq<Entry>, now: i64, e: Entry, after: World)
    requires Requests(w, log) && RequestEffect(w, now, e, after) && now > 0
    ensures Requests(after, log + [e])
  {
    hide RequestEffect, Requests, Kept;
    var next := log + [e];
    forall slot | slot in after.requests
      ensures Kept(after, next, slot)
    {
      StepKept(w, log, now, e, after, slot);
    }
    forall i | 0 <= i < |next| && next[i].Requested?
      ensures next[i].offset.nonce <= Counter(after.mandate, next[i].offset.slot.flow)
      ensures next[i].offset.slot in after.requests
    {
      StepRequested(w, log, now, e, after, i);
    }
    forall i | 0 <= i < |next| && AcceptedOffset(next[i]).Some?
      ensures Used(after, AcceptedOffset(next[i]).value)
    {
      StepUsed(w, log, now, e, after, i);
    }
    RequestsFrom(after, next);
  }

  lemma {:induction false} RequestsFrom(w: World, log: seq<Entry>)
    requires forall slot :: slot in w.requests ==> Kept(w, log, slot)
    requires forall i :: 0 <= i < |log| && log[i].Requested? ==>
               log[i].offset.nonce <= Counter(w.mandate, log[i].offset.slot.flow) && log[i].offset.slot in w.requests
    requires forall i :: 0 <= i < |log| && AcceptedOffset(log[i]).Some? ==> Used(w, AcceptedOffset(log[i]).value)
    ensures Requests(w, log)
  {
  }

  lemma {:induction false} StepKept(w: World, log: seq<Entry>, now: i64, e: Entry, after: World, slot: Slot)
    requires Requests(w, log) && RequestEffect(w, now, e, after) && now > 0 && slot in after.requests
    ensures Kept(after, log + [e], slot)
  {
    hide Busy, Used, LastRequest, Answer;
    NextEntry(log, e, slot);
  }

  lemma {:induction false} NextEntry(log: seq<Entry>, e: Entry, slot: Slot)
    ensures LastRequest(log + [e], slot) == if RequestsIn(e, slot) then Some(|log|) else LastRequest(log, slot)
    ensures Answer(log + [e], slot)
         == if Answers(e, slot) then Some(|log|) else if RequestsIn(e, slot) then None else Answer(log, slot)
  {
    assert (log + [e])[..|log|] == log;
  }

  lemma {:induction false} StepRequested(w: World, log: seq<Entry>, now: i64, e: Entry, after: World, i: nat)
    requires Requests(w, log) && RequestEffect(w, now, e, after) && i <= |log| && (log + [e])[i].Requested?
    ensures var o := (log + [e])[i].offset;
            o.nonce <= Counter(after.mandate, o.slot.flow) && o.slot in after.requests
  {
    hide Busy, Used, Kept;
  }

  lemma {:induction false} StepUsed(w: World, log: seq<Entry>, now: i64, e: Entry, after: World, i: nat)
    requires Requests(w, log) && RequestEffect(w, now, e, after) && i <= |log| && AcceptedOffset((log + [e])[i]).Some?
    ensures Used(after, AcceptedOffset((log + [e])[i]).value)
  {
    hide Busy;
  }

  lemma {:induction false} RunRequests(w: World, acts: seq<Act>)
    requires Fresh(w) && Clocked(acts)
    ensures Requests(Run(w, acts), Log(w, acts))
  {
    hide Moves, Requests, RequestEffect, After, EntryOf, Sane;
    if acts == [] {
      RequestsFrom(w, []);
    } else {
      var n := |acts| - 1;
      RunRequests(w, acts[..n]);
      LogMoves(w, acts, n);
      assert acts[..n + 1] == acts;
      MovesRequestEffect(Run(w, acts[..n]), acts[n].env.now, Log(w, acts)[n], Run(w, acts));
      StepRequests(Run(w, acts[..n]), Log(w, acts[..n]), acts[n].env.now, Log(w, acts)[n], Run(w, acts));
    }
  }

  /** Nonces strictly increase: a later request of the same counter has the larger one, so no offset recurs. */
  lemma {:induction false} NoncesIncrease(w: World, acts: seq<Act>, i: nat, j: nat)
    requires Fresh(w) && Clocked(acts) && i < j < |acts|
    requires Log(w, acts)[i].Requested? && Log(w, acts)[j].Requested?
    ensures var a, b := Log(w, acts)[i].offset, Log(w, acts)[j].offset;
            && (a.slot.flow == BillingRecord <==> b.slot.flow == BillingRecord) ==> a.nonce < b.nonce
    ensures Log(w, acts)[i].offset != Log(w, acts)[j].offset
  {
    hide Moves, Kept, After, EntryOf, Sane, Log, Busy;
    LogMoves(w, acts, j);
    RunRequests(w, acts[..j]);
    MovesRequestEffect(Run(w, acts[..j]), acts[j].env.now, Log(w, acts)[j], Run(w, acts[..j + 1]));
    assert Log(w, acts)[..j][i] == Log(w, acts)[i];
  }

  /** A callback is accepted only for the latest request of its slot, and only while that is unanswered. */
  lemma {:induction false} CallbackAnswersLastRequest(w: World, acts: seq<Act>, j: nat)
    requires Fresh(w) && Clocked(acts) && j < |acts| && AcceptedOffset(Log(w, acts)[j]).Some?
    ensures var log, o := Log(w, acts), AcceptedOffset(Log(w, acts)[j]).value;
            var request := LastRequest(log[..j], o.slot);
            request.Some? && log[request.value].offset == o && Answer(log[..j], o.slot).None?
  {
    hide Moves, After, EntryOf, Sane, Log, Busy;
    LogMoves(w, acts, j);
    RunRequests(w, acts[..j]);
    MovesRequestEffect(Run(w, acts[..j]), acts[j].env.now, Log(w, acts)[j], Run(w, acts[..j + 1]));
  }

  /** No request is completed twice. */
  lemma {:induction false} NoOffsetAcceptedTwice(w: World, acts: seq<Act>, i: nat, j: nat)
    requires Fresh(w) && Clocked(acts) && i < j < |acts|
    requires AcceptedOffset(Log(w, acts)[i]).Some? && AcceptedOffset(Log(w, acts)[j]).Some?
    ensures AcceptedOffset(Log(w, acts)[i]) != AcceptedOffset(Log(w, acts)[j])
  {
    hide Moves, After, EntryOf, Sane, Log, Busy;
    LogMoves(w, acts, j);
    RunRequests(w, acts[..j]);
    MovesRequestEffect(Run(w, acts[..j]), acts[j].env.now, Log(w, acts)[j], Run(w, acts[..j + 1]));
    assert Log(w, acts)[..j][i] == Log(w, acts)[i];
  }

  /** A slot is asked again only after its last request was answered: at most one is ever pending. */
  lemma {:induction false} RequestsAlternateWithAnswers(w: World, acts: seq<Act>, i: nat, j: nat, slot: Slot)
    requires Fresh(w) && Clocked(acts) && i < j < |acts|
    requires RequestsIn(Log(w, acts)[i], slot) && RequestsIn(Log(w, acts)[j], slot)
    requires forall k :: i < k < j ==> !RequestsIn(Log(w, acts)[k], slot)
    ensures exists k :: i < k < j && AcceptedOffset(Log(w, acts)[k]) == Some(Log(w, acts)[i].offset)
  {
    hide Moves, After, EntryOf, Sane, Log;
    var log := Log(w, acts);
    LogMoves(w, acts, j);
    RunRequests(w, acts[..j]);
    MovesRequestEffect(Run(w, acts[..j]), acts[j].env.now, log[j], Run(w, acts[..j + 1]));
    assert RequestsIn(log[..j][i], slot);
    var k := Answer(log[..j], slot).value;
    assert log[..j][k] == log[k];
    CallbackAnswersLastRequest(w, acts, k);
    var r := LastRequest(log[..k], slot).value;
    assert log[..k][r] == log[r];
    assert RequestsIn(log[..k][i], slot);
  }
}
