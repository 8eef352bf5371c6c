/** Where an evaluation stands between the events, and who is granted an extension. */
module EvaluationStages {
  import opened Common
  import opened EvaluationLedger

  /** The stage that the recorded events call for. */
  function StageOf(names: set<Event>): Status {
    if ProfileReady !in names then Onboarding
    else if MarketDataAvailable !in names then ProfileDone
    else if FirstShortlistGenerated !in names then ValueReady
    else EvaluationActive
  }

  /** An account under evaluation is in the stage its events call for, unless it was paid or closed. */
  ghost predicate Staged(a: Account, names: set<Event>) {
    a.status.Some? && (a.status.value == Paid || a.status.value == Closed || a.status.value == StageOf(names))
  }

  lemma AdvancedIsStaged(a: Account, event: Event, before: set<Event>, names: set<Event>, when: Time)
    requires Sound(a, before) && Staged(a, before) && names == before + {event}
    requires a.status != Some(Paid) && a.status != Some(Closed)
    ensures Staged(Advanced(a, event, names, when), names)
  {
  }

  lemma StageIgnoresOtherEvents(names: set<Event>, event: Event)
    requires event == PaidConversion || event == PostConversionChurn
    ensures StageOf(names + {event}) == StageOf(names)
  {
  }

  lemma EventKeepsStage(l: Ledger, id: Text, event: Event, when: Time)
    requires id in l.accounts && Sound(l.accounts[id], Names(l, id)) && Staged(l.accounts[id], Names(l, id))
    requires Applied(l, id, RecordEvent(event, when)).Ok?
    ensures var after := Applied(l, id, RecordEvent(event, when)).value;
            id in after.accounts && Staged(after.accounts[id], Names(after, id))
  {
    var a, recorded := l.accounts[id], Insert(l, id, event, when);
    var after := Applied(l, id, RecordEvent(event, when)).value;
    NamesAfterInsert(l, id, event, when, id);
    assert Names(after, id) == Names(recorded, id);
    if a.status != Some(Paid) && a.status != Some(Closed) {
      assert after.accounts[id] == Advanced(a, event, Names(recorded, id), when);
      hide Names, Advanced, Applied;
      AdvancedIsStaged(a, event, Names(l, id), Names(recorded, id), when);
    }
  }

  lemma OtherCallsKeepStage(l: Ledger, id: Text, op: Operation)
    requires id in l.accounts && Sound(l.accounts[id], Names(l, id)) && Staged(l.accounts[id], Names(l, id))
    requires Applied(l, id, op).Ok? && !op.RecordEvent?
    ensures var after := Applied(l, id, op).value;
            id in after.accounts && Staged(after.accounts[id], Names(after, id))
  {
    var after := Applied(l, id, op).value;
    if op.MarkChurn? {
      NamesAfterInsert(l, id, PostConversionChurn, op.when, id);
      StageIgnoresOtherEvents(Names(l, id), PostConversionChurn);
    } else if !op.MarkPaid? {
      assert Names(after, id) == Names(l, id);
    }
  }

  lemma StepKeepsStage(l: Ledger, id: Text, op: Operation, other: Text)
    requires other in l.accounts && Sound(l.accounts[other], Names(l, other)) && Staged(l.accounts[other], Names(l, other))
    requires Applied(l, id, op).Ok?
    ensures var after := Applied(l, id, op).value;
            other in after.accounts && Staged(after.accounts[other], Names(after, other))
  {
    OneOperation(l, id, op, other);
    if other != id {
      PromptElsewhere(l, id, op, other);
    } else if op.RecordEvent? {
      EventKeepsStage(l, id, op.event, op.when);
    } else {
      OtherCallsKeepStage(l, id, op);
    }
    hide Applied, Names;
  }

  /** Over every sequence of calls, an account under evaluation is in the stage its recorded events call
      for: onboarding, profile done, value ready, or active, in this order. */
  lemma {:induction false} StageFollowsTheEvents(l: Ledger, calls: seq<Call>, id: Text)
    requires id in l.accounts && Sound(l.accounts[id], Names(l, id)) && Staged(l.accounts[id], Names(l, id))
    ensures var after := Run(l, calls);
            id in after.accounts && Staged(after.accounts[id], Names(after, id))
  {
    if calls != [] {
      var before, call := Run(l, calls[..|calls| - 1]), calls[|calls| - 1];
      StageFollowsTheEvents(l, calls[..|calls| - 1], id);
      LedgerStaysSound(l, calls[..|calls| - 1], id);
      if Applied(before, call.id, call.op).Ok? {
        StepKeepsStage(before, call.id, call.op, id);
        hide Applied, Names, Staged;
      }
    }
  }

  /** After any calls, an extension is granted exactly to an unpaid, activated account that really used the
      product, was shown too little, is not inactive, and stays within seven granted days; it then ends that
      many days later and is active. */
  lemma ExtensionGrantedExactly(l: Ledger, calls: seq<Call>, id: Text, days: int, realUsage: bool, insufficientExposure: bool,
                                inactive: bool)
    requires id in l.accounts && Sound(l.accounts[id], Names(l, id))
    ensures var before := Run(l, calls);
            && id in before.accounts
            && var a, r := before.accounts[id], Applied(before, id, GrantExtension(days, realUsage, insufficientExposure, inactive));
            && (r.Ok? <==> days > 0 && !a.pro && a.status != Some(Paid) && a.activatedAt.Some?
                           && realUsage && insufficientExposure && !inactive && a.extensionDays + days <= 7)
            && (r.Ok? ==>
                  && id in r.value.accounts
                  && var b := r.value.accounts[id];
                  && b.status == Some(EvaluationActive) && b.activatedAt == a.activatedAt && b.enterprise == a.enterprise
                  && b.extensionDays == a.extensionDays + days
                  && b.endsAt.Some? && a.endsAt.Some? && b.endsAt.value == a.endsAt.value + days * DAY)
  {
    LedgerStaysSound(l, calls, id);
    hide Run, Names;
  }

  /** After any calls, an activated evaluation ends 21 days after its activation, or 30 for an enterprise pilot,
      plus the days granted since. */
  lemma EvaluationEndsAfter(l: Ledger, calls: seq<Call>, id: Text)
    requires id in l.accounts && Sound(l.accounts[id], Names(l, id))
    ensures id in Run(l, calls).accounts
    ensures var a := Run(l, calls).accounts[id];
            a.activatedAt.Some? ==>
              && a.endsAt.Some?
              && a.endsAt.value == a.activatedAt.value + ((if a.enterprise then 30 else 21) + a.extensionDays) * 86_400_000_000
              && 0 <= a.extensionDays <= 7
  {
    LedgerStaysSound(l, calls, id);
    hide Run, Names;
  }

  /** A pilot is configured exactly for an account that is not activated and not on the paid plan; it then is an
      enterprise pilot, in the stage it was in or onboarding, and nothing else changes. */
  lemma PilotConfiguredExactly(l: Ledger, id: Text)
    ensures var r := Applied(l, id, ConfigureEnterprise);
            && (r.Ok? <==> id in l.accounts && l.accounts[id].activatedAt.None? && !l.accounts[id].pro)
            && (r.Ok? ==>
                  && r.value.events == l.events && r.value.accounts.Keys == l.accounts.Keys
                  && (forall other | other in l.accounts && other != id :: r.value.accounts[other] == l.accounts[other])
                  && var a, b := l.accounts[id], r.value.accounts[id];
                  && b.enterprise && b.status == (if a.status.Some? then a.status else Some(Onboarding))
                  && b.(enterprise := a.enterprise, status := a.status) == a)
  {
  }

  // ---- value shown, payment and access --------------------------------------------------------------------

  /** An account that takes part in the evaluation. */
  predicate Live(a: Account) {
    a.status.Some? && a.status.value != Paid && a.status.value != Closed
  }

  /** Something the account saw or did that shows the product's value. */
  predicate ShowsValue(op: Operation) {
    op.RecordEvent? && (match op.event
                        case FirstShortlistGenerated => true
                        case RelevantOpportunityViewed => true
                        case DeepAnalysisCompleted => true
                        case GoNoGoGenerated => true
                        case EvidenceViewed => true
                        case AlertDelivered => true
                        case ActionTaken => true
                        case _ => false)
  }

  /** One call: a pending value status becomes exposed by an event of a live account that shows value, and is
      touched by nothing else. */
  lemma OneCallAndValue(l: Ledger, id: Text, op: Operation, other: Text)
    requires other in l.accounts && Applied(l, id, op).Ok?
    ensures var after := Applied(l, id, op).value;
            && other in after.accounts
            && after.accounts[other].value
               == if other == id && ShowsValue(op) && Live(l.accounts[id]) && l.accounts[id].value == Some(ExposurePending)
                  then Some(Exposed) else l.accounts[other].value
  {
    hide Names, DurationDays;
  }

  ghost predicate ShownValue(l: Ledger, calls: seq<Call>, id: Text) {
    exists k :: 0 <= k < |calls| && ShowedAt(Run(l, calls[..k]), calls[k], id)
  }

  ghost predicate ShowedAt(before: Ledger, call: Call, id: Text) {
    call.id == id && ShowsValue(call.op) && id in before.accounts && Live(before.accounts[id])
  }

  /** Over every sequence of calls, a pending value status is exposed exactly if some call recorded an event that
      shows value while the account was live. */
  lemma {:induction false} ValueIsExposedExactly(l: Ledger, calls: seq<Call>, id: Text)
    requires id in l.accounts && l.accounts[id].value == Some(ExposurePending)
    ensures id in Run(l, calls).accounts
    ensures Run(l, calls).accounts[id].value == Some(if ShownValue(l, calls, id) then Exposed else ExposurePending)
  {
    if calls != [] {
      var n := |calls| - 1;
      var before, call := Run(l, calls[..n]), calls[n];
      ValueIsExposedExactly(l, calls[..n], id);
      OneMoreCall(l, calls, id);
      ShownEventsAreSupported(before, call, id);
      if Applied(before, call.id, call.op).Ok? {
        OneCallAndValue(before, call.id, call.op, id);
      }
      hide Applied, ShownValue, ShowsValue, Live;
    }
  }

  lemma OneMoreCall(l: Ledger, calls: seq<Call>, id: Text)
    requires calls != []
    ensures var n := |calls| - 1;
            ShownValue(l, calls, id) <==> ShownValue(l, calls[..n], id) || ShowedAt(Run(l, calls[..n]), calls[n], id)
  {
    hide Run, ShowedAt;
    var n := |calls| - 1;
    assert forall k | 0 <= k < n :: calls[..n][..k] == calls[..k] && calls[..n][k] == calls[k];
    if ShownValue(l, calls[..n], id) {
      var k :| 0 <= k < n && ShowedAt(Run(l, calls[..n][..k]), calls[..n][k], id);
      assert ShowedAt(Run(l, calls[..k]), calls[k], id);
    }
  }

  lemma ShownEventsAreSupported(l: Ledger, call: Call, id: Text)
    ensures ShowedAt(l, call, id) ==> Applied(l, call.id, call.op).Ok?
  {
  }

  /** A payment is recorded exactly for an account that takes part and is not paid yet; the account then is paid,
      with its conversion on record, and outside the evaluation's access rules; any other account is left alone. */
  lemma PaymentEndsTheEvaluation(l: Ledger, id: Text, when: Time, now: Time)
    ensures Applied(l, id, MarkPaid(when)).Ok?
    ensures var after := Applied(l, id, MarkPaid(when)).value;
            if id in l.accounts && l.accounts[id].status.Some? && l.accounts[id].status.value != Paid then
              && after.events == l.events + {(id, PaidConversion, when)}
              && after.accounts == l.accounts[id := l.accounts[id].(status := Some(Paid))]
              && AccessActive(after.accounts[id], now).None?
            else after == l
  {
  }

  /** Who has access: an account outside the evaluation is not judged; one inside has access unless it is closed
      or its end has come. */
  lemma AccessExactly(a: Account, now: Time)
    ensures AccessActive(a, now).None? <==> a.status.None? || a.status.value == Paid
    ensures AccessActive(a, now) == Some(true)
       <==> a.status.Some? && a.status.value != Paid && a.status.value != Closed && (a.endsAt.Some? ==> now < a.endsAt.value)
  {
  }
}
