/** The evaluation-period ledger: product events activate an evaluation, a bounded extension moves
    its end, and a paid account never comes back. */
module EvaluationLedger {
  import opened Common

  const DAY: Time := 86_400 * SECOND
  const DEFAULT_EVALUATION_DAYS := 21
  const ENTERPRISE_PILOT_DAYS := 30
  const MAX_VALUE_EXTENSION_DAYS := 7

  datatype Event =
    | ProfileReady | MarketDataAvailable | FirstShortlistGenerated
    | RelevantOpportunityViewed | DeepAnalysisCompleted | GoNoGoGenerated | EvidenceViewed | AlertDelivered | ActionTaken
    | PaidConversion | PostConversionChurn
    | Unsupported(name: Text)

  const ACTIVATION_EVENTS := {ProfileReady, MarketDataAvailable, FirstShortlistGenerated}
  const VALUE_EXPOSURE_EVENTS := {FirstShortlistGenerated, RelevantOpportunityViewed, DeepAnalysisCompleted,
                                  GoNoGoGenerated, EvidenceViewed, AlertDelivered, ActionTaken}

  datatype Status = Onboarding | ProfileDone | ValueReady | EvaluationActive | Paid | Closed

  datatype ValueStatus = ExposurePending | Exposed | OtherValue(name: Text)

  datatype Account = Account(pro: bool, enterprise: bool, status: Option<Status>, activatedAt: Option<Time>,
                             endsAt: Option<Time>, extensionDays: int, value: Option<ValueStatus>)

  /** The accounts table and the event table, whose rows are unique per account, event and instant. */
  datatype Ledger = Ledger(accounts: map<Text, Account>, events: set<(Text, Event, Time)>)

  function DurationDays(enterprise: bool): int {
    if enterprise then ENTERPRISE_PILOT_DAYS else DEFAULT_EVALUATION_DAYS
  }

  function Names(l: Ledger, id: Text): set<Event> {
    set row | row in l.events && row.0 == id :: row.1
  }

  /** What an event does to the account once it is recorded. */
  function Advanced(a: Account, event: Event, names: set<Event>, when: Time): Account {
    var valued := if event in VALUE_EXPOSURE_EVENTS && a.value == Some(ExposurePending)
                  then a.(value := Some(Exposed)) else a;
    if a.activatedAt.Some? then valued
    else if ACTIVATION_EVENTS <= names then
      valued.(status := Some(EvaluationActive), activatedAt := Some(when),
              endsAt := Some(when + DurationDays(a.enterprise) * DAY))
    else if {ProfileReady, MarketDataAvailable} <= names then valued.(status := Some(ValueReady))
    else if ProfileReady in names then valued.(status := Some(ProfileDone))
    else valued.(status := Some(Onboarding))
  }

  datatype Operation =
    | RecordEvent(event: Event, when: Time)
    | ConfigureEnterprise
    | GrantExtension(days: int, realUsage: bool, insufficientExposure: bool, inactive: bool)
    | MarkPaid(when: Time)
    | MarkChurn(when: Time)
    | ChangePlan(pro: bool)   // billing, outside this module

  function Insert(l: Ledger, id: Text, event: Event, when: Time): Ledger {
    l.(events := l.events + {(id, event, when)})
  }

  function Update(l: Ledger, id: Text, a: Account): Ledger {
    l.(accounts := l.accounts[id := a])
  }

  /** The effect of one operation; an operation that raises has none. */
  function Applied(l: Ledger, id: Text, op: Operation): Result<Ledger> {
    if op.RecordEvent? && op.event.Unsupported? then Err("unsupported evaluation event")
    else if op.GrantExtension? && op.days <= 0 then Err("invalid_extension_days")
    else if op.MarkChurn? then
      Ok(if PaidConversion in Names(l, id) then Insert(l, id, PostConversionChurn, op.when) else l)
    else if id !in l.accounts then (if op.MarkPaid? || op.ChangePlan? then Ok(l) else Err("account_not_found"))
    else
      var a := l.accounts[id];
      match op
      case RecordEvent(event, when) =>
        var recorded := Insert(l, id, event, when);
        if a.status.None? || a.status == Some(Paid) || a.status == Some(Closed) then Ok(recorded)
        else Ok(Update(recorded, id, Advanced(a, event, Names(recorded, id), when)))
      case ConfigureEnterprise =>
        if a.activatedAt.Some? then Err("evaluation_already_activated")
        else if a.pro then Err("paid_account")
        else Ok(Update(l, id, a.(enterprise := true, status := if a.status.Some? then a.status else Some(Onboarding))))
      case GrantExtension(days, realUsage, insufficientExposure, inactive) =>
        if a.pro || a.status == Some(Paid) then Err("paid_account")
        else if !realUsage || !insufficientExposure || inactive then Err("extension_not_eligible")
        else if a.extensionDays + days > MAX_VALUE_EXTENSION_DAYS then Err("extension_limit_exceeded")
        else if a.endsAt.None? then Err("evaluation_not_activated")
        else Ok(Update(l, id, a.(endsAt := Some(a.endsAt.value + days * DAY), extensionDays := a.extensionDays + days,
                                 status := Some(EvaluationActive))))
      case MarkPaid(when) =>
        if a.status.Some? && a.status != Some(Paid)
        then Ok(Insert(Update(l, id, a.(status := Some(Paid))), id, PaidConversion, when)) else Ok(l)
      case MarkChurn(_) => Ok(l)
      case ChangePlan(pro) => Ok(Update(l, id, a.(pro := pro)))
  }

  /** The error of a failed call, if any. */
  function Raised<T>(r: Result<T>): Option<string> {
    if r.Err? then Some(r.error) else None
  }

  /** The tables, updated row by row; a method returns the error it raises. */
  class EvaluationTables {
    var accounts: map<Text, Account>
    var events: set<(Text, Event, Time)>

    constructor (accounts: map<Text, Account>)
      ensures Value() == Ledger(accounts, {})
    {
      this.accounts, events := accounts, {};
    }

    function Value(): Ledger
      reads this
    {
      Ledger(accounts, events)
    }

    twostate predicate Performed(id: Text, op: Operation, new error: Option<string>)
      reads this
    {
      var spec := Applied(old(Value()), id, op);
      error == Raised(spec) && Value() == if spec.Ok? then spec.value else old(Value())
    }

    method RecordEvaluationEvent(id: Text, event: Event, when: Time) returns (error: Option<string>)
      modifies this
      ensures Performed(id, RecordEvent(event, when), error)
    {
      hide Names, Advanced, DurationDays;
      if event.Unsupported? { return Some("unsupported evaluation event"); }
      if id !in accounts { return Some("account_not_found"); }
      error := None;
      var account := accounts[id];
      events := events + {(id, event, when)};
      if account.status.None? || account.status == Some(Paid) || account.status == Some(Closed) { return; }
      AdvanceAccount(id, event, when);
    }

    method AdvanceAccount(id: Text, event: Event, when: Time)
      requires id in accounts
      modifies this`accounts
      ensures accounts == old(accounts)[id := Advanced(old(accounts[id]), event, Names(old(Value()), id), when)]
    {
      hide Names, DurationDays;
      var account, names := accounts[id], Names(Value(), id);
      if event in VALUE_EXPOSURE_EVENTS && account.value == Some(ExposurePending) {
        accounts := accounts[id := accounts[id].(value := Some(Exposed))];
      }
      if account.activatedAt.None? {
        if ACTIVATION_EVENTS <= names {
          var end := when + DurationDays(account.enterprise) * DAY;
          accounts := accounts[id := accounts[id].(status := Some(EvaluationActive), activatedAt := Some(when), endsAt := Some(end))];
        } else if {ProfileReady, MarketDataAvailable} <= names {
          accounts := accounts[id := accounts[id].(status := Some(ValueReady))];
        } else if ProfileReady in names {
          accounts := accounts[id := accounts[id].(status := Some(ProfileDone))];
        } else {
          accounts := accounts[id := accounts[id].(status := Some(Onboarding))];
        }
      }
    }

    method ConfigureEnterprisePilot(id: Text) returns (error: Option<string>)
      modifies this
      ensures Performed(id, ConfigureEnterprise, error)
    {
      if id !in accounts { return Some("account_not_found"); }
      if accounts[id].activatedAt.Some? { return Some("evaluation_already_activated"); }
      if accounts[id].pro { return Some("paid_account"); }
      var status := if accounts[id].status.Some? then accounts[id].status else Some(Onboarding);
      accounts := accounts[id := accounts[id].(enterprise := true, status := status)];
      error := None;
    }

    method GrantEvaluationExtension(id: Text, days: int, realUsage: bool, insufficientExposure: bool, inactive: bool)
      returns (error: Option<string>)
      modifies this
      ensures Performed(id, GrantExtension(days, realUsage, insufficientExposure, inactive), error)
    {
      if days <= 0 { return Some("invalid_extension_days"); }
      if id !in accounts { return Some("account_not_found"); }
      var account := accounts[id];
      if account.pro || account.status == Some(Paid) { return Some("paid_account"); }
      if !realUsage || !insufficientExposure || inactive { return Some("extension_not_eligible"); }
      var current := account.extensionDays;
      if current + days > MAX_VALUE_EXTENSION_DAYS { return Some("extension_limit_exceeded"); }
      if account.endsAt.None? { return Some("evaluation_not_activated"); }
      var newEnd := account.endsAt.value + days * DAY;
      accounts := accounts[id := account.(endsAt := Some(newEnd), extensionDays := current + days,
                                          status := Some(EvaluationActive))];
      error := None;
    }

    method MarkEvaluationPaid(id: Text, when: Time)
      modifies this
      ensures Performed(id, MarkPaid(when), None)
    {
      if id in accounts && accounts[id].status.Some? && accounts[id].status != Some(Paid) {
        accounts := accounts[id := accounts[id].(status := Some(Paid))];
        events := events + {(id, PaidConversion, when)};
      }
    }

    method MarkPostConversionChurn(id: Text, when: Time)
      modifies this
      ensures Performed(id, MarkChurn(when), None)
    {
      if exists row :: row in events && row.0 == id && row.1 == PaidConversion {
        events := events + {(id, PostConversionChurn, when)};
      }
    }
  }

  // ---- the ledger over every operation sequence ----------------------------------------------------

  datatype Call = Call(id: Text, op: Operation)

  function Run(l: Ledger, calls: seq<Call>): Ledger {
    if calls == [] then l
    else
      var before, call := Run(l, calls[..|calls| - 1]), calls[|calls| - 1];
      var r := Applied(before, call.id, call.op);
      if r.Ok? then r.value else before
  }

  /** An account and the names of its recorded events. */
  ghost predicate Sound(a: Account, names: set<Event>) {
    && (a.activatedAt.Some? ==>
          && a.endsAt == Some(a.activatedAt.value + (DurationDays(a.enterprise) + a.extensionDays) * DAY)
          && 0 <= a.extensionDays <= MAX_VALUE_EXTENSION_DAYS
          && ACTIVATION_EVENTS <= names)
    && (a.activatedAt.None? ==> a.endsAt.None? && a.extensionDays == 0 && a.status != Some(EvaluationActive))
  }

  /** Activation is neither early nor late: an account under evaluation is activated exactly when
      all three events are on record. */
  ghost predicate Prompt(a: Account, names: set<Event>) {
    && a.status.Some?
    && (a.status != Some(Paid) && a.status != Some(Closed) ==> (a.activatedAt.Some? <==> ACTIVATION_EVENTS <= names))
  }

  /** What later operations can no longer change. */
  ghost predicate Settled(before: Account, after: Account) {
    && (before.activatedAt.Some? ==>
          after.activatedAt == before.activatedAt && after.enterprise == before.enterprise
          && after.extensionDays >= before.extensionDays)
    && (before.status == Some(Paid) ==> after.status == Some(Paid))
  }

  lemma NamesAfterInsert(l: Ledger, id: Text, event: Event, when: Time, other: Text)
    ensures Names(Insert(l, id, event, when), other) == if other == id then Names(l, other) + {event} else Names(l, other)
  {
    var after := Insert(l, id, event, when);
    forall e | e in Names(l, other) ensures e in Names(after, other) {
      var row :| row in l.events && row.0 == other && row.1 == e;
      assert row in after.events;
    }
    assert (id, event, when) in after.events;
  }

  lemma AdvancedIsSound(a: Account, event: Event, names: set<Event>, when: Time)
    requires Sound(a, names) && a.status != Some(Paid)
    ensures Sound(Advanced(a, event, names, when), names) && Settled(a, Advanced(a, event, names, when))
  {
  }

  lemma SoundGrows(a: Account, names: set<Event>, more: set<Event>)
    requires Sound(a, names) && names <= more
    ensures Sound(a, more)
  {
  }

  ghost predicate Kept(l: Ledger, after: Ledger, id: Text, other: Text) {
    other in l.accounts ==>
      && other in after.accounts
      && Sound(after.accounts[other], Names(after, other))
      && Settled(l.accounts[other], after.accounts[other])
      && (other != id ==> after.accounts[other] == l.accounts[other])
  }

  lemma InsertKeeps(l: Ledger, id: Text, event: Event, when: Time, other: Text)
    requires other in l.accounts ==> Sound(l.accounts[other], Names(l, other))
    ensures Kept(l, Insert(l, id, event, when), id, other)
  {
    NamesAfterInsert(l, id, event, when, other);
    if other in l.accounts {
      SoundGrows(l.accounts[other], Names(l, other), Names(Insert(l, id, event, when), other));
    }
  }

  lemma UpdateKeeps(l: Ledger, id: Text, a: Account, other: Text)
    requires other in l.accounts ==> Sound(l.accounts[other], Names(l, other))
    requires id in l.accounts
    requires other == id ==> Sound(a, Names(l, id)) && Settled(l.accounts[id], a)
    ensures Kept(l, Update(l, id, a), id, other)
  {
    assert Names(Update(l, id, a), other) == Names(l, other);
  }

  lemma EventKeeps(l: Ledger, id: Text, event: Event, when: Time, other: Text)
    requires other in l.accounts ==> Sound(l.accounts[other], Names(l, other))
    requires Applied(l, id, RecordEvent(event, when)).Ok?
    ensures Kept(l, Applied(l, id, RecordEvent(event, when)).value, id, other)
  {
    var a, recorded := l.accounts[id], Insert(l, id, event, when);
    InsertKeeps(l, id, event, when, other);
    if other == id && a.status != Some(Paid) {
      AdvancedIsSound(a, event, Names(recorded, id), when);
    }
    hide Sound, Settled, Advanced, Names;
    if a.status.Some? && a.status != Some(Paid) && a.status != Some(Closed) {
      UpdateKeeps(recorded, id, Advanced(a, event, Names(recorded, id), when), other);
    }
  }

  lemma OneOperation(l: Ledger, id: Text, op: Operation, other: Text)
    requires other in l.accounts ==> Sound(l.accounts[other], Names(l, other))
    requires Applied(l, id, op).Ok?
    ensures Kept(l, Applied(l, id, op).value, id, other)
  {
    if op.RecordEvent? {
      EventKeeps(l, id, op.event, op.when, other);
    } else if op.MarkChurn? {
      InsertKeeps(l, id, PostConversionChurn, op.when, other);
    } else if id in l.accounts && op.MarkPaid? {
      PaidKeeps(l, id, op.when, other);
    } else if id in l.accounts {
      ChangeKeeps(l, id, op, other);
    }
  }

  lemma PaidKeeps(l: Ledger, id: Text, when: Time, other: Text)
    requires other in l.accounts ==> Sound(l.accounts[other], Names(l, other))
    requires id in l.accounts
    ensures Kept(l, Applied(l, id, MarkPaid(when)).value, id, other)
  {
    var paid := l.accounts[id].(status := Some(Paid));
    UpdateKeeps(l, id, paid, other);
    InsertKeeps(Update(l, id, paid), id, PaidConversion, when, other);
  }

  lemma ChangeKeeps(l: Ledger, id: Text, op: Operation, other: Text)
    requires other in l.accounts ==> Sound(l.accounts[other], Names(l, other))
    requires id in l.accounts && Applied(l, id, op).Ok?
    requires op.ConfigureEnterprise? || op.GrantExtension? || op.ChangePlan?
    ensures Kept(l, Applied(l, id, op).value, id, other)
  {
    UpdateKeeps(l, id, Applied(l, id, op).value.accounts[id], other);
  }

  lemma AdvancedIsPrompt(a: Account, event: Event, names: set<Event>, when: Time)
    requires a.activatedAt.Some? ==> ACTIVATION_EVENTS <= names
    requires a.status.Some? && a.status != Some(Paid) && a.status != Some(Closed)
    ensures Prompt(Advanced(a, event, names, when), names)
  {
  }

  lemma PromptEvent(l: Ledger, id: Text, event: Event, when: Time)
    requires id in l.accounts && Sound(l.accounts[id], Names(l, id)) && Prompt(l.accounts[id], Names(l, id))
    requires Applied(l, id, RecordEvent(event, when)).Ok?
    ensures var after := Applied(l, id, RecordEvent(event, when)).value;
            id in after.accounts && Prompt(after.accounts[id], Names(after, id))
  {
    var a, recorded := l.accounts[id], Insert(l, id, event, when);
    var after := Applied(l, id, RecordEvent(event, when)).value;
    NamesAfterInsert(l, id, event, when, id);
    assert Names(after, id) == Names(recorded, id);
    if a.status != Some(Paid) && a.status != Some(Closed) {
      assert after.accounts[id] == Advanced(a, event, Names(recorded, id), when);
      assert a.activatedAt.Some? ==> ACTIVATION_EVENTS <= Names(recorded, id);
      hide Names, Advanced, Applied;
      AdvancedIsPrompt(a, event, Names(recorded, id), when);
    }
  }

  lemma PromptOtherwise(l: Ledger, id: Text, op: Operation)
    requires id in l.accounts && Sound(l.accounts[id], Names(l, id)) && Prompt(l.accounts[id], Names(l, id))
    requires Applied(l, id, op).Ok? && !op.RecordEvent?
    ensures var after := Applied(l, id, op).value;
            id in after.accounts && Prompt(after.accounts[id], Names(after, id))
  {
    var after := Applied(l, id, op).value;
    if op.MarkChurn? {
      NamesAfterInsert(l, id, PostConversionChurn, op.when, id);
    } else if !op.MarkPaid? {
      assert Names(after, id) == Names(l, id);
    }
  }

  lemma PromptElsewhere(l: Ledger, id: Text, op: Operation, other: Text)
    requires Applied(l, id, op).Ok? && other != id
    ensures Names(Applied(l, id, op).value, other) == Names(l, other)
  {
    var after := Applied(l, id, op).value;
    forall row: (Text, Event, Time) | row.0 == other ensures row in after.events <==> row in l.events {
    }
    forall e | e in Names(l, other) ensures e in Names(after, other) {
      var row :| row in l.events && row.0 == other && row.1 == e;
      assert row in after.events;
    }
  }

  lemma PromptStep(l: Ledger, id: Text, op: Operation, other: Text)
    requires other in l.accounts && Sound(l.accounts[other], Names(l, other)) && Prompt(l.accounts[other], Names(l, other))
    requires Applied(l, id, op).Ok?
    ensures var after := Applied(l, id, op).value;
            other in after.accounts && Prompt(after.accounts[other], Names(after, other))
  {
    OneOperation(l, id, op, other);
    if other != id {
      PromptElsewhere(l, id, op, other);
    } else if op.RecordEvent? {
      PromptEvent(l, id, op.event, op.when);
    } else {
      PromptOtherwise(l, id, op);
    }
    hide Applied, Prompt, Names;
  }

  /** Over every sequence of calls: an activated evaluation ends at activation plus its type's
      duration plus at most seven granted days and keeps its type; an active status means that all
      three activation events are on record; a paid account stays paid. */
  lemma {:induction false} LedgerStaysSound(l: Ledger, calls: seq<Call>, id: Text)
    requires id in l.accounts && Sound(l.accounts[id], Names(l, id))
    ensures var after := Run(l, calls);
            && id in after.accounts
            && Sound(after.accounts[id], Names(after, id))
            && Settled(l.accounts[id], after.accounts[id])
            && (after.accounts[id].status == Some(EvaluationActive) ==> ACTIVATION_EVENTS <= Names(after, id))
  {
    if calls != [] {
      var before, call := Run(l, calls[..|calls| - 1]), calls[|calls| - 1];
      LedgerStaysSound(l, calls[..|calls| - 1], id);
      if Applied(before, call.id, call.op).Ok? {
        OneOperation(before, call.id, call.op, id);
        hide Applied;
      }
    }
  }

  /** An account that entered the evaluation before its events is activated by the very call that
      completes the three events, and by no earlier one. */
  lemma {:induction false} ActivationIsPrompt(l: Ledger, calls: seq<Call>, id: Text)
    requires id in l.accounts && Sound(l.accounts[id], Names(l, id)) && Prompt(l.accounts[id], Names(l, id))
    ensures var after := Run(l, calls);
            id in after.accounts && Prompt(after.accounts[id], Names(after, id))
  {
    if calls != [] {
      var before, call := Run(l, calls[..|calls| - 1]), calls[|calls| - 1];
      ActivationIsPrompt(l, calls[..|calls| - 1], id);
      LedgerStaysSound(l, calls[..|calls| - 1], id);
      if Applied(before, call.id, call.op).Ok? {
        OneOperation(before, call.id, call.op, id);
        PromptStep(before, call.id, call.op, id);
        hide Applied, Prompt, Names;
      }
    }
  }

  // ---- access ----------------------------------------------------------------------------------------

  /** None stands for an account outside the evaluation rules. */
  function AccessActive(a: Account, now: Time): Option<bool> {
    if a.status.None? || a.status == Some(Paid) then None
    else if a.endsAt.Some? && a.endsAt.value <= now then Some(false)
    else if a.status == Some(Closed) then Some(false)
    else Some(true)
  }

  /** Access of an activated, unpaid account lasts exactly until its computed end, after any history. */
  lemma AccessEndsOnTime(l: Ledger, calls: seq<Call>, id: Text, now: Time)
    requires id in l.accounts && Sound(l.accounts[id], Names(l, id))
    ensures var after := Run(l, calls).accounts;
            id in after &&
            var a := after[id];
            a.status == Some(EvaluationActive) ==>
              && a.activatedAt.Some?
              && (AccessActive(a, now) == Some(true)
                  <==> now < a.activatedAt.value + (DurationDays(a.enterprise) + a.extensionDays) * DAY)
  {
    LedgerStaysSound(l, calls, id);
  }
}
