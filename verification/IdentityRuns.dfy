/** One case per problem: what keeps rows apart from one another in every run. */
module IdentityRuns {
  import opened Domain
  import opened CaseLog
  import opened Store
  import opened System
  import opened Evolution
  import opened EventEngine
  import opened Workflows
  import CaseRuns
  import CaseService
  import Ingestion
  import Lifecycle
  import PolicyEngine
  import Reconciliation

  predicate SameCustomer(a: Customer, b: Customer) {
    a.provider == b.provider && a.externalId == b.externalId
  }

  predicate SamePayment(a: Transaction, b: Transaction) {
    a.provider == b.provider && a.externalId == b.externalId
  }

  /** Two cases about one problem: under one key, or for one payment. */
  predicate SameProblem(a: Case, b: Case) {
    a.key == b.key || a.trigger == b.trigger
  }

  /** No customer, payment or problem is on file twice, and every reference is to a row. */
  predicate Distinct(db: Database) {
    && (forall i, j :: 0 <= i < j < |db.customers| ==> !SameCustomer(db.customers[i], db.customers[j]))
    && (forall i, j :: 0 <= i < j < |db.transactions| ==> !SamePayment(db.transactions[i], db.transactions[j]))
    && (forall i, j :: 0 <= i < j < |db.cases| ==> !SameProblem(db.cases[i], db.cases[j]))
    && (forall j :: 0 <= j < |db.transactions| ==> db.transactions[j].customer < |db.customers|)
    && (forall j :: 0 <= j < |db.cases| ==> PartiesPresent(db, db.cases[j]))
  }

  lemma EvolvingKeepsDistinct(a: Database, b: Database)
    requires Distinct(a) && Evolves(a, b)
    requires |b.customers| == |a.customers| && |b.transactions| == |a.transactions| && |b.cases| == |a.cases|
    ensures Distinct(b)
  {
    forall i, j | 0 <= i < j < |b.transactions| ensures !SamePayment(b.transactions[i], b.transactions[j]) {
      assert PaymentEvolves(a.transactions[i], b.transactions[i]) && PaymentEvolves(a.transactions[j], b.transactions[j]);
      assert !SamePayment(a.transactions[i], a.transactions[j]);
    }
    forall i, j | 0 <= i < j < |b.cases| ensures !SameProblem(b.cases[i], b.cases[j]) {
      assert CaseEvolves(a.cases[i], b.cases[i]) && CaseEvolves(a.cases[j], b.cases[j]);
      assert !SameProblem(a.cases[i], a.cases[j]);
    }
    forall j | 0 <= j < |b.transactions| ensures b.transactions[j].customer < |b.customers| {
      assert PaymentEvolves(a.transactions[j], b.transactions[j]);
    }
    forall j | 0 <= j < |b.cases| ensures PartiesPresent(b, b.cases[j]) {
      assert CaseEvolves(a.cases[j], b.cases[j]) && PartiesPresent(a, a.cases[j]);
    }
  }

  lemma ProvisionKeepsDistinct(db: Database, e: Event)
    requires Distinct(db)
    ensures Distinct(Provision(db, e).0)
  {
    var found := FindCustomer(db, e.provider, e.customerRef);
    var (db1, customer) := WithCustomer(db, e);
    if found.None? {
      assert forall j :: 0 <= j < |db.customers| ==> !IsCustomer(db.customers[j], e.provider, e.customerRef);
    }
    assert Distinct(db1);
    if FindTransaction(db1, e.provider, TransactionRef(e)).None? {
      assert forall j :: 0 <= j < |db1.transactions| ==> !IsTransaction(db1.transactions[j], e.provider, TransactionRef(e));
    }
  }

  lemma CaseAddedKeepsDistinct(db: Database, c: Case)
    requires Distinct(db) && PartiesPresent(db, c)
    requires forall j :: 0 <= j < |db.cases| ==> db.cases[j].key != c.key && db.cases[j].trigger != c.trigger
    ensures Distinct(db.(cases := db.cases + [c]))
  {
    var after := db.(cases := db.cases + [c]);
    forall j | 0 <= j < |after.cases| ensures PartiesPresent(after, after.cases[j]) {
      assert j < |db.cases| ==> PartiesPresent(db, db.cases[j]);
    }
  }

  lemma EventKeepsDistinct(db: Database, e: Event, priority: int)
    requires Distinct(db)
    ensures Distinct(AfterEvent(db, e, priority).0)
  {
    if Creates(e) || Resolves(e) {
      var (ready, customer, transaction) := Provision(db, e);
      var key := DeriveCaseKey(e);
      var existing := MatchCase(ready, key, transaction);
      ProvisionKeepsDistinct(db, e);
      if Resolves(e) {
        SuccessFollows(ready, existing, transaction);
        EvolvingKeepsDistinct(ready, AfterSuccess(ready, existing, transaction).0);
      } else if existing.Some? {
        FailureFollows(ready, existing.value, priority);
        EvolvingKeepsDistinct(ready, AfterFailure(ready, existing.value, priority).0);
      } else {
        CaseAddedKeepsDistinct(ready, NewCase(customer, transaction, key, priority));
      }
    }
  }

  lemma DeliveryKeepsDistinct(db: Database, d: Ingestion.Delivery)
    requires Distinct(db)
    ensures Distinct(Ingestion.Ingest(db, d))
  {
    EventKeepsDistinct(Ingestion.Received(db, d.event), d.event, d.priority);
  }

  lemma CustomerKeepsDistinct(db: Database, row: Customer)
    requires Distinct(db)
    ensures Distinct(OrKeep(db, CaseService.AfterRegisterCustomer(db, row)))
  {
    assert FindCustomer(db, row.provider, row.externalId).None? ==>
        forall j :: 0 <= j < |db.customers| ==> !IsCustomer(db.customers[j], row.provider, row.externalId);
  }

  lemma PaymentKeepsDistinct(db: Database, row: Transaction)
    requires Distinct(db)
    ensures Distinct(OrKeep(db, CaseService.AfterRecordTransaction(db, row)))
  {
    assert FindTransaction(db, row.provider, row.externalId).None? ==>
        forall j :: 0 <= j < |db.transactions| ==> !IsTransaction(db.transactions[j], row.provider, row.externalId);
  }

  lemma OpenKeepsDistinct(db: Database, r: CaseService.OpenRequest)
    requires Distinct(db)
    ensures Distinct(OrKeep(db, CaseService.AfterOpen(db, r)))
  {
    if CaseService.AfterOpen(db, r).Ok? {
      CaseAddedKeepsDistinct(db, CaseService.OpenedCase(r.customer, r.transaction, CaseService.RequestedKey(r),
                                                        r.priority, r.failureCount));
    }
  }

  lemma ReconcileKeepsParties(db: Database, id: nat, q: Reconciliation.Inquiry)
    ensures var after := Reconciliation.Reconcile(db, id, q);
      |after.customers| == |db.customers| && |after.transactions| == |db.transactions| && |after.cases| == |db.cases|
  {
    hide Reconciliation.ResolutionOf, Reconciliation.ProviderStatus, Reconciliation.Resolved;
  }

  /** The calls that register nothing and open nothing. */
  lemma SamePartiesElsewhere(w: World, step: Step)
    requires !step.Deliver? && !step.OpenCase? && !step.RegisterCustomer? && !step.RecordTransaction?
    ensures var a, b := w.db, Apply(w, step).db;
      |b.customers| == |a.customers| && |b.transactions| == |a.transactions| && |b.cases| == |a.cases|
  {
    hide AfterNextStep, AfterAllSteps, PolicyEngine.RunRules, Reconciliation.Reconcile, Lifecycle.AfterJudgement;
    match step {
      case ExecuteNext(id, x) =>
        if AfterNextStep(w.db, w.gateway, id, x).result.Ok? { NextStepFollows(w.db, w.gateway, id, x); }
      case ExecuteAll(id, x) => AllStepsFollow(w.db, w.gateway, id, x);
      case ReconcileCase(id, q) => ReconcileKeepsParties(w.db, id, q);
      case _ =>
    }
  }

  lemma StepKeepsDistinct(w: World, step: Step)
    requires Distinct(w.db)
    ensures Distinct(Apply(w, step).db)
  {
    hide AfterNextStep, AfterAllSteps, AfterCreateWorkflow, Ingestion.Ingest, CaseService.AfterOpen, CaseService.AfterRegisterCustomer, CaseService.AfterRecordTransaction;
    match step {
      case Deliver(d) => DeliveryKeepsDistinct(w.db, d);
      case OpenCase(r) => OpenKeepsDistinct(w.db, r);
      case RegisterCustomer(row) => CustomerKeepsDistinct(w.db, row);
      case RecordTransaction(row) => PaymentKeepsDistinct(w.db, row);
      case _ =>
        CaseRuns.StepEvolves(w, step);
        SamePartiesElsewhere(w, step);
        EvolvingKeepsDistinct(w.db, Apply(w, step).db);
    }
  }

  /** In every run case keys are distinct, no payment triggers two cases, customers and payments
      are distinct by provider and external id, and every case's customer and payment exist. */
  lemma {:induction false} OneCasePerProblem(w: World, steps: seq<Step>)
    requires Distinct(w.db)
    ensures Distinct(Run(w, steps).db)
    decreases steps
  {
    hide Apply;
    if steps != [] {
      StepKeepsDistinct(w, steps[0]);
      OneCasePerProblem(Apply(w, steps[0]), steps[1..]);
    }
  }
}
