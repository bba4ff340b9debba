/**
 The checks a saved resolution must pass, and why every pause passes them.

 A checkpoint is refused when an operation refers to a table entry that is
 gone, when a play scope or a durability payer has no completion of its own, or
 when a completed scope is used again.
 */
module ResolutionValidators {
  import opened Outcomes
  import opened EffectLanguage
  import opened ResolutionMachine
  import opened ResolutionOwnership
  import ResolutionTyping
  import opened ResolutionRuns
  import opened ResolutionSessions
  import ResolutionSafety

  // ---------- Durability payers ----------

  /** The payer that the operation completes, if it is a durability payment. */
  function PaymentOf(op: Operation): Option<Payer> {
    if op.RunStep? && op.step.ConsumeDurability? then Some((op.step.player, op.step.weapon)) else None
  }

  predicate ConditionalPayment(op: Operation) {
    op.RunGuardedStep? && op.step.ConsumeDurability?
  }

  /** The payers with one pending payment each, under the id of that payment. */
  function PayersOf(stack: seq<Stacked>): map<ResolutionId, Payer> {
    if stack == [] then map[] else
      if PaymentOf(Top(stack).op).Some?
      then PayersOf(Below(stack))[Top(stack).id := PaymentOf(Top(stack).op).value]
      else PayersOf(Below(stack))
  }

  predicate NoConditionalPayment(stack: seq<Stacked>) {
    forall i :: 0 <= i < |stack| ==> !ConditionalPayment(stack[i].op)
  }

  /** No two payments share an id. */
  predicate PaidOnce(stack: seq<Stacked>) {
    forall i, j :: 0 <= i < j < |stack| && PaymentOf(stack[i].op).Some? && PaymentOf(stack[j].op).Some? ==>
      stack[i].id != stack[j].id
  }

  predicate PaymentAt(stack: seq<Stacked>, i: nat, id: ResolutionId, payer: Payer) {
    i < |stack| && stack[i].id == id && PaymentOf(stack[i].op) == Some(payer)
  }

  /** The table lists the payments of the stack and nothing else. */
  lemma {:induction false} PayersAreThePayments(stack: seq<Stacked>)
    ensures forall i :: 0 <= i < |stack| && PaymentOf(stack[i].op).Some? ==> stack[i].id in PayersOf(stack)
    ensures forall id :: id in PayersOf(stack) ==> exists i: nat :: PaymentAt(stack, i, id, PayersOf(stack)[id])
    decreases |stack|
  {
    if stack != [] {
      PayersAreThePayments(Below(stack));
      forall id | id in PayersOf(stack) ensures exists i: nat :: PaymentAt(stack, i, id, PayersOf(stack)[id]) {
        if PaymentOf(Top(stack).op).Some? && id == Top(stack).id {
          assert PaymentAt(stack, |stack| - 1, id, PayersOf(stack)[id]);
        } else {
          var i: nat :| PaymentAt(Below(stack), i, id, PayersOf(Below(stack))[id]);
          assert PaymentAt(stack, i, id, PayersOf(stack)[id]);
        }
      }
    }
  }

  /**
   Accepts a stack and its payer table exactly when no payment is conditional,
   every payment has its own id, and the table holds the payments and nothing else.
   */
  method ValidateDurabilityPayers(stack: seq<Stacked>, payers: map<ResolutionId, Payer>) returns (ok: bool)
    ensures ok <==> NoConditionalPayment(stack) && PaidOnce(stack) && payers == PayersOf(stack)
  {
    var rest := payers;
    var i := 0;
    while i < |stack|
      invariant 0 <= i <= |stack|
      invariant NoConditionalPayment(stack[..i]) && PaidOnce(stack[..i])
      invariant forall id :: id in PayersOf(stack[..i]) ==> id in payers && payers[id] == PayersOf(stack[..i])[id]
      invariant rest == payers - PayersOf(stack[..i]).Keys
    {
      var payment := PaymentOf(stack[i].op);
      if payment.Some? {
        if stack[i].id !in rest || rest[stack[i].id] != payment.value {
          RefusedRightly(stack, i, payers);
          return false;
        }
        rest := rest - {stack[i].id};
      } else if ConditionalPayment(stack[i].op) {
        return false;
      }
      PaymentAccepted(stack, i);
      i := i + 1;
    }
    assert stack[..i] == stack;
    ok := rest == map[];
    if ok {
      assert forall id :: id in payers ==> id !in rest;
      assert payers == PayersOf(stack);
    }
  }

  /** One more payment under an id that was not paid before keeps the ids apart. */
  lemma PaymentAccepted(stack: seq<Stacked>, i: nat)
    requires i < |stack| && PaidOnce(stack[..i])
    ensures PayersOf(stack[..i + 1]) ==
            if PaymentOf(stack[i].op).Some?
            then PayersOf(stack[..i])[stack[i].id := PaymentOf(stack[i].op).value] else PayersOf(stack[..i])
    ensures (PaymentOf(stack[i].op).Some? ==> stack[i].id !in PayersOf(stack[..i])) ==> PaidOnce(stack[..i + 1])
  {
    var seen := stack[..i + 1];
    assert Below(seen) == stack[..i] && Top(seen) == stack[i];
    PayersAreThePayments(stack[..i]);
    assert forall j :: 0 <= j < i ==> stack[..i][j] == seen[j];
  }

  /** A payment that is missing, already used or different in the table shows that the table does not fit. */
  lemma RefusedRightly(stack: seq<Stacked>, i: nat, payers: map<ResolutionId, Payer>)
    requires i < |stack| && PaymentOf(stack[i].op).Some?
    requires var id := stack[i].id;
             id !in payers || id in PayersOf(stack[..i]) || payers[id] != PaymentOf(stack[i].op).value
    ensures !PaidOnce(stack) || payers != PayersOf(stack)
  {
    var id := stack[i].id;
    PayersAreThePayments(stack);
    if id in PayersOf(stack[..i]) {
      PayersAreThePayments(stack[..i]);
      var j: nat :| PaymentAt(stack[..i], j, id, PayersOf(stack[..i])[id]);
      assert stack[j].id == stack[i].id;
    } else if payers == PayersOf(stack) {
      var j: nat :| PaymentAt(stack, j, id, PayersOf(stack)[id]);
      assert i != j && stack[i].id == stack[j].id;
      assert if i < j then true else j < i;
    }
  }

  // ---------- References and play scopes ----------

  /** Every table entry the operation names is there. */
  predicate ReferencesLive(g: Game, op: Operation) {
    match op
    case ResolveEvent(e) => e in g.events
    case FinishEvent(e) => e in g.events
    case ResolveEventSlot(s) => s in g.slots
    case AttemptTrigger(c) => c.event in g.events
    case RunEffect(_, _, event) => event.Some? ==> event.value in g.events
    case ProcessDamage(_, s) => s in g.slots
    case ProcessHealing(_, s) => s in g.slots
    case ApplyDamage(_, e, s) => e in g.events && s in g.slots
    case ApplyHealing(_, e, s) => e in g.events && s in g.slots
    case ProcessDraw(_, _, d) => d in g.draws
    case FinishDraw(d) => d in g.draws
    case ContinueDraw(d, _, _, _) => d in g.draws
    case _ => true
  }

  /** One operation of the walk: the scopes still open after it, or None when it uses one that is not. */
  function WalkOne(scopes: map<ResolutionId, EntityId>, s: Stacked): Option<map<ResolutionId, EntityId>> {
    match s.op
    case RunPlayEffect(scope, context, _) =>
      if context.source.Some? && scope in scopes && scopes[scope] == context.source.value then Some(scopes) else None
    case TransformEntity(Some(scope), target, _, _, _) =>
      if scope in scopes && scopes[scope] == target then Some(scopes) else None
    case FinishPlayedSelf(subject, _) =>
      if s.id in scopes && scopes[s.id] == subject then Some(scopes - {s.id}) else None
    case _ => Some(scopes)
  }

  /** The play scope the operation runs in, if it runs in one, and the entity it takes the scope to be for. */
  function UsedScope(op: Operation): Option<ResolutionId> {
    if op.RunPlayEffect? then Some(op.scope) else if op.TransformEntity? then op.playScope else None
  }

  function UsedFor(op: Operation): Option<EntityId> {
    if op.RunPlayEffect? then op.context.source else if op.TransformEntity? then Some(op.target) else None
  }

  /** The operation completes the scope of its own id. */
  predicate Completes(s: Stacked, scope: ResolutionId) {
    s.op.FinishPlayedSelf? && s.id == scope
  }

  /** The scope used at i is open: it is there, for the right entity, and its completion is still below. */
  predicate UsesOpenScope(scopes: map<ResolutionId, EntityId>, stack: seq<Stacked>, i: nat)
    requires i < |stack| && UsedScope(stack[i].op).Some?
  {
    var scope := UsedScope(stack[i].op).value;
    && scope in scopes && UsedFor(stack[i].op) == Some(scopes[scope])
    && exists j :: 0 <= j < i && Completes(stack[j], scope)
  }

  predicate UsesAreOpen(scopes: map<ResolutionId, EntityId>, stack: seq<Stacked>) {
    forall i :: 0 <= i < |stack| && UsedScope(stack[i].op).Some? ==> UsesOpenScope(scopes, stack, i)
  }

  /** Completions are of scopes that are there, for their entities, and no scope has two. */
  predicate CompletionsFit(scopes: map<ResolutionId, EntityId>, stack: seq<Stacked>) {
    && (forall i :: 0 <= i < |stack| && stack[i].op.FinishPlayedSelf? ==>
          stack[i].id in scopes && scopes[stack[i].id] == stack[i].op.subject)
    && (forall i, j :: 0 <= i < j < |stack| && stack[i].op.FinishPlayedSelf? && stack[j].op.FinishPlayedSelf? ==>
          stack[i].id != stack[j].id)
  }

  predicate EveryScopeCompletes(scopes: map<ResolutionId, EntityId>, stack: seq<Stacked>) {
    forall scope :: scope in scopes ==> exists j :: 0 <= j < |stack| && Completes(stack[j], scope)
  }

  predicate AllReferencesLive(g: Game, stack: seq<Stacked>) {
    forall i :: 0 <= i < |stack| ==> ReferencesLive(g, stack[i].op)
  }

  /** Every scope is used while open and closed by its one completion, and none is left over. */
  predicate WellScoped(scopes: map<ResolutionId, EntityId>, stack: seq<Stacked>) {
    UsesAreOpen(scopes, stack) && CompletionsFit(scopes, stack) && EveryScopeCompletes(scopes, stack)
  }

  /** Executing a use: what lies below must be well scoped, and will close the scope. */
  lemma UseDecides(scopes: map<ResolutionId, EntityId>, stack: seq<Stacked>)
    requires stack != [] && !Top(stack).op.FinishPlayedSelf?
    ensures WellScoped(scopes, stack) <==> WalkOne(scopes, Top(stack)).Some? && WellScoped(scopes, Below(stack))
  {
    var last := |stack| - 1;
    assert forall i :: 0 <= i < last ==> Below(stack)[i] == stack[i];
    if WellScoped(scopes, stack) {
      forall i | 0 <= i < last && UsedScope(stack[i].op).Some? ensures UsesOpenScope(scopes, Below(stack), i) {
        assert UsesOpenScope(scopes, stack, i);
      }
      forall scope | scope in scopes ensures exists j :: 0 <= j < last && Completes(Below(stack)[j], scope) {
        var j :| 0 <= j < |stack| && Completes(stack[j], scope);
        assert Completes(Below(stack)[j], scope);
      }
      assert UsedScope(stack[last].op).Some? ==> UsesOpenScope(scopes, stack, last);
    }
    if WalkOne(scopes, Top(stack)).Some? && WellScoped(scopes, Below(stack)) {
      LowerPartIsScoped(scopes, stack);
    }
  }

  lemma LowerPartIsScoped(scopes: map<ResolutionId, EntityId>, stack: seq<Stacked>)
    requires stack != [] && !Top(stack).op.FinishPlayedSelf?
    requires WalkOne(scopes, Top(stack)).Some? && WellScoped(scopes, Below(stack))
    ensures WellScoped(scopes, stack)
  {
    var last := |stack| - 1;
    assert forall i :: 0 <= i < last ==> Below(stack)[i] == stack[i];
    forall i | 0 <= i < |stack| && UsedScope(stack[i].op).Some? ensures UsesOpenScope(scopes, stack, i) {
      if i < last {
        assert UsesOpenScope(scopes, Below(stack), i);
      } else {
        var j :| 0 <= j < last && Completes(Below(stack)[j], UsedScope(stack[i].op).value);
        assert Completes(stack[j], UsedScope(stack[i].op).value);
      }
    }
    forall scope | scope in scopes ensures exists j :: 0 <= j < |stack| && Completes(stack[j], scope) {
      var j :| 0 <= j < last && Completes(Below(stack)[j], scope);
      assert Completes(stack[j], scope);
    }
  }

  /** Executing a completion: it closes its own scope, which nothing below may use or close again. */
  lemma CompletionDecides(scopes: map<ResolutionId, EntityId>, stack: seq<Stacked>)
    requires stack != [] && Top(stack).op.FinishPlayedSelf?
    ensures WellScoped(scopes, stack) <==>
            && WalkOne(scopes, Top(stack)).Some?
            && WellScoped(scopes - {Top(stack).id}, Below(stack))
  {
    if WellScoped(scopes, stack) {
      ClosedScopeIsUnused(scopes, stack);
    }
    if WalkOne(scopes, Top(stack)).Some? && WellScoped(scopes - {Top(stack).id}, Below(stack)) {
      ClosingIsScoped(scopes, stack);
    }
  }

  lemma ClosedScopeIsUnused(scopes: map<ResolutionId, EntityId>, stack: seq<Stacked>)
    requires stack != [] && Top(stack).op.FinishPlayedSelf? && WellScoped(scopes, stack)
    ensures WalkOne(scopes, Top(stack)).Some? && WellScoped(scopes - {Top(stack).id}, Below(stack))
  {
    var last := |stack| - 1;
    assert forall i :: 0 <= i < last ==> Below(stack)[i] == stack[i];
    assert stack[last].id in scopes;
    forall i | 0 <= i < last && UsedScope(stack[i].op).Some?
      ensures UsesOpenScope(scopes - {stack[last].id}, Below(stack), i)
    {
      assert UsesOpenScope(scopes, stack, i);
      var j :| 0 <= j < i && Completes(stack[j], UsedScope(stack[i].op).value);
      assert Completes(Below(stack)[j], UsedScope(stack[i].op).value);
    }
    forall scope | scope in scopes - {stack[last].id}
      ensures exists j :: 0 <= j < last && Completes(Below(stack)[j], scope)
    {
      var j :| 0 <= j < |stack| && Completes(stack[j], scope);
      assert Completes(Below(stack)[j], scope);
    }
  }

  lemma ClosingIsScoped(scopes: map<ResolutionId, EntityId>, stack: seq<Stacked>)
    requires stack != [] && Top(stack).op.FinishPlayedSelf? && WalkOne(scopes, Top(stack)).Some?
    requires WellScoped(scopes - {Top(stack).id}, Below(stack))
    ensures WellScoped(scopes, stack)
  {
    var last, id := |stack| - 1, Top(stack).id;
    assert forall i :: 0 <= i < last ==> Below(stack)[i] == stack[i];
    forall i | 0 <= i < |stack| && UsedScope(stack[i].op).Some? ensures UsesOpenScope(scopes, stack, i) {
      assert UsesOpenScope(scopes - {id}, Below(stack), i);
      var j :| 0 <= j < i && Completes(Below(stack)[j], UsedScope(stack[i].op).value);
      assert Completes(stack[j], UsedScope(stack[i].op).value);
    }
    forall scope | scope in scopes ensures exists j :: 0 <= j < |stack| && Completes(stack[j], scope) {
      if scope == id {
        assert Completes(stack[last], scope);
      } else {
        assert scope in scopes - {id};
        var j :| 0 <= j < last && Completes(Below(stack)[j], scope);
        assert Completes(stack[j], scope);
      }
    }
  }

  /** One step of the walk decides as much as the whole stack demands of its top. */
  lemma WalkDecides(g: Game, scopes: map<ResolutionId, EntityId>, stack: seq<Stacked>)
    requires stack != []
    ensures AllReferencesLive(g, stack) && WellScoped(scopes, stack) <==>
            && ReferencesLive(g, Top(stack).op) && AllReferencesLive(g, Below(stack))
            && WalkOne(scopes, Top(stack)).Some? && WellScoped(WalkOne(scopes, Top(stack)).value, Below(stack))
  {
    if Top(stack).op.FinishPlayedSelf? {
      CompletionDecides(scopes, stack);
    } else {
      UseDecides(scopes, stack);
    }
    ReferencesSplit(g, stack);
  }

  lemma ReferencesSplit(g: Game, stack: seq<Stacked>)
    requires stack != []
    ensures AllReferencesLive(g, stack) <==> ReferencesLive(g, Top(stack).op) && AllReferencesLive(g, Below(stack))
  {
    assert forall i :: 0 <= i < |stack| - 1 ==> Below(stack)[i] == stack[i];
  }

  predicate DistinctSubjects(scopes: map<ResolutionId, EntityId>) {
    forall s, t :: s in scopes && t in scopes && scopes[s] == scopes[t] ==> s == t
  }

  /** Walks the stack once from the top, against a copy of the scopes. */
  method ValidateScopeWalk(g: Game, stack: seq<Stacked>) returns (ok: bool)
    ensures ok <==> AllReferencesLive(g, stack) && WellScoped(g.scopes, stack)
  {
    var scopes := g.scopes;
    var i := |stack|;
    assert stack[..i] == stack;
    while i > 0
      invariant 0 <= i <= |stack|
      invariant AllReferencesLive(g, stack) && WellScoped(g.scopes, stack) <==>
                AllReferencesLive(g, stack[..i]) && WellScoped(scopes, stack[..i])
    {
      assert Top(stack[..i]) == stack[i - 1] && Below(stack[..i]) == stack[..i - 1];
      WalkDecides(g, scopes, stack[..i]);
      var walked := WalkOne(scopes, stack[i - 1]);
      if !ReferencesLive(g, stack[i - 1].op) || walked.None? {
        return false;
      }
      scopes := walked.value;
      i := i - 1;
    }
    NothingLeftToClose(scopes);
    ok := scopes == map[];
  }

  lemma NothingLeftToClose(scopes: map<ResolutionId, EntityId>)
    ensures WellScoped(scopes, []) <==> scopes == map[]
  {
    if WellScoped(scopes, []) {
      assert scopes.Keys == {};
    }
  }

  // ---------- Every pause passes ----------

  /** The tables hold at least what is charged. */
  predicate Covers(g: Game, n: Ledger) {
    n.events.Keys <= g.events.Keys && n.slots.Keys <= g.slots.Keys && n.draws.Keys <= g.draws.Keys
  }

  lemma CoveredBelow(g: Game, n: Ledger, id: ResolutionId, op: Operation, m: Ledger)
    requires Charge(n, id, op) == Some(m) && Covers(g, m)
    ensures Covers(g, n)
  {
    if op.RunStep? || op.RunGuardedStep? {} else if EventOperation(op) {} else if HealthOperation(op) {} else {}
  }

  lemma ChargedReferencesAreLive(g: Game, n: Ledger, id: ResolutionId, op: Operation, m: Ledger)
    requires Charge(n, id, op) == Some(m) && Covers(g, m)
    ensures ReferencesLive(g, op)
  {
    if EventOperation(op) {} else if HealthOperation(op) {} else {}
  }

  lemma UsedScopesAreOpen(n: Ledger, s: Stacked, m: Ledger, natives: set<NativeId>, g: Game)
    requires Charge(n, s.id, s.op) == Some(m) && ResolutionTyping.OpTyped(natives, g.world, g.created, s.op)
    requires s.op.RunPlayEffect? || s.op.TransformEntity?
    ensures WalkOne(m.scopes, s) == Some(n.scopes)
  {
  }

  lemma ClosedScopeWasOpen(n: Ledger, s: Stacked, m: Ledger)
    requires Charge(n, s.id, s.op) == Some(m) && s.op.FinishPlayedSelf?
    ensures WalkOne(m.scopes, s) == Some(n.scopes)
  {
    assert m.scopes - {s.id} == n.scopes;
  }

  /** Charged scopes are used and closed exactly as the walk demands. */
  lemma WalkMatchesCharge(n: Ledger, s: Stacked, m: Ledger, natives: set<NativeId>, g: Game)
    requires Charge(n, s.id, s.op) == Some(m) && ResolutionTyping.OpTyped(natives, g.world, g.created, s.op)
    ensures WalkOne(m.scopes, s) == Some(n.scopes)
  {
    if s.op.FinishPlayedSelf? {
      ClosedScopeWasOpen(n, s, m);
    } else if s.op.RunPlayEffect? || s.op.TransformEntity? {
      UsedScopesAreOpen(n, s, m, natives, g);
    } else {
      ScopesAfter(n, s.id, s.op, m);
    }
  }

  lemma {:induction false} OwedWorkIsAccepted(natives: set<NativeId>, g: Game, stack: seq<Stacked>)
    requires Owed(stack).Some? && Covers(g, Owed(stack).value) && ResolutionSafety.StackTyped(natives, g, stack)
    ensures AllReferencesLive(g, stack) && WellScoped(Owed(stack).value.scopes, stack)
    decreases |stack|
  {
    if stack != [] {
      var n, m := Owed(Below(stack)).value, Owed(stack).value;
      assert ResolutionTyping.OpTyped(natives, g.world, g.created, stack[|stack| - 1].op);
      CoveredBelow(g, n, Top(stack).id, Top(stack).op, m);
      ChargedReferencesAreLive(g, n, Top(stack).id, Top(stack).op, m);
      WalkMatchesCharge(n, Top(stack), m, natives, g);
      OwedWorkIsAccepted(natives, g, Below(stack));
      WalkDecides(g, m.scopes, stack);
    } else {
      NothingLeftToClose(map[]);
    }
  }

  lemma PaymentIsCharged(n: Ledger, id: ResolutionId, op: Operation, m: Ledger)
    requires Charge(n, id, op) == Some(m)
    ensures !ConditionalPayment(op)
    ensures m.payers == if PaymentOf(op).Some? then n.payers[id := PaymentOf(op).value] else n.payers
  {
    if op.RunStep? {} else if op.RunGuardedStep? {} else if EventOperation(op) {} else {}
  }

  lemma {:induction false} OwedPayersAreAccepted(stack: seq<Stacked>)
    requires Owed(stack).Some?
    ensures NoConditionalPayment(stack) && Owed(stack).value.payers == PayersOf(stack)
    decreases |stack|
  {
    if stack != [] {
      OwedPayersAreAccepted(Below(stack));
      PaymentIsCharged(Owed(Below(stack)).value, Top(stack).id, Top(stack).op, Owed(stack).value);
      forall i | 0 <= i < |stack| ensures !ConditionalPayment(stack[i].op) {
        if i < |stack| - 1 { assert Below(stack)[i] == stack[i]; }
      }
    }
  }

  lemma {:induction false} AtMostOneScope(stack: seq<Stacked>)
    requires Owed(stack).Some?
    ensures DistinctSubjects(Owed(stack).value.scopes)
    decreases |stack|
  {
    if stack != [] {
      AtMostOneScope(Below(stack));
      ScopesAfter(Owed(Below(stack)).value, Top(stack).id, Top(stack).op, Owed(stack).value);
    }
  }

  lemma ScopesAfter(n: Ledger, id: ResolutionId, op: Operation, m: Ledger)
    requires Charge(n, id, op) == Some(m)
    ensures m.scopes == n.scopes || (op.FinishPlayedSelf? && m.scopes == map[id := op.subject])
  {
    if op.RunStep? || op.RunGuardedStep? {} else if EventOperation(op) {} else {}
  }

  /** Every state at rest, in particular every pause at a choice, passes all of the checks. */
  lemma EveryPausePassesTheWalks(m: Machine, natives: set<NativeId>)
    requires ResolutionSafety.SafelyAtRest(m, natives)
    ensures AllReferencesLive(m.core.game, m.stack) && WellScoped(m.core.game.scopes, m.stack)
    ensures NoConditionalPayment(m.stack) && PaidOnce(m.stack) && m.core.game.payers == PayersOf(m.stack)
    ensures DistinctSubjects(m.core.game.scopes) && MarksScoped(m.core.game.transforms, m.core.game.scopes)
    ensures forall s :: s in m.core.game.slots && m.core.game.slots[s].Some? ==>
      m.core.game.slots[s].value in m.core.game.events
  {
    OwedPayersAreAccepted(m.stack);
    AtMostOneScope(m.stack);
    OwedWorkIsAccepted(natives, m.core.game, m.stack);
    forall s | s in m.core.game.slots && m.core.game.slots[s].Some?
      ensures m.core.game.slots[s].value in m.core.game.events
    {
      assert HoldsFinal(m.core.game.events, Owed(m.stack).value.events, m.core.game.slots[s].value);
    }
  }
}
