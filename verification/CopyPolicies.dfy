/**
 The policy stored with a pending copy.

 A request to copy takes down the policy that fits its source. When the request
 runs, the policy is taken anew from the world, so the stored one never shows in
 a run. Only restoring a saved session looks at it.
 */
module CopyPolicies {
  import opened EffectLanguage
  import opened ResolutionMachine
  import ResolutionOwnership
  import ResolutionTyping
  import opened ResolutionRuns
  import opened ResolutionSessions
  import ResolutionSafety
  import opened RestoredPrograms

  // ---------- Runs ----------

  predicate SameOp(a: Operation, b: Operation) {
    a == b || (a.CopyEntity? && b.CopyEntity? && a == b.(playState := a.playState))
  }

  /** The same operations under the same ids, up to the policies of copies. */
  predicate SameWork(stack: seq<Stacked>, other: seq<Stacked>) {
    |stack| == |other| &&
    forall i :: 0 <= i < |stack| ==> stack[i].id == other[i].id && SameOp(stack[i].op, other[i].op)
  }

  lemma StoredPolicyIsIgnored(g: Game, env: Env, id: ResolutionId, a: Operation, b: Operation, inp: Input)
    requires SameOp(a, b) && !a.RequestChoice?
    ensures Dispatch(g, env, id, a, inp) == Dispatch(g, env, id, b, inp)
  {
  }

  lemma SameExecution(c: Core, natives: set<NativeId>, a: Stacked, b: Stacked, oracle: Oracle)
    requires c.budget > 0 && a.id == b.id && SameOp(a.op, b.op)
    ensures Executed(c, natives, a, oracle) == Executed(c, natives, b, oracle)
  {
    if !a.op.RequestChoice? {
      StoredPolicyIsIgnored(c.game, Env(natives, c.budget - 1, c.next), a.id, a.op, b.op, oracle(a.id));
    }
  }

  lemma SameWorkGoesOn(stack: seq<Stacked>, other: seq<Stacked>, pushed: seq<Stacked>)
    requires stack != [] && SameWork(stack, other)
    ensures other != [] && SameWork(Below(stack) + pushed, Below(other) + pushed)
  {
  }

  /** Equal ends, up to the policies of the copies that are still pending. */
  predicate SameOutcome(o: Outcome, p: Outcome) {
    match o
    case Paused(c, rest) => p.Paused? && p.core == c && SameWork(rest, p.rest)
    case _ => o == p
  }

  /** However copies were requested, a drive does the same and ends the same. */
  lemma {:induction false} PoliciesNeverShow(c: Core, natives: set<NativeId>, stack: seq<Stacked>, other: seq<Stacked>,
                                             oracle: Oracle)
    requires SameWork(stack, other)
    ensures SameOutcome(Drive(c, natives, stack, oracle), Drive(c, natives, other, oracle))
    decreases c.budget
  {
    if stack != [] && c.budget > 0 {
      SameExecution(c, natives, Top(stack), Top(other), oracle);
      var r := Executed(c, natives, Top(stack), oracle);
      if r.Ok? {
        SameWorkGoesOn(stack, other, r.value.1);
        if r.value.0.choice.None? {
          PoliciesNeverShow(r.value.0, natives, Below(stack) + r.value.1, Below(other) + r.value.1, oracle);
        }
      }
    }
  }

  // ---------- Sessions ----------

  predicate SameMachine(m: Machine, k: Machine) {
    m == k.(stack := m.stack) && SameWork(m.stack, k.stack)
  }

  lemma SettledTheSame(active: bool, o: Outcome, p: Outcome)
    requires SameOutcome(o, p)
    ensures SameMachine(Settled(active, o).0, Settled(active, p).0) && Settled(active, o).1 == Settled(active, p).1
  {
  }

  lemma PushedTheSame(m: Machine, k: Machine, ops: seq<Operation>)
    requires SameMachine(m, k)
    ensures Pushed(m, ops).core == Pushed(k, ops).core && SameWork(Pushed(m, ops).stack, Pushed(k, ops).stack)
  {
  }

  lemma ResolvedTheSame(m: Machine, k: Machine, natives: set<NativeId>, ops: seq<Operation>, oracle: Oracle)
    requires SameMachine(m, k)
    ensures var (after, report) := ResolveToPause(Pushed(m, ops), natives, oracle);
            var (other, reported) := ResolveToPause(Pushed(k, ops), natives, oracle);
            SameMachine(after, other) && report == reported
  {
    PushedTheSame(m, k, ops);
    DrivenTheSame(m.active, Pushed(m, ops).core, natives, Pushed(m, ops).stack, Pushed(k, ops).stack, oracle);
  }

  lemma DrivenTheSame(active: bool, c: Core, natives: set<NativeId>, stack: seq<Stacked>, other: seq<Stacked>,
                      oracle: Oracle)
    requires SameWork(stack, other)
    ensures SameMachine(Settled(active, Drive(c, natives, stack, oracle)).0,
                        Settled(active, Drive(c, natives, other, oracle)).0)
    ensures Settled(active, Drive(c, natives, stack, oracle)).1 == Settled(active, Drive(c, natives, other, oracle)).1
  {
    PoliciesNeverShow(c, natives, stack, other, oracle);
    SettledTheSame(active, Drive(c, natives, stack, oracle), Drive(c, natives, other, oracle));
  }

  lemma RunTheSame(m: Machine, k: Machine, natives: set<NativeId>, command: Command)
    requires SameMachine(m, k)
    ensures SameMachine(Run(m, natives, command).0, Run(k, natives, command).0)
    ensures Run(m, natives, command).1 == Run(k, natives, command).1
  {
    match command
    case SubmitAction(action, legal, budget, oracle) =>
      var begun := Begin(m.(status := Resolving), budget);
      if begun.Ok? {
        ResolvedTheSame(begun.value, Begin(k.(status := Resolving), budget).value, natives, ActionOps(action), oracle);
      }
    case SubmitChoice(option, oracle) =>
      if m.core.choice.Some? {
        var found := FindOption(m.core.choice.value.options, option);
        if found.Some? { ResolvedTheSame(m, k, natives, found.value.operations, oracle); }
      }
  }

  /** Sessions that differ only in the policies of pending copies report the same, whatever commands follow. */
  lemma {:induction false} SessionsIgnorePolicies(m: Machine, k: Machine, natives: set<NativeId>,
                                                  commands: seq<Command>)
    requires SameMachine(m, k)
    ensures SameMachine(RunSession(m, natives, commands).0, RunSession(k, natives, commands).0)
    ensures RunSession(m, natives, commands).1 == RunSession(k, natives, commands).1
    decreases |commands|
  {
    if commands != [] {
      RunTheSame(m, k, natives, commands[0]);
      SessionsIgnorePolicies(Run(m, natives, commands[0]).0, Run(k, natives, commands[0]).0, natives, commands[1..]);
    }
  }

  // ---------- Bringing the policies up to date ----------

  function UpToDateOp(world: map<EntityId, GameEntity>, op: Operation): (live: Operation)
    ensures SameOp(op, live)
  {
    if op.CopyEntity? then WithLivePolicy(world, op) else op
  }

  function UpToDate(world: map<EntityId, GameEntity>, stack: seq<Stacked>): (live: seq<Stacked>)
    ensures SameWork(stack, live)
    ensures forall i :: 0 <= i < |stack| ==> live[i].op == UpToDateOp(world, stack[i].op)
  {
    seq(|stack|, i requires 0 <= i < |stack| => Stacked(stack[i].id, UpToDateOp(world, stack[i].op)))
  }

  /** The machine with every pending copy's policy taken from the world as it is. */
  function WithLivePolicies(m: Machine): (live: Machine)
    ensures SameMachine(m, live)
  {
    m.(stack := UpToDate(m.core.game.world, m.stack))
  }

  /** A pending copy can be carried out as soon as its policy is up to date. */
  predicate CardFits(g: Game, natives: set<NativeId>, op: Operation, inp: Input)
    requires op.CopyEntity?
  {
    op.original in g.world ==>
      var card := g.world[op.original].card;
      && !(card.kind == Weapon && card.durability <= 0)
      && (inp.passes ==> !inp.fails && CheckCard(natives, card).None?)
  }

  predicate CardsFit(g: Game, natives: set<NativeId>, stack: seq<Stacked>, answers: Oracle) {
    forall i :: 0 <= i < |stack| && stack[i].op.CopyEntity? ==>
      CardFits(g, natives, stack[i].op, answers(stack[i].id))
  }

  lemma SameCharge(n: ResolutionOwnership.Ledger, id: ResolutionId, a: Operation, b: Operation)
    requires SameOp(a, b)
    ensures ResolutionOwnership.Charge(n, id, a) == ResolutionOwnership.Charge(n, id, b)
  {
  }

  lemma {:induction false} SameOwed(stack: seq<Stacked>, other: seq<Stacked>)
    requires SameWork(stack, other)
    ensures Owed(stack) == Owed(other)
    decreases |stack|
  {
    if stack != [] {
      SameWorkGoesOn(stack, other, []);
      assert Below(stack) + [] == Below(stack) && Below(other) + [] == Below(other);
      SameOwed(Below(stack), Below(other));
      if Owed(Below(stack)).Some? { SameCharge(Owed(Below(stack)).value, Top(stack).id, Top(stack).op, Top(other).op); }
    }
  }

  lemma LivePoliciesStaySafe(m: Machine, natives: set<NativeId>)
    requires ResolutionSafety.SafelyAtRest(m, natives) && Orderly(m)
    ensures ResolutionSafety.SafelyAtRest(WithLivePolicies(m), natives) && Orderly(WithLivePolicies(m))
  {
    var live := WithLivePolicies(m);
    SameOwed(m.stack, live.stack);
    assert OnceOnly(live.core, live.stack);
    assert ResolutionSafety.StackTyped(natives, live.core.game, live.stack) by {
      forall i | 0 <= i < |live.stack|
        ensures ResolutionTyping.OpTyped(natives, live.core.game.world, live.core.game.created, live.stack[i].op)
      {
        assert ResolutionTyping.OpTyped(natives, m.core.game.world, m.core.game.created, m.stack[i].op);
      }
    }
  }

  lemma LivePolicyFits(g: Game, natives: set<NativeId>, op: Operation, inp: Input)
    requires op.CopyEntity?
    ensures CopyFits(g, natives, WithLivePolicy(g.world, op), inp) <==> CardFits(g, natives, op, inp)
  {
  }

  /**
   Once the policies are brought up to date, a session at rest is accepted
   again exactly when its enchantments carry triggers an attachment may have
   and the cards of its pending copies are valid, wherever their sources are.
   */
  lemma LivePoliciesAreRestored(m: Machine, natives: set<NativeId>, answers: Oracle)
    requires ResolutionSafety.SafelyAtRest(m, natives) && Orderly(m)
    ensures var live := WithLivePolicies(m);
            WorkValid(live) && ProgramsValid(live, natives, answers) <==>
            EnchantmentsFit(natives, m.core.game.world) && CardsFit(m.core.game, natives, m.stack, answers)
  {
    var g, live := m.core.game, WithLivePolicies(m);
    LivePoliciesStaySafe(m, natives);
    RestoredExactlyWhenCopiesFit(live, natives, answers);
    forall i | 0 <= i < |m.stack| && m.stack[i].op.CopyEntity?
      ensures CopyFits(g, natives, live.stack[i].op, answers(live.stack[i].id)) <==>
              CardFits(g, natives, m.stack[i].op, answers(m.stack[i].id))
    {
      LivePolicyFits(g, natives, m.stack[i].op, answers(m.stack[i].id));
    }
  }
}
