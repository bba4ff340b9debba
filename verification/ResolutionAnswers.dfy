/**
 Answering the choices of a sequence one by one.

 The commands that answer every choice take the session where one drive
 through all the choices ends, so a sequence with suspensions is the sequence
 without them.
 */
module ResolutionAnswers {
  import opened Outcomes
  import opened EffectLanguage
  import opened ResolutionMachine
  import opened ResolutionRuns
  import opened ResolutionSessions

  /** The id of the option the answers pick. */
  function Picked(c: Core, answers: Answers): ChoiceId
    requires c.choice.Some? && c.choice.value.options != []
  {
    var options := c.choice.value.options;
    options[answers(|c.executed|) % |options|].id
  }

  /** The commands that answer every choice at which the drive pauses. */
  function Replies(c: Core, natives: set<NativeId>, stack: seq<Stacked>, oracle: Oracle, answers: Answers): seq<Command>
    requires c.choice.None?
    decreases c.budget
  {
    var o := Drive(c, natives, stack, oracle);
    if o.Paused? then
      PausesOfferOptions(c, natives, stack, oracle);
      var (resumed, chosen) := Answered(o.core, answers);
      [SubmitChoice(Picked(o.core, answers), oracle)] + Replies(resumed, natives, o.rest + chosen, oracle, answers)
    else []
  }

  /** Options have different ids, so an offered option is found by its id. */
  lemma {:induction false} OfferedOptionIsFound(options: seq<ChoiceOption>, k: nat)
    requires UniqueChoices(options) && k < |options|
    ensures FindOption(options, options[k].id) == Some(options[k])
    decreases |options|
  {
    if k > 0 {
      var rest := options[1..];
      assert forall i :: 0 <= i < |rest| ==> rest[i] == options[i + 1];
      assert options[0].id != options[k].id;
      OfferedOptionIsFound(rest, k - 1);
    }
  }

  lemma AnswerTakes(m: Machine, natives: set<NativeId>, id: ChoiceId, chosen: ChoiceOption, oracle: Oracle)
    requires m.core.choice.Some? && FindOption(m.core.choice.value.options, id) == Some(chosen)
    ensures Answer(m, natives, id, oracle) == ResolveToPause(Pushed(m, chosen.operations), natives, oracle)
  {
  }

  lemma AnswerResumes(m: Machine, natives: set<NativeId>, oracle: Oracle, answers: Answers)
    requires m.core.choice.Some? && UniqueChoices(m.core.choice.value.options)
    ensures var (resumed, chosen) := Answered(m.core, answers);
            Answer(m, natives, Picked(m.core, answers), oracle) ==
            Settled(m.active, Drive(resumed, natives, m.stack + chosen, oracle))
  {
    var options := m.core.choice.value.options;
    var k := answers(|m.core.executed|) % |options|;
    OfferedOptionIsFound(options, k);
    AnswerTakes(m, natives, options[k].id, options[k], oracle);
  }

  lemma RunFirst(m: Machine, natives: set<NativeId>, command: Command, rest: seq<Command>)
    ensures var (after, report) := Run(m, natives, command);
            var (last, reports) := RunSession(after, natives, rest);
            RunSession(m, natives, [command] + rest) == (last, [report] + reports)
  {
    assert ([command] + rest)[1..] == rest;
  }

  /** Only the last of the commands reports anything, and it ends the sequence as the drive through does. */
  ghost predicate EndsAs(first: (Machine, Option<SessionError>), natives: set<NativeId>, replies: seq<Command>,
                         end: (Machine, Option<SessionError>)) {
    var (last, reports) := RunSession(first.0, natives, replies);
    var all := [first.1] + reports;
    && last == end.0 && all[|all| - 1] == end.1
    && forall i :: 0 <= i < |all| - 1 ==> all[i].None?
  }

  lemma EndsAfterOneMore(first: (Machine, Option<SessionError>), natives: set<NativeId>, command: Command,
                         rest: seq<Command>, end: (Machine, Option<SessionError>))
    requires first.1.None? && EndsAs(Run(first.0, natives, command), natives, rest, end)
    ensures EndsAs(first, natives, [command] + rest, end)
  {
    RunFirst(first.0, natives, command, rest);
    var second := Run(first.0, natives, command);
    var all := [second.1] + RunSession(second.0, natives, rest).1;
    assert RunSession(first.0, natives, [command] + rest).1 == all;
    forall i | 0 <= i < |all| ensures ([first.1] + all)[i] == (if i == 0 then None else all[i - 1]) {}
  }

  /** Answering the choices one by one ends where driving through all of them ends. */
  lemma {:induction false} AnsweringDrivesThrough(active: bool, c: Core, natives: set<NativeId>, stack: seq<Stacked>,
                                                  oracle: Oracle, answers: Answers)
    requires c.choice.None?
    ensures EndsAs(Settled(active, Drive(c, natives, stack, oracle)), natives,
                   Replies(c, natives, stack, oracle, answers),
                   Settled(active, DriveThrough(c, natives, stack, oracle, answers)))
    decreases c.budget
  {
    var o := Drive(c, natives, stack, oracle);
    if o.Paused? {
      PausesOfferOptions(c, natives, stack, oracle);
      var (resumed, chosen) := Answered(o.core, answers);
      AnswerResumes(Settled(active, o).0, natives, oracle, answers);
      AnsweringDrivesThrough(active, resumed, natives, o.rest + chosen, oracle, answers);
      EndsAfterOneMore(Settled(active, o), natives, SubmitChoice(Picked(o.core, answers), oracle),
                       Replies(resumed, natives, o.rest + chosen, oracle, answers),
                       Settled(active, DriveThrough(c, natives, stack, oracle, answers)));
    }
  }

  /**
   An accepted action whose choices are all answered ends as the run in which
   each choice is answered on the spot and its operations run in its place.
   */
  lemma SessionsRunInline(m: Machine, natives: set<NativeId>, action: Action, budget: nat, oracle: Oracle,
                          answers: Answers)
    requires m.status == AwaitingAction && !m.core.game.over && ProgramsAccepted(m.core.game, natives, action)
    requires Begin(m.(status := Resolving), budget).Ok?
    ensures var p := Pushed(Begin(m.(status := Resolving), budget).value, ActionOps(action));
            EndsAs(Submit(m, natives, action, true, budget, oracle), natives,
                   Replies(p.core, natives, p.stack, oracle, answers),
                   Settled(true, RunInline(p.core, natives, p.stack, oracle, answers)))
  {
    var p := Pushed(Begin(m.(status := Resolving), budget).value, ActionOps(action));
    AnsweringDrivesThrough(true, p.core, natives, p.stack, oracle, answers);
    SuspensionIsInvisible(p.core, natives, p.stack, oracle, answers);
  }
}
