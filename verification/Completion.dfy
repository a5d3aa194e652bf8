/** How a finished session is judged: per-state counts and whether everything reversible was reversed. */
module Completion {
  import opened Types

  /** A record that leaves nothing to undo and nothing to ask about. */
  predicate Settled(a: ExecutedAction) {
    if IsReversible(a.action.kind) then a.state == RolledBack || a.state == Rejected || a.state == Failed
    else a.state != Planned && a.state != Uncertain
  }

  predicate RollbackComplete(actions: seq<ExecutedAction>) {
    forall i | 0 <= i < |actions| :: Settled(actions[i])
  }

  function Count(actions: seq<ExecutedAction>, state: ActionState): nat {
    if actions == [] then 0
    else Count(actions[..|actions| - 1], state) + if actions[|actions| - 1].state == state then 1 else 0
  }

  datatype Tally = Tally(
    planned: nat, applied: nat, completed: nat, rolledBack: nat, uncertain: nat, failed: nat, rejected: nat)
  {
    function Total(): nat { planned + applied + completed + rolledBack + uncertain + failed + rejected }
  }

  function TallyOf(actions: seq<ExecutedAction>): Tally {
    Tally(Count(actions, Planned), Count(actions, Applied), Count(actions, ActionState.Completed),
          Count(actions, RolledBack), Count(actions, Uncertain), Count(actions, Failed), Count(actions, Rejected))
  }

  /** Every action is counted once. */
  lemma {:induction false} TallyIsTotal(actions: seq<ExecutedAction>)
    ensures TallyOf(actions).Total() == |actions|
  {
    if actions != [] {
      TallyIsTotal(actions[..|actions| - 1]);
    }
  }

  /** A complete rollback leaves nothing planned or uncertain, and nothing applied but one-shot actions. */
  lemma {:induction false} CompleteMeansNothingPending(actions: seq<ExecutedAction>)
    requires RollbackComplete(actions)
    ensures TallyOf(actions).planned == 0 && TallyOf(actions).uncertain == 0
  {
    if actions != [] {
      var init := actions[..|actions| - 1];
      assert RollbackComplete(init);
      CompleteMeansNothingPending(init);
    }
  }

  lemma CompleteGrows(actions: seq<ExecutedAction>, i: nat)
    requires i < |actions|
    ensures RollbackComplete(actions[..i + 1]) == (RollbackComplete(actions[..i]) && Settled(actions[i]))
  {
    hide Settled;
    assert actions[..i + 1] == actions[..i] + [actions[i]];
  }

  lemma NothingIsComplete()
    ensures RollbackComplete([])
  {
  }

  /** What the counting loop looks for. */
  predicate Blocks(a: ExecutedAction) {
    || (IsReversible(a.action.kind) && a.state != RolledBack && a.state != Rejected && a.state != Failed)
    || (!IsReversible(a.action.kind) && (a.state == Planned || a.state == Uncertain))
  }

  lemma SettledOrBlocks(a: ExecutedAction)
    ensures Settled(a) <==> !Blocks(a)
  {
  }

  /** The counting loop of CompletionReport. */
  method Assess(actions: seq<ExecutedAction>) returns (tally: Tally, complete: bool)
    ensures tally == TallyOf(actions) && complete == RollbackComplete(actions)
  {
    hide RollbackComplete, Settled;
    NothingIsComplete();
    tally := Tally(0, 0, 0, 0, 0, 0, 0);
    complete := true;
    var i := 0;
    while i < |actions|
      invariant 0 <= i <= |actions|
      invariant tally == TallyOf(actions[..i]) && complete == RollbackComplete(actions[..i])
    {
      var action := actions[i];
      assert actions[..i + 1][..i] == actions[..i];
      CompleteGrows(actions, i);
      assert Settled(action) <==> !Blocks(action) by { SettledOrBlocks(action); }
      match action.state {
        case Planned => tally := tally.(planned := tally.planned + 1);
        case Applied => tally := tally.(applied := tally.applied + 1);
        case Completed => tally := tally.(completed := tally.completed + 1);
        case RolledBack => tally := tally.(rolledBack := tally.rolledBack + 1);
        case Uncertain => tally := tally.(uncertain := tally.uncertain + 1);
        case Failed => tally := tally.(failed := tally.failed + 1);
        case Rejected => tally := tally.(rejected := tally.rejected + 1);
      }
      if Blocks(action) {
        complete := false;
      }
      i := i + 1;
    }
    assert actions[..|actions|] == actions;
  }
}
