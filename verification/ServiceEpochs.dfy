/** Repository epochs over whole runs: an incarnation that was left never comes back. */
module ServiceEpochs {
  import opened Options
  import opened ServiceState
  import opened ServiceSteps

  // The repository incarnation is neither current nor still to come.
  ghost predicate Gone(s: State, epoch: nat) { epoch <= s.nextEpoch && (s.binding.None? || s.binding.value.epoch != epoch) }

  lemma AnyStep(s: State, a: Action)
    ensures Rebinds(s, Step(s, a))
  {
    hide Bind, Unbind, Status, Enter, Leave, Admit, GrantTurn, Build, Register, SaveSession, Cleanup, EmitTerminal,
      MarkCanceling, Decline, Reset, ReloadSettings, WriteSettings, SaveWrite, PrepareGrants, ConfirmGrants, CancelToken,
      Close, RetireFinal, Finish;
  }

  /** A repository incarnation that was left never becomes current again: its identities never resolve again. */
  lemma {:induction false} StaleStaysStale(s: State, actions: seq<Action>, id: RunIdentity, known: bool)
    requires Gone(s, id.repoEpoch)
    ensures Gone(Reach(s, actions), id.repoEpoch) && !Resolves(Reach(s, actions), id, known)
  {
    hide Step;
    if actions != [] {
      var before := Reach(s, actions[..|actions| - 1]);
      StaleStaysStale(s, actions[..|actions| - 1], id, known);
      AnyStep(before, actions[|actions| - 1]);
    }
  }
}
