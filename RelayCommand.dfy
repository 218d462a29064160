/**
 * The command object the buttons are bound to: an action plus an optional enablement predicate.
 * Its two delegates are modelled as functions of the state they close over (`S`) and of the
 * command parameter (`P`); running the action yields the state it leaves behind.
 */
module Commands {
  import opened Wrappers

  datatype Error = ArgumentNullException(paramName: string)

  /** Both delegates are fixed when the command is built: a datatype value never changes. */
  datatype RelayCommand<!S, !P> = RelayCommand(execute: (S, P) -> S, canExecute: Option<(S, P) -> bool>)
  {
    /** Enabled when no predicate was supplied, otherwise whatever the predicate says. */
    function CanExecute(state: S, parameter: P): (enabled: bool)
      ensures canExecute.None? ==> enabled
      ensures canExecute.Some? ==> (enabled <==> canExecute.value(state, parameter))
    {
      canExecute.None? || canExecute.value(state, parameter)
    }

    /** Runs the action; the predicate is not consulted. */
    function Execute(state: S, parameter: P): S
    {
      execute(state, parameter)
    }
  }

  /** The constructor: a missing action is an `ArgumentNullException`; a missing predicate is allowed. */
  function NewRelayCommand<S, P>(execute: Option<(S, P) -> S>, canExecute: Option<(S, P) -> bool>)
    : (r: Result<RelayCommand<S, P>, Error>)
    ensures r.Failure? <==> execute.None?
    ensures r.Failure? ==> r.error == ArgumentNullException("execute")
    ensures r.Success? ==> r.value.execute == execute.value && r.value.canExecute == canExecute
  {
    if execute.None? then Failure(ArgumentNullException("execute"))
    else Success(RelayCommand(execute.value, canExecute))
  }

  /** Whatever predicate a command carries, executing it runs the same action on the same inputs. */
  lemma ExecuteIgnoresCanExecute<S, P>(c: RelayCommand<S, P>, other: Option<(S, P) -> bool>, state: S, parameter: P)
    ensures c.(canExecute := other).Execute(state, parameter) == c.Execute(state, parameter)
    ensures c.Execute(state, parameter) == c.execute(state, parameter)
  {
  }
}
