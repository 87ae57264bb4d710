/** The subscription effect of src/App.jsx: listeners for the three contract
    events are registered only while the `hasVotingListener` flag is down,
    and the effect's cleanup removes all three and lowers both flags. */
module Listeners {

  /** The event names subscribed to with `contract.on(name, handler)`. */
  datatype EventName = ProposalCreatedName | VotedName | ProposalExecutedName

  /** How many handlers are registered on the contract for each event name;
      registering twice registers twice. */
  datatype Registrations = Registrations(created: nat, voted: nat, executed: nat)
  {
    function Count(e: EventName): nat
    {
      match e
      case ProposalCreatedName => created
      case VotedName => voted
      case ProposalExecutedName => executed
    }
  }

  /** `contract.on(e, handler)`. */
  function On(r: Registrations, e: EventName): Registrations
  {
    match e
    case ProposalCreatedName => r.(created := r.created + 1)
    case VotedName => r.(voted := r.voted + 1)
    case ProposalExecutedName => r.(executed := r.executed + 1)
  }

  /** `contract.off(e, handler)`: removes one registration if there is one. */
  function Off(r: Registrations, e: EventName): Registrations
  {
    match e
    case ProposalCreatedName => r.(created := if r.created == 0 then 0 else r.created - 1)
    case VotedName => r.(voted := if r.voted == 0 then 0 else r.voted - 1)
    case ProposalExecutedName => r.(executed := if r.executed == 0 then 0 else r.executed - 1)
  }

  /** The two guard flags and the registered handlers. */
  datatype Guard = Guard(hasVotingListener: bool, hasExecuteListener: bool, listeners: Registrations)

  /** What one run of the effect leaves: the new guard, and whether it handed
      a cleanup back. */
  datatype EffectRun = EffectRun(guard: Guard, cleanup: bool)

  /** The state before any effect has run. */
  const Initial: Guard := Guard(false, false, Registrations(0, 0, 0))

  /** The effect body: with a contract and the voting flag down, register the
      Created and Voted handlers, raise both flags, register the Executed
      handler and return the cleanup; otherwise do nothing. The execute flag
      is written but never read. */
  function RunEffect(g: Guard, contractPresent: bool): (r: EffectRun)
    ensures r.cleanup <==> contractPresent && !g.hasVotingListener
    ensures r.cleanup ==> r.guard.hasVotingListener && r.guard.hasExecuteListener
    ensures r.cleanup ==> forall e :: r.guard.listeners.Count(e) == g.listeners.Count(e) + 1
    ensures !r.cleanup ==> r.guard == g
  {
    if contractPresent && !g.hasVotingListener then
      var l := On(On(g.listeners, ProposalCreatedName), VotedName);
      var raised := Guard(true, true, l);
      EffectRun(raised.(listeners := On(raised.listeners, ProposalExecutedName)), true)
    else
      EffectRun(g, false)
  }

  /** The cleanup: `off` each of the three handlers and lower both flags. */
  function Cleanup(g: Guard): (r: Guard)
    ensures !r.hasVotingListener && !r.hasExecuteListener
    ensures forall e :: r.listeners.Count(e) == if g.listeners.Count(e) == 0 then 0 else g.listeners.Count(e) - 1
  {
    var l := Off(Off(g.listeners, ProposalCreatedName), VotedName);
    var lowered := Guard(false, g.hasExecuteListener, l);
    Guard(false, false, Off(lowered.listeners, ProposalExecutedName))
  }

  /** Either all three handlers are registered once and both flags are up,
      or none is registered and both flags are down. */
  predicate Consistent(g: Guard)
  {
    && g.hasExecuteListener == g.hasVotingListener
    && g.listeners == (if g.hasVotingListener then Registrations(1, 1, 1) else Registrations(0, 0, 0))
  }

  /** A lifecycle step: the effect runs (mount or re-run), or a cleanup runs. */
  datatype Step = Effect(contractPresent: bool) | Teardown

  /** The guard after one step. */
  function Step1(g: Guard, s: Step): Guard
  {
    match s
    case Effect(present) => RunEffect(g, present).guard
    case Teardown => Cleanup(g)
  }

  /** The guard after the steps, first to last. */
  function Run(g: Guard, steps: seq<Step>): Guard
    decreases |steps|
  {
    if steps == [] then g else Run(Step1(g, steps[0]), steps[1..])
  }

  /** Neither the effect nor its cleanup can leave a partial or doubled
      subscription behind, and a cleanup always leaves nothing registered. */
  lemma StepKeepsConsistent(g: Guard, s: Step)
    requires Consistent(g)
    ensures Consistent(Step1(g, s))
    ensures s.Teardown? ==> Step1(g, s) == Initial
  {
  }

  /** Whatever order effects and cleanups run in, starting from a consistent
      state each event has at most one registered handler, all three have
      the same number, and that number is one exactly when the voting flag
      is up. The second clause spells out `Consistent` per event, for
      readers. */
  lemma {:induction false} RunKeepsSingle(g: Guard, steps: seq<Step>)
    requires Consistent(g)
    ensures Consistent(Run(g, steps))
    ensures forall e :: Run(g, steps).listeners.Count(e) == if Run(g, steps).hasVotingListener then 1 else 0
    decreases |steps|
  {
    if steps != [] {
      StepKeepsConsistent(g, steps[0]);
      RunKeepsSingle(Step1(g, steps[0]), steps[1..]);
    }
  }

  /** Running the effect twice without a cleanup in between registers each
      handler once: the second run is stopped by the flag and hands back no
      cleanup. */
  lemma DoubleEffectRegistersOnce()
    ensures RunEffect(RunEffect(Initial, true).guard, true).guard.listeners == Registrations(1, 1, 1)
    ensures !RunEffect(RunEffect(Initial, true).guard, true).cleanup
  {
  }
}
