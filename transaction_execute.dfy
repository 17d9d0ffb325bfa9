/**
 * One-shot execution of a transaction: the check that no program-owned account is
 * blocked, and the fixed sequence run once the Machine has finished: allocate, apply,
 * pay the treasury, record operator expenses, check the gas limit, pay for gas.
 * The Machine, the account storage and the payments are collaborators whose outcomes
 * are given in an `ExecuteEnvironment`.
 */
module TransactionExecute {
  import opened Bytes
  import opened Results
  import opened Types
  import opened Steps
  import opened Gas

  const U64_MAX: nat := U64_LIMIT - 1
  const U256_MAX: nat := 0xFFFF_FFFF_FFFF_FFFF_FFFF_FFFF_FFFF_FFFF_FFFF_FFFF_FFFF_FFFF_FFFF_FFFF_FFFF_FFFF

  // ---------------------------------------------------------------------------
  // Account validation

  /** An account handed to the instruction: its key, its owner and whether it is blocked (reading that may fail). */
  datatype AccountView = AccountView(key: Pubkey, owner: Pubkey, blocked: Result<bool, Error>)

  /** An account validation lets through: owned by another program, or owned by this one and not blocked. */
  predicate Unblocked(programId: Pubkey, account: AccountView)
  {
    account.owner != programId || account.blocked == Success(false)
  }

  /** The error validation reports for an account it does not let through. */
  function Complaint(account: AccountView): Error
  {
    if account.blocked.Failure? then account.blocked.error else AccountBlocked(account.key)
  }

  method Validate(programId: Pubkey, accounts: seq<AccountView>) returns (r: Outcome<Error>)
    ensures r.Pass? <==> forall i :: 0 <= i < |accounts| ==> Unblocked(programId, accounts[i])
    ensures r.Fail? ==>
      exists i :: 0 <= i < |accounts| && !Unblocked(programId, accounts[i])
        && (forall j :: 0 <= j < i ==> Unblocked(programId, accounts[j]))
        && r.error == Complaint(accounts[i])
  {
    var i := 0;
    while i < |accounts|
      invariant 0 <= i <= |accounts|
      invariant forall j :: 0 <= j < i ==> Unblocked(programId, accounts[j])
    {
      var account := accounts[i];
      if account.owner == programId {
        match account.blocked {
          case Failure(e) =>
            return Fail(e);
          case Success(blocked) =>
            if blocked {
              return Fail(AccountBlocked(account.key));
            }
        }
      }
      i := i + 1;
    }
    return Pass;
  }

  // ---------------------------------------------------------------------------
  // Execution

  datatype AllocateResult = Ready | NotReady

  /** The effects of `execute`, in the order they can happen. */
  datatype Effect =
    | OpenStorage
    | NewMachine
    | RunMachine(stepLimit: nat)
    | Allocate
    | ApplyStateChange
    | TransferTreasuryPayment
    | RecordOperatorExpenses(cost: nat)
    | CheckGasLimit(usedGas: nat, gasLimit: nat)
    | LogGas(usedGas: nat)
    | TransferGasPayment(origin: Address, chainId: nat, cost: nat)
    | LogReturnValue(exitReason: nat)

  /** What the collaborators of `execute` do when called. */
  datatype ExecuteEnvironment = ExecuteEnvironment(
    storage: Outcome<Error>,                  // opening the program account storage
    machine: Outcome<Error>,                  // creating the Machine
    run: Result<nat, Error>,                  // running it: the exit reason
    allocate: Result<AllocateResult, Error>,  // growing the accounts for the pending changes
    apply: Outcome<Error>,                    // applying the pending changes
    treasuryPayment: Outcome<Error>,
    operatorExpenses: nat,                    // gas charged for the operator's expenses
    gasPayment: Outcome<Error>)

  function ChainId(trx: Transaction, defaultChainId: nat): (id: nat)
    ensures trx.chainId.Some? ==> id == trx.chainId.value
    ensures trx.chainId.None? ==> id == defaultChainId
  {
    match trx.chainId
    case Some(id) => id
    case None => defaultChainId
  }

  /** `used_gas * gas_price` on 256-bit integers, saturating at the largest one. */
  function GasCost(usedGas: nat, gasPrice: nat): (cost: nat)
    ensures cost <= U256_MAX
    ensures usedGas * gasPrice <= U256_MAX ==> cost == usedGas * gasPrice
    ensures usedGas * gasPrice > U256_MAX ==> cost == U256_MAX
  {
    if usedGas * gasPrice > U256_MAX then U256_MAX else usedGas * gasPrice
  }

  function AllocateOutcome(allocate: Result<AllocateResult, Error>): Outcome<Error>
  {
    match allocate
    case Failure(e) => Fail(e)
    case Success(Ready) => Pass
    case Success(NotReady) => Fail(AccountSpaceAllocationFailure)
  }

  function GasLimitOutcome(usedGas: nat, gasLimit: nat): Outcome<Error>
  {
    if usedGas > gasLimit then Fail(OutOfGas(gasLimit, usedGas)) else Pass
  }

  /** The gas used once operator expenses are recorded on a gasometer that had used `usedGasBefore`. */
  function UsedGas(env: ExecuteEnvironment, usedGasBefore: nat): nat
  {
    usedGasBefore + env.operatorExpenses
  }

  /** Opening the storage, creating the Machine and running it with the full step budget. */
  function MachineSteps(env: ExecuteEnvironment): seq<Step<Effect, Error>>
  {
    [ Step(OpenStorage, env.storage),
      Step(NewMachine, env.machine),
      Step(RunMachine(U64_MAX), ToOutcome(env.run)) ]
  }

  /** Making room for the pending changes, applying them and paying the treasury. */
  function CommitSteps(env: ExecuteEnvironment): seq<Step<Effect, Error>>
  {
    [ Step(Allocate, AllocateOutcome(env.allocate)),
      Step(ApplyStateChange, env.apply),
      Step(TransferTreasuryPayment, env.treasuryPayment) ]
  }

  /** Charging the operator's expenses, enforcing the gas limit and paying for the gas on chain `chainId`. */
  function GasSteps(
    env: ExecuteEnvironment, trx: Transaction, origin: Address, usedGasBefore: nat, chainId: nat, exitReason: nat)
    : seq<Step<Effect, Error>>
  {
    var usedGas := UsedGas(env, usedGasBefore);
    [ Step(RecordOperatorExpenses(env.operatorExpenses), Pass),
      Step(CheckGasLimit(usedGas, trx.gasLimit), GasLimitOutcome(usedGas, trx.gasLimit)),
      Step(LogGas(usedGas), Pass),
      Step(TransferGasPayment(origin, chainId, GasCost(usedGas, trx.gasPrice)), env.gasPayment),
      Step(LogReturnValue(exitReason), Pass) ]
  }

  /** The exit reason logged at the end: that of the Machine's run. */
  function ExitReason(env: ExecuteEnvironment): nat
  {
    ValueOr(env.run, 0)
  }

  /** The steps of `execute`, in order; it stops at the first that fails. */
  function ExecuteSteps(
    env: ExecuteEnvironment, trx: Transaction, origin: Address, usedGasBefore: nat, defaultChainId: nat)
    : seq<Step<Effect, Error>>
  {
    MachineSteps(env)
      + (CommitSteps(env)
         + GasSteps(env, trx, origin, usedGasBefore, ChainId(trx, defaultChainId), ExitReason(env)))
  }

  method RunMachinePhase(env: ExecuteEnvironment) returns (r: Outcome<Error>, exitReason: nat, ghost effects: seq<Effect>)
    ensures effects == Events(MachineSteps(env)) && r == FirstFailure(MachineSteps(env))
    ensures r.Pass? ==> env.run == Success(exitReason)
    ensures |effects| <= 3 && (r.Pass? ==> |effects| == 3)
  {
    ghost var steps := MachineSteps(env);
    assert steps[0..] == steps;
    TakeStep(steps, 0);
    effects := [OpenStorage];
    if env.storage.Fail? {
      return env.storage, 0, effects;
    }
    TakeStep(steps, 1);
    effects := effects + [NewMachine];
    if env.machine.Fail? {
      return env.machine, 0, effects;
    }
    TakeStep(steps, 2);
    effects := effects + [RunMachine(U64_MAX)];
    if env.run.Failure? {
      return Fail(env.run.error), 0, effects;
    }
    assert steps[3..] == [];
    return Pass, env.run.value, effects;
  }

  method CommitPhase(env: ExecuteEnvironment) returns (r: Outcome<Error>, ghost effects: seq<Effect>)
    ensures effects == Events(CommitSteps(env)) && r == FirstFailure(CommitSteps(env))
    ensures |effects| <= 3 && (r.Pass? ==> |effects| == 3)
  {
    ghost var steps := CommitSteps(env);
    assert steps[0..] == steps;
    TakeStep(steps, 0);
    effects := [Allocate];
    match env.allocate {
      case Failure(e) =>
        return Fail(e), effects;
      case Success(readiness) =>
        if readiness != Ready {
          return Fail(AccountSpaceAllocationFailure), effects;
        }
    }
    TakeStep(steps, 1);
    effects := effects + [ApplyStateChange];
    if env.apply.Fail? {
      return env.apply, effects;
    }
    TakeStep(steps, 2);
    effects := effects + [TransferTreasuryPayment];
    if env.treasuryPayment.Fail? {
      return env.treasuryPayment, effects;
    }
    assert steps[3..] == [];
    return Pass, effects;
  }

  method GasPhase(
    env: ExecuteEnvironment, gasometer: Gasometer, trx: Transaction, origin: Address, chainId: nat, exitReason: nat)
    returns (r: Outcome<Error>, ghost effects: seq<Effect>)
    modifies gasometer
    ensures effects == Events(GasSteps(env, trx, origin, old(gasometer.usedGas), chainId, exitReason))
    ensures r == FirstFailure(GasSteps(env, trx, origin, old(gasometer.usedGas), chainId, exitReason))
    ensures effects != [] && effects[0] == RecordOperatorExpenses(env.operatorExpenses)
    ensures gasometer.usedGas == old(gasometer.usedGas) + env.operatorExpenses
    ensures gasometer.refundedLamports == old(gasometer.refundedLamports)
  {
    ghost var steps := GasSteps(env, trx, origin, gasometer.usedGas, chainId, exitReason);
    var gasLimit := trx.gasLimit;
    var gasPrice := trx.gasPrice;
    assert steps[0..] == steps;
    TakeStep(steps, 0);
    gasometer.RecordOperatorExpenses(env.operatorExpenses);
    effects := [RecordOperatorExpenses(env.operatorExpenses)];
    var usedGas := gasometer.usedGas;
    TakeStep(steps, 1);
    effects := effects + [CheckGasLimit(usedGas, gasLimit)];
    if usedGas > gasLimit {
      return Fail(OutOfGas(gasLimit, usedGas)), effects;
    }
    TakeStep(steps, 2);
    effects := effects + [LogGas(usedGas)];
    var gasCost := GasCost(usedGas, gasPrice);
    TakeStep(steps, 3);
    effects := effects + [TransferGasPayment(origin, chainId, gasCost)];
    if env.gasPayment.Fail? {
      return env.gasPayment, effects;
    }
    TakeStep(steps, 4);
    effects := effects + [LogReturnValue(exitReason)];
    assert steps[5..] == [];
    return Pass, effects;
  }

  method Execute(
    env: ExecuteEnvironment, gasometer: Gasometer, trx: Transaction, origin: Address, defaultChainId: nat)
    returns (r: Outcome<Error>, ghost effects: seq<Effect>)
    modifies gasometer
    ensures effects == Events(ExecuteSteps(env, trx, origin, old(gasometer.usedGas), defaultChainId))
    ensures r == FirstFailure(ExecuteSteps(env, trx, origin, old(gasometer.usedGas), defaultChainId))
    ensures gasometer.refundedLamports == old(gasometer.refundedLamports)
    /** The operator's expenses are charged exactly when the seventh effect, their record, happens. */
    ensures gasometer.usedGas == old(gasometer.usedGas) + (if |effects| > 6 then env.operatorExpenses else 0)
  {
    var chainId := ChainId(trx, defaultChainId);
    ExecutePhases(env, trx, origin, gasometer.usedGas, defaultChainId);

    var exitReason;
    ghost var machineEffects, commitEffects, gasEffects;
    r, exitReason, machineEffects := RunMachinePhase(env);
    if r.Fail? {
      return r, machineEffects;
    }
    r, commitEffects := CommitPhase(env);
    if r.Fail? {
      return r, machineEffects + commitEffects;
    }
    r, gasEffects := GasPhase(env, gasometer, trx, origin, chainId, exitReason);
    effects := machineEffects + commitEffects + gasEffects;
  }

  /** `execute` runs its three phases one after the other, stopping in the first that fails. */
  lemma ExecutePhases(
    env: ExecuteEnvironment, trx: Transaction, origin: Address, usedGasBefore: nat, defaultChainId: nat)
    ensures var machine := MachineSteps(env);
      var commit := CommitSteps(env);
      var gas := GasSteps(env, trx, origin, usedGasBefore, ChainId(trx, defaultChainId), ExitReason(env));
      var steps := ExecuteSteps(env, trx, origin, usedGasBefore, defaultChainId);
      (FirstFailure(machine).Fail? ==>
         Events(steps) == Events(machine) && FirstFailure(steps) == FirstFailure(machine))
      && (FirstFailure(machine).Pass? && FirstFailure(commit).Fail? ==>
         Events(steps) == Events(machine) + Events(commit) && FirstFailure(steps) == FirstFailure(commit))
      && (FirstFailure(machine).Pass? && FirstFailure(commit).Pass? ==>
         Events(steps) == Events(machine) + Events(commit) + Events(gas) && FirstFailure(steps) == FirstFailure(gas))
  {
    ThreePhases(MachineSteps(env), CommitSteps(env),
                GasSteps(env, trx, origin, usedGasBefore, ChainId(trx, defaultChainId), ExitReason(env)));
  }

  // ---------------------------------------------------------------------------
  // Properties of the phases

  /** The Machine phase passes exactly when the storage opens, the Machine is created and its run returns. */
  lemma MachinePhaseOutcome(env: ExecuteEnvironment)
    ensures Events(MachineSteps(env)) <= [OpenStorage, NewMachine, RunMachine(U64_MAX)]
    ensures FirstFailure(MachineSteps(env)).Pass? <==> env.storage.Pass? && env.machine.Pass? && env.run.Success?
    ensures FirstFailure(MachineSteps(env)).Pass? ==>
      Events(MachineSteps(env)) == [OpenStorage, NewMachine, RunMachine(U64_MAX)]
  {
    var steps := MachineSteps(env);
    EventsArePrefix(steps);
    PassRunsEverything(steps);
    assert EventsOf(steps) == [OpenStorage, NewMachine, RunMachine(U64_MAX)];
    if env.storage.Pass? && env.machine.Pass? && env.run.Success? {
      forall i | 0 <= i < |steps| ensures steps[i].outcome.Pass? {
        assert i == 0 || i == 1 || i == 2;
      }
    } else {
      assert steps[0].outcome.Fail? || steps[1].outcome.Fail? || steps[2].outcome.Fail?;
    }
  }

  /**
   * The commit phase passes exactly when allocation is ready and the changes and the treasury
   * payment go through; an allocation that is not ready stops it before anything is applied.
   */
  lemma CommitPhaseOutcome(env: ExecuteEnvironment)
    ensures Events(CommitSteps(env)) <= [Allocate, ApplyStateChange, TransferTreasuryPayment]
    ensures FirstFailure(CommitSteps(env)).Pass? <==>
      env.allocate == Success(Ready) && env.apply.Pass? && env.treasuryPayment.Pass?
    ensures FirstFailure(CommitSteps(env)).Pass? ==>
      Events(CommitSteps(env)) == [Allocate, ApplyStateChange, TransferTreasuryPayment]
    ensures env.allocate != Success(Ready) ==> Events(CommitSteps(env)) == [Allocate]
    ensures env.allocate == Success(NotReady) ==>
      FirstFailure(CommitSteps(env)) == Fail(AccountSpaceAllocationFailure)
    ensures ApplyStateChange in Events(CommitSteps(env)) <==> env.allocate == Success(Ready)
    ensures env.allocate == Success(Ready) ==> [Allocate, ApplyStateChange] <= Events(CommitSteps(env))
  {
    var steps := CommitSteps(env);
    EventsArePrefix(steps);
    PassRunsEverything(steps);
    assert EventsOf(steps) == [Allocate, ApplyStateChange, TransferTreasuryPayment];
    if env.allocate == Success(Ready) && env.apply.Pass? && env.treasuryPayment.Pass? {
      forall i | 0 <= i < |steps| ensures steps[i].outcome.Pass? {
        assert i == 0 || i == 1 || i == 2;
      }
    }
    TakeStep(steps, 0);
    TakeStep(steps, 1);
    assert steps[0..] == steps;
  }

  /**
   * The gas phase passes exactly when the gas used is within the limit and the payment goes
   * through; gas above the limit stops it right after the check, before the log and the payment.
   */
  lemma GasPhaseOutcome(
    env: ExecuteEnvironment, trx: Transaction, origin: Address, usedGasBefore: nat, chainId: nat, exitReason: nat)
    ensures var usedGas := UsedGas(env, usedGasBefore);
      var steps := GasSteps(env, trx, origin, usedGasBefore, chainId, exitReason);
      var all := [RecordOperatorExpenses(env.operatorExpenses), CheckGasLimit(usedGas, trx.gasLimit), LogGas(usedGas),
                  TransferGasPayment(origin, chainId, GasCost(usedGas, trx.gasPrice)), LogReturnValue(exitReason)];
      Events(steps) <= all
      && (FirstFailure(steps).Pass? <==> usedGas <= trx.gasLimit && env.gasPayment.Pass?)
      && (FirstFailure(steps).Pass? ==> Events(steps) == all)
      && (usedGas > trx.gasLimit ==>
            Events(steps) == all[..2] && FirstFailure(steps) == Fail(OutOfGas(trx.gasLimit, usedGas)))
  {
    var steps := GasSteps(env, trx, origin, usedGasBefore, chainId, exitReason);
    EventsArePrefix(steps);
    PassRunsEverything(steps);
    TakeStep(steps, 0);
    assert steps[0..] == steps;
    TakeStep(steps, 1);
  }

  // ---------------------------------------------------------------------------
  // Properties of the whole sequence

  /** Allocation that is not ready fails the execution before any change is applied or anything is paid. */
  lemma NotReadyAppliesNothing(
    env: ExecuteEnvironment, trx: Transaction, origin: Address, usedGasBefore: nat, defaultChainId: nat)
    requires env.allocate == Success(NotReady)
    ensures var steps := ExecuteSteps(env, trx, origin, usedGasBefore, defaultChainId);
      (forall e :: e in Events(steps) ==>
         e in [OpenStorage, NewMachine, RunMachine(U64_MAX), Allocate])
      && FirstFailure(steps).Fail?
      && (env.storage.Pass? && env.machine.Pass? && env.run.Success? ==>
            FirstFailure(steps) == Fail(AccountSpaceAllocationFailure))
  {
    ExecutePhases(env, trx, origin, usedGasBefore, defaultChainId);
    MachinePhaseOutcome(env);
    CommitPhaseOutcome(env);
  }

  /**
   * Changes are applied only after a `Ready` allocation, itself after the Machine ran once
   * with the full step budget.
   */
  lemma ApplyFollowsReadyAllocation(
    env: ExecuteEnvironment, trx: Transaction, origin: Address, usedGasBefore: nat, defaultChainId: nat)
    ensures var events := Events(ExecuteSteps(env, trx, origin, usedGasBefore, defaultChainId));
      ApplyStateChange in events ==>
        env.allocate == Success(Ready)
        && [OpenStorage, NewMachine, RunMachine(U64_MAX), Allocate, ApplyStateChange] <= events
  {
    var machine := MachineSteps(env);
    var commit := CommitSteps(env);
    var gas := GasSteps(env, trx, origin, usedGasBefore, ChainId(trx, defaultChainId), ExitReason(env));
    var events := Events(ExecuteSteps(env, trx, origin, usedGasBefore, defaultChainId));
    ExecutePhases(env, trx, origin, usedGasBefore, defaultChainId);
    MachinePhaseOutcome(env);
    if FirstFailure(machine).Fail? {
      assert events <= [OpenStorage, NewMachine, RunMachine(U64_MAX)];
      return;
    }
    CommitPhaseOutcome(env);
    if env.allocate != Success(Ready) {
      assert events == Events(machine) + [Allocate];
      return;
    }
    var head := [OpenStorage, NewMachine, RunMachine(U64_MAX)] + [Allocate, ApplyStateChange];
    assert events[..5] == head by {
      var rest := if FirstFailure(commit).Pass? then Events(commit) + Events(gas) else Events(commit);
      AppendAssociates(Events(machine), Events(commit), Events(gas));
      assert events == Events(machine) + rest;
      assert rest[..2] == [Allocate, ApplyStateChange];
    }
  }

  /** Gas above the limit fails the execution, and neither the gas log nor the gas payment happens. */
  lemma OutOfGasBeforePayment(
    env: ExecuteEnvironment, trx: Transaction, origin: Address, usedGasBefore: nat, defaultChainId: nat)
    requires UsedGas(env, usedGasBefore) > trx.gasLimit
    ensures var steps := ExecuteSteps(env, trx, origin, usedGasBefore, defaultChainId);
      (forall e :: e in Events(steps) ==> !e.LogGas? && !e.TransferGasPayment?)
      && FirstFailure(steps).Fail?
  {
    var chainId := ChainId(trx, defaultChainId);
    var p := (e: Effect) => e.LogGas? || e.TransferGasPayment?;
    ExecutePhases(env, trx, origin, usedGasBefore, defaultChainId);
    NeverHappens(MachineSteps(env), p);
    NeverHappens(CommitSteps(env), p);
    GasPhaseOutcome(env, trx, origin, usedGasBefore, chainId, ExitReason(env));
  }

  /**
   * When the earlier phases passed, gas above the limit fails with both figures, after the
   * changes were applied and the treasury paid.
   */
  lemma OutOfGasAfterCommit(
    env: ExecuteEnvironment, trx: Transaction, origin: Address, usedGasBefore: nat, defaultChainId: nat)
    requires UsedGas(env, usedGasBefore) > trx.gasLimit
    requires env.storage.Pass? && env.machine.Pass? && env.run.Success? && env.allocate == Success(Ready)
    requires env.apply.Pass? && env.treasuryPayment.Pass?
    ensures var steps := ExecuteSteps(env, trx, origin, usedGasBefore, defaultChainId);
      FirstFailure(steps) == Fail(OutOfGas(trx.gasLimit, UsedGas(env, usedGasBefore)))
      && ApplyStateChange in Events(steps) && TransferTreasuryPayment in Events(steps)
  {
    var chainId := ChainId(trx, defaultChainId);
    ExecutePhases(env, trx, origin, usedGasBefore, defaultChainId);
    MachinePhaseOutcome(env);
    CommitPhaseOutcome(env);
    GasPhaseOutcome(env, trx, origin, usedGasBefore, chainId, ExitReason(env));
    var commitEvents := Events(CommitSteps(env));
    assert ApplyStateChange == commitEvents[1] && TransferTreasuryPayment == commitEvents[2];
  }

  /**
   * Execution succeeds exactly when every collaborator succeeds, allocation is ready and
   * the gas is within the limit.
   */
  lemma ExecuteSucceeds(
    env: ExecuteEnvironment, trx: Transaction, origin: Address, usedGasBefore: nat, defaultChainId: nat)
    ensures FirstFailure(ExecuteSteps(env, trx, origin, usedGasBefore, defaultChainId)).Pass? <==>
      env.storage.Pass? && env.machine.Pass? && env.run.Success? && env.allocate == Success(Ready)
      && env.apply.Pass? && env.treasuryPayment.Pass? && UsedGas(env, usedGasBefore) <= trx.gasLimit
      && env.gasPayment.Pass?
  {
    ExecutePhases(env, trx, origin, usedGasBefore, defaultChainId);
    MachinePhaseOutcome(env);
    CommitPhaseOutcome(env);
    GasPhaseOutcome(env, trx, origin, usedGasBefore, ChainId(trx, defaultChainId), ExitReason(env));
  }

  /**
   * A successful execution has every effect in order, and the origin pays the saturated gas
   * cost on the transaction's chain.
   */
  lemma ExecuteSuccessEffects(
    env: ExecuteEnvironment, trx: Transaction, origin: Address, usedGasBefore: nat, defaultChainId: nat)
    requires FirstFailure(ExecuteSteps(env, trx, origin, usedGasBefore, defaultChainId)).Pass?
    ensures var usedGas := UsedGas(env, usedGasBefore);
      Events(ExecuteSteps(env, trx, origin, usedGasBefore, defaultChainId))
        == [OpenStorage, NewMachine, RunMachine(U64_MAX), Allocate, ApplyStateChange,
            TransferTreasuryPayment, RecordOperatorExpenses(env.operatorExpenses),
            CheckGasLimit(usedGas, trx.gasLimit), LogGas(usedGas),
            TransferGasPayment(origin, ChainId(trx, defaultChainId), GasCost(usedGas, trx.gasPrice)),
            LogReturnValue(ExitReason(env))]
  {
    ExecutePhases(env, trx, origin, usedGasBefore, defaultChainId);
    MachinePhaseOutcome(env);
    CommitPhaseOutcome(env);
    GasPhaseOutcome(env, trx, origin, usedGasBefore, ChainId(trx, defaultChainId), ExitReason(env));
  }
}
