/**
 * The "begin or continue transaction from instruction" entry point: it parses a 12-byte
 * header, loads the fixed accounts, reads (and if need be migrates) the storage account's
 * tag, then either begins a new transaction (HOLDER, STATE_FINALIZED) or continues the one
 * in progress (STATE), and finally credits the operator with the lamports freed by the
 * migration of legacy accounts.
 *
 * Account loading, the tag reader, the migration, transaction decoding and signature
 * recovery, the state account and the begin/continue workers are collaborators whose
 * results are given in a `StepEnvironment`.
 */
module TransactionStep {
  import opened Bytes
  import opened Results
  import opened Types
  import opened Steps
  import opened Gas

  // ---------------------------------------------------------------------------
  // Header

  /** The instruction header: treasury index and step count, each a little-endian `u32`, then the message. */
  datatype Header = Header(treasuryIndex: nat, stepCount: nat, message: seq<Byte>)

  /** Bytes 8..12 (a unique index) are skipped. */
  function ParseHeader(instruction: seq<Byte>): (h: Header)
    requires |instruction| >= 12
    ensures h.treasuryIndex < U32_LIMIT && h.stepCount < U32_LIMIT
    ensures |h.message| == |instruction| - 12
  {
    LittleEndianBound(instruction[0..4]);
    LittleEndianBound(instruction[4..8]);
    Pow256Values();
    Header(LittleEndian(instruction[0..4]), LittleEndian(instruction[4..8]), instruction[12..])
  }

  /** The instruction a client builds from the header fields and a unique index. */
  function EncodeHeader(treasuryIndex: nat, stepCount: nat, uniqueIndex: nat, message: seq<Byte>): (instruction: seq<Byte>)
    ensures |instruction| == 12 + |message|
  {
    ToLittleEndian(treasuryIndex, 4) + ToLittleEndian(stepCount, 4) + ToLittleEndian(uniqueIndex, 4) + message
  }

  /** Parsing recovers every field but the unique index from an encoded instruction. */
  lemma ParseEncodedHeader(treasuryIndex: nat, stepCount: nat, uniqueIndex: nat, message: seq<Byte>)
    requires treasuryIndex < U32_LIMIT && stepCount < U32_LIMIT && uniqueIndex < U32_LIMIT
    ensures ParseHeader(EncodeHeader(treasuryIndex, stepCount, uniqueIndex, message))
         == Header(treasuryIndex, stepCount, message)
  {
    Pow256Values();
    var instruction := EncodeHeader(treasuryIndex, stepCount, uniqueIndex, message);
    assert instruction[0..4] == ToLittleEndian(treasuryIndex, 4);
    assert instruction[4..8] == ToLittleEndian(stepCount, 4);
    assert instruction[12..] == message;
    LittleEndianOfToLittleEndian(treasuryIndex, 4);
    LittleEndianOfToLittleEndian(stepCount, 4);
  }

  /** Every instruction of at least 12 bytes is the encoding of its parsed header and its skipped bytes. */
  lemma EncodeParsedHeader(instruction: seq<Byte>)
    requires |instruction| >= 12
    ensures var h := ParseHeader(instruction);
      EncodeHeader(h.treasuryIndex, h.stepCount, LittleEndian(instruction[8..12]), h.message) == instruction
  {
    ToLittleEndianOfLittleEndian(instruction[0..4]);
    ToLittleEndianOfLittleEndian(instruction[4..8]);
    ToLittleEndianOfLittleEndian(instruction[8..12]);
    assert instruction == instruction[0..4] + instruction[4..8] + instruction[8..12] + instruction[12..];
  }

  /** Bytes 8..12 have no influence on the parsed header. */
  lemma ParseIgnoresUniqueIndex(a: seq<Byte>, b: seq<Byte>)
    requires |a| >= 12 && |b| >= 12
    requires a[..8] == b[..8] && a[12..] == b[12..]
    ensures ParseHeader(a) == ParseHeader(b)
  {
    assert a[0..4] == a[..8][0..4] && b[0..4] == b[..8][0..4];
    assert a[4..8] == a[..8][4..8] && b[4..8] == b[..8][4..8];
  }

  // ---------------------------------------------------------------------------
  // Tags

  predicate Deprecated(tag: Tag)
  {
    tag == HolderDeprecated || tag == StateFinalizedDeprecated
  }

  /** Which path a (migrated) tag selects. */
  datatype Route = BeginRoute | ContinueRoute | RejectRoute

  function RouteOf(tag: Tag): (route: Route)
    ensures route == BeginRoute <==> tag == Holder || tag == StateFinalized
    ensures route == ContinueRoute <==> tag == State
  {
    match tag
    case Holder => BeginRoute
    case StateFinalized => BeginRoute
    case State => ContinueRoute
    case _ => RejectRoute
  }

  // ---------------------------------------------------------------------------
  // Environment and events

  /** What the collaborators of `process` do when called. */
  datatype StepEnvironment = StepEnvironment(
    operator: Outcome<Error>,                         // loading the operator account
    treasury: nat -> Outcome<Error>,                  // loading the treasury account of an index
    operatorBalance: Outcome<Error>,                  // loading the operator's balance account
    system: Outcome<Error>,                           // loading the system program account
    tag: Result<Tag, Error>,                          // reading the storage account's tag
    migratedTag: Result<Tag, Error>,                  // migrating a deprecated storage account: its new tag
    decode: seq<Byte> -> Result<Transaction, Error>,  // decoding the transaction message
    recover: Transaction -> Result<Address, Error>,   // recovering the signer
    gasometer: Outcome<Error>,                        // creating the gasometer
    transactionCost: nat,                             // gas of one Solana transaction
    lookupTableCost: nat,                             // gas of the address lookup tables
    legacyExcess: Result<nat, Error>,                 // migrating legacy accounts: the lamports freed
    newState: Outcome<Error>,                         // creating the state account
    restoredGasUsed: Result<nat, Error>,              // restoring the state account: the gas it has used
    begin: Outcome<Error>,                            // the first step of the transaction
    continuation: Outcome<Error>)                     // the next steps of the transaction

  datatype StepEvent =
    | LoadOperator
    | LoadTreasury(index: nat)
    | LoadOperatorBalance
    | LoadSystem
    | ReadTag
    | MigrateLayout
    | DecodeTransaction(message: seq<Byte>)
    | RecoverCaller(trx: Transaction)
    | NewGasometer(initialGas: nat)
    | RecordSolanaTransactionCost(cost: nat)
    | RecordAddressLookupTable(cost: nat)
    | UpdateLegacyAccounts
    | RefundLamports(amount: nat)
    | CreateState(origin: Address)
    | RestoreState
    /** The begin worker gets no step count. */
    | DoBegin(usedGas: nat, refundedLamports: nat, origin: Address)
    | DoContinue(stepCount: nat, usedGas: nat, refundedLamports: nat)
    | RejectTag(tag: Tag)
    | CreditOperator(amount: nat)

  const NO_TRANSACTION := Transaction([], 0, 0, None)
  const NO_ADDRESS: Address := Zeros(20)

  /** The tag the dispatch sees: the one read, or the migrated one when that was deprecated. */
  function FinalTag(env: StepEnvironment): Tag
  {
    var tag := ValueOr(env.tag, Empty);
    if Deprecated(tag) then ValueOr(env.migratedTag, Empty) else tag
  }

  /** The lamports the operator is credited with: those freed on the begin path, none otherwise. */
  function CreditedLamports(env: StepEnvironment): nat
  {
    if RouteOf(FinalTag(env)) == BeginRoute then ValueOr(env.legacyExcess, 0) else 0
  }

  // ---------------------------------------------------------------------------
  // The sequence

  function LoadSteps(treasuryIndex: nat, env: StepEnvironment): seq<Step<StepEvent, Error>>
  {
    [ Step(LoadOperator, env.operator),
      Step(LoadTreasury(treasuryIndex), env.treasury(treasuryIndex)),
      Step(LoadOperatorBalance, env.operatorBalance),
      Step(LoadSystem, env.system) ]
  }

  function TagSteps(env: StepEnvironment): seq<Step<StepEvent, Error>>
  {
    [Step(ReadTag, ToOutcome(env.tag))]
      + if env.tag.Success? && Deprecated(env.tag.value) then [Step(MigrateLayout, ToOutcome(env.migratedTag))] else []
  }

  /** Decoding the message and recovering its signer. */
  function AdmitSteps(message: seq<Byte>, env: StepEnvironment): seq<Step<StepEvent, Error>>
  {
    var trx := ValueOr(env.decode(message), NO_TRANSACTION);
    [ Step(DecodeTransaction(message), ToOutcome(env.decode(message))),
      Step(RecoverCaller(trx), ToOutcome(env.recover(trx))) ]
  }

  /** The signer `AdmitSteps` recovers, where it does. */
  function Origin(message: seq<Byte>, env: StepEnvironment): Address
  {
    ValueOr(env.recover(ValueOr(env.decode(message), NO_TRANSACTION)), NO_ADDRESS)
  }

  /** Charging a fresh gasometer with the costs, migrating legacy accounts and refunding the lamports they free. */
  function ChargeSteps(env: StepEnvironment): seq<Step<StepEvent, Error>>
  {
    [ Step(NewGasometer(0), env.gasometer),
      Step(RecordSolanaTransactionCost(env.transactionCost), Pass),
      Step(RecordAddressLookupTable(env.lookupTableCost), Pass),
      Step(UpdateLegacyAccounts, ToOutcome(env.legacyExcess)),
      Step(RefundLamports(ValueOr(env.legacyExcess, 0)), Pass) ]
  }

  /** Creating the state account and running the first step for `origin` with the gasometer's figures. */
  function LaunchSteps(origin: Address, usedGas: nat, refundedLamports: nat, env: StepEnvironment)
    : seq<Step<StepEvent, Error>>
  {
    [ Step(CreateState(origin), env.newState),
      Step(DoBegin(usedGas, refundedLamports, origin), env.begin) ]
  }

  /** Starting a transaction for `origin`: charging, then launching. */
  function StartSteps(origin: Address, env: StepEnvironment): seq<Step<StepEvent, Error>>
  {
    ChargeSteps(env)
      + LaunchSteps(origin, env.transactionCost + env.lookupTableCost, ValueOr(env.legacyExcess, 0), env)
  }

  function BeginSteps(message: seq<Byte>, env: StepEnvironment): seq<Step<StepEvent, Error>>
  {
    AdmitSteps(message, env) + StartSteps(Origin(message, env), env)
  }

  function ContinueSteps(stepCount: nat, env: StepEnvironment): seq<Step<StepEvent, Error>>
  {
    var gasUsed := ValueOr(env.restoredGasUsed, 0);
    [ Step(RestoreState, ToOutcome(env.restoredGasUsed)),
      Step(NewGasometer(gasUsed), env.gasometer),
      Step(RecordSolanaTransactionCost(env.transactionCost), Pass),
      Step(DoContinue(stepCount, gasUsed + env.transactionCost, 0), env.continuation) ]
  }

  function DispatchSteps(h: Header, storageKey: Pubkey, env: StepEnvironment): seq<Step<StepEvent, Error>>
  {
    match RouteOf(FinalTag(env))
    case BeginRoute => BeginSteps(h.message, env)
    case ContinueRoute => ContinueSteps(h.stepCount, env)
    case RejectRoute => [Step(RejectTag(FinalTag(env)), Fail(AccountInvalidTag(storageKey, Holder)))]
  }

  /** The steps of `process`, in order; it stops at the first that fails. */
  function ProcessSteps(instruction: seq<Byte>, storageKey: Pubkey, env: StepEnvironment): seq<Step<StepEvent, Error>>
    requires |instruction| >= 12
  {
    var h := ParseHeader(instruction);
    LoadSteps(h.treasuryIndex, env)
      + (TagSteps(env)
         + (DispatchSteps(h, storageKey, env) + [Step(CreditOperator(CreditedLamports(env)), Pass)]))
  }

  // ---------------------------------------------------------------------------
  // The controller

  /** The operator's account, whose lamports are credited in place. */
  class OperatorAccount {
    var lamports: nat

    constructor (lamports: nat)
      ensures this.lamports == lamports
    {
      this.lamports := lamports;
    }
  }

  method LoadAccounts(treasuryIndex: nat, env: StepEnvironment) returns (r: Outcome<Error>, ghost events: seq<StepEvent>)
    ensures events == Events(LoadSteps(treasuryIndex, env)) && r == FirstFailure(LoadSteps(treasuryIndex, env))
  {
    ghost var steps := LoadSteps(treasuryIndex, env);
    assert steps[0..] == steps;
    TakeStep(steps, 0);
    events := [LoadOperator];
    if env.operator.Fail? {
      return env.operator, events;
    }
    TakeStep(steps, 1);
    events := events + [LoadTreasury(treasuryIndex)];
    var treasury := env.treasury(treasuryIndex);
    if treasury.Fail? {
      return treasury, events;
    }
    TakeStep(steps, 2);
    events := events + [LoadOperatorBalance];
    if env.operatorBalance.Fail? {
      return env.operatorBalance, events;
    }
    TakeStep(steps, 3);
    events := events + [LoadSystem];
    if env.system.Fail? {
      return env.system, events;
    }
    assert steps[4..] == [];
    return Pass, events;
  }

  method ReadStorageTag(env: StepEnvironment) returns (r: Outcome<Error>, tag: Tag, ghost events: seq<StepEvent>)
    ensures events == Events(TagSteps(env)) && r == FirstFailure(TagSteps(env))
    ensures r.Pass? ==> tag == FinalTag(env)
  {
    ghost var steps := TagSteps(env);
    assert steps[0..] == steps;
    TakeStep(steps, 0);
    events := [ReadTag];
    if env.tag.Failure? {
      return Fail(env.tag.error), Empty, events;
    }
    tag := env.tag.value;
    if tag == HolderDeprecated || tag == StateFinalizedDeprecated {
      TakeStep(steps, 1);
      events := events + [MigrateLayout];
      if env.migratedTag.Failure? {
        return Fail(env.migratedTag.error), Empty, events;
      }
      tag := env.migratedTag.value;
      assert steps[2..] == [];
    } else {
      assert steps[1..] == [];
    }
    r := Pass;
  }

  method Admit(message: seq<Byte>, env: StepEnvironment)
    returns (r: Outcome<Error>, origin: Address, ghost events: seq<StepEvent>)
    ensures events == Events(AdmitSteps(message, env)) && r == FirstFailure(AdmitSteps(message, env))
    ensures r.Pass? ==> origin == Origin(message, env)
  {
    ghost var steps := AdmitSteps(message, env);
    assert steps[0..] == steps;
    TakeStep(steps, 0);
    events := [DecodeTransaction(message)];
    var decoded := env.decode(message);
    if decoded.Failure? {
      return Fail(decoded.error), NO_ADDRESS, events;
    }
    var trx := decoded.value;
    TakeStep(steps, 1);
    events := events + [RecoverCaller(trx)];
    var recovered := env.recover(trx);
    if recovered.Failure? {
      return Fail(recovered.error), NO_ADDRESS, events;
    }
    assert steps[2..] == [];
    return Pass, recovered.value, events;
  }

  method Charge(env: StepEnvironment)
    returns (r: Outcome<Error>, gasometer: Gasometer?, excessiveLamports: nat, ghost events: seq<StepEvent>)
    ensures events == Events(ChargeSteps(env)) && r == FirstFailure(ChargeSteps(env))
    ensures r.Pass? ==>
      gasometer != null && fresh(gasometer)
      && gasometer.usedGas == env.transactionCost + env.lookupTableCost
      && gasometer.refundedLamports == excessiveLamports == ValueOr(env.legacyExcess, 0)
  {
    ghost var steps := ChargeSteps(env);
    assert steps[0..] == steps;
    TakeStep(steps, 0);
    events := [NewGasometer(0)];
    if env.gasometer.Fail? {
      return env.gasometer, null, 0, events;
    }
    gasometer := new Gasometer(0);
    TakeStep(steps, 1);
    gasometer.RecordSolanaTransactionCost(env.transactionCost);
    events := events + [RecordSolanaTransactionCost(env.transactionCost)];
    TakeStep(steps, 2);
    gasometer.RecordAddressLookupTable(env.lookupTableCost);
    events := events + [RecordAddressLookupTable(env.lookupTableCost)];

    TakeStep(steps, 3);
    events := events + [UpdateLegacyAccounts];
    if env.legacyExcess.Failure? {
      return Fail(env.legacyExcess.error), gasometer, 0, events;
    }
    excessiveLamports := 0 + env.legacyExcess.value;
    TakeStep(steps, 4);
    gasometer.RefundLamports(excessiveLamports);
    events := events + [RefundLamports(excessiveLamports)];
    assert steps[5..] == [];
    r := Pass;
  }

  method Launch(origin: Address, gasometer: Gasometer, env: StepEnvironment)
    returns (r: Outcome<Error>, ghost events: seq<StepEvent>)
    ensures r == FirstFailure(LaunchSteps(origin, gasometer.usedGas, gasometer.refundedLamports, env))
    ensures events == Events(LaunchSteps(origin, gasometer.usedGas, gasometer.refundedLamports, env))
  {
    ghost var steps := LaunchSteps(origin, gasometer.usedGas, gasometer.refundedLamports, env);
    assert steps[0..] == steps;
    TakeStep(steps, 0);
    events := [CreateState(origin)];
    if env.newState.Fail? {
      return env.newState, events;
    }
    TakeStep(steps, 1);
    events := events + [DoBegin(gasometer.usedGas, gasometer.refundedLamports, origin)];
    r := env.begin;
    assert steps[2..] == [];
  }

  method Begin(message: seq<Byte>, env: StepEnvironment)
    returns (r: Outcome<Error>, excessiveLamports: nat, ghost events: seq<StepEvent>)
    ensures events == Events(BeginSteps(message, env)) && r == FirstFailure(BeginSteps(message, env))
    ensures r.Pass? ==> excessiveLamports == ValueOr(env.legacyExcess, 0)
  {
    ThreePhases(AdmitSteps(message, env), ChargeSteps(env),
                LaunchSteps(Origin(message, env), env.transactionCost + env.lookupTableCost,
                            ValueOr(env.legacyExcess, 0), env));

    var origin, gasometer;
    ghost var admitEvents, chargeEvents, launchEvents;
    r, origin, admitEvents := Admit(message, env);
    if r.Fail? {
      return r, 0, admitEvents;
    }
    r, gasometer, excessiveLamports, chargeEvents := Charge(env);
    if r.Fail? {
      return r, 0, admitEvents + chargeEvents;
    }
    r, launchEvents := Launch(origin, gasometer, env);
    events := admitEvents + chargeEvents + launchEvents;
  }

  method Continue(stepCount: nat, env: StepEnvironment) returns (r: Outcome<Error>, ghost events: seq<StepEvent>)
    ensures events == Events(ContinueSteps(stepCount, env)) && r == FirstFailure(ContinueSteps(stepCount, env))
  {
    ghost var steps := ContinueSteps(stepCount, env);
    assert steps[0..] == steps;
    TakeStep(steps, 0);
    events := [RestoreState];
    if env.restoredGasUsed.Failure? {
      return Fail(env.restoredGasUsed.error), events;
    }
    var gasUsed := env.restoredGasUsed.value;
    TakeStep(steps, 1);
    events := events + [NewGasometer(gasUsed)];
    if env.gasometer.Fail? {
      return env.gasometer, events;
    }
    var gasometer := new Gasometer(gasUsed);
    TakeStep(steps, 2);
    gasometer.RecordSolanaTransactionCost(env.transactionCost);
    events := events + [RecordSolanaTransactionCost(env.transactionCost)];
    TakeStep(steps, 3);
    events := events + [DoContinue(stepCount, gasometer.usedGas, gasometer.refundedLamports)];
    r := env.continuation;
    assert steps[4..] == [];
  }

  method Process(instruction: seq<Byte>, storageKey: Pubkey, env: StepEnvironment, operator: OperatorAccount)
    returns (r: Outcome<Error>, ghost events: seq<StepEvent>)
    requires |instruction| >= 12
    modifies operator
    ensures events == Events(ProcessSteps(instruction, storageKey, env))
    ensures r == FirstFailure(ProcessSteps(instruction, storageKey, env))
    ensures operator.lamports == old(operator.lamports) + if r.Pass? then CreditedLamports(env) else 0
  {
    var header := ParseHeader(instruction);
    ProcessPhases(instruction, storageKey, env);

    ghost var loadEvents, tagEvents, dispatchEvents;
    r, loadEvents := LoadAccounts(header.treasuryIndex, env);
    if r.Fail? {
      return r, loadEvents;
    }
    var excessiveLamports := 0;
    var tag;
    r, tag, tagEvents := ReadStorageTag(env);
    if r.Fail? {
      return r, loadEvents + tagEvents;
    }
    match RouteOf(tag) {
      case BeginRoute =>
        r, excessiveLamports, dispatchEvents := Begin(header.message, env);
      case ContinueRoute =>
        r, dispatchEvents := Continue(header.stepCount, env);
      case RejectRoute =>
        r, dispatchEvents := Fail(AccountInvalidTag(storageKey, Holder)), [RejectTag(tag)];
        assert dispatchEvents == Events(DispatchSteps(header, storageKey, env));
    }
    events := loadEvents + tagEvents + dispatchEvents;
    if r.Fail? {
      return;
    }
    operator.lamports := operator.lamports + excessiveLamports;
    events := events + [CreditOperator(excessiveLamports)];
  }

  /** `process` runs its phases one after the other, stopping in the first that fails; the credit comes last. */
  lemma ProcessPhases(instruction: seq<Byte>, storageKey: Pubkey, env: StepEnvironment)
    requires |instruction| >= 12
    ensures var h := ParseHeader(instruction);
      var load := LoadSteps(h.treasuryIndex, env);
      var tag := TagSteps(env);
      var dispatch := DispatchSteps(h, storageKey, env);
      var steps := ProcessSteps(instruction, storageKey, env);
      (FirstFailure(load).Fail? ==>
         Events(steps) == Events(load) && FirstFailure(steps) == FirstFailure(load))
      && (FirstFailure(load).Pass? && FirstFailure(tag).Fail? ==>
         Events(steps) == Events(load) + Events(tag) && FirstFailure(steps) == FirstFailure(tag))
      && (FirstFailure(load).Pass? && FirstFailure(tag).Pass? && FirstFailure(dispatch).Fail? ==>
         Events(steps) == Events(load) + Events(tag) + Events(dispatch) && FirstFailure(steps) == FirstFailure(dispatch))
      && (FirstFailure(load).Pass? && FirstFailure(tag).Pass? && FirstFailure(dispatch).Pass? ==>
         Events(steps) == Events(load) + Events(tag) + Events(dispatch) + [CreditOperator(CreditedLamports(env))]
         && FirstFailure(steps) == Pass)
  {
    var h := ParseHeader(instruction);
    ThreePhasesThenFinal(LoadSteps(h.treasuryIndex, env), TagSteps(env), DispatchSteps(h, storageKey, env),
                         Step(CreditOperator(CreditedLamports(env)), Pass));
  }

  // ---------------------------------------------------------------------------
  // Properties of the phases

  /** The four fixed accounts load in order, and the phase passes exactly when each of them loads. */
  lemma LoadPhaseOutcome(treasuryIndex: nat, env: StepEnvironment)
    ensures var all := [LoadOperator, LoadTreasury(treasuryIndex), LoadOperatorBalance, LoadSystem];
      var steps := LoadSteps(treasuryIndex, env);
      Events(steps) <= all
      && (forall e :: e in Events(steps) ==> e in all)
      && (FirstFailure(steps).Pass? <==>
            env.operator.Pass? && env.treasury(treasuryIndex).Pass? && env.operatorBalance.Pass? && env.system.Pass?)
      && (FirstFailure(steps).Pass? ==> Events(steps) == all)
  {
    var steps := LoadSteps(treasuryIndex, env);
    EventsArePrefix(steps);
    PassRunsEverything(steps);
    assert EventsOf(steps) == [LoadOperator, LoadTreasury(treasuryIndex), LoadOperatorBalance, LoadSystem];
    if env.operator.Pass? && env.treasury(treasuryIndex).Pass? && env.operatorBalance.Pass? && env.system.Pass? {
      forall i | 0 <= i < |steps| ensures steps[i].outcome.Pass? {
        assert i == 0 || i == 1 || i == 2 || i == 3;
      }
    } else {
      assert steps[0].outcome.Fail? || steps[1].outcome.Fail? || steps[2].outcome.Fail? || steps[3].outcome.Fail?;
    }
  }

  /**
   * The layout is migrated exactly when the tag read is deprecated; the phase passes when the
   * tag is read and, if deprecated, migrated, and the dispatch then sees the migrated tag.
   */
  lemma TagPhaseOutcome(env: StepEnvironment)
    ensures Events(TagSteps(env)) <= [ReadTag, MigrateLayout]
    ensures MigrateLayout in Events(TagSteps(env)) <==> env.tag.Success? && Deprecated(env.tag.value)
    ensures FirstFailure(TagSteps(env)).Pass? <==>
      env.tag.Success? && (Deprecated(env.tag.value) ==> env.migratedTag.Success?)
    ensures FirstFailure(TagSteps(env)).Pass? ==>
      FinalTag(env) == if Deprecated(env.tag.value) then env.migratedTag.value else env.tag.value
  {
    var steps := TagSteps(env);
    assert steps[0..] == steps;
    TakeStep(steps, 0);
    if env.tag.Success? && Deprecated(env.tag.value) {
      TakeStep(steps, 1);
      assert steps[2..] == [];
    } else {
      assert steps[1..] == [];
    }
  }

  /** Admission decodes the message, then recovers the signer of the decoded transaction. */
  lemma AdmitPhaseOutcome(message: seq<Byte>, env: StepEnvironment)
    ensures var all := [DecodeTransaction(message), RecoverCaller(ValueOr(env.decode(message), NO_TRANSACTION))];
      var steps := AdmitSteps(message, env);
      Events(steps) <= all
      && (forall e :: e in Events(steps) ==> e in all)
      && (FirstFailure(steps).Pass? <==>
            env.decode(message).Success? && env.recover(env.decode(message).value).Success?)
      && (FirstFailure(steps).Pass? ==> Events(steps) == all)
  {
    var steps := AdmitSteps(message, env);
    assert steps[0..] == steps;
    TakeStep(steps, 0);
    TakeStep(steps, 1);
    assert steps[2..] == [];
  }

  /**
   * The start of a transaction charges a gasometer started at zero with the transaction and
   * lookup-table costs, refunds the lamports the legacy migration frees, creates the state
   * account and runs the first step with that gas and refund; when it passes, every one of
   * those happens in that order.
   */
  lemma StartPhaseOutcome(origin: Address, env: StepEnvironment)
    ensures var x := ValueOr(env.legacyExcess, 0);
      var all := [NewGasometer(0), RecordSolanaTransactionCost(env.transactionCost),
                  RecordAddressLookupTable(env.lookupTableCost), UpdateLegacyAccounts, RefundLamports(x),
                  CreateState(origin), DoBegin(env.transactionCost + env.lookupTableCost, x, origin)];
      var steps := StartSteps(origin, env);
      Events(steps) <= all
      && (forall e :: e in Events(steps) ==> e in all)
      && (FirstFailure(steps).Pass? ==> Events(steps) == all && env.legacyExcess.Success?)
  {
    var steps := StartSteps(origin, env);
    EventsArePrefix(steps);
    PassRunsEverything(steps);
    assert AllPass(steps) ==> steps[3].outcome.Pass?;
  }

  /** The begin path is admission followed, if it passes, by the start of the transaction. */
  lemma BeginPhaseOutcome(message: seq<Byte>, env: StepEnvironment)
    ensures var admit := AdmitSteps(message, env);
      var start := StartSteps(Origin(message, env), env);
      var steps := BeginSteps(message, env);
      (FirstFailure(admit).Fail? ==> Events(steps) == Events(admit) && FirstFailure(steps) == FirstFailure(admit))
      && (FirstFailure(admit).Pass? ==>
            Events(steps) == Events(admit) + Events(start) && FirstFailure(steps) == FirstFailure(start))
  {
    EventsAppend(AdmitSteps(message, env), StartSteps(Origin(message, env), env));
    PassRunsEverything(AdmitSteps(message, env));
  }

  /**
   * The continue path restores the state account, seeds a gasometer with the gas it has used,
   * charges one transaction cost and runs the next steps with the instruction's step count.
   */
  lemma ContinuePhaseOutcome(stepCount: nat, env: StepEnvironment)
    ensures var gasUsed := ValueOr(env.restoredGasUsed, 0);
      var all := [RestoreState, NewGasometer(gasUsed), RecordSolanaTransactionCost(env.transactionCost),
                  DoContinue(stepCount, gasUsed + env.transactionCost, 0)];
      var steps := ContinueSteps(stepCount, env);
      Events(steps) <= all
      && (forall e :: e in Events(steps) ==> e in all)
      && (FirstFailure(steps).Pass? ==> Events(steps) == all && env.restoredGasUsed.Success?)
  {
    var steps := ContinueSteps(stepCount, env);
    EventsArePrefix(steps);
    PassRunsEverything(steps);
    assert AllPass(steps) ==> steps[0].outcome.Pass?;
  }

  // ---------------------------------------------------------------------------
  // Properties of the whole instruction

  predicate AccountsLoad(treasuryIndex: nat, env: StepEnvironment)
  {
    env.operator.Pass? && env.treasury(treasuryIndex).Pass? && env.operatorBalance.Pass? && env.system.Pass?
  }

  predicate TagResolves(env: StepEnvironment)
  {
    env.tag.Success? && (Deprecated(env.tag.value) ==> env.migratedTag.Success?)
  }

  /**
   * On a successful begin path the message after the header is decoded, the gas starts from
   * zero plus the transaction and lookup-table costs, the worker gets no step count, and the
   * operator is credited last with exactly the amount refunded to the gasometer.
   */
  lemma BeginPathSucceeds(instruction: seq<Byte>, storageKey: Pubkey, env: StepEnvironment)
    requires |instruction| >= 12
    requires RouteOf(FinalTag(env)) == BeginRoute
    requires FirstFailure(ProcessSteps(instruction, storageKey, env)).Pass?
    ensures var events := Events(ProcessSteps(instruction, storageKey, env));
      var x := ValueOr(env.legacyExcess, 0);
      DecodeTransaction(instruction[12..]) in events
      && NewGasometer(0) in events
      && RefundLamports(x) in events
      && DoBegin(env.transactionCost + env.lookupTableCost, x, Origin(instruction[12..], env)) in events
      && events[|events| - 1] == CreditOperator(x)
  {
    var h := ParseHeader(instruction);
    ProcessPhases(instruction, storageKey, env);
    BeginPhaseOutcome(h.message, env);
    AdmitPhaseOutcome(h.message, env);
    StartPhaseOutcome(Origin(h.message, env), env);
  }

  /** Events of the phases before the dispatch: the accounts and the tag. */
  lemma PreambleNever(instruction: seq<Byte>, storageKey: Pubkey, env: StepEnvironment, p: StepEvent -> bool)
    requires |instruction| >= 12
    requires !p(LoadOperator) && !p(LoadTreasury(ParseHeader(instruction).treasuryIndex))
    requires !p(LoadOperatorBalance) && !p(LoadSystem) && !p(ReadTag) && !p(MigrateLayout)
    requires !p(CreditOperator(CreditedLamports(env)))
    requires forall e :: e in Events(DispatchSteps(ParseHeader(instruction), storageKey, env)) ==> !p(e)
    ensures forall e :: e in Events(ProcessSteps(instruction, storageKey, env)) ==> !p(e)
  {
    var h := ParseHeader(instruction);
    ProcessPhases(instruction, storageKey, env);
    NeverHappens(LoadSteps(h.treasuryIndex, env), p);
    NeverHappens(TagSteps(env), p);
  }

  /** The begin path never restores a state account, runs the continue worker or rejects the tag. */
  lemma BeginPathNeverContinues(instruction: seq<Byte>, storageKey: Pubkey, env: StepEnvironment)
    requires |instruction| >= 12
    requires RouteOf(FinalTag(env)) == BeginRoute
    ensures forall e :: e in Events(ProcessSteps(instruction, storageKey, env)) ==>
      !e.RestoreState? && !e.DoContinue? && !e.RejectTag?
  {
    var h := ParseHeader(instruction);
    var p := (e: StepEvent) => e.RestoreState? || e.DoContinue? || e.RejectTag?;
    BeginPhaseOutcome(h.message, env);
    NeverHappens(AdmitSteps(h.message, env), p);
    NeverHappens(StartSteps(Origin(h.message, env), env), p);
    PreambleNever(instruction, storageKey, env, p);
  }

  /**
   * On a successful continue path the gasometer is seeded with the gas the state account has
   * used plus one transaction cost, the worker gets the instruction's step count, and the
   * operator is credited nothing, last.
   */
  lemma ContinuePathSucceeds(instruction: seq<Byte>, storageKey: Pubkey, env: StepEnvironment)
    requires |instruction| >= 12
    requires RouteOf(FinalTag(env)) == ContinueRoute
    requires FirstFailure(ProcessSteps(instruction, storageKey, env)).Pass?
    ensures var events := Events(ProcessSteps(instruction, storageKey, env));
      var gasUsed := ValueOr(env.restoredGasUsed, 0);
      NewGasometer(gasUsed) in events
      && DoContinue(LittleEndian(instruction[4..8]), gasUsed + env.transactionCost, 0) in events
      && events[|events| - 1] == CreditOperator(0)
  {
    var h := ParseHeader(instruction);
    ProcessPhases(instruction, storageKey, env);
    ContinuePhaseOutcome(h.stepCount, env);
  }

  /** The continue path never migrates legacy accounts, refunds lamports, begins a transaction or rejects the tag. */
  lemma ContinuePathNeverMigrates(instruction: seq<Byte>, storageKey: Pubkey, env: StepEnvironment)
    requires |instruction| >= 12
    requires RouteOf(FinalTag(env)) == ContinueRoute
    ensures CreditedLamports(env) == 0
    ensures forall e :: e in Events(ProcessSteps(instruction, storageKey, env)) ==>
      !e.UpdateLegacyAccounts? && !e.RefundLamports? && !e.DoBegin? && !e.RejectTag?
  {
    var h := ParseHeader(instruction);
    var p := (e: StepEvent) => e.UpdateLegacyAccounts? || e.RefundLamports? || e.DoBegin? || e.RejectTag?;
    NeverHappens(ContinueSteps(h.stepCount, env), p);
    PreambleNever(instruction, storageKey, env, p);
  }

  /**
   * Any other tag is rejected as not being a holder, once the accounts load and the tag is
   * read; the instruction then fails, neither worker runs and the operator is never credited.
   */
  lemma InvalidTagRejected(instruction: seq<Byte>, storageKey: Pubkey, env: StepEnvironment)
    requires |instruction| >= 12
    requires RouteOf(FinalTag(env)) == RejectRoute
    ensures var steps := ProcessSteps(instruction, storageKey, env);
      FirstFailure(steps).Fail?
      && (forall e :: e in Events(steps) ==> !e.CreditOperator? && !e.DoBegin? && !e.DoContinue?)
  {
    var h := ParseHeader(instruction);
    ProcessPhases(instruction, storageKey, env);
    RejectDispatch(h, storageKey, env);
    var p := (e: StepEvent) => e.CreditOperator? || e.DoBegin? || e.DoContinue?;
    NeverHappens(LoadSteps(h.treasuryIndex, env), p);
    NeverHappens(TagSteps(env), p);
  }

  /** With the accounts loaded and the tag read, the rejection is the last thing that happens. */
  lemma InvalidTagReported(instruction: seq<Byte>, storageKey: Pubkey, env: StepEnvironment)
    requires |instruction| >= 12
    requires RouteOf(FinalTag(env)) == RejectRoute
    requires AccountsLoad(ParseHeader(instruction).treasuryIndex, env) && TagResolves(env)
    ensures var steps := ProcessSteps(instruction, storageKey, env);
      FirstFailure(steps) == Fail(AccountInvalidTag(storageKey, Holder))
      && Events(steps)[|Events(steps)| - 1] == RejectTag(FinalTag(env))
  {
    var h := ParseHeader(instruction);
    ProcessPhases(instruction, storageKey, env);
    LoadPhaseOutcome(h.treasuryIndex, env);
    TagPhaseOutcome(env);
    RejectDispatch(h, storageKey, env);
  }

  /** The reject route is a single failing step. */
  lemma RejectDispatch(h: Header, storageKey: Pubkey, env: StepEnvironment)
    requires RouteOf(FinalTag(env)) == RejectRoute
    ensures Events(DispatchSteps(h, storageKey, env)) == [RejectTag(FinalTag(env))]
    ensures FirstFailure(DispatchSteps(h, storageKey, env)) == Fail(AccountInvalidTag(storageKey, Holder))
  {
    var steps := DispatchSteps(h, storageKey, env);
    TakeStep(steps, 0);
    assert steps[0..] == steps;
  }

  /** When the instruction succeeds, the operator's credit is its last event. */
  lemma CreditLastOnSuccess(instruction: seq<Byte>, storageKey: Pubkey, env: StepEnvironment)
    requires |instruction| >= 12
    requires FirstFailure(ProcessSteps(instruction, storageKey, env)).Pass?
    ensures var events := Events(ProcessSteps(instruction, storageKey, env));
      events != [] && events[|events| - 1] == CreditOperator(CreditedLamports(env))
  {
    ProcessPhases(instruction, storageKey, env);
  }

  /** When the instruction fails, the operator is never credited. */
  lemma NoCreditOnFailure(instruction: seq<Byte>, storageKey: Pubkey, env: StepEnvironment)
    requires |instruction| >= 12
    requires FirstFailure(ProcessSteps(instruction, storageKey, env)).Fail?
    ensures forall e :: e in Events(ProcessSteps(instruction, storageKey, env)) ==> !e.CreditOperator?
  {
    var h := ParseHeader(instruction);
    var p := (e: StepEvent) => e.CreditOperator?;
    ProcessPhases(instruction, storageKey, env);
    NeverHappens(LoadSteps(h.treasuryIndex, env), p);
    NeverHappens(TagSteps(env), p);
    DispatchNeverCredits(h, storageKey, env);
  }

  /** None of the three routes credits the operator itself. */
  lemma DispatchNeverCredits(h: Header, storageKey: Pubkey, env: StepEnvironment)
    ensures forall e :: e in Events(DispatchSteps(h, storageKey, env)) ==> !e.CreditOperator?
  {
    var p := (e: StepEvent) => e.CreditOperator?;
    match RouteOf(FinalTag(env)) {
      case BeginRoute =>
        BeginPhaseOutcome(h.message, env);
        NeverHappens(AdmitSteps(h.message, env), p);
        NeverHappens(StartSteps(Origin(h.message, env), env), p);
      case ContinueRoute =>
        NeverHappens(ContinueSteps(h.stepCount, env), p);
      case RejectRoute =>
        NeverHappens(DispatchSteps(h, storageKey, env), p);
    }
  }
}
