/**
  The transaction prologue: the ordered checks a signed transaction must pass
  before its payload runs, evaluated at two call sites.

  * Admission (`verify_transaction`, used by mempool) returns no status when
    the transaction is accepted, or the status code of the first failing check.
  * Execution (`execute_transaction`) runs the same checks plus one more
    (sequence number too new), and then the payload; its result is a
    `TransactionStatus` that is either discarded or kept on the ledger.

  Cryptography, serialization, the bytecode deserializer and verifier, and the
  interpreter are collaborators outside this model: they are the fields of an
  `Env` value passed to every operation.
*/
module TransactionValidation {
  import opened Wrappers
  import ChainIds
  import TransactionScripts

  type Bytes = TransactionScripts.Bytes
  type HashValue = TransactionScripts.HashValue
  type PublicKey = Bytes
  type Signature = Bytes
  type AuthenticationKey = Bytes

  /** A type argument of a script, by its canonical textual form (type arguments are not checked here). */
  type TypeTag = string

  datatype AccountAddress = AccountAddress(bytes: Bytes)

  /* ---------------------------------------------------------------------
     Transactions
     --------------------------------------------------------------------- */

  datatype TransactionArgument =
    | U8Arg(u: u8)
    | U64Arg(n: u64)
    | U128Arg(m: nat)
    | AddressArg(a: AccountAddress)
    | U8VectorArg(v: Bytes)
    | BoolArg(b: bool)

  /** The parameter types a script's `main` may declare for its transaction arguments. */
  datatype ArgumentType = U8Type | U64Type | U128Type | AddressType | U8VectorType | BoolType

  function ArgumentTypeOf(a: TransactionArgument): ArgumentType
  {
    match a
    case U8Arg(_) => U8Type
    case U64Arg(_) => U64Type
    case U128Arg(_) => U128Type
    case AddressArg(_) => AddressType
    case U8VectorArg(_) => U8VectorType
    case BoolArg(_) => BoolType
  }

  datatype Script = Script(code: Bytes, tyArgs: seq<TypeTag>, args: seq<TransactionArgument>)

  datatype TransactionPayload = ScriptPayload(script: Script) | ModulePayload(code: Bytes)

  datatype RawTransaction = RawTransaction(
    sender: AccountAddress,
    sequenceNumber: u64,
    payload: TransactionPayload,
    maxGasAmount: u64,
    gasUnitPrice: u64,
    gasCurrencyCode: string,
    expirationTimestampSecs: u64,
    chainId: ChainIds.ChainId)

  datatype SignedTransaction = SignedTransaction(rawTxn: RawTransaction, publicKey: PublicKey, signature: Signature)

  /* ---------------------------------------------------------------------
     Ledger state read by the prologue
     --------------------------------------------------------------------- */

  /** The sender's account as the prologue reads it. */
  datatype AccountState = AccountState(
    authenticationKey: AuthenticationKey,
    sequenceNumber: u64,
    balances: map<string, u64>)  // currency code to amount

  datatype GasConstants = GasConstants(
    minTransactionGasUnits: u64,
    maximumNumberOfGasUnits: u64,
    minPricePerGasUnit: u64,
    maxPricePerGasUnit: u64,
    maxTransactionSizeInBytes: u64)

  /** Which scripts may run and who may publish modules. */
  datatype VMPublishingOption =
    | Locked(whitelist: seq<HashValue>)  // only scripts whose hash is listed; only the root publishes
    | CustomScripts                      // any script; only the root publishes
    | Open                               // any script; anyone publishes at their own address

  datatype LedgerState = LedgerState(
    accounts: map<AccountAddress, AccountState>,
    publishing: VMPublishingOption,
    gas: GasConstants,
    libraRoot: AccountAddress,
    coreCodeAddress: AccountAddress)

  /* ---------------------------------------------------------------------
     Statuses
     --------------------------------------------------------------------- */

  datatype StatusCode =
    // validation
    | INVALID_SIGNATURE
    | INVALID_AUTH_KEY
    | SEQUENCE_NUMBER_TOO_OLD
    | SEQUENCE_NUMBER_TOO_NEW
    | INSUFFICIENT_BALANCE_FOR_TRANSACTION_FEE
    | SENDING_ACCOUNT_DOES_NOT_EXIST
    | EXCEEDED_MAX_TRANSACTION_SIZE
    | UNKNOWN_SCRIPT
    | MAX_GAS_UNITS_EXCEEDS_MAX_GAS_UNITS_BOUND
    | MAX_GAS_UNITS_BELOW_MIN_TRANSACTION_GAS_UNITS
    | GAS_UNIT_PRICE_ABOVE_MAX_BOUND
    | INVALID_MODULE_PUBLISHER
    // verification
    | TYPE_MISMATCH
    | MODULE_ADDRESS_DOES_NOT_MATCH_SENDER
    | INVALID_RESOURCE_FIELD
    // deserialization
    | CODE_DESERIALIZATION_ERROR
    // execution
    | ABORTED
    | OUT_OF_GAS
    | ARITHMETIC_ERROR

  datatype StatusType = Validation | Verification | Deserialization | Execution

  function StatusTypeOf(c: StatusCode): StatusType
  {
    match c
    case TYPE_MISMATCH | MODULE_ADDRESS_DOES_NOT_MATCH_SENDER | INVALID_RESOURCE_FIELD => Verification
    case CODE_DESERIALIZATION_ERROR => Deserialization
    case ABORTED | OUT_OF_GAS | ARITHMETIC_ERROR => Execution
    case _ => Validation
  }

  /** A failure the bytecode verifier can report. */
  type VerificationCode = c: StatusCode | StatusTypeOf(c) == Verification witness INVALID_RESOURCE_FIELD

  /** A failure the interpreter can report while running a script. */
  type ExecutionCode = c: StatusCode | StatusTypeOf(c) == Execution witness ABORTED

  datatype VMStatus = Executed | Error(code: StatusCode)

  datatype TransactionStatus = Discard(status: VMStatus) | Keep(status: VMStatus)

  /** `TransactionStatus::from(VMStatus)`: validation failures are discarded, everything else is kept. */
  function StatusFor(vm: VMStatus): (ts: TransactionStatus)
    ensures ts.status == vm
    ensures ts.Discard? <==> vm.Error? && StatusTypeOf(vm.code) == Validation
  {
    match vm
    case Executed => Keep(vm)
    case Error(c) => if StatusTypeOf(c) == Validation then Discard(vm) else Keep(vm)
  }

  /* ---------------------------------------------------------------------
     Collaborators
     --------------------------------------------------------------------- */

  datatype Env = Env(
    verifySignature: (RawTransaction, PublicKey, Signature) -> bool,  // Ed25519 over the raw transaction
    authenticationKeyOf: PublicKey -> AuthenticationKey,              // the key's authentication key
    sha3: Bytes -> HashValue,                                         // SHA3-256
    rawTxnBytesLen: RawTransaction -> nat,                            // length of the serialized transaction
    deserializeScript: Bytes -> Option<seq<ArgumentType>>,            // the script's parameter types
    deserializeModule: Bytes -> Option<AccountAddress>,               // the module's self address
    verifyBytecode: Bytes -> Option<VerificationCode>,                // verifier, over the code and its dependencies
    interpret: RawTransaction -> Option<ExecutionCode>)               // running a verified script

  /* ---------------------------------------------------------------------
     The checks, in the order the prologue runs them
     --------------------------------------------------------------------- */

  datatype Check =
    | SignatureCheck
    | TransactionSizeCheck
    | MaxGasUnitsCeiling
    | MaxGasUnitsFloor
    | GasUnitPriceCeiling
    | ScriptWhitelist
    | ModulePublisher
    | SenderExists
    | AuthenticationKeyCheck
    | FeeAffordable
    | SequenceNotOld
    | SequenceNotNew

  /** The status a failing check reports. */
  function CheckCode(c: Check): StatusCode
  {
    match c
    case SignatureCheck => INVALID_SIGNATURE
    case TransactionSizeCheck => EXCEEDED_MAX_TRANSACTION_SIZE
    case MaxGasUnitsCeiling => MAX_GAS_UNITS_EXCEEDS_MAX_GAS_UNITS_BOUND
    case MaxGasUnitsFloor => MAX_GAS_UNITS_BELOW_MIN_TRANSACTION_GAS_UNITS
    case GasUnitPriceCeiling => GAS_UNIT_PRICE_ABOVE_MAX_BOUND
    case ScriptWhitelist => UNKNOWN_SCRIPT
    case ModulePublisher => INVALID_MODULE_PUBLISHER
    case SenderExists => SENDING_ACCOUNT_DOES_NOT_EXIST
    case AuthenticationKeyCheck => INVALID_AUTH_KEY
    case FeeAffordable => INSUFFICIENT_BALANCE_FOR_TRANSACTION_FEE
    case SequenceNotOld => SEQUENCE_NUMBER_TOO_OLD
    case SequenceNotNew => SEQUENCE_NUMBER_TOO_NEW
  }

  /** The sender's balance in the transaction's gas currency (none held reads as zero). */
  function GasCurrencyBalance(a: AccountState, currency: string): nat
  {
    if currency in a.balances then a.balances[currency] else 0
  }

  /**
    Whether check `c` passes. The checks that read the sender's account pass vacuously
    when there is no account: `SenderExists` runs before all of them.
  */
  predicate Passes(c: Check, env: Env, ledger: LedgerState, txn: SignedTransaction)
    ensures txn.rawTxn.sender !in ledger.accounts && c in {AuthenticationKeyCheck, FeeAffordable, SequenceNotOld, SequenceNotNew}
      ==> Passes(c, env, ledger, txn)
  {
    var raw := txn.rawTxn;
    var gas := ledger.gas;
    var account := if raw.sender in ledger.accounts then Some(ledger.accounts[raw.sender]) else None;
    match c
    case SignatureCheck => env.verifySignature(raw, txn.publicKey, txn.signature)
    case TransactionSizeCheck => env.rawTxnBytesLen(raw) <= gas.maxTransactionSizeInBytes
    case MaxGasUnitsCeiling => raw.maxGasAmount <= gas.maximumNumberOfGasUnits
    case MaxGasUnitsFloor => raw.maxGasAmount >= gas.minTransactionGasUnits
    case GasUnitPriceCeiling => raw.gasUnitPrice <= gas.maxPricePerGasUnit
    case ScriptWhitelist =>
      raw.payload.ScriptPayload? && ledger.publishing.Locked? ==>
        env.sha3(raw.payload.script.code) in ledger.publishing.whitelist
    case ModulePublisher =>
      raw.payload.ModulePayload? && !ledger.publishing.Open? ==> raw.sender == ledger.libraRoot
    case SenderExists => account.Some?
    case AuthenticationKeyCheck =>
      account.Some? ==> env.authenticationKeyOf(txn.publicKey) == account.value.authenticationKey
    case FeeAffordable =>
      account.Some? ==> raw.maxGasAmount * raw.gasUnitPrice <= GasCurrencyBalance(account.value, raw.gasCurrencyCode)
    case SequenceNotOld => account.Some? ==> raw.sequenceNumber >= account.value.sequenceNumber
    case SequenceNotNew => !AheadOfAccount(ledger, raw)
  }

  /** The sender exists and the transaction's sequence number is ahead of the account's. */
  predicate AheadOfAccount(ledger: LedgerState, raw: RawTransaction)
  {
    raw.sender in ledger.accounts && raw.sequenceNumber > ledger.accounts[raw.sender].sequenceNumber
  }

  /** The checks run at admission, in order. */
  function AdmissionChecks(): (checks: seq<Check>)
    ensures |checks| == 11
    ensures SequenceNotNew !in checks
    ensures forall c :: c != SequenceNotNew ==> c in checks
  {
    var checks :=
      [ SignatureCheck, TransactionSizeCheck, MaxGasUnitsCeiling, MaxGasUnitsFloor, GasUnitPriceCeiling,
        ScriptWhitelist, ModulePublisher,
        SenderExists, AuthenticationKeyCheck, FeeAffordable, SequenceNotOld ];
    assert forall c :: c != SequenceNotNew ==> Rank(c) < |checks| && checks[Rank(c)] == c && c in checks;
    checks
  }

  /** The checks run before execution: the admission checks, then "sequence number too new". */
  function ExecutionChecks(): (checks: seq<Check>)
    ensures |checks| == 12
    ensures forall c :: c in checks
  {
    AdmissionChecks() + [SequenceNotNew]
  }

  /** The position of the first failing check in `checks`, if any. */
  function FirstFailing(checks: seq<Check>, env: Env, ledger: LedgerState, txn: SignedTransaction): (r: Option<nat>)
    ensures r.None? <==> forall i :: 0 <= i < |checks| ==> Passes(checks[i], env, ledger, txn)
    ensures r.Some? ==> r.value < |checks| && !Passes(checks[r.value], env, ledger, txn)
    ensures r.Some? ==> forall j :: 0 <= j < r.value ==> Passes(checks[j], env, ledger, txn)
  {
    if |checks| == 0 then None
    else if !Passes(checks[0], env, ledger, txn) then Some(0)
    else match FirstFailing(checks[1..], env, ledger, txn)
      case None => None
      case Some(k) => Some(k + 1)
  }

  /** The status of the first failing check in `checks`, or none when all pass (short circuit). */
  function FirstFailure(checks: seq<Check>, env: Env, ledger: LedgerState, txn: SignedTransaction): Option<StatusCode>
  {
    match FirstFailing(checks, env, ledger, txn)
    case None => None
    case Some(i) => Some(CheckCode(checks[i]))
  }

  /** `executor.verify_transaction(txn).status()`: the admission decision. */
  function VerifyTransaction(env: Env, ledger: LedgerState, txn: SignedTransaction): (r: Option<StatusCode>)
    ensures r.None? <==> forall i :: 0 <= i < |AdmissionChecks()| ==> Passes(AdmissionChecks()[i], env, ledger, txn)
    ensures r.Some? ==> StatusTypeOf(r.value) == Validation
  {
    FirstFailure(AdmissionChecks(), env, ledger, txn)
  }

  /** Where a module may be published: at the sender under `Open`, otherwise at the core code address. */
  function PublishingAddress(ledger: LedgerState, sender: AccountAddress): AccountAddress
  {
    if ledger.publishing.Open? then sender else ledger.coreCodeAddress
  }

  /** The script's arguments match its declared parameter types, position by position. */
  predicate ArgumentsMatch(args: seq<TransactionArgument>, params: seq<ArgumentType>)
  {
    |args| == |params| && forall i :: 0 <= i < |args| ==> ArgumentTypeOf(args[i]) == params[i]
  }

  /** Running the payload once the prologue has passed: deserialize, verify, check arguments, run. */
  function RunPayload(env: Env, ledger: LedgerState, raw: RawTransaction): (vm: VMStatus)
    ensures vm.Error? ==> StatusTypeOf(vm.code) != Validation
    ensures raw.payload.ModulePayload? && vm == Executed ==>
      env.deserializeModule(raw.payload.code) == Some(PublishingAddress(ledger, raw.sender))
  {
    match raw.payload
    case ScriptPayload(script) =>
      (match env.deserializeScript(script.code)
       case None => Error(CODE_DESERIALIZATION_ERROR)
       case Some(params) =>
         match env.verifyBytecode(script.code)
         case Some(e) => Error(e)
         case None =>
           if !ArgumentsMatch(script.args, params) then Error(TYPE_MISMATCH)
           else match env.interpret(raw)
             case Some(e) => Error(e)
             case None => Executed)
    case ModulePayload(code) =>
      match env.deserializeModule(code)
      case None => Error(CODE_DESERIALIZATION_ERROR)
      case Some(self) =>
        if self != PublishingAddress(ledger, raw.sender) then Error(MODULE_ADDRESS_DOES_NOT_MATCH_SENDER)
        else match env.verifyBytecode(code)
          case Some(e) => Error(e)
          case None => Executed
  }

  /** `executor.execute_transaction(txn).status()`. */
  function ExecuteTransaction(env: Env, ledger: LedgerState, txn: SignedTransaction): (ts: TransactionStatus)
    ensures ts.Discard? <==> FirstFailure(ExecutionChecks(), env, ledger, txn).Some?
    ensures ts.Discard? ==> ts.status.Error? && StatusTypeOf(ts.status.code) == Validation
  {
    match FirstFailure(ExecutionChecks(), env, ledger, txn)
    case Some(c) => StatusFor(Error(c))
    case None => StatusFor(RunPayload(env, ledger, txn.rawTxn))
  }

  /* ---------------------------------------------------------------------
     An order-free statement of acceptance
     --------------------------------------------------------------------- */

  /** Scripts run only from the whitelist when publishing is locked. */
  predicate ScriptAllowed(publishing: VMPublishingOption, sha3: Bytes -> HashValue, payload: TransactionPayload)
  {
    match payload
    case ScriptPayload(script) => publishing.Locked? ==> sha3(script.code) in publishing.whitelist
    case ModulePayload(_) => true
  }

  /** Modules are published only by the root account unless publishing is open. */
  predicate PublisherAllowed(ledger: LedgerState, raw: RawTransaction)
  {
    match raw.payload
    case ModulePayload(_) => ledger.publishing.Open? || raw.sender == ledger.libraRoot
    case ScriptPayload(_) => true
  }

  /** Everything admission demands of a transaction, as one conjunction, in no particular order. */
  predicate Admissible(env: Env, ledger: LedgerState, txn: SignedTransaction)
  {
    var raw := txn.rawTxn;
    var gas := ledger.gas;
    && env.verifySignature(raw, txn.publicKey, txn.signature)
    && env.rawTxnBytesLen(raw) <= gas.maxTransactionSizeInBytes
    && gas.minTransactionGasUnits <= raw.maxGasAmount <= gas.maximumNumberOfGasUnits
    && raw.gasUnitPrice <= gas.maxPricePerGasUnit
    && ScriptAllowed(ledger.publishing, env.sha3, raw.payload)
    && PublisherAllowed(ledger, raw)
    && raw.sender in ledger.accounts
    && var account := ledger.accounts[raw.sender];
       && env.authenticationKeyOf(txn.publicKey) == account.authenticationKey
       && raw.maxGasAmount * raw.gasUnitPrice <= GasCurrencyBalance(account, raw.gasCurrencyCode)
       && raw.sequenceNumber >= account.sequenceNumber
  }

  /* ---------------------------------------------------------------------
     Lemmas about the ordered checks
     --------------------------------------------------------------------- */

  /** A failing check whose predecessors all pass decides the outcome. */
  lemma FirstFailureIs(checks: seq<Check>, env: Env, ledger: LedgerState, txn: SignedTransaction, i: nat)
    requires i < |checks| && !Passes(checks[i], env, ledger, txn)
    requires forall j :: 0 <= j < i ==> Passes(checks[j], env, ledger, txn)
    ensures FirstFailure(checks, env, ledger, txn) == Some(CheckCode(checks[i]))
  {
    var k := FirstFailing(checks, env, ledger, txn).value;
    assert !Passes(checks[k], env, ledger, txn);
  }

  /** Appending a check changes the outcome only when every earlier check passed. */
  lemma FirstFailureAppend(checks: seq<Check>, last: Check, env: Env, ledger: LedgerState, txn: SignedTransaction)
    ensures FirstFailure(checks + [last], env, ledger, txn) ==
      if FirstFailure(checks, env, ledger, txn).Some? then FirstFailure(checks, env, ledger, txn)
      else if Passes(last, env, ledger, txn) then None
      else Some(CheckCode(last))
  {
    var all := checks + [last];
    match FirstFailing(checks, env, ledger, txn)
    case Some(i) =>
      assert all[i] == checks[i];
      assert forall j :: 0 <= j < i ==> all[j] == checks[j];
      FirstFailureIs(all, env, ledger, txn, i);
    case None =>
      assert forall j :: 0 <= j < |checks| ==> all[j] == checks[j];
      if Passes(last, env, ledger, txn) {
        assert forall j :: 0 <= j < |all| ==> Passes(all[j], env, ledger, txn) by {
          forall j | 0 <= j < |all| ensures Passes(all[j], env, ledger, txn) {
            if j < |checks| { assert all[j] == checks[j]; }
          }
        }
      } else {
        FirstFailureIs(all, env, ledger, txn, |checks|);
      }
  }

  /** The status codes of the checks are pairwise distinct. */
  lemma CheckCodeInjective(a: Check, b: Check)
    ensures CheckCode(a) == CheckCode(b) <==> a == b
  {
  }

  /** Every code the prologue reports is a validation status. */
  lemma CheckCodesAreValidation(c: Check)
    ensures StatusTypeOf(CheckCode(c)) == Validation
  {
  }

  /** Acceptance at admission is exactly `Admissible`, whatever the order of the checks. */
  lemma AcceptedIffAdmissible(env: Env, ledger: LedgerState, txn: SignedTransaction)
    ensures VerifyTransaction(env, ledger, txn).None? <==> Admissible(env, ledger, txn)
  {
    if Admissible(env, ledger, txn) {
      AdmissibleIsAccepted(env, ledger, txn);
    } else {
      InadmissibleIsRejected(env, ledger, txn);
    }
  }

  lemma AdmissibleIsAccepted(env: Env, ledger: LedgerState, txn: SignedTransaction)
    requires Admissible(env, ledger, txn)
    ensures VerifyTransaction(env, ledger, txn).None?
  {
    var cs := AdmissionChecks();
    forall i | 0 <= i < |cs| ensures Passes(cs[i], env, ledger, txn) {
      assert cs[i] in cs;
    }
  }

  lemma InadmissibleIsRejected(env: Env, ledger: LedgerState, txn: SignedTransaction)
    requires !Admissible(env, ledger, txn)
    ensures VerifyTransaction(env, ledger, txn).Some?
  {
    var cs := AdmissionChecks();
    var raw := txn.rawTxn;
    if !ScriptAllowed(ledger.publishing, env.sha3, raw.payload) {
      assert !Passes(cs[5], env, ledger, txn);
    } else if !PublisherAllowed(ledger, raw) {
      assert !Passes(cs[6], env, ledger, txn);
    } else if !Passes(cs[0], env, ledger, txn) {
    } else if !Passes(cs[1], env, ledger, txn) {
    } else if !Passes(cs[2], env, ledger, txn) {
    } else if !Passes(cs[3], env, ledger, txn) {
    } else if !Passes(cs[4], env, ledger, txn) {
    } else if !Passes(cs[7], env, ledger, txn) {
    } else if !Passes(cs[8], env, ledger, txn) {
    } else if !Passes(cs[9], env, ledger, txn) {
    } else {
      assert !Passes(cs[10], env, ledger, txn);
    }
  }

  /** Every admission rejection is a validation status. */
  lemma AdmissionRejectionsAreValidation(env: Env, ledger: LedgerState, txn: SignedTransaction)
    ensures VerifyTransaction(env, ledger, txn).Some? ==> StatusTypeOf(VerifyTransaction(env, ledger, txn).value) == Validation
  {
    match FirstFailing(AdmissionChecks(), env, ledger, txn)
    case None =>
    case Some(i) => CheckCodesAreValidation(AdmissionChecks()[i]);
  }

  /** A rejection names a check that failed: `VerifyTransaction` reports `CheckCode(c)` only if `c` fails. */
  lemma ReportedCheckFailed(env: Env, ledger: LedgerState, txn: SignedTransaction, c: Check)
    requires VerifyTransaction(env, ledger, txn) == Some(CheckCode(c))
    ensures !Passes(c, env, ledger, txn)
  {
    var i := FirstFailing(AdmissionChecks(), env, ledger, txn).value;
    CheckCodeInjective(AdmissionChecks()[i], c);
  }

  /** The position of a check in the prologue's order. */
  function Rank(c: Check): nat
  {
    match c
    case SignatureCheck => 0
    case TransactionSizeCheck => 1
    case MaxGasUnitsCeiling => 2
    case MaxGasUnitsFloor => 3
    case GasUnitPriceCeiling => 4
    case ScriptWhitelist => 5
    case ModulePublisher => 6
    case SenderExists => 7
    case AuthenticationKeyCheck => 8
    case FeeAffordable => 9
    case SequenceNotOld => 10
    case SequenceNotNew => 11
  }

  /** The execution prologue lists the checks in rank order; admission is its prefix without the last. */
  lemma ChecksInRankOrder(i: nat)
    requires i < |ExecutionChecks()|
    ensures Rank(ExecutionChecks()[i]) == i
    ensures i < |AdmissionChecks()| ==> AdmissionChecks()[i] == ExecutionChecks()[i]
    ensures i == |AdmissionChecks()| <==> ExecutionChecks()[i] == SequenceNotNew
  {
  }

  /**
    A failing check hides every later one: when check `a` fails, admission never
    reports the code of a check `b` that comes after it.
  */
  lemma EarlierCheckWins(env: Env, ledger: LedgerState, txn: SignedTransaction, a: Check, b: Check)
    requires Rank(a) < Rank(b) && b != SequenceNotNew
    requires !Passes(a, env, ledger, txn)
    ensures VerifyTransaction(env, ledger, txn).Some?
    ensures VerifyTransaction(env, ledger, txn) != Some(CheckCode(b))
  {
    var cs := AdmissionChecks();
    ChecksInRankOrder(Rank(a));
    var k := FirstFailing(cs, env, ledger, txn).value;
    ChecksInRankOrder(k);
    CheckCodeInjective(cs[k], b);
  }

  /** When check `c` fails and every check ranked before it passes, admission reports `c`'s code and execution discards it. */
  lemma FirstFailingCheckDecides(env: Env, ledger: LedgerState, txn: SignedTransaction, c: Check)
    requires c != SequenceNotNew && !Passes(c, env, ledger, txn)
    requires forall d :: Rank(d) < Rank(c) ==> Passes(d, env, ledger, txn)
    ensures VerifyTransaction(env, ledger, txn) == Some(CheckCode(c))
    ensures ExecuteTransaction(env, ledger, txn) == Discard(Error(CheckCode(c)))
  {
    var cs := AdmissionChecks();
    ChecksInRankOrder(Rank(c));
    forall j | 0 <= j < Rank(c) ensures Passes(cs[j], env, ledger, txn) {
      ChecksInRankOrder(j);
    }
    FirstFailureIs(cs, env, ledger, txn, Rank(c));
    AdmissionParity(env, ledger, txn, CheckCode(c));
  }

  /* ---------------------------------------------------------------------
     The two call sites
     --------------------------------------------------------------------- */

  /** Execution runs the admission checks first, then the "too new" check. */
  lemma ExecutionPrologue(env: Env, ledger: LedgerState, txn: SignedTransaction)
    ensures FirstFailure(ExecutionChecks(), env, ledger, txn) ==
      match VerifyTransaction(env, ledger, txn)
      case Some(c) => Some(c)
      case None =>
        if AheadOfAccount(ledger, txn.rawTxn) then Some(SEQUENCE_NUMBER_TOO_NEW) else None
  {
    FirstFailureAppend(AdmissionChecks(), SequenceNotNew, env, ledger, txn);
  }

  /** A payload that runs never produces a validation status, so its result is always kept. */
  lemma PayloadStatusIsKept(env: Env, ledger: LedgerState, raw: RawTransaction)
    ensures RunPayload(env, ledger, raw).Error? ==> StatusTypeOf(RunPayload(env, ledger, raw).code) != Validation
    ensures StatusFor(RunPayload(env, ledger, raw)) == Keep(RunPayload(env, ledger, raw))
  {
  }

  /**
    What execution reports, in terms of admission: an admission rejection is discarded
    with the same code; an admitted transaction whose sequence number is ahead of the
    account's is discarded as too new; any other admitted transaction runs and is kept.
  */
  lemma ExecutionOutcome(env: Env, ledger: LedgerState, txn: SignedTransaction)
    ensures ExecuteTransaction(env, ledger, txn) ==
      match VerifyTransaction(env, ledger, txn)
      case Some(c) => Discard(Error(c))
      case None =>
        if AheadOfAccount(ledger, txn.rawTxn) then Discard(Error(SEQUENCE_NUMBER_TOO_NEW))
        else Keep(RunPayload(env, ledger, txn.rawTxn))
  {
    ExecutionPrologue(env, ledger, txn);
    AdmissionRejectionsAreValidation(env, ledger, txn);
    PayloadStatusIsKept(env, ledger, txn.rawTxn);
  }

  /** Parity: whatever admission rejects, execution discards with the same status. */
  lemma AdmissionParity(env: Env, ledger: LedgerState, txn: SignedTransaction, c: StatusCode)
    requires VerifyTransaction(env, ledger, txn) == Some(c)
    ensures ExecuteTransaction(env, ledger, txn) == Discard(Error(c))
  {
    ExecutionOutcome(env, ledger, txn);
  }

  /**
    The one disparity: a transaction admission accepts is still discarded at execution
    exactly when its sequence number is ahead of the sender's.
  */
  lemma SequenceTooNewDisparity(env: Env, ledger: LedgerState, txn: SignedTransaction)
    requires VerifyTransaction(env, ledger, txn).None?
    ensures txn.rawTxn.sender in ledger.accounts
    ensures ExecuteTransaction(env, ledger, txn).Discard? <==>
      txn.rawTxn.sequenceNumber > ledger.accounts[txn.rawTxn.sender].sequenceNumber
    ensures ExecuteTransaction(env, ledger, txn).Discard? ==>
      ExecuteTransaction(env, ledger, txn) == Discard(Error(SEQUENCE_NUMBER_TOO_NEW))
  {
    assert Passes(AdmissionChecks()[7], env, ledger, txn);
    ExecutionOutcome(env, ledger, txn);
  }

  /** A kept status never carries a validation code. */
  lemma KeptStatusesAreNotValidation(env: Env, ledger: LedgerState, txn: SignedTransaction)
    requires ExecuteTransaction(env, ledger, txn).Keep?
    ensures ExecuteTransaction(env, ledger, txn).status.Error? ==>
      StatusTypeOf(ExecuteTransaction(env, ledger, txn).status.code) != Validation
  {
    ExecutionOutcome(env, ledger, txn);
    PayloadStatusIsKept(env, ledger, txn.rawTxn);
  }

  /* ---------------------------------------------------------------------
     Gating scripts and modules
     --------------------------------------------------------------------- */

  /**
    Under a whitelist built from the standard library's scripts, a script passes the
    gate exactly when its code is one of those scripts.
  */
  lemma StdlibWhitelistGate(env: Env, ledger: LedgerState, txn: SignedTransaction, lib: TransactionScripts.Stdlib)
    requires ledger.publishing == Locked(TransactionScripts.Whitelist(lib))
    requires env.sha3 == lib.sha3
    requires txn.rawTxn.payload.ScriptPayload?
    ensures Passes(ScriptWhitelist, env, ledger, txn) <==> TransactionScripts.Is(lib, txn.rawTxn.payload.script.code)
  {
    TransactionScripts.WhitelistMembershipIsIs(lib, txn.rawTxn.payload.script.code);
  }

  /** Every standard library script passes the gate of a standard library whitelist, and any other policy. */
  lemma StdlibScriptsPassTheGate(env: Env, ledger: LedgerState, txn: SignedTransaction,
                                 lib: TransactionScripts.Stdlib, s: TransactionScripts.StdlibScript)
    requires ledger.publishing.Locked? ==> ledger.publishing == Locked(TransactionScripts.Whitelist(lib))
    requires env.sha3 == lib.sha3
    requires txn.rawTxn.payload.ScriptPayload? && txn.rawTxn.payload.script.code == lib.code(s)
    ensures Passes(ScriptWhitelist, env, ledger, txn)
  {
    TransactionScripts.IsHoldsOfCompiledBytes(lib, s);
  }

  /** UNKNOWN_SCRIPT is reported only for a script missing from a locked whitelist. */
  lemma UnknownScriptOnlyWhenLocked(env: Env, ledger: LedgerState, txn: SignedTransaction)
    requires VerifyTransaction(env, ledger, txn) == Some(UNKNOWN_SCRIPT)
    ensures ledger.publishing.Locked? && txn.rawTxn.payload.ScriptPayload?
    ensures env.sha3(txn.rawTxn.payload.script.code) !in ledger.publishing.whitelist
  {
    ReportedCheckFailed(env, ledger, txn, ScriptWhitelist);
  }

  /** INVALID_MODULE_PUBLISHER is reported only for a module sent by someone other than the root while publishing is not open. */
  lemma InvalidPublisherOnlyWhenNotOpen(env: Env, ledger: LedgerState, txn: SignedTransaction)
    requires VerifyTransaction(env, ledger, txn) == Some(INVALID_MODULE_PUBLISHER)
    ensures !ledger.publishing.Open? && txn.rawTxn.payload.ModulePayload?
    ensures txn.rawTxn.sender != ledger.libraRoot
  {
    ReportedCheckFailed(env, ledger, txn, ModulePublisher);
  }

  /* ---------------------------------------------------------------------
     Running the payload
     --------------------------------------------------------------------- */

  /**
    A module is executed exactly when it is admitted, is not ahead of the account,
    deserializes to a module declared at the publishing address, and verifies.
  */
  lemma ExecutedModuleIsAtPublishingAddress(env: Env, ledger: LedgerState, txn: SignedTransaction)
    requires txn.rawTxn.payload.ModulePayload?
    ensures ExecuteTransaction(env, ledger, txn) == Keep(Executed) <==>
      && VerifyTransaction(env, ledger, txn).None?
      && !AheadOfAccount(ledger, txn.rawTxn)
      && env.deserializeModule(txn.rawTxn.payload.code) == Some(PublishingAddress(ledger, txn.rawTxn.sender))
      && env.verifyBytecode(txn.rawTxn.payload.code).None?
  {
    ExecutionOutcome(env, ledger, txn);
  }

  /**
    A script is executed exactly when it is admitted, is not ahead of the account,
    deserializes, verifies, receives arguments of its parameter types, and runs without error.
  */
  lemma ExecutedScriptMatchesItsParameters(env: Env, ledger: LedgerState, txn: SignedTransaction)
    requires txn.rawTxn.payload.ScriptPayload?
    ensures ExecuteTransaction(env, ledger, txn) == Keep(Executed) <==>
      && VerifyTransaction(env, ledger, txn).None?
      && !AheadOfAccount(ledger, txn.rawTxn)
      && env.deserializeScript(txn.rawTxn.payload.script.code).Some?
      && env.verifyBytecode(txn.rawTxn.payload.script.code).None?
      && ArgumentsMatch(txn.rawTxn.payload.script.args, env.deserializeScript(txn.rawTxn.payload.script.code).value)
      && env.interpret(txn.rawTxn).None?
  {
    ExecutionOutcome(env, ledger, txn);
  }
}
