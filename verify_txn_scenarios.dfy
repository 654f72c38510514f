/**
  The end-to-end admission scenarios of `verify_txn.rs`, one lemma per assertion,
  stated against the prologue model.

  Each scenario's setup (genesis, accounts added with `AccountData::new`, compiled
  code) appears as hypotheses on the ledger and on the collaborators; `Parity`
  is what `assert_prologue_parity!` checks.
*/
module VerifyTxnScenarios {
  import opened Wrappers
  import opened TransactionValidation
  import TransactionScripts

  const LBR_NAME: string := "LBR"

  /** `AccountData::new(balance, seq)`: an account keyed by `pk` holding `balance` LBR. */
  function NewAccount(env: Env, pk: PublicKey, balance: u64, sequenceNumber: u64): AccountState
  {
    AccountState(env.authenticationKeyOf(pk), sequenceNumber, map[LBR_NAME := balance])
  }

  /** The facts about `GasConstants::default()` the assertions rely on. */
  predicate DefaultGasFacts(gas: GasConstants)
  {
    && 2 <= gas.minTransactionGasUnits <= 10_000
    && 1_000_000 <= gas.maximumNumberOfGasUnits < 0xFFFF_FFFF_FFFF_FFFF
    && 1 <= gas.maxPricePerGasUnit < 0xFFFF_FFFF_FFFF_FFFF
  }

  /** A transaction from `sender` paying gas in LBR, signed with the key whose public half it carries. */
  predicate SignedUserTxn(env: Env, txn: SignedTransaction, sender: AccountAddress, pk: PublicKey,
                          sequenceNumber: u64, maxGasAmount: u64, gasUnitPrice: u64)
  {
    var raw := txn.rawTxn;
    && raw.sender == sender
    && raw.sequenceNumber == sequenceNumber
    && raw.maxGasAmount == maxGasAmount
    && raw.gasUnitPrice == gasUnitPrice
    && raw.gasCurrencyCode == LBR_NAME
    && txn.publicKey == pk
    && env.verifySignature(raw, pk, txn.signature)
  }

  /** The serialized transaction is within the size bound. */
  predicate Fits(env: Env, ledger: LedgerState, txn: SignedTransaction)
  {
    env.rawTxnBytesLen(txn.rawTxn) <= ledger.gas.maxTransactionSizeInBytes
  }

  /** Every transaction argument takes at least one byte of the serialized transaction. */
  ghost predicate ArgumentsTakeSpace(env: Env)
  {
    forall raw: RawTransaction ::
      raw.payload.ScriptPayload? ==> env.rawTxnBytesLen(raw) > |raw.payload.script.args|
  }

  /** Genesis publishing policy: when scripts are locked, the whitelist is the standard library's. */
  ghost predicate StdlibGenesis(env: Env, ledger: LedgerState, lib: TransactionScripts.Stdlib)
  {
    && env.sha3 == lib.sha3
    && (ledger.publishing.Locked? ==> ledger.publishing == Locked(TransactionScripts.Whitelist(lib)))
  }

  /** The compiled `peer_to_peer_with_metadata` script. */
  function PeerToPeer(lib: TransactionScripts.Stdlib): Bytes
  {
    lib.code(TransactionScripts.PeerToPeerWithMetadata)
  }

  /** The parameter types of the peer-to-peer script: payee, amount, metadata, metadata signature. */
  const PeerToPeerParams: seq<ArgumentType> := [AddressType, U64Type, U8VectorType, U8VectorType]

  /** The arguments `verify_simple_payment` pushes. */
  function PaymentArgs(receiver: AccountAddress, amount: u64): seq<TransactionArgument>
  {
    [AddressArg(receiver), U64Arg(amount), U8VectorArg([]), U8VectorArg([])]
  }

  predicate RunsScript(txn: SignedTransaction, code: Bytes, args: seq<TransactionArgument>)
  {
    txn.rawTxn.payload.ScriptPayload? && txn.rawTxn.payload.script.code == code && txn.rawTxn.payload.script.args == args
  }

  predicate PublishesModule(txn: SignedTransaction, code: Bytes)
  {
    txn.rawTxn.payload == ModulePayload(code)
  }

  /** `assert_prologue_parity!`: admission rejects with `code` and execution discards with it. */
  predicate Parity(env: Env, ledger: LedgerState, txn: SignedTransaction, code: StatusCode)
  {
    VerifyTransaction(env, ledger, txn) == Some(code) && ExecuteTransaction(env, ledger, txn) == Discard(Error(code))
  }

  /**
    The `verify_simple_payment` setup: a sender with 900_000 LBR and a receiver with
    100_000 LBR, both at sequence number 10, under the genesis publishing policy.
  */
  ghost predicate PaymentSetup(env: Env, ledger: LedgerState, lib: TransactionScripts.Stdlib,
                         sender: AccountAddress, senderKey: PublicKey,
                         receiver: AccountAddress, receiverKey: PublicKey)
  {
    && StdlibGenesis(env, ledger, lib)
    && DefaultGasFacts(ledger.gas)
    && sender in ledger.accounts && ledger.accounts[sender] == NewAccount(env, senderKey, 900_000, 10)
    && receiver in ledger.accounts && ledger.accounts[receiver] == NewAccount(env, receiverKey, 100_000, 10)
    && env.authenticationKeyOf(senderKey) != env.authenticationKeyOf(receiverKey)
  }

  /** A peer-to-peer payment the sender signs, as `create_signed_txn_with_args` builds it. */
  predicate PaymentTxn(env: Env, lib: TransactionScripts.Stdlib, txn: SignedTransaction,
                       sender: AccountAddress, senderKey: PublicKey, args: seq<TransactionArgument>,
                       sequenceNumber: u64, maxGasAmount: u64, gasUnitPrice: u64)
  {
    && SignedUserTxn(env, txn, sender, senderKey, sequenceNumber, maxGasAmount, gasUnitPrice)
    && RunsScript(txn, PeerToPeer(lib), args)
  }

  /* ---------------------------------------------------------------------
     verify_signature, verify_reserved_sender
     --------------------------------------------------------------------- */

  /** Signed with a fresh key while carrying the sender's public key: rejected before its stale sequence number is looked at. */
  lemma VerifySignature(env: Env, ledger: LedgerState, txn: SignedTransaction, sender: AccountAddress, senderKey: PublicKey)
    requires sender in ledger.accounts && ledger.accounts[sender] == NewAccount(env, senderKey, 900_000, 10)
    requires txn.rawTxn.sender == sender && txn.rawTxn.sequenceNumber == 0 && txn.publicKey == senderKey
    requires !env.verifySignature(txn.rawTxn, txn.publicKey, txn.signature)
    ensures Parity(env, ledger, txn, INVALID_SIGNATURE)
  {
    FirstFailingCheckDecides(env, ledger, txn, SignatureCheck);
  }

  /** A correctly signed payment from the reserved VM address, which has no account. */
  lemma VerifyReservedSender(env: Env, ledger: LedgerState, lib: TransactionScripts.Stdlib, txn: SignedTransaction,
                             reservedVmAddress: AccountAddress, key: PublicKey, args: seq<TransactionArgument>,
                             maxGasAmount: u64, gasUnitPrice: u64)
    requires StdlibGenesis(env, ledger, lib)
    requires reservedVmAddress !in ledger.accounts
    requires PaymentTxn(env, lib, txn, reservedVmAddress, key, args, 0, maxGasAmount, gasUnitPrice)
    requires Fits(env, ledger, txn)
    requires ledger.gas.minTransactionGasUnits <= maxGasAmount <= ledger.gas.maximumNumberOfGasUnits
    requires gasUnitPrice <= ledger.gas.maxPricePerGasUnit
    ensures Parity(env, ledger, txn, SENDING_ACCOUNT_DOES_NOT_EXIST)
  {
    StdlibScriptsPassTheGate(env, ledger, txn, lib, TransactionScripts.PeerToPeerWithMetadata);
    FirstFailingCheckDecides(env, ledger, txn, SenderExists);
  }

  /* ---------------------------------------------------------------------
     verify_simple_payment
     --------------------------------------------------------------------- */

  /** The exact sequence number, a fee of 100_000 against 900_000: accepted. */
  lemma SimplePaymentAccepted(env: Env, ledger: LedgerState, lib: TransactionScripts.Stdlib, txn: SignedTransaction,
                              sender: AccountAddress, senderKey: PublicKey, receiver: AccountAddress, receiverKey: PublicKey)
    requires PaymentSetup(env, ledger, lib, sender, senderKey, receiver, receiverKey)
    requires PaymentTxn(env, lib, txn, sender, senderKey, PaymentArgs(receiver, 1_000), 10, 100_000, 1)
    requires Fits(env, ledger, txn)
    ensures VerifyTransaction(env, ledger, txn) == None
  {
    StdlibScriptsPassTheGate(env, ledger, txn, lib, TransactionScripts.PeerToPeerWithMetadata);
    AdmissibleIsAccepted(env, ledger, txn);
  }

  /** Signed with the sender's key but sent from the receiver's account. */
  lemma SimplePaymentBadAuthKey(env: Env, ledger: LedgerState, lib: TransactionScripts.Stdlib, txn: SignedTransaction,
                                sender: AccountAddress, senderKey: PublicKey, receiver: AccountAddress, receiverKey: PublicKey)
    requires PaymentSetup(env, ledger, lib, sender, senderKey, receiver, receiverKey)
    requires PaymentTxn(env, lib, txn, receiver, senderKey, PaymentArgs(receiver, 1_000), 10, 100_000, 1)
    requires Fits(env, ledger, txn)
    ensures Parity(env, ledger, txn, INVALID_AUTH_KEY)
  {
    StdlibScriptsPassTheGate(env, ledger, txn, lib, TransactionScripts.PeerToPeerWithMetadata);
    FirstFailingCheckDecides(env, ledger, txn, AuthenticationKeyCheck);
  }

  /** Sequence number 1 against the account's 10. */
  lemma SimplePaymentSequenceTooOld(env: Env, ledger: LedgerState, lib: TransactionScripts.Stdlib, txn: SignedTransaction,
                                    sender: AccountAddress, senderKey: PublicKey, receiver: AccountAddress, receiverKey: PublicKey)
    requires PaymentSetup(env, ledger, lib, sender, senderKey, receiver, receiverKey)
    requires PaymentTxn(env, lib, txn, sender, senderKey, PaymentArgs(receiver, 1_000), 1, 100_000, 1)
    requires Fits(env, ledger, txn)
    ensures Parity(env, ledger, txn, SEQUENCE_NUMBER_TOO_OLD)
  {
    StdlibScriptsPassTheGate(env, ledger, txn, lib, TransactionScripts.PeerToPeerWithMetadata);
    FirstFailingCheckDecides(env, ledger, txn, SequenceNotOld);
  }

  /** Sequence number 11 against the account's 10: admitted, yet discarded at execution. */
  lemma SimplePaymentSequenceTooNew(env: Env, ledger: LedgerState, lib: TransactionScripts.Stdlib, txn: SignedTransaction,
                                    sender: AccountAddress, senderKey: PublicKey, receiver: AccountAddress, receiverKey: PublicKey)
    requires PaymentSetup(env, ledger, lib, sender, senderKey, receiver, receiverKey)
    requires PaymentTxn(env, lib, txn, sender, senderKey, PaymentArgs(receiver, 1_000), 11, 100_000, 1)
    requires Fits(env, ledger, txn)
    ensures VerifyTransaction(env, ledger, txn) == None
    ensures ExecuteTransaction(env, ledger, txn) == Discard(Error(SEQUENCE_NUMBER_TOO_NEW))
  {
    StdlibScriptsPassTheGate(env, ledger, txn, lib, TransactionScripts.PeerToPeerWithMetadata);
    AdmissibleIsAccepted(env, ledger, txn);
    ExecutionOutcome(env, ledger, txn);
  }

  /** A fee of 1_000_000 × 1 against a balance of 900_000. */
  lemma SimplePaymentInsufficientBalance(env: Env, ledger: LedgerState, lib: TransactionScripts.Stdlib, txn: SignedTransaction,
                                         sender: AccountAddress, senderKey: PublicKey, receiver: AccountAddress, receiverKey: PublicKey)
    requires PaymentSetup(env, ledger, lib, sender, senderKey, receiver, receiverKey)
    requires PaymentTxn(env, lib, txn, sender, senderKey, PaymentArgs(receiver, 1_000), 10, 1_000_000, 1)
    requires Fits(env, ledger, txn)
    ensures Parity(env, ledger, txn, INSUFFICIENT_BALANCE_FOR_TRANSACTION_FEE)
  {
    StdlibScriptsPassTheGate(env, ledger, txn, lib, TransactionScripts.PeerToPeerWithMetadata);
    FirstFailingCheckDecides(env, ledger, txn, FeeAffordable);
  }

  /** A payment from an account that was never added to the ledger. */
  lemma SimplePaymentBogusAccount(env: Env, ledger: LedgerState, lib: TransactionScripts.Stdlib, txn: SignedTransaction,
                                  sender: AccountAddress, senderKey: PublicKey, receiver: AccountAddress, receiverKey: PublicKey,
                                  bogus: AccountAddress, bogusKey: PublicKey)
    requires PaymentSetup(env, ledger, lib, sender, senderKey, receiver, receiverKey)
    requires bogus !in ledger.accounts
    requires PaymentTxn(env, lib, txn, bogus, bogusKey, PaymentArgs(receiver, 1_000), 10, 10_000, 1)
    requires Fits(env, ledger, txn)
    ensures Parity(env, ledger, txn, SENDING_ACCOUNT_DOES_NOT_EXIST)
  {
    StdlibScriptsPassTheGate(env, ledger, txn, lib, TransactionScripts.PeerToPeerWithMetadata);
    FirstFailingCheckDecides(env, ledger, txn, SenderExists);
  }

  /** Price one above the maximum: reported although the fee also exceeds the balance. */
  lemma SimplePaymentPriceAboveMax(env: Env, ledger: LedgerState, lib: TransactionScripts.Stdlib, txn: SignedTransaction,
                                   sender: AccountAddress, senderKey: PublicKey, receiver: AccountAddress, receiverKey: PublicKey)
    requires PaymentSetup(env, ledger, lib, sender, senderKey, receiver, receiverKey)
    requires PaymentTxn(env, lib, txn, sender, senderKey, PaymentArgs(receiver, 1_000), 10, 1_000_000, ledger.gas.maxPricePerGasUnit + 1)
    requires Fits(env, ledger, txn)
    ensures !Passes(FeeAffordable, env, ledger, txn)
    ensures Parity(env, ledger, txn, GAS_UNIT_PRICE_ABOVE_MAX_BOUND)
  {
    assert GasCurrencyBalance(ledger.accounts[sender], LBR_NAME) == 900_000;
    assert txn.rawTxn.maxGasAmount * txn.rawTxn.gasUnitPrice == 1_000_000 * txn.rawTxn.gasUnitPrice;
    FirstFailingCheckDecides(env, ledger, txn, GasUnitPriceCeiling);
  }

  /** One gas unit at the maximum price: below the floor, and the maximum price itself is accepted. */
  lemma SimplePaymentOneGasUnit(env: Env, ledger: LedgerState, lib: TransactionScripts.Stdlib, txn: SignedTransaction,
                                sender: AccountAddress, senderKey: PublicKey, receiver: AccountAddress, receiverKey: PublicKey)
    requires PaymentSetup(env, ledger, lib, sender, senderKey, receiver, receiverKey)
    requires PaymentTxn(env, lib, txn, sender, senderKey, PaymentArgs(receiver, 1_000), 10, 1, ledger.gas.maxPricePerGasUnit)
    requires Fits(env, ledger, txn)
    ensures Passes(GasUnitPriceCeiling, env, ledger, txn)
    ensures Parity(env, ledger, txn, MAX_GAS_UNITS_BELOW_MIN_TRANSACTION_GAS_UNITS)
  {
    FirstFailingCheckDecides(env, ledger, txn, MaxGasUnitsFloor);
  }

  /** One gas unit below the minimum, at the maximum price. */
  lemma SimplePaymentGasBelowMin(env: Env, ledger: LedgerState, lib: TransactionScripts.Stdlib, txn: SignedTransaction,
                                 sender: AccountAddress, senderKey: PublicKey, receiver: AccountAddress, receiverKey: PublicKey)
    requires PaymentSetup(env, ledger, lib, sender, senderKey, receiver, receiverKey)
    requires PaymentTxn(env, lib, txn, sender, senderKey, PaymentArgs(receiver, 1_000), 10,
                        ledger.gas.minTransactionGasUnits - 1, ledger.gas.maxPricePerGasUnit)
    requires Fits(env, ledger, txn)
    ensures Parity(env, ledger, txn, MAX_GAS_UNITS_BELOW_MIN_TRANSACTION_GAS_UNITS)
  {
    FirstFailingCheckDecides(env, ledger, txn, MaxGasUnitsFloor);
  }

  /** One gas unit above the maximum, at the maximum price. */
  lemma SimplePaymentGasAboveMax(env: Env, ledger: LedgerState, lib: TransactionScripts.Stdlib, txn: SignedTransaction,
                                 sender: AccountAddress, senderKey: PublicKey, receiver: AccountAddress, receiverKey: PublicKey)
    requires PaymentSetup(env, ledger, lib, sender, senderKey, receiver, receiverKey)
    requires PaymentTxn(env, lib, txn, sender, senderKey, PaymentArgs(receiver, 1_000), 10,
                        ledger.gas.maximumNumberOfGasUnits + 1, ledger.gas.maxPricePerGasUnit)
    requires Fits(env, ledger, txn)
    ensures Parity(env, ledger, txn, MAX_GAS_UNITS_EXCEEDS_MAX_GAS_UNITS_BOUND)
  {
    FirstFailingCheckDecides(env, ledger, txn, MaxGasUnitsCeiling);
  }

  /** As many arguments as the size bound in bytes: too large, reported although the gas is also above the maximum. */
  lemma SimplePaymentTooLarge(env: Env, ledger: LedgerState, lib: TransactionScripts.Stdlib, txn: SignedTransaction,
                              sender: AccountAddress, senderKey: PublicKey, receiver: AccountAddress, receiverKey: PublicKey)
    requires PaymentSetup(env, ledger, lib, sender, senderKey, receiver, receiverKey)
    requires ArgumentsTakeSpace(env)
    requires PaymentTxn(env, lib, txn, sender, senderKey, seq(ledger.gas.maxTransactionSizeInBytes, _ => U64Arg(42)), 10,
                        ledger.gas.maximumNumberOfGasUnits + 1, ledger.gas.maxPricePerGasUnit)
    ensures !Passes(MaxGasUnitsCeiling, env, ledger, txn)
    ensures Parity(env, ledger, txn, EXCEEDED_MAX_TRANSACTION_SIZE)
  {
    assert env.rawTxnBytesLen(txn.rawTxn) > |txn.rawTxn.payload.script.args|;
    FirstFailingCheckDecides(env, ledger, txn, TransactionSizeCheck);
  }

  /** Amount and payee swapped: admitted, then kept with a type mismatch. */
  lemma SimplePaymentSwappedArguments(env: Env, ledger: LedgerState, lib: TransactionScripts.Stdlib, txn: SignedTransaction,
                                      sender: AccountAddress, senderKey: PublicKey, receiver: AccountAddress, receiverKey: PublicKey)
    requires PaymentSetup(env, ledger, lib, sender, senderKey, receiver, receiverKey)
    requires env.deserializeScript(PeerToPeer(lib)) == Some(PeerToPeerParams) && env.verifyBytecode(PeerToPeer(lib)).None?
    requires PaymentTxn(env, lib, txn, sender, senderKey, [U64Arg(1_000), AddressArg(receiver)], 10, 100_000, 1)
    requires Fits(env, ledger, txn)
    ensures ExecuteTransaction(env, ledger, txn) == Keep(Error(TYPE_MISMATCH))
  {
    StdlibScriptsPassTheGate(env, ledger, txn, lib, TransactionScripts.PeerToPeerWithMetadata);
    AdmissibleIsAccepted(env, ledger, txn);
    ExecutionOutcome(env, ledger, txn);
  }

  /** No arguments at all: admitted, then kept with a type mismatch. */
  lemma SimplePaymentNoArguments(env: Env, ledger: LedgerState, lib: TransactionScripts.Stdlib, txn: SignedTransaction,
                                 sender: AccountAddress, senderKey: PublicKey, receiver: AccountAddress, receiverKey: PublicKey)
    requires PaymentSetup(env, ledger, lib, sender, senderKey, receiver, receiverKey)
    requires env.deserializeScript(PeerToPeer(lib)) == Some(PeerToPeerParams) && env.verifyBytecode(PeerToPeer(lib)).None?
    requires PaymentTxn(env, lib, txn, sender, senderKey, [], 10, 100_000, 1)
    requires Fits(env, ledger, txn)
    ensures ExecuteTransaction(env, ledger, txn) == Keep(Error(TYPE_MISMATCH))
  {
    StdlibScriptsPassTheGate(env, ledger, txn, lib, TransactionScripts.PeerToPeerWithMetadata);
    AdmissibleIsAccepted(env, ledger, txn);
    ExecutionOutcome(env, ledger, txn);
  }

  /* ---------------------------------------------------------------------
     Script gating: test_whitelist, test_arbitrary_script_execution
     --------------------------------------------------------------------- */

  /** A sender with 1_000_000 LBR at sequence number 10. */
  predicate FundedSender(env: Env, ledger: LedgerState, sender: AccountAddress, senderKey: PublicKey)
  {
    && DefaultGasFacts(ledger.gas)
    && sender in ledger.accounts && ledger.accounts[sender] == NewAccount(env, senderKey, 1_000_000, 10)
  }

  /** Under the standard library whitelist, an empty script is not a known script. */
  lemma WhitelistRejectsUnknownScript(env: Env, ledger: LedgerState, lib: TransactionScripts.Stdlib, txn: SignedTransaction,
                                         sender: AccountAddress, senderKey: PublicKey)
    requires ledger.publishing == Locked(TransactionScripts.Whitelist(lib)) && env.sha3 == lib.sha3
    requires !TransactionScripts.Is(lib, [])
    requires FundedSender(env, ledger, sender, senderKey)
    requires SignedUserTxn(env, txn, sender, senderKey, 10, 100_000, 1) && RunsScript(txn, [], [])
    requires Fits(env, ledger, txn)
    ensures Parity(env, ledger, txn, UNKNOWN_SCRIPT)
  {
    StdlibWhitelistGate(env, ledger, txn, lib);
    FirstFailingCheckDecides(env, ledger, txn, ScriptWhitelist);
  }

  /** With custom scripts allowed, an empty script is admitted and fails to deserialize; the failure is kept. */
  lemma ArbitraryScriptExecution(env: Env, ledger: LedgerState, txn: SignedTransaction,
                                 sender: AccountAddress, senderKey: PublicKey)
    requires ledger.publishing == CustomScripts
    requires env.deserializeScript([]) == None
    requires FundedSender(env, ledger, sender, senderKey)
    requires SignedUserTxn(env, txn, sender, senderKey, 10, 100_000, 1) && RunsScript(txn, [], [])
    requires Fits(env, ledger, txn)
    ensures VerifyTransaction(env, ledger, txn) == None
    ensures ExecuteTransaction(env, ledger, txn) == Keep(Error(CODE_DESERIALIZATION_ERROR))
  {
    AdmissibleIsAccepted(env, ledger, txn);
    ExecutionOutcome(env, ledger, txn);
  }

  /* ---------------------------------------------------------------------
     Module publishing
     --------------------------------------------------------------------- */

  /** With custom scripts only, an ordinary account may not publish a module, even at its own address. */
  lemma PublishFromNonRoot(env: Env, ledger: LedgerState, txn: SignedTransaction,
                           sender: AccountAddress, senderKey: PublicKey, module_: Bytes)
    requires ledger.publishing == CustomScripts
    requires sender != ledger.libraRoot
    requires env.deserializeModule(module_) == Some(sender)
    requires FundedSender(env, ledger, sender, senderKey)
    requires SignedUserTxn(env, txn, sender, senderKey, 10, 100_000, 1) && PublishesModule(txn, module_)
    requires Fits(env, ledger, txn)
    ensures Parity(env, ledger, txn, INVALID_MODULE_PUBLISHER)
  {
    FirstFailingCheckDecides(env, ledger, txn, ModulePublisher);
  }

  /** With custom scripts only, the root account publishes a module declared at the core code address. */
  lemma RootPublishesModule(env: Env, ledger: LedgerState, txn: SignedTransaction, rootKey: PublicKey, module_: Bytes)
    requires ledger.publishing == CustomScripts && DefaultGasFacts(ledger.gas)
    requires ledger.libraRoot in ledger.accounts
    requires ledger.accounts[ledger.libraRoot].authenticationKey == env.authenticationKeyOf(rootKey)
    requires ledger.accounts[ledger.libraRoot].sequenceNumber == 1
    requires env.deserializeModule(module_) == Some(ledger.coreCodeAddress) && env.verifyBytecode(module_).None?
    requires SignedUserTxn(env, txn, ledger.libraRoot, rootKey, 1, 100_000, 0) && PublishesModule(txn, module_)
    requires Fits(env, ledger, txn)
    ensures VerifyTransaction(env, ledger, txn) == None
    ensures ExecuteTransaction(env, ledger, txn) == Keep(Executed)
  {
    AdmissibleIsAccepted(env, ledger, txn);
    ExecutionOutcome(env, ledger, txn);
  }

  /** With open publishing, a module declared at another account's address is admitted but kept as a mismatch. */
  lemma OpenPublishingInvalidAddress(env: Env, ledger: LedgerState, txn: SignedTransaction,
                                     sender: AccountAddress, senderKey: PublicKey, receiver: AccountAddress, module_: Bytes)
    requires ledger.publishing == Open
    requires receiver != sender && env.deserializeModule(module_) == Some(receiver)
    requires FundedSender(env, ledger, sender, senderKey)
    requires SignedUserTxn(env, txn, sender, senderKey, 10, 100_000, 1) && PublishesModule(txn, module_)
    requires Fits(env, ledger, txn)
    ensures ExecuteTransaction(env, ledger, txn) == Keep(Error(MODULE_ADDRESS_DOES_NOT_MATCH_SENDER))
  {
    AdmissibleIsAccepted(env, ledger, txn);
    ExecutionOutcome(env, ledger, txn);
  }

  /** With open publishing, a module declared at the sender's own address is published. */
  lemma OpenPublishing(env: Env, ledger: LedgerState, txn: SignedTransaction,
                       sender: AccountAddress, senderKey: PublicKey, module_: Bytes)
    requires ledger.publishing == Open
    requires env.deserializeModule(module_) == Some(sender) && env.verifyBytecode(module_).None?
    requires FundedSender(env, ledger, sender, senderKey)
    requires SignedUserTxn(env, txn, sender, senderKey, 10, 100_000, 1) && PublishesModule(txn, module_)
    requires Fits(env, ledger, txn)
    ensures VerifyTransaction(env, ledger, txn) == None
    ensures ExecuteTransaction(env, ledger, txn) == Keep(Executed)
  {
    AdmissibleIsAccepted(env, ledger, txn);
    ExecutionOutcome(env, ledger, txn);
  }

  /** A script whose dependency fails bytecode verification: admission does not look, execution keeps the verifier's error. */
  lemma DependencyFailsVerification(env: Env, ledger: LedgerState, txn: SignedTransaction,
                                    sender: AccountAddress, senderKey: PublicKey, script: Bytes)
    requires ledger.publishing == Open
    requires env.deserializeScript(script) == Some([])
    requires env.verifyBytecode(script) == Some(INVALID_RESOURCE_FIELD)
    requires FundedSender(env, ledger, sender, senderKey)
    requires SignedUserTxn(env, txn, sender, senderKey, 10, 100_000, 1) && RunsScript(txn, script, [])
    requires Fits(env, ledger, txn)
    ensures VerifyTransaction(env, ledger, txn) == None
    ensures ExecuteTransaction(env, ledger, txn) == Keep(Error(INVALID_RESOURCE_FIELD))
    ensures StatusTypeOf(ExecuteTransaction(env, ledger, txn).status.code) == Verification
  {
    AdmissibleIsAccepted(env, ledger, txn);
    ExecutionOutcome(env, ledger, txn);
  }
}
