# Libra transaction admission: prologue, script whitelist, chain ids

This project models three pieces of Libra's transaction-admission path in Dafny and proves their
properties.

- **The transaction prologue** (`transaction_validation.dfy`, module `TransactionValidation`).
  A signed transaction runs through an ordered list of checks:
  1. signature;
  2. serialized size;
  3. maximum gas units: ceiling, then floor;
  4. gas unit price ceiling;
  5. script whitelist;
  6. module publisher;
  7. sender exists;
  8. authentication key;
  9. fee affordability;
  10. sequence number too old.

  The first failing check decides the outcome. There are two call sites:
  - `VerifyTransaction` is the mempool admission decision. It returns `None` or a status code.
  - `ExecuteTransaction` runs the same checks plus "sequence number too new". It then runs the
    payload: deserialize, verify the bytecode, match the script arguments against the script's
    parameter types, and run the script; a module must instead be declared at the publishing
    address. The result is classified as `Discard` (validation errors) or `Keep` (everything else).

  The publishing policy is one of `Locked(whitelist)`, `CustomScripts` or `Open`. Under `Open`
  a module is published at its sender's address; otherwise only the root account publishes, at
  the core code address.
- **The test scenarios of `verify_txn.rs`** (`verify_txn_scenarios.dfy`, module `VerifyTxnScenarios`).
  There is one lemma per assertion. Each scenario's setup becomes hypotheses on the ledger and the
  collaborators: genesis, `AccountData::new`, and code compiled from Move source. "Parity" means
  that admission reports the code and execution discards with the same code.
- **The standard-library script registry** (`transaction_scripts.dfy`, module `TransactionScripts`):
  - the 39-script enum and `all()`;
  - the hash whitelist;
  - `try_from`/`is`, the lookup by first matching hash;
  - compiled bytes, hashes and names.
- **Chain identifiers** (`chain_id.dfy`, module `ChainIds`):
  - the reserved names;
  - `ChainId::new/id/test/default`;
  - `from_str`, which tries a reserved name and then Rust's `u8` decimal parser (an optional `+`,
    then digits, with checked multiply and add);
  - `Display`;
  - the two conversions of the configuration visitor.

Collaborators outside the model are fields of parameter records:
- `Env`: Ed25519 verification, authentication-key derivation, SHA3-256, serialized length, the
  script/module deserializers, the bytecode verifier and the interpreter.
- `Stdlib`: each script's embedded bytecode and SHA3-256.

The model is pure: the source's logic is either pure functions or test assertions about a pure
mapping from a transaction and a ledger snapshot to a status.

Where the test comments and the test assertions disagree, the model follows the assertions:
- The comments at `language/e2e-tests/src/tests/verify_txn.rs` lines 352 and 381 say that an
  unknown script is *kept*. The assertion at line 364 demands parity, that is, admission rejects it
  and execution *discards* it. UNKNOWN_SCRIPT and INVALID_MODULE_PUBLISHER are therefore
  validation statuses here.
- The check order follows the assertions and the comment at lines 211-216: size before the gas
  ceiling, the gas ceiling before the floor, price before fee affordability, and signature before
  the sequence number.
- The tests do not pin some pairs of checks. Those pairs follow the order listed above:
  - signature against size, gas units and price;
  - signature against sender existence;
  - size, gas units and price against the script and module gates;
  - size, gas units and price against sender existence, authentication key and "too old";
  - the script/module gates against the account checks;
  - authentication key against fee against sequence number.
- The size bound of the check `EXCEEDED_MAX_TRANSACTION_SIZE` is `ledger.gas.maxTransactionSizeInBytes`.
  The scenario at `verify_txn.rs` line 296 builds its arguments from the constant
  `MAX_TRANSACTION_SIZE_IN_BYTES`; the model takes that constant to be the same number.

## Model

| member | source | states |
|---|---|---|
| ChainIds.NamedChainId | types/src/chain_id.rs:43-45 | a reserved chain's id is below 5, one id per reserved chain |
| ChainIds.New | types/src/chain_id.rs:111-113 | the new chain id's `id()` is the given byte |
| ChainIds.Id | types/src/chain_id.rs:115-117 | a chain id is determined by its `id()` byte |
| ChainIds.Test | types/src/chain_id.rs:119-121 | the test chain id is 4, the TESTING id |
| ChainIds.Default | types/src/chain_id.rs:95-99 | the default chain id is `new(4)`, whose id is the TESTING chain's id |
| ChainIds.StrToChainId | types/src/chain_id.rs:28-41 | on success the string is one of the reserved names and the result is that chain's id; on failure the error is "not a reserved chain" for that string |
| ChainIds.ParseU8 | types/src/chain_id.rs:106 | `parse::<u8>` succeeds only on a non-empty digit string after the optional `+` |
| ChainIds.DecimalString | types/src/chain_id.rs:91 | the decimal rendering of a number is a non-empty string of ASCII digits in canonical form: it starts with '0' iff the number is 0, and has no leading zero |
| ChainIds.FromStr | types/src/chain_id.rs:101-107 | `from_str` fails iff the string is neither a reserved name nor a `u8` decimal, and then always with the integer-parse error |
| ChainIds.Display | types/src/chain_id.rs:88-93 | `Display` writes "ChainId " followed by a non-empty string of digits |
| ChainIds.VisitStr | types/src/chain_id.rs:68-73 | the visitor's string path succeeds on every `u8` decimal and fails only with the integer-parse error |
| ChainIds.VisitU64 | types/src/chain_id.rs:75-82 | the visitor's integer path succeeds iff the value is below 256, keeping the value, and otherwise fails with the narrowing error |
| ChainIds.NamedChainIdsInDeclarationOrder | types/src/chain_id.rs:14-25 | MAINNET, PREMAINNET, TESTNET, DEVNET, TESTING have ids 0..4 in declaration order, pairwise distinct |
| ChainIds.NewIdRoundTrip | types/src/chain_id.rs:110-117 | `new(x).id() == x`, and `new(c.id()) == c` |
| ChainIds.StrToChainIdExact | types/src/chain_id.rs:28-41 | `str_to_chain_id` succeeds iff the string is exactly one of the five names, gives that chain's id, and otherwise fails with "not a reserved chain" for that string |
| ChainIds.ReservedNamesAreNotNumbers | types/src/chain_id.rs:30-35 | every reserved name starts with an upper-case letter and does not parse as a `u8` |
| ChainIds.DecimalValueAppend | types/src/chain_id.rs:106 | appending a digit to a digit string multiplies its value by ten and adds the digit |
| ChainIds.DecimalValueMonotone | types/src/chain_id.rs:106 | extending a digit string never lowers its value |
| ChainIds.AccumulateDigitsIsDecimalValue | types/src/chain_id.rs:106 | the checked digit loop gives the string's decimal value when all characters are digits and the value is at most 255, and fails otherwise |
| ChainIds.ParseU8Exact | types/src/chain_id.rs:106 | `parse::<u8>` accepts exactly an optional `+` and a non-empty digit string of value at most 255, returning that value |
| ChainIds.DecimalStringValue | types/src/chain_id.rs:91 | the decimal rendering of n has value n |
| ChainIds.ParseU8DecimalString | types/src/chain_id.rs:106 | parsing the decimal rendering of a byte gives the byte back |
| ChainIds.FromStrExact | types/src/chain_id.rs:101-107 | on a non-empty string, `from_str` gives the reserved chain's id for a reserved name, otherwise the parsed `u8`, and fails iff the string is neither |
| ChainIds.FromStrDecimalRoundTrip | types/src/chain_id.rs:104-107 | `from_str` of a chain id's decimal form gives that chain id; a reserved name and its decimal id give the same chain id |
| ChainIds.DefaultIsTesting | types/src/chain_id.rs:95-99 | default == test() == new(4) == from_str("TESTING") |
| ChainIds.DisplayRoundTrip | types/src/chain_id.rs:88-93 | `Display` writes "ChainId " and then a decimal that `from_str` reads back as the same chain id |
| ChainIds.VisitU64Exact | types/src/chain_id.rs:75-82 | the visitor's integer path succeeds iff the value is at most 255, keeping the value, and every id is reached |
| ChainIds.VisitStrAgreesWithVisitU64 | types/src/chain_id.rs:68-82 | a chain id given as a decimal string or as an integer yields the same chain id |
| TransactionScripts.All | language/stdlib/compiled/src/transaction_scripts.rs:69-113 | `all()` has 39 entries |
| TransactionScripts.TryFrom | language/stdlib/compiled/src/transaction_scripts.rs:178-191 | a script returned by `try_from` is in `all()` and its hash is the hash of the bytes; on failure no script of `all()` has that hash |
| TransactionScripts.Is | language/stdlib/compiled/src/transaction_scripts.rs:129-132 | `is(bytes)` holds iff some script of `all()` has the hash of the bytes |
| TransactionScripts.CompiledBytesOf | language/stdlib/compiled/src/transaction_scripts.rs:134-137 | a script's compiled bytes unwrap to its embedded bytecode |
| TransactionScripts.IntoVec | language/stdlib/compiled/src/transaction_scripts.rs:172-175 | `into_vec` returns the wrapped bytes unchanged |
| TransactionScripts.CompiledBytesHash | language/stdlib/compiled/src/transaction_scripts.rs:162-165 | `CompiledBytes::hash` is `hash_bytes` of the unwrapped bytes |
| TransactionScripts.ScriptHash | language/stdlib/compiled/src/transaction_scripts.rs:151-154 | a script's hash is `hash_bytes` of its compiled bytes |
| TransactionScripts.Whitelist | language/stdlib/compiled/src/transaction_scripts.rs:115-122 | the whitelist has one entry per script of `all()`, and entry i is the hash of the compiled bytes of `all()[i]` |
| TransactionScripts.FindByHash | language/stdlib/compiled/src/transaction_scripts.rs:185-188 | the search returns a position whose script has the hash and before which no script has it, or none when no script has it |
| TransactionScripts.AllListsEveryScript | language/stdlib/compiled/src/transaction_scripts.rs:69-113 | `all()` has 39 entries and contains every script |
| TransactionScripts.AllPositionIsIndex | language/stdlib/compiled/src/transaction_scripts.rs:69-113 | position i of `all()` holds the i-th declared script |
| TransactionScripts.AllListsEachScriptOnce | language/stdlib/compiled/src/transaction_scripts.rs:69-113 | two positions of `all()` hold the same script iff they are the same position |
| TransactionScripts.AllIsDistinct | language/stdlib/compiled/src/transaction_scripts.rs:69-113 | `all()` has no repetitions |
| TransactionScripts.NameDeterminesScript | language/stdlib/compiled/src/transaction_scripts.rs:193-243 | each script is recovered from its display name |
| TransactionScripts.NamesAreDistinct | language/stdlib/compiled/src/transaction_scripts.rs:193-243 | two scripts have the same name iff they are the same script |
| TransactionScripts.NamesAreSnakeCase | language/stdlib/compiled/src/transaction_scripts.rs:193-243 | every name uses only lower-case ASCII letters, digits and underscores, the lowercase-underscore style promised at line 124 |
| TransactionScripts.FindByHashFirst | language/stdlib/compiled/src/transaction_scripts.rs:185-188 | in a list without repetitions, the search finds the script at i iff it has the hash and no earlier script does |
| TransactionScripts.TryFromExact | language/stdlib/compiled/src/transaction_scripts.rs:178-191 | `try_from(bytes)` returns `all()[i]` iff that script's hash equals `hash_bytes(bytes)` and no earlier one does; it fails iff no script's hash equals it |
| TransactionScripts.WhitelistMembershipIsIs | language/stdlib/compiled/src/transaction_scripts.rs:129-132 | `is(bytes)` holds iff `hash_bytes(bytes)` is in the whitelist |
| TransactionScripts.IsHoldsOfCompiledBytes | language/stdlib/compiled/src/transaction_scripts.rs:129-137 | every script's own compiled bytes satisfy `is` and hash into the whitelist |
| TransactionScripts.TryFromRoundTrip | language/stdlib/compiled/src/transaction_scripts.rs:183-190 | when no two scripts share a hash, `try_from` of a script's compiled bytes returns that script |
| TransactionValidation.StatusFor | language/e2e-tests/src/tests/verify_txn.rs:162-168 | a VM status is discarded iff it is an error of validation type; otherwise it is kept |
| TransactionValidation.Passes | language/e2e-tests/src/tests/verify_txn.rs:192-206 | the checks that read the sender's account (authentication key, fee, too old, too new) pass when the sender has no account, so only SENDING_ACCOUNT_DOES_NOT_EXIST reports a missing account |
| TransactionValidation.AdmissionChecks | language/e2e-tests/src/tests/verify_txn.rs:211-216 | admission runs eleven checks: every prologue check except "sequence number too new" |
| TransactionValidation.ExecutionChecks | language/e2e-tests/src/tests/verify_txn.rs:153-168 | execution runs all twelve prologue checks, "too new" included |
| TransactionValidation.VerifyTransaction | language/e2e-tests/src/tests/verify_txn.rs:108-117 | admission accepts iff every admission check passes, and a rejection is always a validation status |
| TransactionValidation.RunPayload | language/e2e-tests/src/tests/verify_txn.rs:308-341 | a payload's error is never a validation status; a module runs to completion only when it is declared at the publishing address |
| TransactionValidation.ExecuteTransaction | language/e2e-tests/src/tests/verify_txn.rs:153-168 | execution discards iff some prologue check fails, and a discarded status is a validation error |
| TransactionValidation.FirstFailing | language/e2e-tests/src/tests/verify_txn.rs:211-216 | the result is the position of a failing check before which all checks pass, or none iff every check passes |
| TransactionValidation.FirstFailureIs | language/e2e-tests/src/tests/verify_txn.rs:211-216 | a failing check whose predecessors all pass decides the reported code |
| TransactionValidation.FirstFailureAppend | language/e2e-tests/src/tests/verify_txn.rs:153-168 | a check appended to the list changes the outcome only when every earlier check passes |
| TransactionValidation.ChecksInRankOrder | language/e2e-tests/src/tests/verify_txn.rs:211-216 | the execution checks are listed in rank order, and the admission checks are the same list without the final "too new" check |
| TransactionValidation.AcceptedIffAdmissible | language/e2e-tests/src/tests/verify_txn.rs:108-117 | admission accepts iff the whole order-free conjunction holds: valid signature, size, gas units within bounds, price, script and publisher gates, existing sender, matching authentication key, affordable fee, sequence number not old |
| TransactionValidation.AdmissionRejectionsAreValidation | language/e2e-tests/src/tests/verify_txn.rs:49-53 | every code admission reports is a validation status |
| TransactionValidation.ReportedCheckFailed | language/e2e-tests/src/tests/verify_txn.rs:130-134 | admission reports a check's code only if that check fails |
| TransactionValidation.EarlierCheckWins | language/e2e-tests/src/tests/verify_txn.rs:211-216 | when a check fails, admission rejects and never reports the code of a later-ranked check |
| TransactionValidation.FirstFailingCheckDecides | language/e2e-tests/src/tests/verify_txn.rs:226-230 | when a check fails and all earlier checks pass, admission reports its code and execution discards with it |
| TransactionValidation.ExecutionPrologue | language/e2e-tests/src/tests/verify_txn.rs:153-168 | execution's checks report admission's code, or "too new" when admission accepts and the sequence number is ahead of the account's, or nothing |
| TransactionValidation.PayloadStatusIsKept | language/e2e-tests/src/tests/verify_txn.rs:322-341 | running a payload never yields a validation status, so its result is always kept |
| TransactionValidation.ExecutionOutcome | language/e2e-tests/src/tests/verify_txn.rs:153-168 | execution discards admission's rejection code; otherwise it discards as too new iff the sequence number is ahead; otherwise it keeps the payload's result |
| TransactionValidation.AdmissionParity | language/e2e-tests/src/tests/verify_txn.rs:49-53 | whatever admission rejects, execution discards with the same code |
| TransactionValidation.SequenceTooNewDisparity | language/e2e-tests/src/tests/verify_txn.rs:162-168 | for an admitted transaction, the sender exists, and execution discards iff the sequence number is ahead of the account's, always as SEQUENCE_NUMBER_TOO_NEW |
| TransactionValidation.KeptStatusesAreNotValidation | language/e2e-tests/src/tests/verify_txn.rs:637-643 | a kept status never carries a validation code |
| TransactionValidation.StdlibWhitelistGate | language/e2e-tests/src/tests/verify_txn.rs:345-369 | under the standard-library whitelist, a script passes the gate iff `is` holds of its code |
| TransactionValidation.StdlibScriptsPassTheGate | language/e2e-tests/src/tests/verify_txn.rs:103-117 | a standard-library script passes the gate under that library's whitelist or under any unlocked policy |
| TransactionValidation.UnknownScriptOnlyWhenLocked | language/e2e-tests/src/tests/verify_txn.rs:364-368 | UNKNOWN_SCRIPT is reported only for a script whose hash is missing from a locked whitelist |
| TransactionValidation.InvalidPublisherOnlyWhenNotOpen | language/e2e-tests/src/tests/verify_txn.rs:438-442 | INVALID_MODULE_PUBLISHER is reported only for a module from a non-root sender when publishing is not open |
| TransactionValidation.ExecutedModuleIsAtPublishingAddress | language/e2e-tests/src/tests/verify_txn.rs:567-575 | a module is kept as executed iff it is admitted, not ahead, declared at the publishing address, and verifies |
| TransactionValidation.ExecutedScriptMatchesItsParameters | language/e2e-tests/src/tests/verify_txn.rs:308-341 | a script is kept as executed iff it is admitted, not ahead, deserializes, verifies, has arguments of its parameter types, and runs without error |
| VerifyTxnScenarios.VerifySignature | language/e2e-tests/src/tests/verify_txn.rs:41-53 | a transaction whose signature does not verify under its key gets INVALID_SIGNATURE parity despite its stale sequence number |
| VerifyTxnScenarios.VerifyReservedSender | language/e2e-tests/src/tests/verify_txn.rs:70-82 | a well-signed payment from the reserved VM address, which has no account, gets SENDING_ACCOUNT_DOES_NOT_EXIST parity |
| VerifyTxnScenarios.SimplePaymentAccepted | language/e2e-tests/src/tests/verify_txn.rs:108-117 | sequence number 10, 100_000 gas units at price 1 and a balance of 900_000 are accepted |
| VerifyTxnScenarios.SimplePaymentBadAuthKey | language/e2e-tests/src/tests/verify_txn.rs:120-134 | signing with the sender's key for the receiver's account gives INVALID_AUTH_KEY parity |
| VerifyTxnScenarios.SimplePaymentSequenceTooOld | language/e2e-tests/src/tests/verify_txn.rs:137-150 | sequence number 1 against 10 gives SEQUENCE_NUMBER_TOO_OLD parity |
| VerifyTxnScenarios.SimplePaymentSequenceTooNew | language/e2e-tests/src/tests/verify_txn.rs:153-168 | sequence number 11 against 10 is admitted but discarded at execution as SEQUENCE_NUMBER_TOO_NEW |
| VerifyTxnScenarios.SimplePaymentInsufficientBalance | language/e2e-tests/src/tests/verify_txn.rs:171-184 | a fee of 1_000_000 against 900_000 gives INSUFFICIENT_BALANCE_FOR_TRANSACTION_FEE parity |
| VerifyTxnScenarios.SimplePaymentBogusAccount | language/e2e-tests/src/tests/verify_txn.rs:192-206 | a sender with no account gives SENDING_ACCOUNT_DOES_NOT_EXIST parity |
| VerifyTxnScenarios.SimplePaymentPriceAboveMax | language/e2e-tests/src/tests/verify_txn.rs:217-230 | price max+1 gives GAS_UNIT_PRICE_ABOVE_MAX_BOUND parity although the fee is also unaffordable |
| VerifyTxnScenarios.SimplePaymentOneGasUnit | language/e2e-tests/src/tests/verify_txn.rs:248-261 | one gas unit gives MAX_GAS_UNITS_BELOW_MIN_TRANSACTION_GAS_UNITS parity, and the maximum price itself passes |
| VerifyTxnScenarios.SimplePaymentGasBelowMin | language/e2e-tests/src/tests/verify_txn.rs:263-276 | min-1 gas units give MAX_GAS_UNITS_BELOW_MIN_TRANSACTION_GAS_UNITS parity |
| VerifyTxnScenarios.SimplePaymentGasAboveMax | language/e2e-tests/src/tests/verify_txn.rs:278-291 | max+1 gas units give MAX_GAS_UNITS_EXCEEDS_MAX_GAS_UNITS_BOUND parity |
| VerifyTxnScenarios.SimplePaymentTooLarge | language/e2e-tests/src/tests/verify_txn.rs:293-306 | as many arguments as the size bound gives EXCEEDED_MAX_TRANSACTION_SIZE parity although the gas ceiling also fails |
| VerifyTxnScenarios.SimplePaymentSwappedArguments | language/e2e-tests/src/tests/verify_txn.rs:308-325 | swapped payment arguments are kept as TYPE_MISMATCH |
| VerifyTxnScenarios.SimplePaymentNoArguments | language/e2e-tests/src/tests/verify_txn.rs:327-341 | a payment without arguments is kept as TYPE_MISMATCH |
| VerifyTxnScenarios.WhitelistRejectsUnknownScript | language/e2e-tests/src/tests/verify_txn.rs:345-369 | under the standard-library whitelist an empty script gets UNKNOWN_SCRIPT parity |
| VerifyTxnScenarios.ArbitraryScriptExecution | language/e2e-tests/src/tests/verify_txn.rs:383-400 | with custom scripts an empty script is admitted and kept as CODE_DESERIALIZATION_ERROR |
| VerifyTxnScenarios.PublishFromNonRoot | language/e2e-tests/src/tests/verify_txn.rs:434-442 | with custom scripts a non-root account's module gets INVALID_MODULE_PUBLISHER parity |
| VerifyTxnScenarios.RootPublishesModule | language/e2e-tests/src/tests/verify_txn.rs:474-481 | with custom scripts the root's module at the core code address is admitted and kept as executed |
| VerifyTxnScenarios.OpenPublishingInvalidAddress | language/e2e-tests/src/tests/verify_txn.rs:516-534 | with open publishing a module declared at another account is kept as MODULE_ADDRESS_DOES_NOT_MATCH_SENDER |
| VerifyTxnScenarios.OpenPublishing | language/e2e-tests/src/tests/verify_txn.rs:567-575 | with open publishing a module at the sender's address is admitted and kept as executed |
| VerifyTxnScenarios.DependencyFailsVerification | language/e2e-tests/src/tests/verify_txn.rs:628-643 | a script with an unverifiable dependency is admitted and kept with the verification status INVALID_RESOURCE_FIELD |

## Left out

- Ed25519 signature checking, SHA3-256, LCS serialization length, bytecode deserialization, the bytecode verifier (including dependency loading) and the Move interpreter are outside the model. They appear only as fields of `Env` and `Stdlib`, constrained by each scenario's hypotheses.
- `FakeExecutor`, genesis loading, `add_account_data`/`add_module` and the Move compiler are not modelled. Their effects are hypotheses on the ledger snapshot, for example an account built by `AccountData::new` or a module that deserializes to a given self address.
- `GasConstants::default()` and `MAX_TRANSACTION_SIZE_IN_BYTES` are defined outside the modelled files. The scenarios assume only the bounds their assertions need (`DefaultGasFacts`), and that every transaction argument occupies at least one serialized byte.
- `StdlibScript::abi()` reads embedded ABI files and deserializes them. Each script's bytecode is therefore an abstract function of the script.
- The file-scanning tests `test_file_correspondence`, `test_names` and `test_docs` depend on directory contents.
- Transaction expiration, the chain-id check, the minimum gas price and admission-time module-address checking are not modelled. No assertion in `verify_txn.rs` states them: expiration is only a placeholder, the minimum-price test is commented out, and the module-address check is disabled at admission.
- Gas charged and the sequence-number bump of a kept transaction are not modelled: no assertion states them.
- Type arguments of scripts are carried but never checked.
- Status types other than validation, verification, deserialization and execution do not occur in the modelled behaviour.
- TransactionValidation.GasCurrencyBalance: an account that holds no balance in the transaction's gas currency is read as holding 0, so the fee check fails with INSUFFICIENT_BALANCE_FOR_TRANSACTION_FEE. The modelled files do not say what the prologue does in that case; this is a choice of the model.
- TransactionValidation.Passes: the fee `max_gas_amount × gas_unit_price` is compared on unbounded integers. A 64-bit overflow of the product is not modelled.
- ChainIds.FromStr: the empty string makes `from_str` panic. This is modelled as a precondition, and the same precondition applies to `ChainIds.VisitStr`.
- The note that `ChainId` may later become a uleb integer does not add a bound of 127.
- The Serde `Deserializer`/`Visitor` plumbing of `deserialize_config_chain_id` is not modelled, apart from its two conversions.
- `storage/backup/backup-cli/src/bin/db-restore.rs` is command-line and database plumbing. It is not part of this model.
