/**
  The standard-library transaction scripts: a closed enumeration of the
  scripts, the whitelist of their bytecode hashes, the lookup of a script
  from its bytecode, and each script's snake-case name.

  The compiled bytecode of each script (read from embedded ABI files) and
  the SHA3-256 function are not modelled: they are the two fields of a
  `Stdlib` value that every operation takes as a parameter.
*/
module TransactionScripts {
  import opened Wrappers

  type Bytes = seq<u8>

  /** A SHA3-256 digest: 32 bytes. */
  type HashValue = h: seq<u8> | |h| == 32 witness seq(32, i => 0)

  datatype StdlibScript =
    | AddCurrencyToAccount
    | AddRecoveryRotationCapability
    | AddValidator
    | Burn
    | BurnTxnFees
    | CancelBurn
    | CreateChildVaspAccount
    | CreateDesignatedDealer
    | CreateParentVaspAccount
    | CreateRecoveryAddress
    | CreateTestingAccount
    | CreateValidatorAccount
    | CreateValidatorOperatorAccount
    | FreezeAccount
    | MintLbr
    | ModifyPublishingOption
    | PeerToPeerWithMetadata
    | Preburn
    | PublishAccountLimitDefinition
    | PublishSharedEd2551PublicKey
    | Reconfigure
    | RemoveValidator
    | RotateAuthenticationKey
    | RotateAuthenticationKeyWithNonce
    | RotateAuthenticationKeyWithRecoveryAddress
    | RotateDualAttestationInfo
    | RotateSharedEd2551PublicKey
    | UpdateAccountLimitWindowInfo
    | SetValidatorConfig
    | SetValidatorOperator
    | TestnetMint
    | TieredMint
    | UnfreezeAccount
    | UnmintLbr
    | UpdateAccountLimitDefinition
    | UpdateExchangeRate
    | UpdateLibraVersion
    | UpdateMintingAbility
    | UpdateDualAttestationLimit

  /** `StdlibScript::all`: every script, in declaration order. */
  function All(): (all: seq<StdlibScript>)
    ensures |all| == 39
  {
    [
      AddCurrencyToAccount,
      AddRecoveryRotationCapability,
      AddValidator,
      Burn,
      BurnTxnFees,
      CancelBurn,
      CreateChildVaspAccount,
      CreateDesignatedDealer,
      CreateParentVaspAccount,
      CreateRecoveryAddress,
      CreateTestingAccount,
      CreateValidatorAccount,
      CreateValidatorOperatorAccount,
      FreezeAccount,
      MintLbr,
      ModifyPublishingOption,
      PeerToPeerWithMetadata,
      Preburn,
      PublishAccountLimitDefinition,
      PublishSharedEd2551PublicKey,
      Reconfigure,
      RemoveValidator,
      RotateAuthenticationKey,
      RotateAuthenticationKeyWithNonce,
      RotateAuthenticationKeyWithRecoveryAddress,
      RotateDualAttestationInfo,
      RotateSharedEd2551PublicKey,
      UpdateAccountLimitWindowInfo,
      SetValidatorConfig,
      SetValidatorOperator,
      TestnetMint,
      TieredMint,
      UnfreezeAccount,
      UnmintLbr,
      UpdateAccountLimitDefinition,
      UpdateExchangeRate,
      UpdateLibraVersion,
      UpdateMintingAbility,
      UpdateDualAttestationLimit
    ]
  }

  /** The declaration position of a script (its enum discriminant). */
  function Index(s: StdlibScript): nat
  {
    match s
    case AddCurrencyToAccount => 0
    case AddRecoveryRotationCapability => 1
    case AddValidator => 2
    case Burn => 3
    case BurnTxnFees => 4
    case CancelBurn => 5
    case CreateChildVaspAccount => 6
    case CreateDesignatedDealer => 7
    case CreateParentVaspAccount => 8
    case CreateRecoveryAddress => 9
    case CreateTestingAccount => 10
    case CreateValidatorAccount => 11
    case CreateValidatorOperatorAccount => 12
    case FreezeAccount => 13
    case MintLbr => 14
    case ModifyPublishingOption => 15
    case PeerToPeerWithMetadata => 16
    case Preburn => 17
    case PublishAccountLimitDefinition => 18
    case PublishSharedEd2551PublicKey => 19
    case Reconfigure => 20
    case RemoveValidator => 21
    case RotateAuthenticationKey => 22
    case RotateAuthenticationKeyWithNonce => 23
    case RotateAuthenticationKeyWithRecoveryAddress => 24
    case RotateDualAttestationInfo => 25
    case RotateSharedEd2551PublicKey => 26
    case UpdateAccountLimitWindowInfo => 27
    case SetValidatorConfig => 28
    case SetValidatorOperator => 29
    case TestnetMint => 30
    case TieredMint => 31
    case UnfreezeAccount => 32
    case UnmintLbr => 33
    case UpdateAccountLimitDefinition => 34
    case UpdateExchangeRate => 35
    case UpdateLibraVersion => 36
    case UpdateMintingAbility => 37
    case UpdateDualAttestationLimit => 38
  }

  /** `impl Display for StdlibScript`, which `StdlibScript::name` returns. */
  function Name(s: StdlibScript): (name: string)
  {
    match s
    case AddValidator => "add_validator"
    case AddCurrencyToAccount => "add_currency_to_account"
    case AddRecoveryRotationCapability => "add_recovery_rotation_capability"
    case Burn => "burn"
    case BurnTxnFees => "burn_txn_fees"
    case CancelBurn => "cancel_burn"
    case CreateChildVaspAccount => "create_child_vasp_account"
    case CreateDesignatedDealer => "create_designated_dealer"
    case CreateParentVaspAccount => "create_parent_vasp_account"
    case CreateRecoveryAddress => "create_recovery_address"
    case CreateTestingAccount => "create_testing_account"
    case CreateValidatorAccount => "create_validator_account"
    case CreateValidatorOperatorAccount => "create_validator_operator_account"
    case FreezeAccount => "freeze_account"
    case TestnetMint => "testnet_mint"
    case MintLbr => "mint_lbr"
    case ModifyPublishingOption => "modify_publishing_option"
    case PeerToPeerWithMetadata => "peer_to_peer_with_metadata"
    case Preburn => "preburn"
    case PublishAccountLimitDefinition => "publish_account_limit_definition"
    case PublishSharedEd2551PublicKey => "publish_shared_ed25519_public_key"
    case Reconfigure => "reconfigure"
    case RemoveValidator => "remove_validator"
    case RotateAuthenticationKey => "rotate_authentication_key"
    case RotateAuthenticationKeyWithNonce => "rotate_authentication_key_with_nonce"
    case RotateAuthenticationKeyWithRecoveryAddress => "rotate_authentication_key_with_recovery_address"
    case RotateDualAttestationInfo => "rotate_dual_attestation_info"
    case RotateSharedEd2551PublicKey => "rotate_shared_ed25519_public_key"
    case UpdateAccountLimitWindowInfo => "update_account_limit_window_info"
    case SetValidatorConfig => "set_validator_config"
    case SetValidatorOperator => "set_validator_operator"
    case TieredMint => "tiered_mint"
    case UpdateDualAttestationLimit => "update_dual_attestation_limit"
    case UnfreezeAccount => "unfreeze_account"
    case UnmintLbr => "unmint_lbr"
    case UpdateAccountLimitDefinition => "update_account_limit_definition"
    case UpdateLibraVersion => "update_libra_version"
    case UpdateExchangeRate => "update_exchange_rate"
    case UpdateMintingAbility => "update_minting_ability"
  }

  /** The script whose name is `name`, if any (looked up by length, then by the exact name). */
  function ScriptNamed(name: string): Option<StdlibScript>
  {
    match |name|
    case 4 =>
      (match name
       case "burn" => Some(Burn)
       case _ => None)
    case 7 =>
      (match name
       case "preburn" => Some(Preburn)
       case _ => None)
    case 8 =>
      (match name
       case "mint_lbr" => Some(MintLbr)
       case _ => None)
    case 10 =>
      (match name
       case "unmint_lbr" => Some(UnmintLbr)
       case _ => None)
    case 11 =>
      (match name
       case "cancel_burn" => Some(CancelBurn)
       case "reconfigure" => Some(Reconfigure)
       case "tiered_mint" => Some(TieredMint)
       case _ => None)
    case 12 =>
      (match name
       case "testnet_mint" => Some(TestnetMint)
       case _ => None)
    case 13 =>
      (match name
       case "add_validator" => Some(AddValidator)
       case "burn_txn_fees" => Some(BurnTxnFees)
       case _ => None)
    case 14 =>
      (match name
       case "freeze_account" => Some(FreezeAccount)
       case _ => None)
    case 16 =>
      (match name
       case "remove_validator" => Some(RemoveValidator)
       case "unfreeze_account" => Some(UnfreezeAccount)
       case _ => None)
    case 20 =>
      (match name
       case "set_validator_config" => Some(SetValidatorConfig)
       case "update_exchange_rate" => Some(UpdateExchangeRate)
       case "update_libra_version" => Some(UpdateLibraVersion)
       case _ => None)
    case 22 =>
      (match name
       case "create_testing_account" => Some(CreateTestingAccount)
       case "set_validator_operator" => Some(SetValidatorOperator)
       case "update_minting_ability" => Some(UpdateMintingAbility)
       case _ => None)
    case 23 =>
      (match name
       case "add_currency_to_account" => Some(AddCurrencyToAccount)
       case "create_recovery_address" => Some(CreateRecoveryAddress)
       case _ => None)
    case 24 =>
      (match name
       case "create_designated_dealer" => Some(CreateDesignatedDealer)
       case "create_validator_account" => Some(CreateValidatorAccount)
       case "modify_publishing_option" => Some(ModifyPublishingOption)
       case _ => None)
    case 25 =>
      (match name
       case "create_child_vasp_account" => Some(CreateChildVaspAccount)
       case "rotate_authentication_key" => Some(RotateAuthenticationKey)
       case _ => None)
    case 26 =>
      (match name
       case "create_parent_vasp_account" => Some(CreateParentVaspAccount)
       case "peer_to_peer_with_metadata" => Some(PeerToPeerWithMetadata)
       case _ => None)
    case 28 =>
      (match name
       case "rotate_dual_attestation_info" => Some(RotateDualAttestationInfo)
       case _ => None)
    case 29 =>
      (match name
       case "update_dual_attestation_limit" => Some(UpdateDualAttestationLimit)
       case _ => None)
    case 31 =>
      (match name
       case "update_account_limit_definition" => Some(UpdateAccountLimitDefinition)
       case _ => None)
    case 32 =>
      (match name
       case "add_recovery_rotation_capability" => Some(AddRecoveryRotationCapability)
       case "publish_account_limit_definition" => Some(PublishAccountLimitDefinition)
       case "rotate_shared_ed25519_public_key" => Some(RotateSharedEd2551PublicKey)
       case "update_account_limit_window_info" => Some(UpdateAccountLimitWindowInfo)
       case _ => None)
    case 33 =>
      (match name
       case "create_validator_operator_account" => Some(CreateValidatorOperatorAccount)
       case "publish_shared_ed25519_public_key" => Some(PublishSharedEd2551PublicKey)
       case _ => None)
    case 36 =>
      (match name
       case "rotate_authentication_key_with_nonce" => Some(RotateAuthenticationKeyWithNonce)
       case _ => None)
    case 47 =>
      (match name
       case "rotate_authentication_key_with_recovery_address" => Some(RotateAuthenticationKeyWithRecoveryAddress)
       case _ => None)
    case _ => None
  }

  /** The two collaborators the registry depends on. */
  datatype Stdlib = Stdlib(
    code: StdlibScript -> Bytes,   // the bytecode embedded for each script
    sha3: Bytes -> HashValue)      // `HashValue::sha3_256_of`

  /** Bytes produced by compiling a script. */
  datatype CompiledBytes = CompiledBytes(bytes: Bytes)

  /** `StdlibScript::compiled_bytes` */
  function CompiledBytesOf(lib: Stdlib, s: StdlibScript): (cb: CompiledBytes)
    ensures IntoVec(cb) == lib.code(s)
  {
    CompiledBytes(lib.code(s))
  }

  /** `CompiledBytes::into_vec`: the wrapped bytes, unchanged. */
  function IntoVec(cb: CompiledBytes): (v: Bytes)
    ensures CompiledBytes(v) == cb
  {
    cb.bytes
  }

  /** `CompiledBytes::hash_bytes` */
  function HashBytes(lib: Stdlib, bytes: Bytes): HashValue
  {
    lib.sha3(bytes)
  }

  /** `CompiledBytes::hash` */
  function CompiledBytesHash(lib: Stdlib, cb: CompiledBytes): (h: HashValue)
    ensures h == HashBytes(lib, IntoVec(cb))
  {
    HashBytes(lib, cb.bytes)
  }

  /** `StdlibScript::hash`: the hash of the script's compiled bytes. */
  function ScriptHash(lib: Stdlib, s: StdlibScript): (h: HashValue)
    ensures h == HashBytes(lib, IntoVec(CompiledBytesOf(lib, s)))
  {
    CompiledBytesHash(lib, CompiledBytesOf(lib, s))
  }

  /** `StdlibScript::whitelist`: the hashes of all scripts, in the order of `all()`. */
  function Whitelist(lib: Stdlib): (w: seq<HashValue>)
    ensures |w| == |All()|
    ensures forall i :: 0 <= i < |w| ==> w[i] == HashBytes(lib, IntoVec(CompiledBytesOf(lib, All()[i])))
  {
    seq(|All()|, i requires 0 <= i < |All()| => ScriptHash(lib, All()[i]))
  }

  /** The position of the first script in `scripts` whose hash is `h` (`iter().find`). */
  function FindByHash(lib: Stdlib, scripts: seq<StdlibScript>, h: HashValue): (r: Option<nat>)
    ensures r.Some? ==> r.value < |scripts| && ScriptHash(lib, scripts[r.value]) == h
    ensures r.Some? ==> forall j :: 0 <= j < r.value ==> ScriptHash(lib, scripts[j]) != h
    ensures r.None? ==> forall j :: 0 <= j < |scripts| ==> ScriptHash(lib, scripts[j]) != h
  {
    if |scripts| == 0 then None
    else if ScriptHash(lib, scripts[0]) == h then Some(0)
    else match FindByHash(lib, scripts[1..], h)
      case None => None
      case Some(k) => Some(k + 1)
  }

  /** `<StdlibScript as TryFrom<&[u8]>>::try_from`: the first script whose hash matches. */
  function TryFrom(lib: Stdlib, codeBytes: Bytes): (r: Result<StdlibScript, string>)
    ensures r.Ok? ==> r.value in All() && ScriptHash(lib, r.value) == HashBytes(lib, codeBytes)
    ensures r.Err? ==> forall i :: 0 <= i < |All()| ==> ScriptHash(lib, All()[i]) != HashBytes(lib, codeBytes)
  {
    match FindByHash(lib, All(), HashBytes(lib, codeBytes))
    case Some(i) => Ok(All()[i])
    case None => Err("Could not create standard library script from bytes")
  }

  /** `StdlibScript::is` */
  function Is(lib: Stdlib, codeBytes: Bytes): (b: bool)
    ensures b <==> exists i :: 0 <= i < |All()| && ScriptHash(lib, All()[i]) == HashBytes(lib, codeBytes)
  {
    TryFrom(lib, codeBytes).Ok?
  }

  /* ---------------------------------------------------------------------
     Properties
     --------------------------------------------------------------------- */

  /** `all()` lists 39 scripts, among them every script. */
  lemma AllListsEveryScript(s: StdlibScript)
    ensures |All()| == 39 && s in All()
  {
  }

  /** Each position of `all()` holds the script declared at that position. */
  lemma AllPositionIsIndex(i: nat)
    requires i < |All()|
    ensures Index(All()[i]) == i
  {
    if i < 10 {
      PositionsBelow10(i);
    } else if i < 20 {
      PositionsBelow20(i);
    } else if i < 30 {
      PositionsBelow30(i);
    } else {
      PositionsBelow39(i);
    }
  }

  lemma PositionsBelow10(i: nat)
    requires i < 10
    ensures Index(All()[i]) == i
  {
  }

  lemma PositionsBelow20(i: nat)
    requires 10 <= i < 20
    ensures Index(All()[i]) == i
  {
  }

  lemma PositionsBelow30(i: nat)
    requires 20 <= i < 30
    ensures Index(All()[i]) == i
  {
  }

  lemma PositionsBelow39(i: nat)
    requires 30 <= i < 39
    ensures Index(All()[i]) == i
  {
  }

  /** `all()` lists each script exactly once. */
  lemma AllListsEachScriptOnce(i: nat, j: nat)
    requires i < |All()| && j < |All()|
    ensures All()[i] == All()[j] <==> i == j
  {
    AllPositionIsIndex(i);
    AllPositionIsIndex(j);
  }

  /** A script can be recovered from its name. */
  lemma NameDeterminesScript(s: StdlibScript)
    ensures ScriptNamed(Name(s)) == Some(s)
  {
    if Index(s) < 5 {
      NamesBelow5(s);
    } else if Index(s) < 10 {
      NamesBelow10(s);
    } else if Index(s) < 15 {
      NamesBelow15(s);
    } else if Index(s) < 20 {
      NamesBelow20(s);
    } else if Index(s) < 25 {
      NamesBelow25(s);
    } else if Index(s) < 30 {
      NamesBelow30(s);
    } else if Index(s) < 35 {
      NamesBelow35(s);
    } else {
      NamesBelow39(s);
    }
  }

  lemma NamesBelow5(s: StdlibScript)
    requires Index(s) < 5
    ensures ScriptNamed(Name(s)) == Some(s)
  {
  }

  lemma NamesBelow10(s: StdlibScript)
    requires 5 <= Index(s) < 10
    ensures ScriptNamed(Name(s)) == Some(s)
  {
  }

  lemma NamesBelow15(s: StdlibScript)
    requires 10 <= Index(s) < 15
    ensures ScriptNamed(Name(s)) == Some(s)
  {
  }

  lemma NamesBelow20(s: StdlibScript)
    requires 15 <= Index(s) < 20
    ensures ScriptNamed(Name(s)) == Some(s)
  {
  }

  lemma NamesBelow25(s: StdlibScript)
    requires 20 <= Index(s) < 25
    ensures ScriptNamed(Name(s)) == Some(s)
  {
  }

  lemma NamesBelow30(s: StdlibScript)
    requires 25 <= Index(s) < 30
    ensures ScriptNamed(Name(s)) == Some(s)
  {
  }

  lemma NamesBelow35(s: StdlibScript)
    requires 30 <= Index(s) < 35
    ensures ScriptNamed(Name(s)) == Some(s)
  {
  }

  lemma NamesBelow39(s: StdlibScript)
    requires 35 <= Index(s)
    ensures ScriptNamed(Name(s)) == Some(s)
  {
  }

  /** The 39 names are pairwise distinct. */
  lemma NamesAreDistinct(a: StdlibScript, b: StdlibScript)
    ensures Name(a) == Name(b) <==> a == b
  {
    NameDeterminesScript(a);
    NameDeterminesScript(b);
  }

  /** The characters of a lowercase-underscore name: lower-case ASCII letters, digits, `_`. */
  predicate SnakeChar(ch: char)
  {
    'a' <= ch <= 'z' || '0' <= ch <= '9' || ch == '_'
  }

  predicate SnakeCase(name: string)
  {
    forall i :: 0 <= i < |name| ==> SnakeChar(name[i])
  }

  lemma SnakeCaseAppend(a: string, b: string)
    requires SnakeCase(a) && SnakeCase(b)
    ensures SnakeCase(a + b)
  {
  }

  /** Every script name is in lowercase-underscore style. */
  lemma NamesAreSnakeCase(s: StdlibScript)
    ensures SnakeCase(Name(s))
  {
    match s
    case AddValidator => SnakeCaseAddValidator();
    case AddCurrencyToAccount => SnakeCaseAddCurrencyToAccount();
    case AddRecoveryRotationCapability => SnakeCaseAddRecoveryRotationCapability();
    case Burn => SnakeCaseBurn();
    case BurnTxnFees => SnakeCaseBurnTxnFees();
    case CancelBurn => SnakeCaseCancelBurn();
    case CreateChildVaspAccount => SnakeCaseCreateChildVaspAccount();
    case CreateDesignatedDealer => SnakeCaseCreateDesignatedDealer();
    case CreateParentVaspAccount => SnakeCaseCreateParentVaspAccount();
    case CreateRecoveryAddress => SnakeCaseCreateRecoveryAddress();
    case CreateTestingAccount => SnakeCaseCreateTestingAccount();
    case CreateValidatorAccount => SnakeCaseCreateValidatorAccount();
    case CreateValidatorOperatorAccount => SnakeCaseCreateValidatorOperatorAccount();
    case FreezeAccount => SnakeCaseFreezeAccount();
    case TestnetMint => SnakeCaseTestnetMint();
    case MintLbr => SnakeCaseMintLbr();
    case ModifyPublishingOption => SnakeCaseModifyPublishingOption();
    case PeerToPeerWithMetadata => SnakeCasePeerToPeerWithMetadata();
    case Preburn => SnakeCasePreburn();
    case PublishAccountLimitDefinition => SnakeCasePublishAccountLimitDefinition();
    case PublishSharedEd2551PublicKey => SnakeCasePublishSharedEd2551PublicKey();
    case Reconfigure => SnakeCaseReconfigure();
    case RemoveValidator => SnakeCaseRemoveValidator();
    case RotateAuthenticationKey => SnakeCaseRotateAuthenticationKey();
    case RotateAuthenticationKeyWithNonce => SnakeCaseRotateAuthenticationKeyWithNonce();
    case RotateAuthenticationKeyWithRecoveryAddress => SnakeCaseRotateAuthenticationKeyWithRecoveryAddress();
    case RotateDualAttestationInfo => SnakeCaseRotateDualAttestationInfo();
    case RotateSharedEd2551PublicKey => SnakeCaseRotateSharedEd2551PublicKey();
    case UpdateAccountLimitWindowInfo => SnakeCaseUpdateAccountLimitWindowInfo();
    case SetValidatorConfig => SnakeCaseSetValidatorConfig();
    case SetValidatorOperator => SnakeCaseSetValidatorOperator();
    case TieredMint => SnakeCaseTieredMint();
    case UpdateDualAttestationLimit => SnakeCaseUpdateDualAttestationLimit();
    case UnfreezeAccount => SnakeCaseUnfreezeAccount();
    case UnmintLbr => SnakeCaseUnmintLbr();
    case UpdateAccountLimitDefinition => SnakeCaseUpdateAccountLimitDefinition();
    case UpdateLibraVersion => SnakeCaseUpdateLibraVersion();
    case UpdateExchangeRate => SnakeCaseUpdateExchangeRate();
    case UpdateMintingAbility => SnakeCaseUpdateMintingAbility();
  }

  /* One lemma per name, in the order `Display` lists them; the 47-character name is
     checked as two halves. */

  lemma SnakeCaseAddValidator()
    ensures SnakeCase("add_validator")
  {
  }

  lemma SnakeCaseAddCurrencyToAccount()
    ensures SnakeCase("add_currency_to_account")
  {
  }

  lemma SnakeCaseAddRecoveryRotationCapability()
    ensures SnakeCase("add_recovery_rotation_capability")
  {
  }

  lemma SnakeCaseBurn()
    ensures SnakeCase("burn")
  {
  }

  lemma SnakeCaseBurnTxnFees()
    ensures SnakeCase("burn_txn_fees")
  {
  }

  lemma SnakeCaseCancelBurn()
    ensures SnakeCase("cancel_burn")
  {
  }

  lemma SnakeCaseCreateChildVaspAccount()
    ensures SnakeCase("create_child_vasp_account")
  {
  }

  lemma SnakeCaseCreateDesignatedDealer()
    ensures SnakeCase("create_designated_dealer")
  {
  }

  lemma SnakeCaseCreateParentVaspAccount()
    ensures SnakeCase("create_parent_vasp_account")
  {
  }

  lemma SnakeCaseCreateRecoveryAddress()
    ensures SnakeCase("create_recovery_address")
  {
  }

  lemma SnakeCaseCreateTestingAccount()
    ensures SnakeCase("create_testing_account")
  {
  }

  lemma SnakeCaseCreateValidatorAccount()
    ensures SnakeCase("create_validator_account")
  {
  }

  lemma SnakeCaseCreateValidatorOperatorAccount()
    ensures SnakeCase("create_validator_operator_account")
  {
  }

  lemma SnakeCaseFreezeAccount()
    ensures SnakeCase("freeze_account")
  {
  }

  lemma SnakeCaseTestnetMint()
    ensures SnakeCase("testnet_mint")
  {
  }

  lemma SnakeCaseMintLbr()
    ensures SnakeCase("mint_lbr")
  {
  }

  lemma SnakeCaseModifyPublishingOption()
    ensures SnakeCase("modify_publishing_option")
  {
  }

  lemma SnakeCasePeerToPeerWithMetadata()
    ensures SnakeCase("peer_to_peer_with_metadata")
  {
  }

  lemma SnakeCasePreburn()
    ensures SnakeCase("preburn")
  {
  }

  lemma SnakeCasePublishAccountLimitDefinition()
    ensures SnakeCase("publish_account_limit_definition")
  {
  }

  lemma SnakeCasePublishSharedEd2551PublicKey()
    ensures SnakeCase("publish_shared_ed25519_public_key")
  {
  }

  lemma SnakeCaseReconfigure()
    ensures SnakeCase("reconfigure")
  {
  }

  lemma SnakeCaseRemoveValidator()
    ensures SnakeCase("remove_validator")
  {
  }

  lemma SnakeCaseRotateAuthenticationKey()
    ensures SnakeCase("rotate_authentication_key")
  {
  }

  lemma SnakeCaseRotateAuthenticationKeyWithNonce()
    ensures SnakeCase("rotate_authentication_key_with_nonce")
  {
  }

  lemma SnakeCaseRotateAuthenticationKeyWithRecoveryAddress()
    ensures SnakeCase("rotate_authentication_key_with_recovery_address")
  {
    var front, back := "rotate_authentication_", "key_with_recovery_address";
    assert SnakeCase(front);
    assert SnakeCase(back);
    SnakeCaseAppend(front, back);
    SnakeHalvesMakeLongestName();
  }

  lemma SnakeHalvesMakeLongestName()
    ensures "rotate_authentication_" + "key_with_recovery_address" == "rotate_authentication_key_with_recovery_address"
  {
  }

  lemma SnakeCaseRotateDualAttestationInfo()
    ensures SnakeCase("rotate_dual_attestation_info")
  {
  }

  lemma SnakeCaseRotateSharedEd2551PublicKey()
    ensures SnakeCase("rotate_shared_ed25519_public_key")
  {
  }

  lemma SnakeCaseUpdateAccountLimitWindowInfo()
    ensures SnakeCase("update_account_limit_window_info")
  {
  }

  lemma SnakeCaseSetValidatorConfig()
    ensures SnakeCase("set_validator_config")
  {
  }

  lemma SnakeCaseSetValidatorOperator()
    ensures SnakeCase("set_validator_operator")
  {
  }

  lemma SnakeCaseTieredMint()
    ensures SnakeCase("tiered_mint")
  {
  }

  lemma SnakeCaseUpdateDualAttestationLimit()
    ensures SnakeCase("update_dual_attestation_limit")
  {
  }

  lemma SnakeCaseUnfreezeAccount()
    ensures SnakeCase("unfreeze_account")
  {
  }

  lemma SnakeCaseUnmintLbr()
    ensures SnakeCase("unmint_lbr")
  {
  }

  lemma SnakeCaseUpdateAccountLimitDefinition()
    ensures SnakeCase("update_account_limit_definition")
  {
  }

  lemma SnakeCaseUpdateLibraVersion()
    ensures SnakeCase("update_libra_version")
  {
  }

  lemma SnakeCaseUpdateExchangeRate()
    ensures SnakeCase("update_exchange_rate")
  {
  }

  lemma SnakeCaseUpdateMintingAbility()
    ensures SnakeCase("update_minting_ability")
  {
  }

  /** No script occurs twice in `scripts`. */
  predicate Distinct(scripts: seq<StdlibScript>)
  {
    forall i, j :: 0 <= i < |scripts| && 0 <= j < |scripts| && scripts[i] == scripts[j] ==> i == j
  }

  lemma AllIsDistinct()
    ensures Distinct(All())
  {
    forall i, j | 0 <= i < |All()| && 0 <= j < |All()| && All()[i] == All()[j]
      ensures i == j
    {
      AllListsEachScriptOnce(i, j);
    }
  }

  /** In a list without repetitions, the first match is the script at `i` exactly when it matches first. */
  lemma FindByHashFirst(lib: Stdlib, scripts: seq<StdlibScript>, h: HashValue, i: nat)
    requires Distinct(scripts) && i < |scripts|
    ensures (match FindByHash(lib, scripts, h) case Some(k) => scripts[k] == scripts[i] case None => false) <==>
      && ScriptHash(lib, scripts[i]) == h
      && forall j :: 0 <= j < i ==> ScriptHash(lib, scripts[j]) != h
  {
  }

  /**
    `try_from(bytes)` returns the script at position `i` of `all()` exactly when that
    script's hash equals the hash of `bytes` and no earlier script's does; it fails
    exactly when no script's hash equals the hash of `bytes`.
  */
  lemma TryFromExact(lib: Stdlib, codeBytes: Bytes, i: nat)
    requires i < |All()|
    ensures TryFrom(lib, codeBytes) == Ok(All()[i]) <==>
      && ScriptHash(lib, All()[i]) == HashBytes(lib, codeBytes)
      && forall j :: 0 <= j < i ==> ScriptHash(lib, All()[j]) != HashBytes(lib, codeBytes)
    ensures TryFrom(lib, codeBytes).Err? <==>
      forall s :: ScriptHash(lib, s) != HashBytes(lib, codeBytes)
  {
    TryFromFirstMatch(lib, codeBytes, i);
    TryFromFailsIffNoMatch(lib, codeBytes);
  }

  lemma TryFromFirstMatch(lib: Stdlib, codeBytes: Bytes, i: nat)
    requires i < |All()|
    ensures TryFrom(lib, codeBytes) == Ok(All()[i]) <==>
      && ScriptHash(lib, All()[i]) == HashBytes(lib, codeBytes)
      && forall j :: 0 <= j < i ==> ScriptHash(lib, All()[j]) != HashBytes(lib, codeBytes)
  {
    AllIsDistinct();
    FindByHashFirst(lib, All(), HashBytes(lib, codeBytes), i);
  }

  lemma TryFromFailsIffNoMatch(lib: Stdlib, codeBytes: Bytes)
    ensures TryFrom(lib, codeBytes).Err? <==>
      forall s :: ScriptHash(lib, s) != HashBytes(lib, codeBytes)
  {
    var h := HashBytes(lib, codeBytes);
    if FindByHash(lib, All(), h).None? {
      forall s ensures ScriptHash(lib, s) != h {
        AllListsEveryScript(s);
      }
    }
  }

  /** `is(bytes)` holds exactly when the hash of `bytes` is in the whitelist. */
  lemma WhitelistMembershipIsIs(lib: Stdlib, codeBytes: Bytes)
    ensures HashBytes(lib, codeBytes) in Whitelist(lib) <==> Is(lib, codeBytes)
  {
    var h := HashBytes(lib, codeBytes);
    var w := Whitelist(lib);
    var r := FindByHash(lib, All(), h);
    if h in w {
      var i :| 0 <= i < |w| && w[i] == h;
      assert ScriptHash(lib, All()[i]) == h;
    }
    if r.Some? {
      assert w[r.value] == h;
    }
  }

  /** Every script's own compiled bytes are recognised by `is`. */
  lemma IsHoldsOfCompiledBytes(lib: Stdlib, s: StdlibScript)
    ensures Is(lib, IntoVec(CompiledBytesOf(lib, s)))
    ensures HashBytes(lib, IntoVec(CompiledBytesOf(lib, s))) in Whitelist(lib)
  {
    var b := IntoVec(CompiledBytesOf(lib, s));
    AllListsEveryScript(s);
    var i :| 0 <= i < |All()| && All()[i] == s;
    assert Whitelist(lib)[i] == HashBytes(lib, b);
    WhitelistMembershipIsIs(lib, b);
  }

  /** When no two scripts share a hash, `try_from` inverts `compiled_bytes`. */
  lemma TryFromRoundTrip(lib: Stdlib, s: StdlibScript)
    requires forall a, b :: ScriptHash(lib, a) == ScriptHash(lib, b) ==> a == b
    ensures TryFrom(lib, IntoVec(CompiledBytesOf(lib, s))) == Ok(s)
  {
    AllListsEveryScript(s);
    var i :| 0 <= i < |All()| && All()[i] == s;
    forall j | 0 <= j < i
      ensures ScriptHash(lib, All()[j]) != ScriptHash(lib, s)
    {
      AllListsEachScriptOnce(i, j);
    }
    TryFromExact(lib, IntoVec(CompiledBytesOf(lib, s)), i);
  }
}
