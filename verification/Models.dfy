/** The values the channel engine passes around, and the parts of its environment it only calls. */
module Models {
  import opened OrderedMaps
  import Sorting

  type Xpub = nat
  type Address = nat
  type Token = Address
  type Action = nat

  const ETH_TOKEN: Token := 0
  const MAX_UINT256: int := 0x1_0000_0000_0000_0000_0000_0000_0000_0000_0000_0000_0000_0000_0000_0000_0000_0000 - 1

  datatype Option<+T> = None | Some(value: T)

  datatype Error =
    | FreeBalanceMissing
    | FreeBalanceCorrupt
    | NegativeBalance
    | InvalidState
    | AppDoesNotExist
    | WrongParticipants
    | Inconsistent
    | AgreementMissing
    | UnknownXpub
    | DifferentAssets
    | UnsupportedOutcomeType
    | UndecodableOutcome
    | ChannelMissing
    | TargetOutcomeMismatch

  /** A thrown `Error` is an `Err`. */
  datatype Result<+T> = Ok(value: T) | Err(error: Error) {
    predicate IsFailure() { Err? }
    function PropagateFailure<U>(): Result<U> requires Err? { Err(error) }
    function Extract(): T requires Ok? { value }
  }

  /**
   What the engine computes elsewhere: the k-th address of an extended public key, the number an
   address parses to when addresses are sorted, checksum normalisation of a token address, the
   outcome and the next state an app's contract computes, and the multisig address generated for owners.
   */
  datatype Environment = Environment(
    kth: (Xpub, nat) -> Address,
    rank: Address -> int,
    checksum: Token -> Token,
    outcome: (Address, AppState) -> Outcome,
    applyAction: (Address, AppState, Action) -> Option<AppState>,
    generatedMultisig: seq<Address> -> Address)
  {
    /** Derived addresses never collide and addresses compare exactly. */
    ghost predicate Valid() {
      && (forall x, k, x', k' :: kth(x, k) == kth(x', k') ==> x == x' && k == k')
      && (forall a, b :: rank(a) == rank(b) ==> a == b)
      && (forall t :: checksum(checksum(t)) == checksum(t))
    }

    function KthAddresses(xpubs: seq<Xpub>, k: nat): seq<Address> {
      seq<Address>(|xpubs|, i requires 0 <= i < |xpubs| => kth(xpubs[i], k))
    }

    function SortedKthAddresses(xpubs: seq<Xpub>, k: nat): seq<Address> {
      Sorting.SortBy(rank, KthAddresses(xpubs, k))
    }
  }

  datatype CoinTransfer = CoinTransfer(to: Address, amount: int)

  datatype FreeBalanceJson = FreeBalanceJson(
    tokenAddresses: seq<Token>,
    balances: seq<seq<CoinTransfer>>,
    activeApps: seq<AppIdHash>)

  /** The hash of an app identity covers the channel nonce and the participants, and nothing else. */
  datatype AppIdHash = AppIdHash(channelNonce: nat, participants: seq<Address>)

  /** An app outcome, decoded. */
  datatype Outcome =
    | FixedOutcome(code: nat)
    | SingleAssetOutcome(first: CoinTransfer, second: CoinTransfer)
    | MultiAssetOutcome(transfers: seq<seq<CoinTransfer>>)

  datatype OutcomeType =
    | TwoPartyFixedOutcome
    | MultiAssetMultiPartyCoinTransfer
    | SingleAssetTwoPartyCoinTransfer

  datatype InterpreterParams =
    | NoParams
    | TwoPartyParams(token: Token, playerOne: Address, playerTwo: Address, amount: int)
    | MultiAssetParams(limits: seq<int>, tokens: seq<Token>)
    | SingleAssetParams(limit: int, token: Token)

  datatype AppState =
    | FreeBalanceState(json: FreeBalanceJson)
    | RefundState(recipient: Address, multisig: Address, threshold: int)
    | PassThroughState(targetAppIdentityHash: AppIdHash, switchesOutcomeAt: int, defaultOutcome: Outcome)
    | CustomState(shape: nat, data: nat)

  datatype StateEncoding =
    | FreeBalanceEncoding
    | RefundEncoding
    | PassThroughEncoding
    | CustomEncoding(shape: nat)

  datatype AppInterface = AppInterface(addr: Address, stateEncoding: StateEncoding)

  /** Whether ABI encoding accepts the state under the encoding. */
  predicate Encodes(encoding: StateEncoding, state: AppState) {
    match encoding
    case FreeBalanceEncoding => state.FreeBalanceState?
    case RefundEncoding => state.RefundState?
    case PassThroughEncoding => state.PassThroughState?
    case CustomEncoding(shape) => state.CustomState? && state.shape == shape
  }

  datatype AppInstance = AppInstance(
    participants: seq<Address>,
    defaultTimeout: nat,
    appInterface: AppInterface,
    isVirtualApp: bool,
    appSeqNo: nat,
    latestState: AppState,
    latestVersionNumber: nat,
    latestTimeout: nat,
    outcomeType: OutcomeType,
    params: InterpreterParams)
  {
    function IdentityHash(): AppIdHash {
      AppIdHash(appSeqNo, participants)
    }

    function SetState(newState: AppState): (r: Result<AppInstance>)
      ensures r.Ok? <==> Encodes(appInterface.stateEncoding, newState)
      ensures r.Ok? ==> r.value.IdentityHash() == IdentityHash() && r.value.isVirtualApp == isVirtualApp
      ensures r.Ok? ==> r.value.latestVersionNumber == latestVersionNumber + 1
    {
      if !Encodes(appInterface.stateEncoding, newState) then Err(InvalidState)
      else Ok(this.(latestState := newState,
                    latestVersionNumber := latestVersionNumber + 1,
                    latestTimeout := defaultTimeout))
    }
  }

  /** What a signature binds: the digest of a commitment. Hashing is taken to be injective. */
  datatype Digest =
    | SetStateDigest(identity: AppIdHash, version: nat, timeout: nat, state: AppState)
    | ConditionalTransactionDigest(multisig: Address, owners: seq<Address>, app: AppIdHash, freeBalance: AppIdHash,
                                   interpreter: OutcomeType, params: InterpreterParams)
    | AgreementDigest(multisig: Address, owners: seq<Address>, passThrough: AppIdHash, freeBalance: AppIdHash,
                      capitalProvided: int, capitalProvider: Address, virtualAppUser: Address, token: Token)
    | WithdrawalDigest(multisig: Address, owners: seq<Address>, recipient: Address, amount: int, token: Token)
    | SetupDigest(multisig: Address, owners: seq<Address>, freeBalance: AppIdHash)
    | OtherDigest(tag: nat)

  /** The commitment to an app's latest state. */
  function SetStateCommitment(app: AppInstance): Digest {
    SetStateDigest(app.IdentityHash(), app.latestVersionNumber, app.latestTimeout, app.latestState)
  }
}
