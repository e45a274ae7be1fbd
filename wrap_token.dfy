/**
 * The ETH/GEEK swap widget (hooks/useWrapToken.ts): the chosen pair, the two
 * amount boxes, the loading flag and the error, and the exchange that buys
 * GEEK with ETH or sells GEEK for ETH.  Wallet, network and transaction
 * answers are inputs; the floating-point rate arithmetic is a parameter.
 */
module WrapToken {
  import opened Wrappers
  import opened Chain

  const TokenAddress := "0x0ec34267121eaBeec3E30A6cAcFba3Ea782807B1"
  const SepoliaChainId := 11155111

  datatype Token = Token(symbol: string, name: string, rate: nat, decimals: nat, address: Option<string>)

  const Eth := Token("ETH", "Ethereum", 1, 18, None)
  const Geek := Token("GEEK", "Geek Token", 1000, 0, Some(TokenAddress))

  /** A transaction the widget asks the wallet for. */
  datatype SwapTx = BuyWithEth(value: nat) | SellTokens(amount: nat)

  /** The part of the widget a swap touches. */
  datatype Pair = Pair(fromToken: Token, toToken: Token, fromAmount: string, toAmount: string)

  /** `swapTokens`: the two sides change places, amounts included. */
  function Swapped(p: Pair): (r: Pair)
    ensures r.fromToken == p.toToken && r.toToken == p.fromToken
    ensures r.fromAmount == p.toAmount && r.toAmount == p.fromAmount
  {
    Pair(p.toToken, p.fromToken, p.toAmount, p.fromAmount)
  }

  /** Swapping twice restores the widget. */
  lemma SwapInvolution(p: Pair)
    ensures Swapped(Swapped(p)) == p
  {
  }

  /** What the network, the wallet and the token contract answer during one exchange. */
  datatype ExchangeEnv = ExchangeEnv(hasWallet: bool, accounts: Read<nat>, chainId: Read<nat>, tx: TxOutcome)

  /** What an exchange leaves: the error, what it sent, whether the boxes are cleared, the success notice. */
  datatype Outcome = Outcome(error: Option<string>, sent: seq<SwapTx>, cleared: bool, notice: Option<string>)

  /** `error.message || "Failed to complete exchange"`. */
  function Failure(message: string): (r: Option<string>)
    ensures r.Some? && r.value != ""
    ensures message != "" ==> r == Some(message)
  {
    Some(if message == "" then "Failed to complete exchange" else message)
  }

  /**
   * The transaction half of `handleExchange` once the pair is known:
   * ETH to GEEK buys with the ETH amount in wei, GEEK to ETH sells the
   * GEEK amount in whole tokens; `parse(text, decimals)` is the units
   * conversion, which may throw.
   */
  function SendFlow(pair: Pair, env: ExchangeEnv, parse: (string, nat) -> Result<nat>): Outcome {
    if pair.fromToken.symbol == "ETH" && pair.toToken.symbol == "GEEK" then
      match parse(pair.fromAmount, 18)
      case Err(e) => Outcome(Failure(e), [], false, None)
      case Ok(v) =>
        if env.tx.Confirmed? then Outcome(None, [BuyWithEth(v)], true, Some("Successfully swapped ETH for GEEK tokens!"))
        else Outcome(Failure(env.tx.error), [BuyWithEth(v)], false, None)
    else if pair.fromToken.symbol == "GEEK" && pair.toToken.symbol == "ETH" then
      match parse(pair.fromAmount, 0)
      case Err(e) => Outcome(Failure(e), [], false, None)
      case Ok(v) =>
        if env.tx.Confirmed? then Outcome(None, [SellTokens(v)], true, Some("Successfully swapped GEEK tokens for ETH!"))
        else Outcome(Failure(env.tx.error), [SellTokens(v)], false, None)
    else Outcome(Some("Invalid token pair for swapping"), [], false, None)
  }

  /** `handleExchange` as one value, for non-empty amounts: wallet, account, network, then the pair. */
  function ExchangeFlow(pair: Pair, env: ExchangeEnv, parse: (string, nat) -> Result<nat>): Outcome {
    if !env.hasWallet then Outcome(Some("Please install MetaMask"), [], false, None)
    else match env.accounts
      case ReadFailed(e) => Outcome(Failure(e), [], false, None)
      case Value(n) =>
        if n == 0 then Outcome(Some("Please connect your wallet first"), [], false, None)
        else match env.chainId
          case ReadFailed(e) => Outcome(Failure(e), [], false, None)
          case Value(id) =>
            if id != SepoliaChainId then Outcome(Some("Please connect to Sepolia testnet"), [], false, None)
            else SendFlow(pair, env, parse)
  }

  /**
   * A transaction is sent only with a wallet, an account and Sepolia, and
   * only the one that fits the pair: a purchase for ETH to GEEK, a sale for
   * GEEK to ETH.
   */
  lemma DispatchByPair(pair: Pair, env: ExchangeEnv, parse: (string, nat) -> Result<nat>)
    ensures var o := ExchangeFlow(pair, env, parse);
      o.sent != [] ==>
        && env.hasWallet && env.accounts.Value? && env.accounts.value > 0 && env.chainId == Value(SepoliaChainId)
        && |o.sent| == 1
        && (o.sent[0].BuyWithEth? <==> pair.fromToken.symbol == "ETH" && pair.toToken.symbol == "GEEK")
        && (o.sent[0].SellTokens? <==> pair.fromToken.symbol == "GEEK" && pair.toToken.symbol == "ETH")
  {
  }

  /** A pair that is neither ETH to GEEK nor GEEK to ETH, the same token twice included, sends nothing. */
  lemma OtherPairsRejected(pair: Pair, env: ExchangeEnv, parse: (string, nat) -> Result<nat>)
    requires !(pair.fromToken.symbol == "ETH" && pair.toToken.symbol == "GEEK")
    requires !(pair.fromToken.symbol == "GEEK" && pair.toToken.symbol == "ETH")
    ensures ExchangeFlow(pair, env, parse).sent == []
    ensures env.hasWallet && env.accounts.Value? && env.accounts.value > 0 && env.chainId == Value(SepoliaChainId) ==>
      ExchangeFlow(pair, env, parse).error == Some("Invalid token pair for swapping")
  {
  }

  /** The boxes are cleared exactly after a confirmed transaction, which leaves no error. */
  lemma ClearedOnlyAfterConfirmation(pair: Pair, env: ExchangeEnv, parse: (string, nat) -> Result<nat>)
    ensures var o := ExchangeFlow(pair, env, parse);
      (o.cleared <==> o.sent != [] && env.tx.Confirmed?) && (o.cleared <==> o.error.None?)
  {
  }

  class SwapWidget {
    var fromToken: Token
    var toToken: Token
    var fromAmount: string
    var toAmount: string
    var isLoading: bool
    var exchangeRate: nat
    var error: Option<string>
    /** Every transaction asked of the wallet, in order. */
    var sent: seq<SwapTx>
    /** Success notices shown. */
    var notices: seq<string>

    constructor ()
      ensures fromToken == Eth && toToken == Geek && fromAmount == "" && toAmount == ""
      ensures !isLoading && exchangeRate == 1000 && error.None? && sent == [] && notices == []
    {
      fromToken, toToken, fromAmount, toAmount := Eth, Geek, "", "";
      isLoading, exchangeRate, error := false, 1000, None;
      sent, notices := [], [];
    }

    function Current(): Pair
      reads this
    {
      Pair(fromToken, toToken, fromAmount, toAmount)
    }

    method SwapTokens()
      modifies this`fromToken, this`toToken, this`fromAmount, this`toAmount
      ensures Current() == Swapped(old(Current()))
    {
      fromToken, toToken := toToken, fromToken;
      fromAmount, toAmount := toAmount, fromAmount;
    }

    /**
     * Typing in the "from" box: clearing it clears the other box, otherwise
     * the other box shows `convert(value, from, to)`, the rate conversion.
     */
    method HandleFromAmountChange(value: string, convert: (string, Token, Token) -> string)
      modifies this`fromAmount, this`toAmount
      ensures fromAmount == value
      ensures toAmount == if value == "" then "" else convert(value, fromToken, toToken)
    {
      fromAmount := value;
      if value == "" {
        toAmount := "";
        return;
      }
      toAmount := convert(value, fromToken, toToken);
    }

    /** Typing in the "to" box, converting the other way. */
    method HandleToAmountChange(value: string, convert: (string, Token, Token) -> string)
      modifies this`fromAmount, this`toAmount
      ensures toAmount == value
      ensures fromAmount == if value == "" then "" else convert(value, toToken, fromToken)
    {
      toAmount := value;
      if value == "" {
        fromAmount := "";
        return;
      }
      fromAmount := convert(value, toToken, fromToken);
    }

    /**
     * The rate effect: with a wallet on Sepolia the contract's rate replaces
     * the displayed one; otherwise the matching error is set.
     */
    method RefreshRate(hasWallet: bool, chainId: Read<nat>, rate: Read<nat>)
      modifies this`exchangeRate, this`error
      ensures !hasWallet ==> error == Some("Please install MetaMask") && exchangeRate == old(exchangeRate)
      ensures hasWallet && chainId.ReadFailed? ==> error == Some("Failed to connect to blockchain") && exchangeRate == old(exchangeRate)
      ensures hasWallet && chainId.Value? && chainId.value != SepoliaChainId ==>
        error == Some("Please connect to Sepolia testnet") && exchangeRate == old(exchangeRate)
      ensures hasWallet && chainId == Value(SepoliaChainId) ==>
        if rate.Value? then exchangeRate == rate.value && error == old(error)
        else exchangeRate == old(exchangeRate) && error == Some("Failed to fetch exchange rate from contract")
    {
      if !hasWallet {
        error := Some("Please install MetaMask");
        return;
      }
      if chainId.ReadFailed? {
        error := Some("Failed to connect to blockchain");
        return;
      }
      if chainId.value != SepoliaChainId {
        error := Some("Please connect to Sepolia testnet");
        return;
      }
      if rate.Value? {
        exchangeRate := rate.value;
      } else {
        error := Some("Failed to fetch exchange rate from contract");
      }
    }

    /**
     * `handleExchange`.  Empty amounts only set an error; otherwise the
     * exchange runs with the loading flag up and always ends with it down.
     */
    method HandleExchange(env: ExchangeEnv, parse: (string, nat) -> Result<nat>)
      modifies this`isLoading, this`error, this`sent, this`fromAmount, this`toAmount, this`notices
      ensures old(fromAmount) == "" || old(toAmount) == "" ==>
        && error == Some("Please enter amounts") && isLoading == old(isLoading)
        && sent == old(sent) && fromAmount == old(fromAmount) && toAmount == old(toAmount) && notices == old(notices)
      ensures old(fromAmount) != "" && old(toAmount) != "" ==>
        var o := ExchangeFlow(old(Current()), env, parse);
        && !isLoading
        && error == o.error
        && sent == old(sent) + o.sent
        && (o.cleared ==> fromAmount == "" && toAmount == "")
        && (!o.cleared ==> fromAmount == old(fromAmount) && toAmount == old(toAmount))
        && notices == old(notices) + (if o.notice.Some? then [o.notice.value] else [])
    {
      if fromAmount == "" || toAmount == "" {
        error := Some("Please enter amounts");
        return;
      }
      isLoading := true;
      error := None;
      Exchange(env, parse);
      isLoading := false;
    }

    /** The guarded part of `handleExchange`, between raising and lowering the loading flag. */
    method Exchange(env: ExchangeEnv, parse: (string, nat) -> Result<nat>)
      requires error.None?
      modifies this`error, this`sent, this`fromAmount, this`toAmount, this`notices
      ensures var o := ExchangeFlow(old(Current()), env, parse);
        && error == o.error
        && sent == old(sent) + o.sent
        && (o.cleared ==> fromAmount == "" && toAmount == "")
        && (!o.cleared ==> fromAmount == old(fromAmount) && toAmount == old(toAmount))
        && notices == old(notices) + (if o.notice.Some? then [o.notice.value] else [])
    {
      if !env.hasWallet {
        error := Some("Please install MetaMask");
        return;
      }
      if env.accounts.ReadFailed? {
        error := Failure(env.accounts.error);
        return;
      }
      if env.accounts.value == 0 {
        error := Some("Please connect your wallet first");
        return;
      }
      if env.chainId.ReadFailed? {
        error := Failure(env.chainId.error);
        return;
      }
      if env.chainId.value != SepoliaChainId {
        error := Some("Please connect to Sepolia testnet");
        return;
      }
      var isBuy := fromToken.symbol == "ETH" && toToken.symbol == "GEEK";
      var isSell := fromToken.symbol == "GEEK" && toToken.symbol == "ETH";
      if !isBuy && !isSell {
        error := Some("Invalid token pair for swapping");
        return;
      }
      var amount := parse(fromAmount, if isBuy then 18 else 0);
      if amount.Err? {
        error := Failure(amount.message);
        return;
      }
      sent := sent + [if isBuy then BuyWithEth(amount.value) else SellTokens(amount.value)];
      if !env.tx.Confirmed? {
        error := Failure(env.tx.error);
        return;
      }
      fromAmount := "";
      toAmount := "";
      notices := notices + [if isBuy then "Successfully swapped ETH for GEEK tokens!" else "Successfully swapped GEEK tokens for ETH!"];
    }
  }
}
